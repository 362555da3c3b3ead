/**
 * The output documents. Each record's fields are the JSON keys the
 * serialiser writes (lower camel case), in declaration order, except
 * `ArtifactRecord.artifactSet`, which is written under the key `set`
 * (a reserved word in Dafny).
 */
module Documents {
  import opened Nullable
  import opened Snapshot

  datatype StatsRecord = StatsRecord(
    health: int,
    attack: int,
    defense: int,
    speed: int,
    accuracy: int,
    resistance: int,
    criticalChance: int,
    criticalDamage: int,
    criticalHeal: int)

  datatype SkillRecord = SkillRecord(id: int, typeId: int, level: int)

  datatype ChampionRecord = ChampionRecord(
    championId: int,
    name: string,
    rarity: int,
    role: int,
    fraction: int,
    element: int,
    grade: int,
    level: int,
    experience: int,
    fullExperience: int,
    awakenLevel: int,
    locked: bool,
    inStorage: bool,
    marker: int,
    stats: StatsRecord,
    skills: seq<SkillRecord>,
    masteries: seq<int>,
    artifacts: seq<int>)

  /** roster.json */
  datatype RosterDocument = RosterDocument(champions: seq<ChampionRecord>)

  datatype PrimaryBonusRecord = PrimaryBonusRecord(kind: int, isAbsolute: bool, value: int)

  datatype SecondaryBonusRecord = SecondaryBonusRecord(kind: int, isAbsolute: bool, value: int, enhancement: int, level: int)

  datatype ArtifactRecord = ArtifactRecord(
    artifactId: int,
    artifactSet: int,
    kind: int,
    rank: int,
    rarity: int,
    level: int,
    isActivated: bool,
    isSeen: bool,
    requiredFraction: int,
    sellPrice: int,
    price: int,
    failedUpgrades: int,
    primaryBonus: Option<PrimaryBonusRecord>,  // `None` is written as an explicit JSON null
    secondaryBonuses: seq<SecondaryBonusRecord>)

  /** artifacts.json */
  datatype ArtifactsDocument = ArtifactsDocument(artifacts: seq<ArtifactRecord>)

  /** account.json */
  datatype AccountDocument = AccountDocument(
    arenaLeague: int,
    shards: map<string, ShardInfo>,
    greatHall: map<Element, map<StatKind, int>>,
    stagePresets: map<int, seq<int>>)

  /** metadata.json */
  datatype MetadataDocument = MetadataDocument(extractionTimestamp: string, extractorVersion: string, exportPath: string)

  /** Every document the program writes; `ErrorReport` is error.json. */
  datatype Document =
    | Roster(roster: RosterDocument)
    | Artifacts(artifacts: ArtifactsDocument)
    | Account(account: AccountDocument)
    | Metadata(metadata: MetadataDocument)
    | ErrorReport(error: string, timestamp: string)
}
