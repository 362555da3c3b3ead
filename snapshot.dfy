/**
 * The account snapshot (`AccountDump`) produced by the extractor, and the
 * records it holds. The record types are declared in RaidExtractor.Core,
 * which is not part of this model: their fields here are exactly those the
 * export code reads. Enumerations and numeric attributes are carried as
 * `int`, since the export copies them without change.
 */
module Snapshot {
  import opened Nullable

  /** Enumeration values of RaidExtractor.Core.Native, kept as their ordinal. */
  type Element = int
  type StatKind = int

  datatype Skill = Skill(id: int, typeId: int, level: int)

  datatype Hero = Hero(
    id: int,
    name: string,
    rarity: int,
    role: int,
    fraction: int,
    element: int,
    grade: int,
    level: int,
    experience: int,
    fullExperience: int,
    awakenLevel: int,
    locked: bool,
    inStorage: bool,
    marker: int,
    health: int,
    attack: int,
    defense: int,
    speed: int,
    accuracy: int,
    resistance: int,
    criticalChance: int,
    criticalDamage: int,
    criticalHeal: int,
    skills: Option<seq<Skill>>,
    masteries: Option<seq<int>>,
    artifacts: Option<seq<int>>)

  datatype PrimaryBonus = PrimaryBonus(kind: int, isAbsolute: bool, value: int)

  datatype SecondaryBonus = SecondaryBonus(kind: int, isAbsolute: bool, value: int, enhancement: int, level: int)

  datatype Artifact = Artifact(
    id: int,
    setKind: int,
    kind: int,
    rank: int,
    rarity: int,
    level: int,
    isActivated: bool,
    isSeen: bool,
    requiredFraction: int,
    sellPrice: int,
    price: int,
    failedUpgrades: int,
    primaryBonus: Option<PrimaryBonus>,
    secondaryBonuses: Option<seq<SecondaryBonus>>)

  /**
   * Stand-in for RaidExtractor.Core's shard record, whose members are not
   * part of this model; the account export passes it through untouched.
   */
  datatype ShardInfo = ShardInfo(members: seq<int>)

  datatype AccountDump = AccountDump(
    heroes: Option<seq<Hero>>,
    artifacts: Option<seq<Artifact>>,
    arenaLeague: int,
    shards: Option<map<string, ShardInfo>>,
    greatHall: Option<map<Element, map<StatKind, int>>>,
    stagePresets: Option<map<int, seq<int>>>)
}
