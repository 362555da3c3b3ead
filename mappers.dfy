/**
 * The entity mappers of Program.cs: `ConvertToRoster`, `ConvertToArtifacts`
 * and `ConvertToAccount` are LINQ `Select` projections with `??` defaults;
 * `CreateMetadata` reads the clock and the file system, which are given to it
 * here as opaque values.
 *
 * Each record mapper has an inverse that rebuilds the snapshot record with
 * its null nested collections replaced by empty ones; the round-trip lemmas
 * show that the export renames and nests fields but loses nothing else.
 */
module Mappers {
  import opened Nullable
  import opened Snapshot
  import opened Documents

  /** LINQ `Select`: an order-preserving projection. */
  function Select<A, B>(f: A -> B, s: seq<A>): (r: seq<B>)
    ensures |r| == |s|
    ensures forall i :: 0 <= i < |s| ==> r[i] == f(s[i])
  {
    if s == [] then [] else [f(s[0])] + Select(f, s[1..])
  }

  // ---------------------------------------------------------------- roster

  function ConvertSkill(skill: Skill): SkillRecord
  {
    SkillRecord(skill.id, skill.typeId, skill.level)
  }

  /**
   * One champion record: the hero's attributes under their JSON names, the
   * stats nested, and the skill, mastery and artifact-id lists in the hero's
   * order, each empty when the hero's list is null.
   */
  function ConvertHero(hero: Hero): (r: ChampionRecord)
    ensures r.championId == hero.id
    ensures r.masteries == hero.masteries.Coalesce([])
    ensures r.artifacts == hero.artifacts.Coalesce([])
    ensures |r.skills| == |hero.skills.Coalesce([])|
    ensures forall i :: 0 <= i < |r.skills| ==>
              var skill := hero.skills.value[i];
              r.skills[i] == SkillRecord(skill.id, skill.typeId, skill.level)
  {
    ChampionRecord(
      hero.id, hero.name, hero.rarity, hero.role, hero.fraction, hero.element, hero.grade,
      hero.level, hero.experience, hero.fullExperience, hero.awakenLevel,
      hero.locked, hero.inStorage, hero.marker,
      StatsRecord(hero.health, hero.attack, hero.defense, hero.speed, hero.accuracy,
                  hero.resistance, hero.criticalChance, hero.criticalDamage, hero.criticalHeal),
      match hero.skills
      case Some(skills) => Select(ConvertSkill, skills)
      case None => [],
      hero.masteries.Coalesce([]),
      hero.artifacts.Coalesce([]))
  }

  /** `ConvertToRoster`: one champion per hero, in order; a null hero list exports as an empty roster. */
  function ConvertToRoster(dump: AccountDump): (r: RosterDocument)
    ensures dump.heroes.None? ==> r.champions == []
    ensures dump.heroes.Some? ==> |r.champions| == |dump.heroes.value|
    ensures dump.heroes.Some? ==> forall i :: 0 <= i < |r.champions| ==>
              r.champions[i] == ConvertHero(dump.heroes.value[i]) && r.champions[i].championId == dump.heroes.value[i].id
  {
    RosterDocument(Select(ConvertHero, dump.heroes.Coalesce([])))
  }

  // ------------------------------------------------------------- artifacts

  function ConvertPrimaryBonus(bonus: PrimaryBonus): PrimaryBonusRecord
  {
    PrimaryBonusRecord(bonus.kind, bonus.isAbsolute, bonus.value)
  }

  function ConvertSecondaryBonus(bonus: SecondaryBonus): SecondaryBonusRecord
  {
    SecondaryBonusRecord(bonus.kind, bonus.isAbsolute, bonus.value, bonus.enhancement, bonus.level)
  }

  /**
   * One artifact record: `artifactId` and `set` from the artifact's id and set
   * kind, the primary bonus copied or an explicit null, and one record per
   * secondary bonus (none when the list is null).
   */
  function ConvertArtifact(artifact: Artifact): (r: ArtifactRecord)
    ensures r.artifactId == artifact.id && r.artifactSet == artifact.setKind
    ensures r.primaryBonus.None? <==> artifact.primaryBonus.None?
    ensures artifact.primaryBonus.Some? ==>
              var b := artifact.primaryBonus.value;
              r.primaryBonus == Some(PrimaryBonusRecord(b.kind, b.isAbsolute, b.value))
    ensures |r.secondaryBonuses| == |artifact.secondaryBonuses.Coalesce([])|
  {
    ArtifactRecord(
      artifact.id, artifact.setKind, artifact.kind, artifact.rank, artifact.rarity, artifact.level,
      artifact.isActivated, artifact.isSeen, artifact.requiredFraction, artifact.sellPrice,
      artifact.price, artifact.failedUpgrades,
      match artifact.primaryBonus
      case Some(bonus) => Some(ConvertPrimaryBonus(bonus))
      case None => None,
      match artifact.secondaryBonuses
      case Some(bonuses) => Select(ConvertSecondaryBonus, bonuses)
      case None => [])
  }

  /** `ConvertToArtifacts`: one record per artifact, in order; a null artifact list exports as an empty list. */
  function ConvertToArtifacts(dump: AccountDump): (r: ArtifactsDocument)
    ensures dump.artifacts.None? ==> r.artifacts == []
    ensures dump.artifacts.Some? ==> |r.artifacts| == |dump.artifacts.value|
    ensures dump.artifacts.Some? ==> forall i :: 0 <= i < |r.artifacts| ==>
              r.artifacts[i] == ConvertArtifact(dump.artifacts.value[i]) && r.artifacts[i].artifactId == dump.artifacts.value[i].id
  {
    ArtifactsDocument(Select(ConvertArtifact, dump.artifacts.Coalesce([])))
  }

  // --------------------------------------------------------------- account

  /** `ConvertToAccount`: every absent map becomes an empty one. */
  function ConvertToAccount(dump: AccountDump): (r: AccountDocument)
    ensures r.arenaLeague == dump.arenaLeague
    ensures r.shards == (if dump.shards.Some? then dump.shards.value else map[])
    ensures r.greatHall == (if dump.greatHall.Some? then dump.greatHall.value else map[])
    ensures r.stagePresets == (if dump.stagePresets.Some? then dump.stagePresets.value else map[])
  {
    AccountDocument(
      dump.arenaLeague,
      dump.shards.Coalesce(map[]),
      dump.greatHall.Coalesce(map[]),
      dump.stagePresets.Coalesce(map[]))
  }

  // -------------------------------------------------------------- metadata

  /**
   * `CreateMetadata`: `now` is the clock reading, `version` the extractor's
   * version string and `fullPath` the absolute form of the output path.
   */
  function CreateMetadata(now: string, version: string, fullPath: string): (r: MetadataDocument)
    ensures r.extractionTimestamp == now && r.extractorVersion == version && r.exportPath == fullPath
  {
    MetadataDocument(now, version, fullPath)
  }

  // ------------------------------------------------------- inverse mappings

  /** The hero as the export sees it: null nested lists read as empty. */
  function WithDefaults(hero: Hero): Hero
  {
    hero.(skills := Some(hero.skills.Coalesce([])),
          masteries := Some(hero.masteries.Coalesce([])),
          artifacts := Some(hero.artifacts.Coalesce([])))
  }

  function SkillOf(record: SkillRecord): Skill
  {
    Skill(record.id, record.typeId, record.level)
  }

  /** Reads a champion record back as a snapshot hero. */
  function HeroOf(c: ChampionRecord): Hero
  {
    Hero(
      c.championId, c.name, c.rarity, c.role, c.fraction, c.element, c.grade,
      c.level, c.experience, c.fullExperience, c.awakenLevel, c.locked, c.inStorage, c.marker,
      c.stats.health, c.stats.attack, c.stats.defense, c.stats.speed, c.stats.accuracy,
      c.stats.resistance, c.stats.criticalChance, c.stats.criticalDamage, c.stats.criticalHeal,
      Some(Select(SkillOf, c.skills)), Some(c.masteries), Some(c.artifacts))
  }

  function ArtifactWithDefaults(artifact: Artifact): Artifact
  {
    artifact.(secondaryBonuses := Some(artifact.secondaryBonuses.Coalesce([])))
  }

  function SecondaryBonusOf(record: SecondaryBonusRecord): SecondaryBonus
  {
    SecondaryBonus(record.kind, record.isAbsolute, record.value, record.enhancement, record.level)
  }

  /** Reads an artifact record back as a snapshot artifact. */
  function ArtifactOf(a: ArtifactRecord): Artifact
  {
    Artifact(
      a.artifactId, a.artifactSet, a.kind, a.rank, a.rarity, a.level, a.isActivated, a.isSeen,
      a.requiredFraction, a.sellPrice, a.price, a.failedUpgrades,
      match a.primaryBonus
      case Some(b) => Some(PrimaryBonus(b.kind, b.isAbsolute, b.value))
      case None => None,
      Some(Select(SecondaryBonusOf, a.secondaryBonuses)))
  }

  // ----------------------------------------------------------------- lemmas

  /** Projecting with `f` and then with a left inverse `g` of `f` gives back the input. */
  lemma SelectLeftInverse<A, B>(f: A -> B, g: B -> A, s: seq<A>)
    requires forall x :: g(f(x)) == x
    ensures Select(g, Select(f, s)) == s
  {
  }

  /**
   * A champion record keeps every attribute of its hero under the renamed
   * keys, and its skill, mastery and artifact lists have the hero's entries
   * in the hero's order (none when the hero's list is null).
   */
  lemma ChampionRoundTrip(hero: Hero)
    ensures HeroOf(ConvertHero(hero)) == WithDefaults(hero)
  {
    var skills := hero.skills.Coalesce([]);
    SelectLeftInverse(ConvertSkill, SkillOf, skills);
  }

  /** Two heroes export to the same record exactly when they differ at most in null-vs-empty lists. */
  lemma ConvertHeroInjective(h1: Hero, h2: Hero)
    ensures ConvertHero(h1) == ConvertHero(h2) <==> WithDefaults(h1) == WithDefaults(h2)
  {
    ChampionRoundTrip(h1);
    ChampionRoundTrip(h2);
    if WithDefaults(h1) == WithDefaults(h2) {
      assert h1.skills.Coalesce([]) == h2.skills.Coalesce([]);
    }
  }

  /** The roster holds one record per hero, in order, each reading back as that hero. */
  lemma RosterRoundTrip(dump: AccountDump)
    ensures Select(HeroOf, ConvertToRoster(dump).champions) == Select(WithDefaults, dump.heroes.Coalesce([]))
  {
    var heroes := dump.heroes.Coalesce([]);
    var back := Select(HeroOf, ConvertToRoster(dump).champions);
    forall i | 0 <= i < |heroes| ensures back[i] == WithDefaults(heroes[i]) {
      ChampionRoundTrip(heroes[i]);
    }
  }

  /** An artifact record keeps every attribute of its artifact; only a null bonus list becomes empty. */
  lemma ArtifactRoundTrip(artifact: Artifact)
    ensures ArtifactOf(ConvertArtifact(artifact)) == ArtifactWithDefaults(artifact)
  {
    SelectLeftInverse(ConvertSecondaryBonus, SecondaryBonusOf, artifact.secondaryBonuses.Coalesce([]));
  }

  /** The artifacts document holds one record per artifact, in order, each reading back as that artifact. */
  lemma ArtifactsRoundTrip(dump: AccountDump)
    ensures Select(ArtifactOf, ConvertToArtifacts(dump).artifacts) == Select(ArtifactWithDefaults, dump.artifacts.Coalesce([]))
  {
    var artifacts := dump.artifacts.Coalesce([]);
    var back := Select(ArtifactOf, ConvertToArtifacts(dump).artifacts);
    forall i | 0 <= i < |artifacts| ensures back[i] == ArtifactWithDefaults(artifacts[i]) {
      ArtifactRoundTrip(artifacts[i]);
    }
  }

  /** The account document is empty in a section exactly when that section is absent or empty. */
  lemma AccountSectionsEmptyOnlyWhenAbsent(dump: AccountDump)
    ensures ConvertToAccount(dump).shards == map[] <==> dump.shards.None? || dump.shards == Some(map[])
    ensures ConvertToAccount(dump).greatHall == map[] <==> dump.greatHall.None? || dump.greatHall == Some(map[])
    ensures ConvertToAccount(dump).stagePresets == map[] <==> dump.stagePresets.None? || dump.stagePresets == Some(map[])
  {
  }
}
