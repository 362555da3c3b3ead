/**
 * Validation and the export coordinator of Program.cs: `ValidateData`,
 * `ExportJsonFiles`, `WriteJsonFile` and `WriteErrorFile`. The JSON
 * serialiser is left out: a `Document` stands for its text.
 *
 * `ExportTrace` is the specification of one export run: the writes it
 * attempts, in order, for a given snapshot and a given set of failing
 * locations. The methods are proved to produce exactly that trace, and the
 * lemmas at the end state what the trace guarantees.
 */
module Export {
  import opened Nullable
  import opened Snapshot
  import opened Documents
  import opened Files
  import opened Text
  import Mappers

  const ROSTER_NULL := "Roster data is null"
  const ARTIFACTS_NULL := "Artifacts data is null"
  const VALIDATION_PREFIX := "Validation failed: "

  const ROSTER_FILE := "roster.json"
  const ARTIFACTS_FILE := "artifacts.json"
  const ACCOUNT_FILE := "account.json"
  const METADATA_FILE := "metadata.json"
  const ERROR_FILE := "error.json"

  /** The four documents of a successful export, in the order they are written. */
  const EXPORT_FILES := [ROSTER_FILE, ARTIFACTS_FILE, ACCOUNT_FILE, METADATA_FILE]

  /**
   * What the export reads from outside the program: the clock (`now`, the
   * timestamp of every document written in the run), `ExtractorVersion.Current`
   * and `Path.GetFullPath` of the output directory.
   */
  datatype Environment = Environment(now: string, version: string, fullPath: string)

  // ------------------------------------------------------------ validation

  predicate IsComplete(dump: AccountDump)
  {
    dump.heroes.Some? && dump.artifacts.Some?
  }

  /** The problems `ValidateData` reports, in the order it checks them. */
  function MissingSections(dump: AccountDump): (r: seq<string>)
    ensures |r| <= 2
    ensures r == [] <==> IsComplete(dump)
    ensures ROSTER_NULL in r <==> dump.heroes.None?
    ensures ARTIFACTS_NULL in r <==> dump.artifacts.None?
    ensures |r| == 2 ==> r == [ROSTER_NULL, ARTIFACTS_NULL]
  {
    (if dump.heroes.None? then [ROSTER_NULL] else []) + (if dump.artifacts.None? then [ARTIFACTS_NULL] else [])
  }

  /** The one message of the error file: the prefix, then every missing section. */
  function ValidationMessage(dump: AccountDump): (r: string)
    ensures |r| >= |VALIDATION_PREFIX| && r[..|VALIDATION_PREFIX|] == VALIDATION_PREFIX
    ensures r == VALIDATION_PREFIX <==> IsComplete(dump)
  {
    VALIDATION_PREFIX + Join(", ", MissingSections(dump))
  }

  /** The write `WriteErrorFile` attempts. */
  function ErrorAttempt(faults: map<Location, string>, dir: string, message: string, now: string): (r: WriteAttempt)
    ensures r.target == File(dir, ERROR_FILE) && r.document == ErrorReport(message, now)
  {
    Attempt(faults, dir, ERROR_FILE, ErrorReport(message, now))
  }

  // -------------------------------------------------------------- writing

  /** `WriteJsonFile`: serialise `document` and write it; a failure propagates as an exception. */
  method WriteJsonFile(fs: FileSystem, dir: string, name: string, document: Document) returns (status: Status)
    modifies fs`attempts
    ensures status == StatusAt(fs.faults, File(dir, name))
    ensures fs.attempts == old(fs.attempts) + [Attempt(fs.faults, dir, name, document)]
  {
    status := fs.WriteAllText(dir, name, document);
  }

  /** `WriteErrorFile`: one attempt to write error.json; its failure is swallowed. */
  method WriteErrorFile(fs: FileSystem, dir: string, message: string, now: string)
    modifies fs`attempts
    ensures fs.attempts == old(fs.attempts) + [ErrorAttempt(fs.faults, dir, message, now)]
  {
    var _ := WriteJsonFile(fs, dir, ERROR_FILE, ErrorReport(message, now));
  }

  /** `ValidateData`: collects every missing section, then reports them all in one error file. */
  method ValidateData(fs: FileSystem, dump: AccountDump, dir: string, now: string) returns (valid: bool)
    modifies fs`attempts
    ensures valid <==> IsComplete(dump)
    ensures fs.attempts == old(fs.attempts) +
              (if valid then [] else [ErrorAttempt(fs.faults, dir, ValidationMessage(dump), now)])
  {
    var errors: seq<string> := [];
    if dump.heroes.None? {
      errors := errors + [ROSTER_NULL];
    }
    if dump.artifacts.None? {
      errors := errors + [ARTIFACTS_NULL];
    }
    if |errors| > 0 {
      var message := VALIDATION_PREFIX + Join(", ", errors);
      WriteErrorFile(fs, dir, message, now);
      return false;
    }
    return true;
  }

  // ------------------------------------------------------------ the plan

  datatype Planned = Planned(name: string, document: Document)

  /** The documents of a successful export, mapped from the snapshot, in write order. */
  function ExportPlan(dump: AccountDump, env: Environment): (r: seq<Planned>)
    ensures |r| == |EXPORT_FILES|
    ensures forall k :: 0 <= k < |r| ==> r[k].name == EXPORT_FILES[k]
  {
    [ Planned(ROSTER_FILE, Roster(Mappers.ConvertToRoster(dump))),
      Planned(ARTIFACTS_FILE, Artifacts(Mappers.ConvertToArtifacts(dump))),
      Planned(ACCOUNT_FILE, Account(Mappers.ConvertToAccount(dump))),
      Planned(METADATA_FILE, Metadata(Mappers.CreateMetadata(env.now, env.version, env.fullPath))) ]
  }

  /** Writes the planned documents in order, stopping after the first write that throws. */
  function Perform(faults: map<Location, string>, dir: string, plan: seq<Planned>): seq<WriteAttempt>
  {
    if plan == [] then []
    else
      var attempt := Attempt(faults, dir, plan[0].name, plan[0].document);
      if attempt.status.Threw? then [attempt] else [attempt] + Perform(faults, dir, plan[1..])
  }

  /** The exception a sequence of writes ends with, if any. */
  function Outcome(trace: seq<WriteAttempt>): Status
  {
    if trace != [] && trace[|trace| - 1].status.Threw? then trace[|trace| - 1].status else Done
  }

  /** Every write one call of `ExportJsonFiles` attempts. */
  function ExportTrace(faults: map<Location, string>, dump: AccountDump, dir: string, env: Environment): seq<WriteAttempt>
  {
    if IsComplete(dump) then Perform(faults, dir, ExportPlan(dump, env))
    else [ErrorAttempt(faults, dir, ValidationMessage(dump), env.now)]
  }

  /** How `ExportJsonFiles` ends; a failed validation returns normally. */
  function ExportStatus(faults: map<Location, string>, dump: AccountDump, dir: string, env: Environment): Status
  {
    if IsComplete(dump) then Outcome(Perform(faults, dir, ExportPlan(dump, env))) else Done
  }

  // ---------------------------------------------------------- coordinator

  /** `ExportJsonFiles`: validate, then write roster, artifacts, account and metadata. */
  method ExportJsonFiles(fs: FileSystem, dump: AccountDump, dir: string, env: Environment) returns (status: Status)
    modifies fs`attempts
    ensures fs.attempts == old(fs.attempts) + ExportTrace(fs.faults, dump, dir, env)
    ensures status == ExportStatus(fs.faults, dump, dir, env)
  {
    var valid := ValidateData(fs, dump, dir, env.now);
    if !valid {
      assert fs.attempts == old(fs.attempts) + ExportTrace(fs.faults, dump, dir, env);
      return Done;
    }
    assert fs.attempts == old(fs.attempts);
    status := WriteDocuments(fs, dump, dir, env);
  }

  /**
   * The body of `ExportJsonFiles` after validation: map and write each
   * document in turn; an exception from a write ends the export.
   */
  method WriteDocuments(fs: FileSystem, dump: AccountDump, dir: string, env: Environment) returns (status: Status)
    modifies fs`attempts
    ensures fs.attempts == old(fs.attempts) + Perform(fs.faults, dir, ExportPlan(dump, env))
    ensures status == Outcome(Perform(fs.faults, dir, ExportPlan(dump, env)))
  {
    // `rest` is the part of the plan not yet written; the log so far followed
    // by `Perform` of `rest` is always the whole expected log.
    ghost var expected := old(fs.attempts) + Perform(fs.faults, dir, ExportPlan(dump, env));
    ghost var rest := ExportPlan(dump, env);

    var roster := Mappers.ConvertToRoster(dump);
    PerformNext(fs.faults, dir, rest, fs.attempts, expected, ROSTER_FILE, Roster(roster));
    status := WriteJsonFile(fs, dir, ROSTER_FILE, Roster(roster));
    if status.Threw? {
      return;
    }
    rest := rest[1..];
    var artifacts := Mappers.ConvertToArtifacts(dump);
    PerformNext(fs.faults, dir, rest, fs.attempts, expected, ARTIFACTS_FILE, Artifacts(artifacts));
    status := WriteJsonFile(fs, dir, ARTIFACTS_FILE, Artifacts(artifacts));
    if status.Threw? {
      return;
    }
    rest := rest[1..];
    var account := Mappers.ConvertToAccount(dump);
    PerformNext(fs.faults, dir, rest, fs.attempts, expected, ACCOUNT_FILE, Account(account));
    status := WriteJsonFile(fs, dir, ACCOUNT_FILE, Account(account));
    if status.Threw? {
      return;
    }
    rest := rest[1..];
    var metadata := Mappers.CreateMetadata(env.now, env.version, env.fullPath);
    PerformNext(fs.faults, dir, rest, fs.attempts, expected, METADATA_FILE, Metadata(metadata));
    status := WriteJsonFile(fs, dir, METADATA_FILE, Metadata(metadata));
  }

  // --------------------------------------------------------------- lemmas

  /**
   * One step of `Perform`: when the writes so far followed by `Perform` of
   * `rest` make up `expected`, writing the first planned document either
   * completes `expected` (it threw, or it was the last) or leaves the rest of
   * the plan to be performed; the outcome is decided by that write or later.
   */
  lemma PerformNext(faults: map<Location, string>, dir: string, rest: seq<Planned>,
                    written: seq<WriteAttempt>, expected: seq<WriteAttempt>, name: string, document: Document)
    requires rest != [] && rest[0] == Planned(name, document)
    requires written + Perform(faults, dir, rest) == expected
    ensures var a := Attempt(faults, dir, name, document);
      && (a.status.Threw? || rest[1..] == [] ==> written + [a] == expected && Outcome(Perform(faults, dir, rest)) == a.status)
      && (a.status.Done? ==> (written + [a]) + Perform(faults, dir, rest[1..]) == expected)
      && (a.status.Done? && rest[1..] != [] ==> Outcome(Perform(faults, dir, rest)) == Outcome(Perform(faults, dir, rest[1..])))
  {
    var a := Attempt(faults, dir, name, document);
    var tail := Perform(faults, dir, rest[1..]);
    if a.status.Threw? {
      assert Perform(faults, dir, rest) == [a];
    } else {
      assert Perform(faults, dir, rest) == [a] + tail;
      assert written + [a] + tail == written + ([a] + tail);
      if rest[1..] == [] {
        assert tail == [];
        assert [a] + tail == [a];
      } else {
        assert tail != [];
        assert ([a] + tail)[|[a] + tail| - 1] == tail[|tail| - 1];
      }
    }
  }

  /**
   * `Perform` writes a prefix of the plan, in plan order, every write but
   * the last one succeeding, and stops early only at a write that threw.
   */
  lemma {:induction false} PerformStopsAtFirstFailure(faults: map<Location, string>, dir: string, plan: seq<Planned>)
    ensures var trace := Perform(faults, dir, plan);
      && |trace| <= |plan|
      && (plan != [] ==> trace != [])
      && (forall i :: 0 <= i < |trace| ==> trace[i] == Attempt(faults, dir, plan[i].name, plan[i].document))
      && (forall i :: 0 <= i < |trace| - 1 ==> trace[i].status.Done?)
      && (|trace| < |plan| ==> trace[|trace| - 1].status.Threw?)
  {
    if plan != [] {
      PerformStopsAtFirstFailure(faults, dir, plan[1..]);
    }
  }

  /** The validation message names every missing section, roster first, and nothing else. */
  lemma ValidationMessageCases(dump: AccountDump)
    ensures dump.heroes.None? && dump.artifacts.None? ==>
              ValidationMessage(dump) == VALIDATION_PREFIX + ROSTER_NULL + ", " + ARTIFACTS_NULL
    ensures dump.heroes.None? && dump.artifacts.Some? ==>
              ValidationMessage(dump) == VALIDATION_PREFIX + ROSTER_NULL
    ensures dump.heroes.Some? && dump.artifacts.None? ==>
              ValidationMessage(dump) == VALIDATION_PREFIX + ARTIFACTS_NULL
  {
    if dump.heroes.None? && dump.artifacts.None? {
      assert MissingSections(dump) == [ROSTER_NULL, ARTIFACTS_NULL];
      assert Join(", ", [ROSTER_NULL, ARTIFACTS_NULL]) == ROSTER_NULL + ", " + Join(", ", [ARTIFACTS_NULL]);
    }
  }

  /** Every missing section is named in the one message, even when both are missing. */
  lemma ValidationMessageNamesEverySection(dump: AccountDump)
    ensures dump.heroes.None? ==> Contains(ValidationMessage(dump), ROSTER_NULL)
    ensures dump.artifacts.None? ==> Contains(ValidationMessage(dump), ARTIFACTS_NULL)
  {
    ValidationMessageCases(dump);
    if dump.heroes.None? && dump.artifacts.None? {
      ContainsSuffix(VALIDATION_PREFIX, ROSTER_NULL);
      ContainsExtended(VALIDATION_PREFIX + ROSTER_NULL, ROSTER_NULL, ", ");
      ContainsExtended(VALIDATION_PREFIX + ROSTER_NULL + ", ", ROSTER_NULL, ARTIFACTS_NULL);
      ContainsSuffix(VALIDATION_PREFIX + ROSTER_NULL + ", ", ARTIFACTS_NULL);
    } else if dump.heroes.None? {
      ContainsSuffix(VALIDATION_PREFIX, ROSTER_NULL);
    } else if dump.artifacts.None? {
      ContainsSuffix(VALIDATION_PREFIX, ARTIFACTS_NULL);
    }
  }

  /** An incomplete snapshot leads to one error-file write and none of the four export documents. */
  lemma IncompleteSnapshotWritesOnlyErrorFile(faults: map<Location, string>, dump: AccountDump, dir: string, env: Environment)
    requires !IsComplete(dump)
    ensures ExportTrace(faults, dump, dir, env) == [ErrorAttempt(faults, dir, ValidationMessage(dump), env.now)]
    ensures forall a :: a in ExportTrace(faults, dump, dir, env) ==> a.target.name !in EXPORT_FILES
    ensures ExportStatus(faults, dump, dir, env) == Done
  {
  }

  /**
   * A complete snapshot leads to writes of roster, artifacts, account and
   * metadata in that order, stopping at the first write that throws, with no
   * error file; the export ends with the exception of that write, if any.
   */
  lemma CompleteSnapshotWritesInOrder(faults: map<Location, string>, dump: AccountDump, dir: string, env: Environment)
    requires IsComplete(dump)
    ensures var trace := ExportTrace(faults, dump, dir, env);
      && 1 <= |trace| <= 4
      && (forall i :: 0 <= i < |trace| ==> trace[i].target == File(dir, EXPORT_FILES[i]))
      && (forall i :: 0 <= i < |trace| - 1 ==> trace[i].status.Done?)
      && (|trace| < 4 ==> trace[|trace| - 1].status.Threw?)
      && ExportStatus(faults, dump, dir, env) == trace[|trace| - 1].status
  {
    PerformStopsAtFirstFailure(faults, dir, ExportPlan(dump, env));
  }

  /**
   * Without failing writes a complete snapshot exports exactly the four
   * documents, each holding the mapped snapshot.
   */
  lemma ExportWithoutFaults(faults: map<Location, string>, dump: AccountDump, dir: string, env: Environment)
    requires IsComplete(dump)
    requires forall name :: name in EXPORT_FILES ==> File(dir, name) !in faults
    ensures ExportStatus(faults, dump, dir, env) == Done
    ensures ExportTrace(faults, dump, dir, env) ==
              [ WriteAttempt(File(dir, ROSTER_FILE), Roster(Mappers.ConvertToRoster(dump)), Done),
                WriteAttempt(File(dir, ARTIFACTS_FILE), Artifacts(Mappers.ConvertToArtifacts(dump)), Done),
                WriteAttempt(File(dir, ACCOUNT_FILE), Account(Mappers.ConvertToAccount(dump)), Done),
                WriteAttempt(File(dir, METADATA_FILE), Metadata(MetadataDocument(env.now, env.version, env.fullPath)), Done) ]
  {
    var plan := ExportPlan(dump, env);
    PerformStopsAtFirstFailure(faults, dir, plan);
  }
  /** A document with its clock reading blanked out. */
  function WithoutTimestamp(document: Document): Document
  {
    match document
    case Metadata(m) => Metadata(m.(extractionTimestamp := ""))
    case ErrorReport(error, _) => ErrorReport(error, "")
    case _ => document
  }

  function AttemptWithoutTimestamp(attempt: WriteAttempt): WriteAttempt
  {
    attempt.(document := WithoutTimestamp(attempt.document))
  }

  /**
   * Exporting the same snapshot at two different times attempts the same
   * writes, with the same outcomes and the same documents except for their
   * timestamps.
   */
  lemma ExportDiffersOnlyInTimestamps(faults: map<Location, string>, dump: AccountDump, dir: string,
                                      env1: Environment, env2: Environment)
    requires env1.version == env2.version && env1.fullPath == env2.fullPath
    ensures Mappers.Select(AttemptWithoutTimestamp, ExportTrace(faults, dump, dir, env1)) ==
            Mappers.Select(AttemptWithoutTimestamp, ExportTrace(faults, dump, dir, env2))
    ensures ExportStatus(faults, dump, dir, env1) == ExportStatus(faults, dump, dir, env2)
  {
    if IsComplete(dump) {
      var p1, p2 := ExportPlan(dump, env1), ExportPlan(dump, env2);
      assert forall k :: 0 <= k < |p1| ==>
        p1[k].name == p2[k].name && WithoutTimestamp(p1[k].document) == WithoutTimestamp(p2[k].document);
      PerformUpToTimestamps(faults, dir, p1, p2);
    }
  }

  /** Two plans that differ only in timestamps are performed alike, up to timestamps. */
  lemma {:induction false} PerformUpToTimestamps(faults: map<Location, string>, dir: string, p1: seq<Planned>, p2: seq<Planned>)
    requires |p1| == |p2|
    requires forall k :: 0 <= k < |p1| ==>
               p1[k].name == p2[k].name && WithoutTimestamp(p1[k].document) == WithoutTimestamp(p2[k].document)
    ensures Mappers.Select(AttemptWithoutTimestamp, Perform(faults, dir, p1)) ==
            Mappers.Select(AttemptWithoutTimestamp, Perform(faults, dir, p2))
    ensures Outcome(Perform(faults, dir, p1)) == Outcome(Perform(faults, dir, p2))
  {
    if p1 != [] {
      var a1 := Attempt(faults, dir, p1[0].name, p1[0].document);
      var a2 := Attempt(faults, dir, p2[0].name, p2[0].document);
      assert AttemptWithoutTimestamp(a1) == AttemptWithoutTimestamp(a2);
      if a1.status.Done? {
        PerformUpToTimestamps(faults, dir, p1[1..], p2[1..]);
        var t1, t2 := Perform(faults, dir, p1[1..]), Perform(faults, dir, p2[1..]);
        assert Perform(faults, dir, p1) == [a1] + t1;
        assert Perform(faults, dir, p2) == [a2] + t2;
        var e1, e2 := Mappers.Select(AttemptWithoutTimestamp, t1), Mappers.Select(AttemptWithoutTimestamp, t2);
        assert |t1| == |t2|;
        assert Mappers.Select(AttemptWithoutTimestamp, [a1] + t1) == [AttemptWithoutTimestamp(a1)] + e1;
        assert Mappers.Select(AttemptWithoutTimestamp, [a2] + t2) == [AttemptWithoutTimestamp(a2)] + e2;
        if t1 != [] {
          assert t1[|t1| - 1].status == e1[|t1| - 1].status == e2[|t2| - 1].status == t2[|t2| - 1].status;
        }
      }
    }
  }

  /** A snapshot with no heroes and no artifacts exports an empty champion list and an empty artifact list. */
  lemma EmptySnapshotExportsEmptyLists(faults: map<Location, string>, dump: AccountDump, dir: string, env: Environment)
    requires dump.heroes == Some([]) && dump.artifacts == Some([])
    requires forall name :: name in EXPORT_FILES ==> File(dir, name) !in faults
    ensures ExportStatus(faults, dump, dir, env) == Done
    ensures |ExportTrace(faults, dump, dir, env)| == 4
    ensures ExportTrace(faults, dump, dir, env)[0].document == Roster(RosterDocument([]))
    ensures ExportTrace(faults, dump, dir, env)[1].document == Artifacts(ArtifactsDocument([]))
  {
    ExportWithoutFaults(faults, dump, dir, env);
  }
}
