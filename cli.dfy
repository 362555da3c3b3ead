/**
 * The decision logic of `RunWithOptions` in Program.cs: the version, usage
 * and scan modes, the creation of the output directory, the three outcomes
 * of the extractor, and the `try`/`catch` that turns every exception into a
 * normalised message and an error file.
 *
 * Console and log-file output are represented by the `Report` the run ends
 * with. `Run` is the specification of one run; `RunWithOptions` is proved to
 * follow it, and the lemmas state what it guarantees.
 */
module Cli {
  import opened Nullable
  import opened Snapshot
  import opened Documents
  import opened Files
  import opened Text
  import opened Export
  import Mappers

  const DEFAULT_OUTPUT := "./export"
  const NOT_RUNNING_DETAIL := "Raid needs to be running"
  const CLIENT_NOT_DETECTED := "RAID client not detected"

  /** The parsed command line: `--scan`, `--output <dir>`, `--version`. */
  datatype Options = Options(scan: bool, output: Option<string>, version: bool)

  /** What `new Extractor()` followed by `GetDump()` does: yield a dump, yield null, or throw. */
  datatype Extraction = Extracted(dump: AccountDump) | NoDump | ExtractorThrew(message: string)

  /**
   * How a run ends, as shown on the console:
   * `VersionShown` prints "RaidExtractor v<version>"; `UsageShown` the usage
   * text; `ClientNotDetected` "ERROR: RAID client not detected. ..."; `Succeeded`
   * "SUCCESS: Extraction completed. Files exported to <dir>" and a summary
   * with the two counts; `Failed` "ERROR: Extraction failed - <message>" and a
   * summary with zero counts.
   */
  datatype Report =
    | VersionShown(version: string)
    | UsageShown
    | ClientNotDetected
    | Succeeded(outputDirectory: string, champions: nat, artifacts: nat)
    | Failed(message: string)

  datatype RunResult = RunResult(report: Report, writes: seq<WriteAttempt>)

  /** `options.Output ?? "./export"`. */
  function OutputDirectory(options: Options): (r: string)
    ensures options.output.Some? ==> r == options.output.value
    ensures options.output.None? ==> r == DEFAULT_OUTPUT
  {
    options.output.Coalesce(DEFAULT_OUTPUT)
  }

  /** `list?.Count ?? 0`. */
  function Count<T>(list: Option<seq<T>>): (r: nat)
    ensures list.Some? ==> r == |list.value|
    ensures list.None? ==> r == 0
  {
    match list
    case Some(s) => |s|
    case None => 0
  }

  /**
   * The message a caught exception is reported with: any message that
   * mentions the game not running becomes "RAID client not detected".
   */
  function NormaliseError(message: string): (r: string)
    ensures Contains(message, NOT_RUNNING_DETAIL) ==> r == CLIENT_NOT_DETECTED
    ensures !Contains(message, NOT_RUNNING_DETAIL) ==> r == message
    ensures !Contains(r, NOT_RUNNING_DETAIL)
  {
    if Contains(message, NOT_RUNNING_DETAIL) then
      assert !Contains(CLIENT_NOT_DETECTED, NOT_RUNNING_DETAIL) by {
        assert |CLIENT_NOT_DETECTED| == |NOT_RUNNING_DETAIL|;
        assert CLIENT_NOT_DETECTED[..|NOT_RUNNING_DETAIL|][1] != NOT_RUNNING_DETAIL[1];
      }
      CLIENT_NOT_DETECTED
    else
      message
  }

  /** How the `try` block of `RunWithOptions` ends: with a report, or with an exception's message. */
  datatype TryOutcome = Finished(report: Report) | Raised(message: string)

  /**
   * The `try` block: make sure the output directory exists, extract, and
   * export; with the writes it makes before it ends.
   */
  function TryBlock(faults: map<Location, string>, directories: set<string>, dir: string,
                    extraction: Extraction, env: Environment): (r: (TryOutcome, seq<WriteAttempt>))
    ensures forall w | w in r.1 :: w.target.File? && w.target.dir == dir
  {
    if dir !in directories && Dir(dir) in faults then
      (Raised(faults[Dir(dir)]), [])
    else
      match extraction
      case ExtractorThrew(message) =>
        (Raised(message), [])
      case NoDump =>
        (Finished(ClientNotDetected), [ErrorAttempt(faults, dir, CLIENT_NOT_DETECTED, env.now)])
      case Extracted(dump) =>
        PerformStopsAtFirstFailure(faults, dir, ExportPlan(dump, env));
        var trace := ExportTrace(faults, dump, dir, env);
        match ExportStatus(faults, dump, dir, env)
        case Done => (Finished(Succeeded(dir, Count(dump.heroes), Count(dump.artifacts))), trace)
        case Threw(message) => (Raised(message), trace)
  }

  /** The `catch` block: report the normalised message and write it to error.json. */
  function Caught(faults: map<Location, string>, dir: string, message: string, writes: seq<WriteAttempt>, now: string): (r: RunResult)
    ensures r.report == Failed(NormaliseError(message))
    ensures r.writes == writes + [ErrorAttempt(faults, dir, NormaliseError(message), now)]
    ensures r.report.Failed? && !Contains(r.report.message, NOT_RUNNING_DETAIL)
    ensures |r.writes| == |writes| + 1 && r.writes[..|writes|] == writes
    ensures r.writes[|writes|].target == File(dir, ERROR_FILE)
    ensures r.writes[|writes|].document == ErrorReport(r.report.message, now)
  {
    var reported := NormaliseError(message);
    RunResult(Failed(reported), writes + [ErrorAttempt(faults, dir, reported, now)])
  }

  /** One run of the program on `options`, with `directories` existing beforehand. */
  function Run(options: Options, faults: map<Location, string>, directories: set<string>,
               extraction: Extraction, env: Environment): (r: RunResult)
    ensures !Scanning(options) ==> r.writes == []
    ensures forall w | w in r.writes :: w.target.File? && w.target.dir == OutputDirectory(options)
  {
    if options.version then
      RunResult(VersionShown(env.version), [])
    else if !options.scan then
      RunResult(UsageShown, [])
    else
      var dir := OutputDirectory(options);
      var (outcome, writes) := TryBlock(faults, directories, dir, extraction, env);
      match outcome
      case Finished(report) => RunResult(report, writes)
      case Raised(message) => Caught(faults, dir, message, writes, env.now)
  }

  /** The `try` block of `RunWithOptions`. */
  method TryScan(fs: FileSystem, dir: string, extraction: Extraction, env: Environment) returns (outcome: TryOutcome)
    modifies fs
    ensures var (expected, writes) := TryBlock(fs.faults, old(fs.directories), dir, extraction, env);
      outcome == expected && fs.attempts == old(fs.attempts) + writes
    ensures fs.directories == if Dir(dir) !in fs.faults then old(fs.directories) + {dir} else old(fs.directories)
  {
    var present := fs.Exists(dir);
    if !present {
      var created := fs.CreateDirectory(dir);
      if created.Threw? {
        return Raised(created.message);
      }
    }
    match extraction
    case ExtractorThrew(message) =>
      return Raised(message);
    case NoDump =>
      WriteErrorFile(fs, dir, CLIENT_NOT_DETECTED, env.now);
      return Finished(ClientNotDetected);
    case Extracted(dump) =>
      var status := ExportJsonFiles(fs, dump, dir, env);
      if status.Threw? {
        return Raised(status.message);
      }
      return Finished(Succeeded(dir, Count(dump.heroes), Count(dump.artifacts)));
  }

  /** `RunWithOptions`. */
  method RunWithOptions(fs: FileSystem, options: Options, extraction: Extraction, env: Environment)
    returns (report: Report)
    modifies fs
    ensures var result := Run(options, fs.faults, old(fs.directories), extraction, env);
      report == result.report && fs.attempts == old(fs.attempts) + result.writes
    ensures var dir := OutputDirectory(options);
      fs.directories == if Scanning(options) && Dir(dir) !in fs.faults
                        then old(fs.directories) + {dir} else old(fs.directories)
  {
    if options.version {
      return VersionShown(env.version);
    }
    if !options.scan {
      return UsageShown;
    }
    var dir := options.output.Coalesce(DEFAULT_OUTPUT);

    var outcome := TryScan(fs, dir, extraction, env);
    match outcome
    case Finished(r) =>
      return r;
    case Raised(thrown) =>
      var message := NormaliseError(thrown);
      WriteErrorFile(fs, dir, message, env.now);
      return Failed(message);
  }

  // --------------------------------------------------------------- lemmas

  /** `--version` wins over `--scan`; neither the version nor the usage mode writes anything. */
  lemma VersionAndUsageWriteNothing(options: Options, faults: map<Location, string>, directories: set<string>,
                                    extraction: Extraction, env: Environment)
    ensures options.version ==> Run(options, faults, directories, extraction, env) == RunResult(VersionShown(env.version), [])
    ensures !options.version && !options.scan ==> Run(options, faults, directories, extraction, env) == RunResult(UsageShown, [])
  {
  }

  /** The output directory can be used: it exists or its creation does not throw. */
  predicate DirectoryReady(options: Options, faults: map<Location, string>, directories: set<string>)
  {
    OutputDirectory(options) in directories || Dir(OutputDirectory(options)) !in faults
  }

  predicate Scanning(options: Options)
  {
    !options.version && options.scan
  }

  /** No dump: one error file saying the client was not detected, and no export document. */
  lemma NoDumpWritesOnlyErrorFile(options: Options, faults: map<Location, string>, directories: set<string>, env: Environment)
    requires Scanning(options) && DirectoryReady(options, faults, directories)
    ensures var result := Run(options, faults, directories, NoDump, env);
      && result.report == ClientNotDetected
      && result.writes == [WriteAttempt(File(OutputDirectory(options), ERROR_FILE), ErrorReport(CLIENT_NOT_DETECTED, env.now),
                                        StatusAt(faults, File(OutputDirectory(options), ERROR_FILE)))]
  {
  }

  /**
   * An extractor exception that says the game is not running is reported, and
   * written to error.json, as "RAID client not detected"; any other message is
   * reported as it is.
   */
  lemma ExtractorFailureIsNormalised(options: Options, faults: map<Location, string>, directories: set<string>,
                                     message: string, env: Environment)
    requires Scanning(options) && DirectoryReady(options, faults, directories)
    ensures var result := Run(options, faults, directories, ExtractorThrew(message), env);
      var reported := if Contains(message, NOT_RUNNING_DETAIL) then CLIENT_NOT_DETECTED else message;
      && result.report == Failed(reported)
      && result.writes == [ErrorAttempt(faults, OutputDirectory(options), reported, env.now)]
  {
  }

  /**
   * A run that fails never shows the extractor's "not running" detail, and
   * its last write is the error file carrying the reported message.
   */
  lemma FailedRunsReportThroughErrorFile(options: Options, faults: map<Location, string>, directories: set<string>,
                                         extraction: Extraction, env: Environment)
    ensures var result := Run(options, faults, directories, extraction, env);
      result.report.Failed? ==>
        && !Contains(result.report.message, NOT_RUNNING_DETAIL)
        && |result.writes| >= 1
        && result.writes[|result.writes| - 1] ==
             ErrorAttempt(faults, OutputDirectory(options), result.report.message, env.now)
  {
  }

  /**
   * As in the source, a snapshot that fails validation is still reported as
   * a success: the run ends with `Succeeded` although the only file written
   * is the validation error.
   */
  lemma IncompleteSnapshotReportsSuccess(options: Options, faults: map<Location, string>, directories: set<string>,
                                         dump: AccountDump, env: Environment)
    requires Scanning(options) && DirectoryReady(options, faults, directories)
    requires !IsComplete(dump)
    ensures var result := Run(options, faults, directories, Extracted(dump), env);
      && result.report == Succeeded(OutputDirectory(options), Count(dump.heroes), Count(dump.artifacts))
      && result.writes == [ErrorAttempt(faults, OutputDirectory(options), ValidationMessage(dump), env.now)]
  {
  }

  /**
   * A complete snapshot and writes that do not fail: the four documents are
   * written in order, no error file is written, and the summary counts equal
   * the numbers of records exported.
   */
  lemma CompleteRunExportsEverything(options: Options, faults: map<Location, string>, directories: set<string>,
                                     dump: AccountDump, env: Environment)
    requires Scanning(options) && DirectoryReady(options, faults, directories)
    requires IsComplete(dump)
    requires forall name :: name in EXPORT_FILES ==> File(OutputDirectory(options), name) !in faults
    ensures var result := Run(options, faults, directories, Extracted(dump), env);
      && result.report.Succeeded?
      && result.report.champions == |Mappers.ConvertToRoster(dump).champions| == |dump.heroes.value|
      && result.report.artifacts == |Mappers.ConvertToArtifacts(dump).artifacts| == |dump.artifacts.value|
      && |result.writes| == 4
      && (forall i :: 0 <= i < 4 ==>
            result.writes[i].target == File(OutputDirectory(options), EXPORT_FILES[i]) && result.writes[i].status == Done)
  {
    ExportWithoutFaults(faults, dump, OutputDirectory(options), env);
  }

  /**
   * A write that throws during the export ends the run: nothing after it is
   * written except error.json, which carries the normalised exception message.
   */
  lemma WriteFailureAbortsExport(options: Options, faults: map<Location, string>, directories: set<string>,
                                 dump: AccountDump, env: Environment)
    requires Scanning(options) && DirectoryReady(options, faults, directories)
    requires IsComplete(dump)
    requires ExportStatus(faults, dump, OutputDirectory(options), env).Threw?
    ensures var dir := OutputDirectory(options);
      var trace := ExportTrace(faults, dump, dir, env);
      var result := Run(options, faults, directories, Extracted(dump), env);
      var failure := trace[|trace| - 1];
      && failure.status.Threw?
      && failure.target.File? && failure.target.name in EXPORT_FILES
      && result.report == Failed(NormaliseError(failure.status.message))
      && result.writes == trace + [ErrorAttempt(faults, dir, NormaliseError(failure.status.message), env.now)]
  {
    CompleteSnapshotWritesInOrder(faults, dump, OutputDirectory(options), env);
  }

  /**
   * In every run error.json is written at most once, and nothing is written
   * after it: an error file always describes the run's final state.
   */
  lemma ErrorFileIsLastWrite(options: Options, faults: map<Location, string>, directories: set<string>,
                             extraction: Extraction, env: Environment)
    ensures var writes := Run(options, faults, directories, extraction, env).writes;
      forall i :: 0 <= i < |writes| && writes[i].target == File(OutputDirectory(options), ERROR_FILE) ==> i == |writes| - 1
  {
    if Scanning(options) {
      var dir := OutputDirectory(options);
      var (outcome, writes) := TryBlock(faults, directories, dir, extraction, env);
      TryBlockErrorFile(faults, directories, dir, extraction, env);
      if outcome.Raised? {
        var result := Caught(faults, dir, outcome.message, writes, env.now);
        assert forall i :: 0 <= i < |writes| ==> result.writes[i] == writes[i];
      }
    }
  }

  /**
   * The `try` block writes error.json only as its last write, and not at all
   * when it ends with an exception, so the `catch` block's error file is the
   * only one.
   */
  lemma TryBlockErrorFile(faults: map<Location, string>, directories: set<string>, dir: string,
                          extraction: Extraction, env: Environment)
    ensures var (outcome, writes) := TryBlock(faults, directories, dir, extraction, env);
      forall i :: 0 <= i < |writes| && writes[i].target == File(dir, ERROR_FILE) ==>
        outcome.Finished? && i == |writes| - 1
  {
    if extraction.Extracted? && IsComplete(extraction.dump) {
      var trace := ExportTrace(faults, extraction.dump, dir, env);
      CompleteSnapshotWritesInOrder(faults, extraction.dump, dir, env);
      assert ERROR_FILE !in EXPORT_FILES;
      assert forall i :: 0 <= i < |trace| ==> trace[i].target != File(dir, ERROR_FILE);
    }
  }
}
