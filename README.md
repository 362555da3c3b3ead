# RaidExtractor export pipeline in Dafny

RaidExtractor reads the state of a Raid: Shadow Legends account from the
running game, takes it as an `AccountDump` snapshot, and exports it as JSON
documents into an output directory. It writes `roster.json`, `artifacts.json`,
`account.json` and `metadata.json`. When something fails, it writes
`error.json` instead of them, or after the ones already written.

This project models the transformation and export logic of
`RaidExtractor/Program.cs`:

- `snapshot.dfy` (module `Snapshot`): the snapshot records. A C# `null` is
  `Option.None` (`nullable.dfy`).
- `documents.dfy` (module `Documents`): the output documents, one record type
  per JSON object.
- `mappers.dfy` (module `Mappers`): `ConvertToRoster`, `ConvertToArtifacts`,
  `ConvertToAccount` and `CreateMetadata` as pure functions. The roster and
  artifact mappers have inverses (`HeroOf`, `ArtifactOf`). Their round-trip
  lemmas show that these two mappings only rename and nest fields, apart from
  turning null nested lists into empty ones. `ConvertToAccount` and
  `CreateMetadata` only pass values through, and their contracts say which.
- `filesystem.dfy` (module `Files`): the file system as a class. Its field
  `attempts` logs every write attempt, whether it failed or not. Its constant
  `faults` says which writes and directory creations throw, and with which
  exception message.
- `export.dfy` (module `Export`): `ValidateData`, `WriteJsonFile`,
  `WriteErrorFile` and `ExportJsonFiles` as methods that append to that log.
  `WriteJsonFile` and `WriteErrorFile` are proved to append exactly one
  attempt (`Attempt`, `ErrorAttempt`). `ValidateData` is proved to append the
  validation error attempt exactly when a section is missing.
  `ExportJsonFiles` is proved against `ExportTrace`, the function giving
  every write one export attempts.
- `cli.dfy` (module `Cli`): the decisions of `RunWithOptions` as a method,
  proved against the function `Run`. This covers version, usage and scan
  modes, directory creation, the extractor's three outcomes, and the
  `catch` block with its message normalisation. The `try` block is its own
  method, `TryScan`, proved against the function `TryBlock`.
- `text.dfy` (module `Text`): ordinal `string.Contains` and `string.Join`.

The model reproduces one behaviour of the source as it is. When validation
fails, `ExportJsonFiles` writes `error.json` and returns normally, so
`RunWithOptions` still reports success (`Cli.IncompleteSnapshotReportsSuccess`).

Behaviours of the code worth knowing:
- The validator writes `error.json` itself; it is not a pure inspection.
- Its messages are "Roster data is null" and "Artifacts data is null", joined
  after "Validation failed: ".
- A failed validation does not make the run fail.
- A write is not atomic. A failed write is logged as an attempt that threw.

## Model

| member | source | states |
|---|---|---|
| `Text.Contains` | RaidExtractor/Program.cs:146 | the result is true exactly when the pattern occurs at some index of the message (ordinal comparison) |
| `Text.Join` | RaidExtractor/Program.cs:216 | joining no parts gives the empty string, one part gives that part, and two parts give the first, the separator and the second |
| `Mappers.Select` | RaidExtractor/Program.cs:250-286 | a LINQ projection keeps the length, and its i-th result is the projection of the i-th input |
| `Mappers.ConvertToRoster` | RaidExtractor/Program.cs:248-289 | a null hero list gives no champions; otherwise there is one champion per hero, in order, each the hero's record, with `championId` = hero `Id` |
| `Mappers.ConvertHero` | RaidExtractor/Program.cs:250-286 | `championId` is the hero's `Id`; the champion has as many skills as its hero, in order, each `{id, typeId, level}`, or none when they are null; masteries and artifact ids are copied, or empty when null |
| `Mappers.ChampionRoundTrip` | RaidExtractor/Program.cs:250-286 | reading a champion record back gives its hero with null nested lists made empty, so every attribute and stat survives the renaming and nesting |
| `Mappers.ConvertHeroInjective` | RaidExtractor/Program.cs:250-286 | two heroes give the same record exactly when they differ at most in a null versus an empty nested list |
| `Mappers.RosterRoundTrip` | RaidExtractor/Program.cs:248-289 | the roster read back equals the hero list with defaults, element by element and in order |
| `Mappers.ConvertToArtifacts` | RaidExtractor/Program.cs:291-324 | a null list gives no records; otherwise there is one record per artifact, in order, each the artifact's record, with `artifactId` = `Id` |
| `Mappers.ConvertArtifact` | RaidExtractor/Program.cs:293-321 | `artifactId` = `Id` and `set` = `SetKind`; `primaryBonus` is an explicit null exactly when the artifact has no primary bonus, and otherwise copies kind, isAbsolute and value; there are as many secondary bonuses as the source has, or none when null |
| `Mappers.ArtifactRoundTrip` | RaidExtractor/Program.cs:293-321 | reading an artifact record back gives the artifact with a null secondary-bonus list made empty |
| `Mappers.ArtifactsRoundTrip` | RaidExtractor/Program.cs:291-324 | the artifact list read back equals the source list with defaults, in order |
| `Mappers.ConvertToAccount` | RaidExtractor/Program.cs:326-335 | `arenaLeague` is passed through; each of shards, greatHall and stagePresets is the source map, or the empty map when it is null |
| `Mappers.AccountSectionsEmptyOnlyWhenAbsent` | RaidExtractor/Program.cs:331-333 | an account section is empty exactly when the source section is null or empty |
| `Mappers.CreateMetadata` | RaidExtractor/Program.cs:337-345 | the metadata holds the clock reading, the extractor version and the full output path |
| `Files.FileSystem.WriteAllText` | RaidExtractor/Program.cs:228 | a write throws exactly at a faulted location, and it is appended to the write log either way |
| `Files.FileSystem.Exists` | RaidExtractor/Program.cs:116 | a directory exists exactly when it is in the directory set |
| `Files.FileSystem.CreateDirectory` | RaidExtractor/Program.cs:118 | creation throws at a faulted location; otherwise the directory is added |
| `Export.MissingSections` | RaidExtractor/Program.cs:202-212 | the error list has at most two entries; it is empty exactly when heroes and artifacts are both present; it names the roster exactly when heroes are null, the artifacts exactly when artifacts are null, and the roster first when both are missing |
| `Export.ValidationMessage` | RaidExtractor/Program.cs:214-216 | the message always starts with "Validation failed: ", and it is nothing more than that prefix exactly when no section is missing |
| `Export.ValidateData` | RaidExtractor/Program.cs:200-223 | returns true exactly when heroes and artifacts are both non-null; when false, it has attempted exactly one write, of error.json with the validation message |
| `Export.ValidationMessageCases` | RaidExtractor/Program.cs:214-216 | the message is "Validation failed: " followed by the missing sections, roster first, separated by ", " |
| `Export.ValidationMessageNamesEverySection` | RaidExtractor/Program.cs:204-216 | every missing section is named in the one message, even when both are missing |
| `Export.WriteJsonFile` | RaidExtractor/Program.cs:225-229 | one write attempt of the document; its exception, if any, propagates |
| `Export.WriteErrorFile` | RaidExtractor/Program.cs:231-246 | exactly one error.json write attempt with the message and timestamp; its failure is swallowed |
| `Export.ExportPlan` | RaidExtractor/Program.cs:181-195 | the documents are roster, artifacts, account and metadata, in that order |
| `Export.ExportJsonFiles` | RaidExtractor/Program.cs:174-198 | the writes it attempts are exactly `ExportTrace`, and it ends as `ExportStatus` says |
| `Export.WriteDocuments` | RaidExtractor/Program.cs:181-195 | after validation, the writes attempted are the plan performed in order up to the first write that throws, and the export ends with that write's exception, if any |
| `Export.PerformStopsAtFirstFailure` | RaidExtractor/Program.cs:181-195 | the planned documents are written in plan order; every write before the last one succeeded; the run stops early only at a write that threw |
| `Export.IncompleteSnapshotWritesOnlyErrorFile` | RaidExtractor/Program.cs:176-179 | a snapshot missing heroes or artifacts leads to one error.json write, none of the four documents, and a normal return |
| `Export.CompleteSnapshotWritesInOrder` | RaidExtractor/Program.cs:181-197 | a complete snapshot leads to writes of roster, artifacts, account and metadata in that order, cut off at the first write that throws, and the export ends with that write's exception |
| `Export.ExportWithoutFaults` | RaidExtractor/Program.cs:181-197 | with no failing write, exactly the four mapped documents are written, successfully, and no error file |
| `Export.ExportDiffersOnlyInTimestamps` | RaidExtractor/Program.cs:193-195 | exporting the same snapshot at two times gives the same writes, outcomes and documents except their timestamps |
| `Export.EmptySnapshotExportsEmptyLists` | RaidExtractor/Program.cs:250-323 | empty hero and artifact lists export as `{champions: []}` and `{artifacts: []}` |
| `Cli.Count` | RaidExtractor/Program.cs:163-164 | the summary count is the list's length, or 0 when the list is null |
| `Cli.OutputDirectory` | RaidExtractor/Program.cs:110 | the output directory is the `--output` value when one is given, and "./export" otherwise |
| `Cli.TryBlock` | RaidExtractor/Program.cs:114-142 | every write of the `try` block goes to a file inside the output directory |
| `Cli.TryScan` | RaidExtractor/Program.cs:114-142 | the outcome and the writes are those of `TryBlock`; the output directory is created unless its creation throws |
| `Cli.TryBlockErrorFile` | RaidExtractor/Program.cs:114-142 | the `try` block writes error.json only as its last write, and only when it ends normally |
| `Cli.Caught` | RaidExtractor/Program.cs:144-155 | a caught exception ends the run as a failure reporting the exception's message after normalisation, which never contains "Raid needs to be running"; the writes so far are kept, and they are followed by exactly one error.json write attempt with that message and the timestamp, whose status is set by the faults |
| `Cli.Run` | RaidExtractor/Program.cs:85-156 | only the scan mode writes anything, and every write goes to a file inside the output directory |
| `Cli.NormaliseError` | RaidExtractor/Program.cs:146-148 | a message containing "Raid needs to be running" becomes "RAID client not detected"; any other is kept; the result never contains that detail |
| `Cli.RunWithOptions` | RaidExtractor/Program.cs:85-156 | the report and the writes are those of `Run`, that is, of the `try` block followed by the `catch` block when it raised; the output directory is created in scan mode unless its creation throws |
| `Cli.VersionAndUsageWriteNothing` | RaidExtractor/Program.cs:87-108 | `--version` takes precedence over `--scan`; the version and usage modes write nothing |
| `Cli.NoDumpWritesOnlyErrorFile` | RaidExtractor/Program.cs:128-134 | a null dump leads to "RAID client not detected" in error.json and no export write |
| `Cli.ExtractorFailureIsNormalised` | RaidExtractor/Program.cs:144-155 | an extractor exception is reported, and written to error.json, with its normalised message |
| `Cli.FailedRunsReportThroughErrorFile` | RaidExtractor/Program.cs:144-155 | a failed run never shows the "not running" detail, and its last write is error.json with the reported message |
| `Cli.IncompleteSnapshotReportsSuccess` | RaidExtractor/Program.cs:139-142 | a snapshot that fails validation is still reported as a success, after the validation error file is written |
| `Cli.CompleteRunExportsEverything` | RaidExtractor/Program.cs:139-142 | with no failing write, a complete snapshot gives four successful writes in order and a success whose counts equal the exported record counts |
| `Cli.WriteFailureAbortsExport` | RaidExtractor/Program.cs:139-155 | a throwing write ends the export; only error.json follows it, carrying the normalised exception message |
| `Cli.ErrorFileIsLastWrite` | RaidExtractor/Program.cs:128-155 | in every run, error.json is written at most once and nothing is written after it |

## Left out

- JSON serialisation (Newtonsoft.Json settings: camel-case keys, including dictionary keys; indentation; UTF-8). A `Document` value stands for its text, except in the two ways listed next.
- `Mappers.ConvertToAccount`: its maps have no order, but the source's `Dictionary` enumeration order fixes the order in which account.json lists the keys. The model does not capture that order.
- `Mappers.ConvertToAccount`: camel-casing dictionary keys (`ProcessDictionaryKeys`, RaidExtractor/Program.cs:24) can turn two distinct shard keys, such as "Mystery" and "mystery", into the same JSON key. The model's map keeps both keys apart.
- Console output and the log file (`Log`, `InitializeLogging`, `LogExtractionSummary`). The run's `Report` stands for what is printed, including the summary counts. Failures of the log file are swallowed in the source.
- `Extractor` and `GetDump` are not part of this model: the run takes their outcome as a parameter (a dump, null, or an exception message).
- The clock, `ExtractorVersion.Current` and `Path.GetFullPath` are opaque inputs (`Export.Environment`). Every clock reading in one run uses the same value.
- `Path.Combine`: a file is named by its directory and file name, not by a combined path string.
- Argument parsing by the CommandLine library, `HandleParseErrors` and `Main`. The run starts from parsed `Options`. The process exit code is always 0 and has nothing to model.
- RaidExtractor.Core record types are not part of this model. Their fields are those Program.cs reads, and enumerations and numbers are plain integers. `ShardInfo` is a stand-in that is passed through unchanged.
- Exceptions from the mappers or the serialiser (for example a null element inside a hero list) are not modelled. Only writes, directory creation and the extractor can throw.
- `Files.FileSystem.WriteAllText`: whether a write throws depends only on the fault map, not on whether its directory exists. When creating the output directory throws, the model may log the following error.json write as successful. In the source, that write throws, and `WriteErrorFile` swallows the exception.
- A write that throws may leave a partial file in the source. The model logs only the failed attempt, not the file contents.
