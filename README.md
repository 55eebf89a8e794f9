# SmartCode ETL: the Load build task

This project models the Load stage of SmartCode's ETL pipeline, `LoadBuildTask`.
The stage takes the transform stage's output table and writes it to a target
database table through a batch inserter. Around the insert it optionally runs a
pre-command and a post-command, and it hands one `ETLLoad` record to the ETL
repository.

Every collaborator is replaced by a recorded call, an `Effect`:

- creating the SmartSql mapper;
- `ExecuteAsync` for the two commands;
- `BatchInsertFactory.Create`, `AddColumnMapping`, `InsertAsync` and the release of the inserter;
- the repository's `Load`.

What those collaborators answer is an input, `Collaborators`. It holds the task id, the last extract, which calls throw, and the elapsed milliseconds of each timed call.

The model has five modules:

- `EtlModel` (`etl_model.dfy`): parameter keys, build parameters, the run record, mapper options, errors, effects and collaborator answers.
- `ColumnMappingResolver` (`column_mapping.dfy`): how the `ColumnMapping` parameter turns into column mappings (`InitColumnMapping`'s rule, as a function).
- `LoadSpec` (`load_spec.dfy`): the whole run as a pure function, `Run`. It returns the outcome (the record handed over, or the error that ended the run) and the sequence of calls. It also holds `InitCreateSmartSqlMapperOptions` as `MapperOptionsFor`.
- `LoadBuildTask` (`load_build_task.dfy`): the Load build task as it runs, as imperative code.
  - The transform table (`DataTable`), the run record (`LoadEntity`) and the batch inserter (`BatchInsert`) are classes whose fields are assigned step by step.
  - `InitColumnMapping` is a loop over the entries.
  - `Build` is proved to produce exactly the outcome and the calls of `Run`.
- `LoadProperties` (`load_properties.dfy`): what every run promises, proved about `Run`. This covers call order, when each command runs, the shared watermark parameters, mapping order, the insert, failures and the record handed over.

The model follows `LoadBuildTask.cs` on four points that are easy to misread:

- `ConnectionString` is only required once there are rows to load, because it is read when the mapper is built, after the empty-input return.
- A bad column-mapping entry is detected inside the using block. By then the pre-command has already run and the earlier mappings have been added.
- `Size` is the transform table's own row count, not a count reported by the inserter.
- When any step throws, no record is handed to the repository.

## Model

| member | source | states |
|---|---|---|
| ColumnMappingResolver.Resolve | src/SmartCode.ETL/BuildTasks/LoadBuildTask.cs:124-141 | mappings are added for exactly the leading complete entries, in input order, each with its Column, Mapping and optional DataTypeName; resolution fails iff some entry lacks Column or Mapping, with the first such entry's error (Column checked before Mapping) |
| ColumnMappingResolver.ResolveStopsAtFirstIncomplete | src/SmartCode.ETL/BuildTasks/LoadBuildTask.cs:128-140 | any prefix of complete entries that ends at the input's end or at an incomplete entry is the resolution: the foreach's outcome is unique |
| ColumnMappingResolver.DuplicateColumnsPassThrough | src/SmartCode.ETL/BuildTasks/LoadBuildTask.cs:128-139 | two entries for the same column are both added, in order; nothing is deduplicated |
| LoadSpec.Run | src/SmartCode.ETL/BuildTasks/LoadBuildTask.cs:41-117 | the whole Build as a function: the outcome (the record handed over, or the error that ended the run) and the calls made; its properties are the `LoadProperties` rows below |
| LoadSpec.UsingBatch | src/SmartCode.ETL/BuildTasks/LoadBuildTask.cs:89-99 | the using block: create the inserter, add the resolved mappings, insert under the target table name, release the inserter on every exit once it exists; the error is the creation's, the first incomplete entry's or the insert's |
| LoadSpec.RunAfterMapper | src/SmartCode.ETL/BuildTasks/LoadBuildTask.cs:72-116 | from the pre-command on: a throwing pre-command ends the run, then the using block, then the post stage with the record built so far |
| LoadSpec.RunAfterInsert | src/SmartCode.ETL/BuildTasks/LoadBuildTask.cs:100-116 | the post-command, if present and non-empty, then the hand-off of the record with the post-command recorded; a throwing post-command ends the run without a hand-off |
| LoadSpec.Watermark | src/SmartCode.ETL/BuildTasks/LoadBuildTask.cs:60-66 | the query parameters have exactly the keys LastMaxId, LastQueryTime and LastMaxModifyTime, bound to the last extract's values |
| LoadSpec.MapperOptionsFor | src/SmartCode.ETL/BuildTasks/LoadBuildTask.cs:148-164 | options exist iff DbProvider and ConnectionString are given, DbProvider being reported first; they carry the provider, the connection string, the data source name Load and the alias "Load_" followed by the build key |
| LoadSpec.AliasIdentifiesBuild | src/SmartCode.ETL/BuildTasks/LoadBuildTask.cs:152 | two builds share a mapper alias only if they share the build key |
| LoadBuildTask.DataTable.constructor | src/SmartCode.ETL/BuildTasks/LoadBuildTask.cs:46 | the transform table with its name and row count |
| LoadBuildTask.LoadEntity.constructor | src/SmartCode.ETL/BuildTasks/LoadBuildTask.cs:68-71 | a fresh run record names the table; size, time and both commands are unset |
| LoadBuildTask.BatchInsert.constructor | src/SmartCode.ETL/BuildTasks/LoadBuildTask.cs:89 | a new inserter has no mappings and no table |
| LoadBuildTask.BatchInsert.AddColumnMapping | src/SmartCode.ETL/BuildTasks/LoadBuildTask.cs:139 | the mapping is appended after those already added |
| LoadBuildTask.InitColumnMapping | src/SmartCode.ETL/BuildTasks/LoadBuildTask.cs:124-141 | the loop leaves the inserter with exactly the resolved mappings appended, records one AddColumnMapping call per mapping, and fails with the resolution's error |
| LoadBuildTask.UseBatchInsert | src/SmartCode.ETL/BuildTasks/LoadBuildTask.cs:89-99 | the using block makes the calls and raises the error that `LoadSpec.UsingBatch` specifies; on success the record takes the table's row count and the insert's time, on failure they are untouched |
| LoadBuildTask.ExecuteAndInsert | src/SmartCode.ETL/BuildTasks/LoadBuildTask.cs:72-116 | from the pre-command to the hand-off, the outcome and calls are those of `LoadSpec.RunAfterMapper` |
| LoadBuildTask.PostAndHandoff | src/SmartCode.ETL/BuildTasks/LoadBuildTask.cs:100-116 | the post-command and the hand-off of the record built so far, as `LoadSpec.RunAfterInsert` specifies |
| LoadBuildTask.Build | src/SmartCode.ETL/BuildTasks/LoadBuildTask.cs:41-117 | outcome and calls equal Run's; the transform table is renamed to the target table exactly when Table and DbProvider are given and there are rows |
| LoadProperties.EffectsInFixedOrder | src/SmartCode.ETL/BuildTasks/LoadBuildTask.cs:58-116 | every run calls mapper creation, pre-command, inserter creation, mappings, insert, release, post-command and repository in that order, each at most once except AddColumnMapping |
| LoadProperties.RequiredParametersFirst | src/SmartCode.ETL/BuildTasks/LoadBuildTask.cs:43-44 | without Table or DbProvider the run fails naming the missing key (Table first) and calls nothing |
| LoadProperties.EmptyInputShortCircuit | src/SmartCode.ETL/BuildTasks/LoadBuildTask.cs:47-55 | with zero rows the only call is one repository Load of a record with the table name and size 0; ConnectionString, commands, mappings and build key do not matter |
| LoadProperties.PreCommandRunsIffNonEmpty | src/SmartCode.ETL/BuildTasks/LoadBuildTask.cs:72-87 | the pre-command runs iff the run gets past the mapper and the command is neither null nor empty, with its own text and the watermark parameters |
| LoadProperties.BlankPreCommandRuns | src/SmartCode.ETL/BuildTasks/LoadBuildTask.cs:72 | a pre-command of blanks is executed (IsNullOrEmpty, not IsNullOrWhiteSpace) |
| LoadProperties.PostCommandRunsIffNonEmpty | src/SmartCode.ETL/BuildTasks/LoadBuildTask.cs:100-115 | the post-command runs iff the insert went through and the command is present and non-empty, with its own text and the watermark parameters |
| LoadProperties.NoPostCallBeforeInsert | src/SmartCode.ETL/BuildTasks/LoadBuildTask.cs:89-100 | a run that does not get through the insert never runs the post-command |
| LoadProperties.PostCallAfterInsert | src/SmartCode.ETL/BuildTasks/LoadBuildTask.cs:100-107 | after the insert, the post-command call is the one the post stage makes, and it is made when the command is non-empty |
| LoadProperties.StatementsShareWatermark | src/SmartCode.ETL/BuildTasks/LoadBuildTask.cs:60-66 | pre- and post-command both get the three watermark keys with the last extract's values |
| LoadProperties.UsingBlockInOrder | src/SmartCode.ETL/BuildTasks/LoadBuildTask.cs:89-99 | the using block starts with creating the inserter and keeps the fixed order |
| LoadProperties.UsingBlockReleases | src/SmartCode.ETL/BuildTasks/LoadBuildTask.cs:89-99 | once created, the inserter is released as the block's last call on every exit; the block fails iff creation, a mapping entry or the insert fails |
| LoadProperties.UsingBlockAddsResolvedMappings | src/SmartCode.ETL/BuildTasks/LoadBuildTask.cs:91 | the block adds exactly the resolved mappings, in order, or none when the inserter is not created |
| LoadProperties.UsingBlockInsert | src/SmartCode.ETL/BuildTasks/LoadBuildTask.cs:89-96 | the block inserts iff the inserter exists and all entries resolve, writing the target table, all rows and the resolved mappings |
| LoadProperties.OutcomeAfterInsert | src/SmartCode.ETL/BuildTasks/LoadBuildTask.cs:100-116 | after the insert the run fails with the post-command, or with the repository, or returns the record with the post-command recorded |
| LoadProperties.FailureBeforePost | src/SmartCode.ETL/BuildTasks/LoadBuildTask.cs:72-99 | a run stopped by the pre-command or the using block fails with exactly that error: the pre-command's StatementFailed, else BatchCreateFailed, else the first incomplete mapping entry's error, else InsertFailed; it never reaches the post stage or the repository |
| LoadProperties.PreFailShape | src/SmartCode.ETL/BuildTasks/LoadBuildTask.cs:72-87 | a throwing pre-command ends the run with its StatementFailed error right after the mapper creation and the pre-command call |
| LoadProperties.MissingConnectionStringStops | src/SmartCode.ETL/BuildTasks/LoadBuildTask.cs:151 | with rows to load and no ConnectionString the run fails naming ConnectionString and calls nothing |
| LoadProperties.SuccessIff | src/SmartCode.ETL/BuildTasks/LoadBuildTask.cs:41-117 | a run succeeds iff Table and DbProvider are given, the repository accepts, and either there are no rows or every step through the post-command went through |
| LoadProperties.SuccessfulRunRecord | src/SmartCode.ETL/BuildTasks/LoadBuildTask.cs:68-116 | the record of a successful run has the configured table, the input's row count, the insert's time, and each command with text, parameters and time exactly when it ran |
| LoadProperties.HandoffEndsRun | src/SmartCode.ETL/BuildTasks/LoadBuildTask.cs:116 | the repository is called iff the run succeeds or the repository call itself fails |
| LoadProperties.HandoffAfterInsert | src/SmartCode.ETL/BuildTasks/LoadBuildTask.cs:100-116 | after the insert the repository is called unless the post-command throws |
| LoadProperties.HandoffWithoutStatements | src/SmartCode.ETL/BuildTasks/LoadBuildTask.cs:43-58 | a run that stops before the statements calls the repository iff Table and DbProvider are given and there are zero rows; then, and only then, it succeeds or fails with RepositoryFailed |
| LoadProperties.HandoffIsLastCall | src/SmartCode.ETL/BuildTasks/LoadBuildTask.cs:116 | a repository call is the run's last call, so there is at most one |
| LoadProperties.HandoffCarriesRecord | src/SmartCode.ETL/BuildTasks/LoadBuildTask.cs:116 | the repository call carries the ETL task id and, on success, exactly the record the run returns |
| LoadProperties.MappingsAddedInInputOrder | src/SmartCode.ETL/BuildTasks/LoadBuildTask.cs:124-141 | the mappings reaching AddColumnMapping are exactly the resolved ones, in input order, once the inserter exists, and none otherwise |
| LoadProperties.AbsentColumnMappingAddsNothing | src/SmartCode.ETL/BuildTasks/LoadBuildTask.cs:126 | without a ColumnMapping parameter no mapping is added and resolution cannot fail |
| LoadProperties.InsertWritesResolvedMappings | src/SmartCode.ETL/BuildTasks/LoadBuildTask.cs:89-96 | the insert happens iff the inserter exists and every entry is complete; it writes the target table, all rows and the resolved mappings |
| LoadProperties.IncompleteMappingAborts | src/SmartCode.ETL/BuildTasks/LoadBuildTask.cs:72-99 | a missing Column or Mapping fails the run with that field's error after the pre-command ran: the inserter is released last, with no insert, no post-command and no record |

## Left out

- Logging, including the warning at line 98 and the logger factory passed in the mapper options, is not modelled: it has no effect on the run.
- `async`/`await` is not modelled: each awaited call is one recorded call, and a throw ends the run.
- Plugin resolution of the ETL repository and the project lookups of the repository name, task id and last extract are not modelled. Their results are inputs.
- Stopwatch readings are inputs (`PreTaken`, `InsertTaken`, `PostTaken`), one per timed call.
- `Initialize` (empty), `Initialized` and `Name` (constants) are not modelled. `Name` appears as the constant `TaskName`.
- `EnsureValue` and `Value` are modelled as present or absent. How `EnsureValue` treats a null value, and the parsing of `DbProvider` into an enum, are not modelled: a value is either given or missing.
- A `ColumnMapping` entry that is not a dictionary is not modelled (it would fail the cast in the foreach). Entries are string-keyed maps.
- What SmartSql, the batch inserter and the database do with the statements and rows is not modelled. Each becomes a recorded call that may throw.
- The watermark values are `object` in the source, and `QueryTime` and `MaxModifyTime` are times. The model keeps them as integers (times as ticks), and the query parameters as a `map<string, int>`. The run passes them through unchanged and never computes with them.
- LoadBuildTask.UseBatchInsert: the release of the inserter is a recorded call, not `IDisposable` mechanics.
