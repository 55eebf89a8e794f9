/**
 * The decisions of one Load run as pure functions: which collaborators are
 * called, in which order, with what, and which record or error results.
 */
module LoadSpec {
  import opened Wrappers
  import opened EtlModel
  import opened ColumnMappingResolver

  /** The task's Name, which prefixes the mapper alias and names the write data source. */
  const TaskName := "Load"

  /** String.IsNullOrEmpty: only an absent (null) or zero-length text counts; blanks do not. */
  predicate IsNullOrEmpty(s: Option<string>) {
    s.None? || |s.value| == 0
  }

  /**
   * The parameter map shared by the pre- and post-command: exactly the three
   * watermark keys, each carrying the matching field of the last extract.
   */
  function Watermark(last: LastExtract): (m: map<string, int>)
    ensures m.Keys == {LastMaxIdKey, LastQueryTimeKey, LastMaxModifyTimeKey}
    ensures m[LastMaxIdKey] == last.MaxId
    ensures m[LastQueryTimeKey] == last.QueryTime
    ensures m[LastMaxModifyTimeKey] == last.MaxModifyTime
  {
    map[LastMaxIdKey := last.MaxId, LastQueryTimeKey := last.QueryTime, LastMaxModifyTimeKey := last.MaxModifyTime]
  }

  /**
   * InitCreateSmartSqlMapperOptions: DbProvider and then ConnectionString are
   * required; the alias is the task name, an underscore and the build key.
   */
  function MapperOptionsFor(ctx: BuildContext): (r: Result<MapperOptions, LoadError>)
    ensures r.Success? <==> ctx.Parameters.DbProvider.Some? && ctx.Parameters.ConnectionString.Some?
    ensures ctx.Parameters.DbProvider.None? ==> r == Failure(MissingParameter(DbProviderKey))
    ensures ctx.Parameters.DbProvider.Some? && ctx.Parameters.ConnectionString.None? ==>
      r == Failure(MissingParameter(ConnectionStringKey))
    ensures r.Success? ==>
      && r.value.ProviderName == ctx.Parameters.DbProvider.value
      && r.value.ConnectionString == ctx.Parameters.ConnectionString.value
      && r.value.DataSourceName == TaskName
      && r.value.Alias == TaskName + "_" + ctx.BuildKey
  {
    var p := ctx.Parameters;
    if p.DbProvider.None? then Failure(MissingParameter(DbProviderKey))
    else if p.ConnectionString.None? then Failure(MissingParameter(ConnectionStringKey))
    else Success(MapperOptions(TaskName + "_" + ctx.BuildKey, p.DbProvider.value, TaskName, p.ConnectionString.value))
  }

  /** Two builds get the same mapper alias only if they have the same build key. */
  lemma AliasIdentifiesBuild(c1: BuildContext, c2: BuildContext)
    requires MapperOptionsFor(c1).Success? && MapperOptionsFor(c2).Success?
    requires MapperOptionsFor(c1).value.Alias == MapperOptionsFor(c2).value.Alias
    ensures c1.BuildKey == c2.BuildKey
  {
    var alias := MapperOptionsFor(c1).value.Alias;
    assert alias[|TaskName| + 1..] == c1.BuildKey;
    assert alias[|TaskName| + 1..] == c2.BuildKey;
  }

  /** The recorded command for an optional statement, when it is executed at all. */
  function CommandRecord(cmd: Option<string>, parameters: map<string, int>, taken: nat): Option<DbCommand> {
    if IsNullOrEmpty(cmd) then None else Some(DbCommand(cmd.value, parameters, taken))
  }

  /** The pre-command's ExecuteAsync call, made only when the command is neither null nor empty. */
  function PreEffects(p: Parameters, world: Collaborators): seq<Effect> {
    if IsNullOrEmpty(p.PreCommand) then [] else [ExecPre(p.PreCommand.value, Watermark(world.LastExtract))]
  }

  /** The post-command's ExecuteAsync call, made only when the command is neither null nor empty. */
  function PostEffects(p: Parameters, world: Collaborators): seq<Effect> {
    if IsNullOrEmpty(p.PostCommand) then [] else [ExecPost(p.PostCommand.value, Watermark(world.LastExtract))]
  }

  /** One AddColumnMapping call per mapping, in order. */
  function AddEffects(ms: seq<ColumnMapping>): seq<Effect> {
    seq(|ms|, i requires 0 <= i < |ms| => AddMapping(ms[i]))
  }

  /** The outcome of a run together with every collaborator call it made. */
  datatype RunResult = RunResult(outcome: Result<LoadRecord, LoadError>, trace: seq<Effect>)

  function Stop(e: LoadError, trace: seq<Effect>): RunResult {
    RunResult(Failure(e), trace)
  }

  /** Hands the record to the ETL repository: the last call of every run that gets this far. */
  function Handoff(trace: seq<Effect>, rec: LoadRecord, world: Collaborators): RunResult {
    RunResult(if world.RepositoryFails then Failure(RepositoryFailed) else Success(rec),
              trace + [RepoLoad(world.TaskId, rec)])
  }

  /** Build: one Load run over transform data of `rows` rows. */
  function Run(ctx: BuildContext, rows: nat, world: Collaborators): RunResult {
    var p := ctx.Parameters;
    if p.Table.None? then Stop(MissingParameter(TableKey), [])
    else if p.DbProvider.None? then Stop(MissingParameter(DbProviderKey), [])
    else if rows == 0 then Handoff([], LoadRecord(p.Table.value, 0, 0, None, None), world)
    else match MapperOptionsFor(ctx)
      case Failure(e) => Stop(e, [])
      case Success(options) =>
        if world.MapperCreateFails then Stop(MapperCreateFailed, [CreateMapper(options)])
        else RunAfterMapper(p, rows, world, [CreateMapper(options)])
  }

  /** The calls made inside the batch inserter's using block, and the error that ends it, if any. */
  datatype BatchStage = BatchStage(effects: seq<Effect>, error: Option<LoadError>)

  /**
   * The using block: create the inserter, add the column mappings, insert the
   * table under the target name; the inserter is released on every exit once
   * it exists.
   */
  function UsingBatch(p: Parameters, rows: nat, world: Collaborators): BatchStage
    requires p.Table.Some? && p.DbProvider.Some?
  {
    var created := [OpenBatch(p.DbProvider.value)];
    if world.BatchCreateFails then BatchStage(created, Some(BatchCreateFailed))
    else
      var res := Resolve(EntriesOf(p.ColumnMapping));
      var added := created + AddEffects(res.added);
      if res.error.Some? then BatchStage(added + [DisposeBatch], res.error)
      else
        var inserted := added + [Insert(p.Table.value, rows, res.added)];
        BatchStage(inserted + [DisposeBatch], if world.InsertFails then Some(InsertFailed) else None)
  }

  /** From the pre-command through the batch insert, once the SQL mapper exists. */
  function RunAfterMapper(p: Parameters, rows: nat, world: Collaborators, trace: seq<Effect>): RunResult
    requires p.Table.Some? && p.DbProvider.Some?
  {
    var params := Watermark(world.LastExtract);
    var pre := CommandRecord(p.PreCommand, params, world.PreTaken);
    var t1 := trace + PreEffects(p, world);
    if pre.Some? && world.PreFails then Stop(StatementFailed(pre.value.Command), t1)
    else
      var batch := UsingBatch(p, rows, world);
      if batch.error.Some? then Stop(batch.error.value, t1 + batch.effects)
      else RunAfterInsert(p, world, t1 + batch.effects,
                          LoadRecord(p.Table.value, rows, world.InsertTaken, pre, None))
  }

  /** The post-command and the hand-off, once the batch insert is done and released. */
  function RunAfterInsert(p: Parameters, world: Collaborators, trace: seq<Effect>, rec: LoadRecord): RunResult {
    var params := Watermark(world.LastExtract);
    var post := CommandRecord(p.PostCommand, params, world.PostTaken);
    var t1 := trace + PostEffects(p, world);
    if post.Some? && world.PostFails then Stop(StatementFailed(post.value.Command), t1)
    else Handoff(t1, rec.(PostCommand := post), world)
  }

  // Unfolding steps of Run, used by the imperative Build to follow it stage by stage.

  lemma RunReachesMapper(ctx: BuildContext, rows: nat, world: Collaborators)
    requires ctx.Parameters.Table.Some? && ctx.Parameters.DbProvider.Some? && rows > 0
    requires MapperOptionsFor(ctx).Success? && !world.MapperCreateFails
    ensures Run(ctx, rows, world) ==
      RunAfterMapper(ctx.Parameters, rows, world, [CreateMapper(MapperOptionsFor(ctx).value)])
  {
  }

  lemma RunReachesPost(p: Parameters, rows: nat, world: Collaborators, trace: seq<Effect>)
    requires p.Table.Some? && p.DbProvider.Some?
    requires IsNullOrEmpty(p.PreCommand) || !world.PreFails
    requires UsingBatch(p, rows, world).error.None?
    ensures RunAfterMapper(p, rows, world, trace) ==
      var params := Watermark(world.LastExtract);
      var pre := CommandRecord(p.PreCommand, params, world.PreTaken);
      RunAfterInsert(p, world,
                     trace + PreEffects(p, world) + UsingBatch(p, rows, world).effects,
                     LoadRecord(p.Table.value, rows, world.InsertTaken, pre, None))
  {
  }
}
