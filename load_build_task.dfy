/**
 * The Load build task as it runs: it renames the transform data, fills the
 * run record field by field, feeds column mappings to the batch inserter and
 * records every collaborator call it makes.
 */
module LoadBuildTask {
  import opened Wrappers
  import opened EtlModel
  import opened ColumnMappingResolver
  import opened LoadSpec

  /** The transform stage's output table: its name is reassigned, its rows are only counted. */
  class DataTable {
    var Name: string
    const RowCount: nat

    constructor (name: string, rowCount: nat)
      ensures Name == name && RowCount == rowCount
    {
      Name := name;
      RowCount := rowCount;
    }
  }

  /** The run record under construction (ETLLoad). */
  class LoadEntity {
    var Table: string
    var Size: nat
    var Taken: nat
    var PreCommand: Option<DbCommand>
    var PostCommand: Option<DbCommand>

    constructor (table: string)
      ensures Table == table && Size == 0 && Taken == 0 && PreCommand == None && PostCommand == None
    {
      Table := table;
      Size := 0;
      Taken := 0;
      PreCommand := None;
      PostCommand := None;
    }

    /** The record as the repository receives it. */
    function Snapshot(): LoadRecord
      reads this
    {
      LoadRecord(Table, Size, Taken, PreCommand, PostCommand)
    }
  }

  /** The state of the batch inserter the task drives: its mappings and the table to write. */
  class BatchInsert {
    var Mappings: seq<ColumnMapping>
    var Table: DataTable?

    constructor ()
      ensures Mappings == [] && Table == null
    {
      Mappings := [];
      Table := null;
    }

    method AddColumnMapping(m: ColumnMapping)
      modifies this`Mappings
      ensures Mappings == old(Mappings) + [m]
    {
      Mappings := Mappings + [m];
    }
  }

  /**
   * InitColumnMapping: adds one mapping per entry, in order, and stops at the
   * first entry missing Column or Mapping; an absent parameter adds nothing.
   */
  method InitColumnMapping(batch: BatchInsert, columnMapping: Option<seq<MappingEntry>>, trace: seq<Effect>)
    returns (trace': seq<Effect>, error: Option<LoadError>)
    modifies batch`Mappings
    ensures batch.Mappings == old(batch.Mappings) + Resolve(EntriesOf(columnMapping)).added
    ensures trace' == trace + AddEffects(Resolve(EntriesOf(columnMapping)).added)
    ensures error == Resolve(EntriesOf(columnMapping)).error
  {
    trace' := trace;
    error := None;
    var entries := EntriesOf(columnMapping);
    if columnMapping.None? {
      ResolveStopsAtFirstIncomplete(entries, []);
      return;
    }
    ghost var added: seq<ColumnMapping> := [];
    var i := 0;
    while i < |entries|
      invariant 0 <= i <= |entries| && |added| == i
      invariant forall j :: 0 <= j < i ==> IsComplete(entries[j]) && added[j] == ToMapping(entries[j])
      invariant batch.Mappings == old(batch.Mappings) + added
      invariant trace' == trace + AddEffects(added)
    {
      var kv := entries[i];
      if ColumnKey !in kv {
        error := Some(MissingMappingField(ColumnKey));
        ResolveStopsAtFirstIncomplete(entries, added);
        return;
      }
      var colName := kv[ColumnKey];
      if MappingKey !in kv {
        error := Some(MissingMappingField(MappingKey));
        ResolveStopsAtFirstIncomplete(entries, added);
        return;
      }
      var colMapping := ColumnMapping(colName, kv[MappingKey], Lookup(kv, DataTypeNameKey));
      batch.AddColumnMapping(colMapping);
      trace' := trace' + [AddMapping(colMapping)];
      assert AddEffects(added + [colMapping]) == AddEffects(added) + [AddMapping(colMapping)];
      added := added + [colMapping];
      i := i + 1;
    }
    ResolveStopsAtFirstIncomplete(entries, added);
  }

  /**
   * The using block of Build: the inserter is created, given the column
   * mappings and the renamed transform data, inserts it, and is released on
   * every exit once it exists. On success the run record takes the table's
   * row count and the insert's elapsed time.
   */
  method UseBatchInsert(batchTable: DataTable, loadEntity: LoadEntity, p: Parameters, world: Collaborators)
    returns (effects: seq<Effect>, error: Option<LoadError>)
    requires p.Table.Some? && p.DbProvider.Some? && batchTable.Name == p.Table.value
    modifies loadEntity`Size, loadEntity`Taken
    ensures BatchStage(effects, error) == UsingBatch(p, batchTable.RowCount, world)
    ensures error.None? ==> loadEntity.Size == batchTable.RowCount && loadEntity.Taken == world.InsertTaken
    ensures error.Some? ==> loadEntity.Size == old(loadEntity.Size) && loadEntity.Taken == old(loadEntity.Taken)
  {
    effects := [OpenBatch(p.DbProvider.value)];
    if world.BatchCreateFails {
      return effects, Some(BatchCreateFailed);
    }
    var batch := new BatchInsert();
    effects, error := InitColumnMapping(batch, p.ColumnMapping, effects);
    if error.Some? {
      effects := effects + [DisposeBatch];
      return;
    }
    batch.Table := batchTable;
    assert batch.Table.Name == p.Table.value;
    assert batch.Mappings == Resolve(EntriesOf(p.ColumnMapping)).added;
    effects := effects + [Insert(batch.Table.Name, batch.Table.RowCount, batch.Mappings)];
    if world.InsertFails {
      effects := effects + [DisposeBatch];
      return effects, Some(InsertFailed);
    }
    loadEntity.Size := batchTable.RowCount;
    loadEntity.Taken := world.InsertTaken;
    effects := effects + [DisposeBatch];
  }

  /**
   * The part of Build after the SQL mapper exists: the pre-command, the using
   * block, the post-command and the hand-off of the run record, appended to
   * the calls made so far.
   */
  method ExecuteAndInsert(p: Parameters, data: DataTable, world: Collaborators, trace: seq<Effect>)
    returns (outcome: Result<LoadRecord, LoadError>, trace': seq<Effect>)
    requires p.Table.Some? && p.DbProvider.Some? && data.Name == p.Table.value
    ensures RunResult(outcome, trace') == RunAfterMapper(p, data.RowCount, world, trace)
  {
    trace' := trace;
    var preCmd := p.PreCommand;
    var queryParams := Watermark(world.LastExtract);
    var loadEntity := new LoadEntity(p.Table.value);
    if !IsNullOrEmpty(preCmd) {
      trace' := trace' + [ExecPre(preCmd.value, queryParams)];
      if world.PreFails {
        return Failure(StatementFailed(preCmd.value)), trace';
      }
      loadEntity.PreCommand := Some(DbCommand(preCmd.value, queryParams, world.PreTaken));
    } else {
      assert trace' == trace + [];
    }
    assert trace' == trace + PreEffects(p, world);

    var batchEffects, batchError := UseBatchInsert(data, loadEntity, p, world);
    trace' := trace' + batchEffects;
    if batchError.Some? {
      return Failure(batchError.value), trace';
    }

    RunReachesPost(p, data.RowCount, world, trace);
    outcome, trace' := PostAndHandoff(p, world, loadEntity, trace');
  }

  /**
   * The last lines of Build: the post-command when it is non-empty, then the
   * run record handed to the ETL repository.
   */
  method PostAndHandoff(p: Parameters, world: Collaborators, loadEntity: LoadEntity, trace: seq<Effect>)
    returns (outcome: Result<LoadRecord, LoadError>, trace': seq<Effect>)
    requires loadEntity.PostCommand == None
    modifies loadEntity`PostCommand
    ensures RunResult(outcome, trace') == RunAfterInsert(p, world, trace, old(loadEntity.Snapshot()))
  {
    trace' := trace;
    var postCmd := p.PostCommand;
    var queryParams := Watermark(world.LastExtract);
    if !IsNullOrEmpty(postCmd) {
      trace' := trace' + [ExecPost(postCmd.value, queryParams)];
      if world.PostFails {
        return Failure(StatementFailed(postCmd.value)), trace';
      }
      loadEntity.PostCommand := Some(DbCommand(postCmd.value, queryParams, world.PostTaken));
    }
    assert loadEntity.Snapshot() ==
      old(loadEntity.Snapshot()).(PostCommand := CommandRecord(p.PostCommand, queryParams, world.PostTaken));
    trace' := trace' + [RepoLoad(world.TaskId, loadEntity.Snapshot())];
    outcome := if world.RepositoryFails then Failure(RepositoryFailed) else Success(loadEntity.Snapshot());
  }

  /** Whether a run gets as far as naming the transform data after the target table. */
  predicate RenamesData(ctx: BuildContext, rows: nat) {
    ctx.Parameters.Table.Some? && ctx.Parameters.DbProvider.Some? && rows > 0
  }

  /**
   * Build: the Load run over `data`, with the collaborators' answers given by
   * `world`. Its outcome and calls are those of Run; the transform data is
   * renamed to the target table exactly when the run passes the empty check.
   */
  method Build(ctx: BuildContext, data: DataTable, world: Collaborators)
    returns (outcome: Result<LoadRecord, LoadError>, trace: seq<Effect>)
    modifies data
    ensures RunResult(outcome, trace) == Run(ctx, data.RowCount, world)
    ensures data.Name == if RenamesData(ctx, data.RowCount) then ctx.Parameters.Table.value else old(data.Name)
  {
    var p := ctx.Parameters;
    trace := [];
    if p.Table.None? {
      return Failure(MissingParameter(TableKey)), trace;
    }
    var tableName := p.Table.value;
    if p.DbProvider.None? {
      return Failure(MissingParameter(DbProviderKey)), trace;
    }

    if data.RowCount == 0 {
      var empty := new LoadEntity(tableName);
      trace := trace + [RepoLoad(world.TaskId, empty.Snapshot())];
      outcome := if world.RepositoryFails then Failure(RepositoryFailed) else Success(empty.Snapshot());
      return;
    }
    data.Name := tableName;

    var options := MapperOptionsFor(ctx);
    if options.Failure? {
      return Failure(options.error), trace;
    }
    trace := trace + [CreateMapper(options.value)];
    if world.MapperCreateFails {
      return Failure(MapperCreateFailed), trace;
    }

    assert trace == [CreateMapper(options.value)];
    RunReachesMapper(ctx, data.RowCount, world);
    outcome, trace := ExecuteAndInsert(p, data, world, trace);
  }
}
