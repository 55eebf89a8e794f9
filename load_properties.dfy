/**
 * What the Load task promises about every run: the fixed order of its calls,
 * when the pre- and post-command run, how column mappings reach the inserter,
 * the release of the inserter, and the record handed to the ETL repository.
 */
module LoadProperties {
  import opened Wrappers
  import opened EtlModel
  import opened ColumnMappingResolver
  import opened LoadSpec

  /** The position of each kind of call in the fixed order of a run. */
  function Stage(e: Effect): nat {
    match e
    case CreateMapper(_) => 0
    case ExecPre(_, _) => 1
    case OpenBatch(_) => 2
    case AddMapping(_) => 3
    case Insert(_, _, _) => 4
    case DisposeBatch => 5
    case ExecPost(_, _) => 6
    case RepoLoad(_, _) => 7
  }

  /** Calls come in stage order and each kind occurs at most once, except AddColumnMapping. */
  predicate InFixedOrder(t: seq<Effect>) {
    forall i, j :: 0 <= i < j < |t| ==> Stage(t[i]) < Stage(t[j]) || (t[i].AddMapping? && t[j].AddMapping?)
  }

  predicate StagesBelow(t: seq<Effect>, s: nat) {
    forall i :: 0 <= i < |t| ==> Stage(t[i]) < s
  }

  predicate StagesFrom(t: seq<Effect>, s: nat) {
    forall i :: 0 <= i < |t| ==> s <= Stage(t[i])
  }

  predicate RanPre(t: seq<Effect>) { exists i :: 0 <= i < |t| && t[i].ExecPre? }
  predicate RanPost(t: seq<Effect>) { exists i :: 0 <= i < |t| && t[i].ExecPost? }
  predicate Inserted(t: seq<Effect>) { exists i :: 0 <= i < |t| && t[i].Insert? }
  predicate HandedOff(t: seq<Effect>) { exists i :: 0 <= i < |t| && t[i].RepoLoad? }

  /** The mappings given to AddColumnMapping, in the order of the calls. */
  function AddedMappings(t: seq<Effect>): seq<ColumnMapping> {
    if t == [] then []
    else (if t[0].AddMapping? then [t[0].mapping] else []) + AddedMappings(t[1..])
  }

  lemma {:induction false} AddedMappingsConcat(a: seq<Effect>, b: seq<Effect>)
    ensures AddedMappings(a + b) == AddedMappings(a) + AddedMappings(b)
  {
    if a == [] {
      assert a + b == b;
    } else {
      assert (a + b)[0] == a[0];
      assert (a + b)[1..] == a[1..] + b;
      AddedMappingsConcat(a[1..], b);
    }
  }

  /** The AddColumnMapping calls of a resolution hand over exactly its mappings. */
  lemma {:induction false} AddedMappingsOfAddEffects(ms: seq<ColumnMapping>)
    ensures AddedMappings(AddEffects(ms)) == ms
  {
    if ms != [] {
      assert AddEffects(ms) == [AddMapping(ms[0])] + AddEffects(ms[1..]);
      AddedMappingsConcat([AddMapping(ms[0])], AddEffects(ms[1..]));
      AddedMappingsOfAddEffects(ms[1..]);
    }
  }

  lemma {:induction false} NoAddedMappings(t: seq<Effect>)
    requires forall i :: 0 <= i < |t| ==> !t[i].AddMapping?
    ensures AddedMappings(t) == []
  {
    if t != [] {
      NoAddedMappings(t[1..]);
    }
  }

  lemma OrderedConcat(a: seq<Effect>, b: seq<Effect>, s: nat)
    requires InFixedOrder(a) && InFixedOrder(b) && StagesBelow(a, s) && StagesFrom(b, s)
    ensures InFixedOrder(a + b)
  {
    var t := a + b;
    forall i, j | 0 <= i < j < |t|
      ensures Stage(t[i]) < Stage(t[j]) || (t[i].AddMapping? && t[j].AddMapping?)
    {
      if j < |a| {
        assert t[i] == a[i] && t[j] == a[j];
      } else if i >= |a| {
        assert t[i] == b[i - |a|] && t[j] == b[j - |a|];
      } else {
        assert t[i] == a[i] && t[j] == b[j - |a|];
      }
    }
  }

  /** OpenBatch followed by the AddColumnMapping calls is in the fixed order. */
  lemma OpenThenAddInOrder(provider: string, ms: seq<ColumnMapping>)
    ensures InFixedOrder([OpenBatch(provider)] + AddEffects(ms))
    ensures StagesFrom([OpenBatch(provider)] + AddEffects(ms), 2)
    ensures StagesBelow([OpenBatch(provider)] + AddEffects(ms), 4)
  {
    var added := AddEffects(ms);
    assert InFixedOrder(added) && StagesFrom(added, 3) && StagesBelow(added, 4);
    OrderedConcat([OpenBatch(provider)], added, 3);
  }

  /** The calls of the using block after the mappings: the insert when every entry resolved, then the release. */
  function BlockTail(p: Parameters, rows: nat, res: Resolution): seq<Effect>
    requires p.Table.Some?
  {
    if res.error.Some? then [DisposeBatch] else [Insert(p.Table.value, rows, res.added), DisposeBatch]
  }

  /** Once the inserter is created: OpenBatch, one AddColumnMapping per resolved mapping, then the tail. */
  lemma UsingBatchSplit(p: Parameters, rows: nat, world: Collaborators)
    requires p.Table.Some? && p.DbProvider.Some? && !world.BatchCreateFails
    ensures var res := Resolve(EntriesOf(p.ColumnMapping));
      UsingBatch(p, rows, world).effects ==
        [OpenBatch(p.DbProvider.value)] + AddEffects(res.added) + BlockTail(p, rows, res)
  {
    var res := Resolve(EntriesOf(p.ColumnMapping));
    var head := [OpenBatch(p.DbProvider.value)] + AddEffects(res.added);
    if res.error.None? {
      assert head + [Insert(p.Table.value, rows, res.added)] + [DisposeBatch] ==
             head + [Insert(p.Table.value, rows, res.added), DisposeBatch];
    }
  }

  lemma BlockTailInOrder(p: Parameters, rows: nat, res: Resolution)
    requires p.Table.Some?
    ensures var tail := BlockTail(p, rows, res);
      && InFixedOrder(tail) && StagesFrom(tail, 4) && StagesBelow(tail, 6)
      && |tail| > 0 && tail[|tail| - 1] == DisposeBatch
      && (Inserted(tail) <==> res.error.None?)
      && (forall i :: 0 <= i < |tail| && tail[i].Insert? ==> tail[i] == Insert(p.Table.value, rows, res.added))
  {
    var tail := BlockTail(p, rows, res);
    if res.error.None? {
      assert tail[0].Insert?;
    }
  }

  /** The using block's calls lie between OpenBatch and DisposeBatch in the fixed order. */
  lemma UsingBlockInOrder(p: Parameters, rows: nat, world: Collaborators)
    requires p.Table.Some? && p.DbProvider.Some?
    ensures var b := UsingBatch(p, rows, world);
      && |b.effects| > 0 && b.effects[0] == OpenBatch(p.DbProvider.value)
      && InFixedOrder(b.effects) && StagesFrom(b.effects, 2) && StagesBelow(b.effects, 6)
  {
    if !world.BatchCreateFails {
      var res := Resolve(EntriesOf(p.ColumnMapping));
      UsingBatchSplit(p, rows, world);
      OpenThenAddInOrder(p.DbProvider.value, res.added);
      BlockTailInOrder(p, rows, res);
      OrderedConcat([OpenBatch(p.DbProvider.value)] + AddEffects(res.added), BlockTail(p, rows, res), 4);
    }
  }

  /**
   * Once the inserter exists it is released on every exit of the using block,
   * and the block fails exactly when creation, a mapping entry or the insert fails.
   */
  lemma UsingBlockReleases(p: Parameters, rows: nat, world: Collaborators)
    requires p.Table.Some? && p.DbProvider.Some?
    ensures var b := UsingBatch(p, rows, world);
      var res := Resolve(EntriesOf(p.ColumnMapping));
      && (!world.BatchCreateFails ==> |b.effects| > 1 && b.effects[|b.effects| - 1] == DisposeBatch)
      && (b.error.None? <==> !world.BatchCreateFails && res.error.None? && !world.InsertFails)
      && (!world.BatchCreateFails && res.error.Some? ==> b.error == res.error)
  {
  }

  /** The mappings added in the using block are the resolved ones, in input order. */
  lemma {:induction false} UsingBlockAddsResolvedMappings(p: Parameters, rows: nat, world: Collaborators)
    requires p.Table.Some? && p.DbProvider.Some?
    ensures AddedMappings(UsingBatch(p, rows, world).effects) ==
      if world.BatchCreateFails then [] else Resolve(EntriesOf(p.ColumnMapping)).added
  {
    var created := [OpenBatch(p.DbProvider.value)];
    NoAddedMappings(created);
    if !world.BatchCreateFails {
      var res := Resolve(EntriesOf(p.ColumnMapping));
      var added := AddEffects(res.added);
      var tail := BlockTail(p, rows, res);
      UsingBatchSplit(p, rows, world);
      AddedMappingsOfAddEffects(res.added);
      AddedMappingsConcat(created, added);
      NoAddedMappings(tail);
      AddedMappingsConcat(created + added, tail);
    } else {
      assert UsingBatch(p, rows, world).effects == created;
    }
  }

  /** In a trace of earlier stages followed by more calls, a call of a later stage is one of the latter. */
  lemma LaterStageAt(a: seq<Effect>, c: seq<Effect>, s: nat, i: nat)
    requires StagesBelow(a, s) && i < |a + c| && s <= Stage((a + c)[i])
    ensures |a| <= i && (a + c)[i] == c[i - |a|]
  {
  }

  /**
   * The insert happens exactly when the inserter was created and every entry
   * resolved, and it writes the target table with all its rows and mappings.
   */
  lemma UsingBlockInsert(p: Parameters, rows: nat, world: Collaborators)
    requires p.Table.Some? && p.DbProvider.Some?
    ensures var b := UsingBatch(p, rows, world);
      var res := Resolve(EntriesOf(p.ColumnMapping));
      && (Inserted(b.effects) <==> !world.BatchCreateFails && res.error.None?)
      && (forall i :: 0 <= i < |b.effects| && b.effects[i].Insert? ==>
            b.effects[i] == Insert(p.Table.value, rows, res.added))
  {
    var b := UsingBatch(p, rows, world).effects;
    if !world.BatchCreateFails {
      var res := Resolve(EntriesOf(p.ColumnMapping));
      var head := [OpenBatch(p.DbProvider.value)] + AddEffects(res.added);
      var tail := BlockTail(p, rows, res);
      UsingBatchSplit(p, rows, world);
      OpenThenAddInOrder(p.DbProvider.value, res.added);
      BlockTailInOrder(p, rows, res);
      forall i | 0 <= i < |b| && b[i].Insert?
        ensures b[i] == Insert(p.Table.value, rows, res.added)
      {
        LaterStageAt(head, tail, 4, i);
      }
      if res.error.None? {
        assert b[|head|] == tail[0];
      }
    }
  }

  /** The post-command and the hand-off come after everything else, in order. */
  lemma RunAfterInsertInOrder(p: Parameters, world: Collaborators, trace: seq<Effect>, rec: LoadRecord)
    requires InFixedOrder(trace) && StagesBelow(trace, 6)
    ensures InFixedOrder(RunAfterInsert(p, world, trace, rec).trace)
  {
    var post := CommandRecord(p.PostCommand, Watermark(world.LastExtract), world.PostTaken);
    var postEffects := PostEffects(p, world);
    OrderedConcat(trace, postEffects, 6);
    if !(post.Some? && world.PostFails) {
      OrderedConcat(trace + postEffects, [RepoLoad(world.TaskId, rec.(PostCommand := post))], 7);
    }
  }

  lemma RunAfterMapperInOrder(p: Parameters, rows: nat, world: Collaborators, trace: seq<Effect>)
    requires p.Table.Some? && p.DbProvider.Some?
    requires InFixedOrder(trace) && StagesBelow(trace, 1)
    ensures InFixedOrder(RunAfterMapper(p, rows, world, trace).trace)
  {
    var pre := CommandRecord(p.PreCommand, Watermark(world.LastExtract), world.PreTaken);
    var preEffects := PreEffects(p, world);
    OrderedConcat(trace, preEffects, 1);
    if !(pre.Some? && world.PreFails) {
      var b := UsingBatch(p, rows, world);
      UsingBlockInOrder(p, rows, world);
      OrderedConcat(trace + preEffects, b.effects, 2);
      if b.error.None? {
        RunAfterInsertInOrder(p, world, trace + preEffects + b.effects,
                              LoadRecord(p.Table.value, rows, world.InsertTaken, pre, None));
      }
    }
  }

  /**
   * Every run, successful or not, makes its calls in the fixed order: create
   * the mapper, pre-command, create the inserter, add mappings, insert,
   * release the inserter, post-command, hand the record to the repository;
   * none of them more than once except AddColumnMapping.
   */
  lemma EffectsInFixedOrder(ctx: BuildContext, rows: nat, world: Collaborators)
    ensures InFixedOrder(Run(ctx, rows, world).trace)
  {
    var p := ctx.Parameters;
    if p.Table.Some? && p.DbProvider.Some? && rows > 0 && MapperOptionsFor(ctx).Success? && !world.MapperCreateFails {
      RunAfterMapperInOrder(p, rows, world, [CreateMapper(MapperOptionsFor(ctx).value)]);
    }
  }

  /** Table and DbProvider are checked before anything else: without them no collaborator is called. */
  lemma RequiredParametersFirst(ctx: BuildContext, rows: nat, world: Collaborators)
    requires ctx.Parameters.Table.None? || ctx.Parameters.DbProvider.None?
    ensures Run(ctx, rows, world).trace == []
    ensures Run(ctx, rows, world).outcome ==
      Failure(MissingParameter(if ctx.Parameters.Table.None? then TableKey else DbProviderKey))
  {
  }

  /**
   * Zero rows: the repository is called once with a record of the table name
   * and size 0, nothing else happens, and nothing but Table and DbProvider is
   * consulted: the connection string, commands, mappings and build key may be
   * anything.
   */
  lemma EmptyInputShortCircuit(ctx: BuildContext, other: BuildContext, world: Collaborators)
    requires ctx.Parameters.Table.Some? && ctx.Parameters.DbProvider.Some?
    requires other.Parameters.Table == ctx.Parameters.Table && other.Parameters.DbProvider.Some?
    ensures Run(ctx, 0, world).trace == [RepoLoad(world.TaskId, LoadRecord(ctx.Parameters.Table.value, 0, 0, None, None))]
    ensures Run(ctx, 0, world).outcome ==
      if world.RepositoryFails then Failure(RepositoryFailed)
      else Success(LoadRecord(ctx.Parameters.Table.value, 0, 0, None, None))
    ensures Run(other, 0, world) == Run(ctx, 0, world)
  {
  }

  /** A run gets past the mapper: Table, DbProvider and ConnectionString present, rows to load, the mapper created. */
  predicate ReachesStatements(ctx: BuildContext, rows: nat, world: Collaborators) {
    && ctx.Parameters.Table.Some? && ctx.Parameters.DbProvider.Some? && rows > 0
    && ctx.Parameters.ConnectionString.Some? && !world.MapperCreateFails
  }

  /** The run gets to the using block: past the mapper and the pre-command. */
  predicate OpensBatch(ctx: BuildContext, rows: nat, world: Collaborators) {
    ReachesStatements(ctx, rows, world) && (IsNullOrEmpty(ctx.Parameters.PreCommand) || !world.PreFails)
  }

  /** The run gets to the post-command: past the mapper, the pre-command and the whole using block. */
  predicate ReachesPost(ctx: BuildContext, rows: nat, world: Collaborators) {
    && OpensBatch(ctx, rows, world)
    && !world.BatchCreateFails
    && Resolve(EntriesOf(ctx.Parameters.ColumnMapping)).error.None?
    && !world.InsertFails
  }

  /** The record a run that reaches the post stage hands over, before the post-command is added. */
  function InsertedRecord(ctx: BuildContext, rows: nat, world: Collaborators): LoadRecord
    requires ctx.Parameters.Table.Some?
  {
    LoadRecord(ctx.Parameters.Table.value, rows, world.InsertTaken,
               CommandRecord(ctx.Parameters.PreCommand, Watermark(world.LastExtract), world.PreTaken), None)
  }

  /** The post stage appends the post-command call and then, unless that call throws, the hand-off. */
  lemma RunAfterInsertShape(p: Parameters, world: Collaborators, trace: seq<Effect>, rec: LoadRecord)
    ensures var post := CommandRecord(p.PostCommand, Watermark(world.LastExtract), world.PostTaken);
      RunAfterInsert(p, world, trace, rec).trace ==
        trace + PostEffects(p, world) +
        (if post.Some? && world.PostFails then [] else [RepoLoad(world.TaskId, rec.(PostCommand := post))])
  {
  }

  /** The calls before the using block: creating the mapper, then the pre-command when it runs. */
  function Head(ctx: BuildContext, world: Collaborators): seq<Effect>
    requires MapperOptionsFor(ctx).Success?
  {
    [CreateMapper(MapperOptionsFor(ctx).value)] + PreEffects(ctx.Parameters, world)
  }

  /** The calls after the using block: the post-command and the hand-off, or nothing when the block failed. */
  function AfterBatch(ctx: BuildContext, rows: nat, world: Collaborators): seq<Effect>
    requires ReachesStatements(ctx, rows, world)
  {
    var p := ctx.Parameters;
    var post := CommandRecord(p.PostCommand, Watermark(world.LastExtract), world.PostTaken);
    if !ReachesPost(ctx, rows, world) then []
    else PostEffects(p, world) +
         (if post.Some? && world.PostFails then []
          else [RepoLoad(world.TaskId, InsertedRecord(ctx, rows, world).(PostCommand := post))])
  }

  /** In calls followed by calls of later stages, a call of an earlier stage is one of the former. */
  lemma EarlierStageAt(a: seq<Effect>, c: seq<Effect>, s: nat, i: nat)
    requires StagesFrom(c, s) && i < |a + c| && Stage((a + c)[i]) < s
    ensures i < |a| && (a + c)[i] == a[i]
  {
  }

  lemma StagesBelowConcat(a: seq<Effect>, b: seq<Effect>, s: nat)
    requires StagesBelow(a, s) && StagesBelow(b, s)
    ensures StagesBelow(a + b, s)
  {
  }

  lemma HeadCalls(ctx: BuildContext, world: Collaborators)
    requires MapperOptionsFor(ctx).Success?
    ensures var h := Head(ctx, world);
      var pre := PreEffects(ctx.Parameters, world);
      && StagesBelow(h, 2) && |h| == 1 + |pre|
      && (forall i :: 0 <= i < |h| && h[i].ExecPre? ==> i == 1 && pre == [h[i]])
      && (|h| > 1 ==> h[1] == pre[0])
  {
  }

  lemma AfterBatchCalls(ctx: BuildContext, rows: nat, world: Collaborators)
    requires ReachesStatements(ctx, rows, world)
    ensures var p := ctx.Parameters;
      var a := AfterBatch(ctx, rows, world);
      var post := CommandRecord(p.PostCommand, Watermark(world.LastExtract), world.PostTaken);
      var handsOff := ReachesPost(ctx, rows, world) && !(post.Some? && world.PostFails);
      && StagesFrom(a, 6)
      && (forall i :: 0 <= i < |a| && a[i].ExecPost? ==> i == 0 && PostEffects(p, world) == [a[i]])
      && (ReachesPost(ctx, rows, world) && PostEffects(p, world) != [] ==> a[0] == PostEffects(p, world)[0])
      && (HandedOff(a) <==> handsOff)
      && (handsOff ==> a[|a| - 1] == RepoLoad(world.TaskId, InsertedRecord(ctx, rows, world).(PostCommand := post)))
  {
    var p := ctx.Parameters;
    var a := AfterBatch(ctx, rows, world);
    var post := CommandRecord(p.PostCommand, Watermark(world.LastExtract), world.PostTaken);
    if ReachesPost(ctx, rows, world) && !(post.Some? && world.PostFails) {
      assert a[|a| - 1].RepoLoad?;
    }
  }

  /** The pre-command throws: the run ends with its error after the mapper and the pre-command. */
  lemma PreFailShape(ctx: BuildContext, rows: nat, world: Collaborators)
    requires ReachesStatements(ctx, rows, world) && !OpensBatch(ctx, rows, world)
    ensures Run(ctx, rows, world) == Stop(StatementFailed(ctx.Parameters.PreCommand.value), Head(ctx, world))
  {
    RunReachesMapper(ctx, rows, world);
  }

  /** A run that opens the inserter: the calls before the using block, the block, then the calls after it. */
  lemma BatchRunShape(ctx: BuildContext, rows: nat, world: Collaborators)
    requires OpensBatch(ctx, rows, world)
    ensures Run(ctx, rows, world).trace ==
      Head(ctx, world) + UsingBatch(ctx.Parameters, rows, world).effects + AfterBatch(ctx, rows, world)
  {
    var p := ctx.Parameters;
    RunReachesMapper(ctx, rows, world);
    UsingBlockReleases(p, rows, world);
    var h := Head(ctx, world);
    var b := UsingBatch(p, rows, world).effects;
    if ReachesPost(ctx, rows, world) {
      RunReachesPost(p, rows, world, [CreateMapper(MapperOptionsFor(ctx).value)]);
      RunAfterInsertShape(p, world, h + b, InsertedRecord(ctx, rows, world));
    } else {
      assert h + b + [] == h + b;
    }
  }

  /** Every call up to the end of the using block comes before the post stage. */
  lemma BatchRunStages(ctx: BuildContext, rows: nat, world: Collaborators)
    requires OpensBatch(ctx, rows, world)
    ensures StagesBelow(Head(ctx, world) + UsingBatch(ctx.Parameters, rows, world).effects, 6)
  {
    HeadCalls(ctx, world);
    UsingBlockInOrder(ctx.Parameters, rows, world);
    StagesBelowConcat(Head(ctx, world), UsingBatch(ctx.Parameters, rows, world).effects, 6);
  }

  /**
   * The pre-command is executed exactly when the run gets past the mapper and
   * the command is neither null nor empty (a blank command runs), and it is
   * executed with its own text and the watermark parameters.
   */
  lemma PreCommandRunsIffNonEmpty(ctx: BuildContext, rows: nat, world: Collaborators)
    ensures var t := Run(ctx, rows, world).trace;
      RanPre(t) <==> ReachesStatements(ctx, rows, world) && !IsNullOrEmpty(ctx.Parameters.PreCommand)
    ensures var t := Run(ctx, rows, world).trace;
      forall i :: 0 <= i < |t| && t[i].ExecPre? ==>
        ctx.Parameters.PreCommand.Some? && t[i] == ExecPre(ctx.Parameters.PreCommand.value, Watermark(world.LastExtract))
  {
    var p := ctx.Parameters;
    var t := Run(ctx, rows, world).trace;
    if ReachesStatements(ctx, rows, world) {
      var h := Head(ctx, world);
      HeadCalls(ctx, world);
      if OpensBatch(ctx, rows, world) {
        var b := UsingBatch(p, rows, world).effects;
        var after := AfterBatch(ctx, rows, world);
        BatchRunShape(ctx, rows, world);
        UsingBlockInOrder(p, rows, world);
        AfterBatchCalls(ctx, rows, world);
        forall i | 0 <= i < |t| && t[i].ExecPre?
          ensures i == 1 && PreEffects(p, world) == [t[i]]
        {
          EarlierStageAt(h + b, after, 6, i);
          EarlierStageAt(h, b, 2, i);
        }
        if |h| > 1 {
          assert t[1] == h[1];
        }
      } else {
        PreFailShape(ctx, rows, world);
        assert t[1].ExecPre?;
      }
    }
  }

  /** A run that does not get through the insert makes no post-command call. */
  lemma NoPostCallBeforeInsert(ctx: BuildContext, rows: nat, world: Collaborators)
    requires !ReachesPost(ctx, rows, world)
    ensures !RanPost(Run(ctx, rows, world).trace)
  {
    if OpensBatch(ctx, rows, world) {
      BatchRunShape(ctx, rows, world);
      BatchRunStages(ctx, rows, world);
      assert Run(ctx, rows, world).trace == Head(ctx, world) + UsingBatch(ctx.Parameters, rows, world).effects;
    } else if ReachesStatements(ctx, rows, world) {
      PreFailShape(ctx, rows, world);
      HeadCalls(ctx, world);
    }
  }

  /** In a run that gets through the insert, the only post-command call is the one the post stage makes. */
  lemma PostCallAfterInsert(ctx: BuildContext, rows: nat, world: Collaborators)
    requires ReachesPost(ctx, rows, world)
    ensures var t := Run(ctx, rows, world).trace;
      && (forall i :: 0 <= i < |t| && t[i].ExecPost? ==> PostEffects(ctx.Parameters, world) == [t[i]])
      && (PostEffects(ctx.Parameters, world) != [] ==> RanPost(t))
  {
    var t := Run(ctx, rows, world).trace;
    var hb := Head(ctx, world) + UsingBatch(ctx.Parameters, rows, world).effects;
    var after := AfterBatch(ctx, rows, world);
    BatchRunShape(ctx, rows, world);
    BatchRunStages(ctx, rows, world);
    AfterBatchCalls(ctx, rows, world);
    forall i | 0 <= i < |t| && t[i].ExecPost?
      ensures PostEffects(ctx.Parameters, world) == [t[i]]
    {
      LaterStageAt(hb, after, 6, i);
    }
    if PostEffects(ctx.Parameters, world) != [] {
      assert t[|hb|] == after[0];
    }
  }

  /**
   * The post-command is executed exactly when the run gets through the insert
   * and the command is neither null nor empty, with its own text and the
   * watermark parameters.
   */
  lemma PostCommandRunsIffNonEmpty(ctx: BuildContext, rows: nat, world: Collaborators)
    ensures var t := Run(ctx, rows, world).trace;
      RanPost(t) <==> ReachesPost(ctx, rows, world) && !IsNullOrEmpty(ctx.Parameters.PostCommand)
    ensures var t := Run(ctx, rows, world).trace;
      forall i :: 0 <= i < |t| && t[i].ExecPost? ==>
        ctx.Parameters.PostCommand.Some? && t[i] == ExecPost(ctx.Parameters.PostCommand.value, Watermark(world.LastExtract))
  {
    if ReachesPost(ctx, rows, world) {
      PostCallAfterInsert(ctx, rows, world);
    } else {
      NoPostCallBeforeInsert(ctx, rows, world);
    }
  }

  /** The outcome of a run that gets through the insert: post-command, then hand-off. */
  lemma OutcomeAfterInsert(ctx: BuildContext, rows: nat, world: Collaborators)
    requires ReachesPost(ctx, rows, world)
    ensures var p := ctx.Parameters;
      var post := CommandRecord(p.PostCommand, Watermark(world.LastExtract), world.PostTaken);
      Run(ctx, rows, world).outcome ==
        if post.Some? && world.PostFails then Failure(StatementFailed(p.PostCommand.value))
        else if world.RepositoryFails then Failure(RepositoryFailed)
        else Success(InsertedRecord(ctx, rows, world).(PostCommand := post))
  {
    var p := ctx.Parameters;
    UsingBlockReleases(p, rows, world);
    RunReachesMapper(ctx, rows, world);
    RunReachesPost(p, rows, world, [CreateMapper(MapperOptionsFor(ctx).value)]);
  }

  /**
   * A run that gets past the mapper but not through the insert fails with the
   * pre-command's or the using block's error and never reaches the post stage:
   * the pre-command's failure first, then the inserter's creation, then the
   * first incomplete mapping entry, then the insert itself.
   */
  lemma FailureBeforePost(ctx: BuildContext, rows: nat, world: Collaborators)
    requires ReachesStatements(ctx, rows, world) && !ReachesPost(ctx, rows, world)
    ensures var r := Run(ctx, rows, world);
      var res := Resolve(EntriesOf(ctx.Parameters.ColumnMapping));
      r.outcome ==
        if !OpensBatch(ctx, rows, world) then Failure(StatementFailed(ctx.Parameters.PreCommand.value))
        else if world.BatchCreateFails then Failure(BatchCreateFailed)
        else if res.error.Some? then Failure(res.error.value)
        else Failure(InsertFailed)
    ensures var r := Run(ctx, rows, world);
      && r.outcome.Failure? && r.outcome.error != RepositoryFailed
      && StagesBelow(r.trace, 6) && !HandedOff(r.trace)
  {
    var p := ctx.Parameters;
    if OpensBatch(ctx, rows, world) {
      BatchRunShape(ctx, rows, world);
      BatchRunStages(ctx, rows, world);
      UsingBlockReleases(p, rows, world);
      RunReachesMapper(ctx, rows, world);
      assert Run(ctx, rows, world).trace == Head(ctx, world) + UsingBatch(p, rows, world).effects;
    } else {
      PreFailShape(ctx, rows, world);
      HeadCalls(ctx, world);
    }
  }

  /**
   * With rows to load and no ConnectionString the run stops before creating
   * the mapper: nothing is called and no record is handed over.
   */
  lemma MissingConnectionStringStops(ctx: BuildContext, rows: nat, world: Collaborators)
    requires ctx.Parameters.Table.Some? && ctx.Parameters.DbProvider.Some? && rows > 0
    requires ctx.Parameters.ConnectionString.None?
    ensures Run(ctx, rows, world) == Stop(MissingParameter(ConnectionStringKey), [])
  {
  }

  /**
   * A run succeeds exactly when Table and DbProvider are given, the repository
   * accepts the record, and either there is nothing to load or every step up
   * to and including the post-command went through.
   */
  lemma SuccessIff(ctx: BuildContext, rows: nat, world: Collaborators)
    ensures var p := ctx.Parameters;
      Run(ctx, rows, world).outcome.Success? <==>
        && p.Table.Some? && p.DbProvider.Some? && !world.RepositoryFails
        && (rows == 0 || (ReachesPost(ctx, rows, world) && (IsNullOrEmpty(p.PostCommand) || !world.PostFails)))
  {
    if ReachesPost(ctx, rows, world) {
      OutcomeAfterInsert(ctx, rows, world);
    } else if ReachesStatements(ctx, rows, world) {
      FailureBeforePost(ctx, rows, world);
    }
  }

  /**
   * The record of a successful run: the target table, the input's row count,
   * the insert's time, and each statement with its text, the watermark
   * parameters and its time exactly when it was executed.
   */
  lemma SuccessfulRunRecord(ctx: BuildContext, rows: nat, world: Collaborators)
    requires Run(ctx, rows, world).outcome.Success?
    ensures var p := ctx.Parameters;
      var rec := Run(ctx, rows, world).outcome.value;
      var w := Watermark(world.LastExtract);
      && p.Table.Some? && rec.Table == p.Table.value
      && rec.Size == rows
      && rec.Taken == (if rows == 0 then 0 else world.InsertTaken)
      && (rec.PreCommand.Some? <==> rows > 0 && !IsNullOrEmpty(p.PreCommand))
      && (rec.PreCommand.Some? ==> rec.PreCommand.value == DbCommand(p.PreCommand.value, w, world.PreTaken))
      && (rec.PostCommand.Some? <==> rows > 0 && !IsNullOrEmpty(p.PostCommand))
      && (rec.PostCommand.Some? ==> rec.PostCommand.value == DbCommand(p.PostCommand.value, w, world.PostTaken))
  {
    SuccessIff(ctx, rows, world);
    if rows > 0 {
      OutcomeAfterInsert(ctx, rows, world);
    }
  }

  /** The repository is called exactly when the run succeeds or the repository call itself fails. */
  lemma HandoffEndsRun(ctx: BuildContext, rows: nat, world: Collaborators)
    ensures var r := Run(ctx, rows, world);
      HandedOff(r.trace) <==> r.outcome.Success? || r.outcome == Failure(RepositoryFailed)
  {
    if ReachesPost(ctx, rows, world) {
      HandoffAfterInsert(ctx, rows, world);
    } else if ReachesStatements(ctx, rows, world) {
      FailureBeforePost(ctx, rows, world);
    } else {
      HandoffWithoutStatements(ctx, rows, world);
    }
  }

  /** A run that stops before the statements calls the repository only when there is nothing to load. */
  lemma HandoffWithoutStatements(ctx: BuildContext, rows: nat, world: Collaborators)
    requires !ReachesStatements(ctx, rows, world)
    ensures var r := Run(ctx, rows, world);
      HandedOff(r.trace) <==> ctx.Parameters.Table.Some? && ctx.Parameters.DbProvider.Some? && rows == 0
    ensures var r := Run(ctx, rows, world);
      HandedOff(r.trace) <==> r.outcome.Success? || r.outcome == Failure(RepositoryFailed)
  {
    var p := ctx.Parameters;
    var r := Run(ctx, rows, world);
    if p.Table.Some? && p.DbProvider.Some? && rows == 0 {
      assert r.trace[0].RepoLoad?;
    }
  }

  /** After the insert, the repository is called unless the post-command fails. */
  lemma HandoffAfterInsert(ctx: BuildContext, rows: nat, world: Collaborators)
    requires ReachesPost(ctx, rows, world)
    ensures var r := Run(ctx, rows, world);
      HandedOff(r.trace) <==> r.outcome.Success? || r.outcome == Failure(RepositoryFailed)
  {
    var t := Run(ctx, rows, world).trace;
    var hb := Head(ctx, world) + UsingBatch(ctx.Parameters, rows, world).effects;
    var after := AfterBatch(ctx, rows, world);
    OutcomeAfterInsert(ctx, rows, world);
    BatchRunShape(ctx, rows, world);
    BatchRunStages(ctx, rows, world);
    AfterBatchCalls(ctx, rows, world);
    if HandedOff(t) {
      var i :| 0 <= i < |t| && t[i].RepoLoad?;
      LaterStageAt(hb, after, 6, i);
      assert after[i - |hb|].RepoLoad?;
    }
    if HandedOff(after) {
      var k :| 0 <= k < |after| && after[k].RepoLoad?;
      assert t[|hb| + k] == after[k];
    }
  }

  /** A repository call is the run's last call. */
  lemma HandoffIsLastCall(ctx: BuildContext, rows: nat, world: Collaborators)
    ensures var t := Run(ctx, rows, world).trace;
      forall i :: 0 <= i < |t| && t[i].RepoLoad? ==> i == |t| - 1
  {
    var t := Run(ctx, rows, world).trace;
    EffectsInFixedOrder(ctx, rows, world);
    forall i | 0 <= i < |t| && t[i].RepoLoad?
      ensures i == |t| - 1
    {
    }
  }

  /** The repository call carries the ETL task id and, on success, the record the run returns. */
  lemma HandoffCarriesRecord(ctx: BuildContext, rows: nat, world: Collaborators)
    ensures var r := Run(ctx, rows, world);
      forall i :: 0 <= i < |r.trace| && r.trace[i].RepoLoad? ==>
        r.trace[i].taskId == world.TaskId && (r.outcome.Success? ==> r.trace[i].record == r.outcome.value)
  {
    var r := Run(ctx, rows, world);
    HandoffIsLastCall(ctx, rows, world);
    if ReachesPost(ctx, rows, world) {
      var p := ctx.Parameters;
      var post := CommandRecord(p.PostCommand, Watermark(world.LastExtract), world.PostTaken);
      OutcomeAfterInsert(ctx, rows, world);
      HandoffAfterInsert(ctx, rows, world);
      if !(post.Some? && world.PostFails) {
        var after := AfterBatch(ctx, rows, world);
        BatchRunShape(ctx, rows, world);
        AfterBatchCalls(ctx, rows, world);
        assert r.trace[|r.trace| - 1] == after[|after| - 1];
      }
    } else if ReachesStatements(ctx, rows, world) {
      FailureBeforePost(ctx, rows, world);
    }
  }

  /**
   * The mappings reach AddColumnMapping in input order: exactly the entries
   * before the first incomplete one, once the inserter exists; none otherwise.
   */
  lemma MappingsAddedInInputOrder(ctx: BuildContext, rows: nat, world: Collaborators)
    ensures AddedMappings(Run(ctx, rows, world).trace) ==
      if OpensBatch(ctx, rows, world) && !world.BatchCreateFails
      then Resolve(EntriesOf(ctx.Parameters.ColumnMapping)).added else []
  {
    if OpensBatch(ctx, rows, world) {
      MappingsOfBatchRun(ctx, rows, world);
    } else {
      NoMappingsBeforeBatch(ctx, rows, world);
    }
  }

  lemma MappingsOfBatchRun(ctx: BuildContext, rows: nat, world: Collaborators)
    requires OpensBatch(ctx, rows, world)
    ensures AddedMappings(Run(ctx, rows, world).trace) ==
      if world.BatchCreateFails then [] else Resolve(EntriesOf(ctx.Parameters.ColumnMapping)).added
  {
    var p := ctx.Parameters;
    var h := Head(ctx, world);
    var b := UsingBatch(p, rows, world).effects;
    var after := AfterBatch(ctx, rows, world);
    BatchRunShape(ctx, rows, world);
    HeadCalls(ctx, world);
    AfterBatchCalls(ctx, rows, world);
    NoAddedMappings(h);
    NoAddedMappings(after);
    AddedMappingsConcat(h, b);
    AddedMappingsConcat(h + b, after);
    UsingBlockAddsResolvedMappings(p, rows, world);
  }

  lemma NoMappingsBeforeBatch(ctx: BuildContext, rows: nat, world: Collaborators)
    requires !OpensBatch(ctx, rows, world)
    ensures AddedMappings(Run(ctx, rows, world).trace) == []
  {
    if ReachesStatements(ctx, rows, world) {
      PreFailShape(ctx, rows, world);
      HeadCalls(ctx, world);
    }
    NoAddedMappings(Run(ctx, rows, world).trace);
  }

  /** Without a ColumnMapping parameter no mapping is added and the insert gets none. */
  lemma AbsentColumnMappingAddsNothing(ctx: BuildContext, rows: nat, world: Collaborators)
    requires ctx.Parameters.ColumnMapping.None?
    ensures AddedMappings(Run(ctx, rows, world).trace) == []
    ensures Resolve(EntriesOf(ctx.Parameters.ColumnMapping)) == Resolution([], None)
  {
    MappingsAddedInInputOrder(ctx, rows, world);
  }

  /**
   * The insert happens exactly when the inserter exists and every mapping
   * entry is complete; it writes the target table with all the input's rows
   * and the resolved mappings.
   */
  lemma InsertWritesResolvedMappings(ctx: BuildContext, rows: nat, world: Collaborators)
    ensures var t := Run(ctx, rows, world).trace;
      Inserted(t) <==>
        OpensBatch(ctx, rows, world) && !world.BatchCreateFails
        && Resolve(EntriesOf(ctx.Parameters.ColumnMapping)).error.None?
    ensures var t := Run(ctx, rows, world).trace;
      forall i :: 0 <= i < |t| && t[i].Insert? ==>
        ctx.Parameters.Table.Some? &&
        t[i] == Insert(ctx.Parameters.Table.value, rows, Resolve(EntriesOf(ctx.Parameters.ColumnMapping)).added)
  {
    if OpensBatch(ctx, rows, world) {
      InsertOfBatchRun(ctx, rows, world);
      UsingBlockInsert(ctx.Parameters, rows, world);
    } else if ReachesStatements(ctx, rows, world) {
      PreFailShape(ctx, rows, world);
      HeadCalls(ctx, world);
    }
  }

  /** In a run that opens the inserter, every insert call is one of the using block's calls. */
  lemma InsertInsideBlock(ctx: BuildContext, rows: nat, world: Collaborators)
    requires OpensBatch(ctx, rows, world)
    ensures var t := Run(ctx, rows, world).trace;
      var h := Head(ctx, world);
      var b := UsingBatch(ctx.Parameters, rows, world).effects;
      forall i :: 0 <= i < |t| && t[i].Insert? ==> |h| <= i < |h| + |b| && t[i] == b[i - |h|]
  {
    var t := Run(ctx, rows, world).trace;
    var h := Head(ctx, world);
    var b := UsingBatch(ctx.Parameters, rows, world).effects;
    var after := AfterBatch(ctx, rows, world);
    BatchRunShape(ctx, rows, world);
    HeadCalls(ctx, world);
    AfterBatchCalls(ctx, rows, world);
    forall i | 0 <= i < |t| && t[i].Insert?
      ensures |h| <= i < |h| + |b| && t[i] == b[i - |h|]
    {
      EarlierStageAt(h + b, after, 6, i);
      LaterStageAt(h, b, 2, i);
    }
  }

  lemma InsertOfBatchRun(ctx: BuildContext, rows: nat, world: Collaborators)
    requires OpensBatch(ctx, rows, world)
    ensures var t := Run(ctx, rows, world).trace;
      Inserted(t) <==> Inserted(UsingBatch(ctx.Parameters, rows, world).effects)
    ensures var t := Run(ctx, rows, world).trace;
      forall i :: 0 <= i < |t| && t[i].Insert? ==>
        t[i] == Insert(ctx.Parameters.Table.value, rows, Resolve(EntriesOf(ctx.Parameters.ColumnMapping)).added)
  {
    var t := Run(ctx, rows, world).trace;
    var h := Head(ctx, world);
    var b := UsingBatch(ctx.Parameters, rows, world).effects;
    InsertInsideBlock(ctx, rows, world);
    UsingBlockInsert(ctx.Parameters, rows, world);
    if Inserted(b) {
      var k :| 0 <= k < |b| && b[k].Insert?;
      BatchRunShape(ctx, rows, world);
      assert t[|h| + k] == b[k];
    }
  }

  /**
   * An incomplete mapping entry aborts the using block: the error names the
   * missing field, the inserter is released as the last call, nothing is
   * inserted, the post-command and the repository are not called, and the
   * pre-command has already run if there was one.
   */
  lemma IncompleteMappingAborts(ctx: BuildContext, rows: nat, world: Collaborators)
    requires OpensBatch(ctx, rows, world) && !world.BatchCreateFails
    requires Resolve(EntriesOf(ctx.Parameters.ColumnMapping)).error.Some?
    ensures var r := Run(ctx, rows, world);
      var res := Resolve(EntriesOf(ctx.Parameters.ColumnMapping));
      && r.outcome == Failure(res.error.value) && res.error.value.MissingMappingField?
      && |r.trace| > 0 && r.trace[|r.trace| - 1] == DisposeBatch
      && !Inserted(r.trace) && !RanPost(r.trace) && !HandedOff(r.trace)
      && (RanPre(r.trace) <==> !IsNullOrEmpty(ctx.Parameters.PreCommand))
  {
    var p := ctx.Parameters;
    UsingBlockReleases(p, rows, world);
    RunReachesMapper(ctx, rows, world);
    FailureBeforePost(ctx, rows, world);
    InsertWritesResolvedMappings(ctx, rows, world);
    NoPostCallBeforeInsert(ctx, rows, world);
    PreCommandRunsIffNonEmpty(ctx, rows, world);
    BatchRunShape(ctx, rows, world);
    assert Run(ctx, rows, world).trace == Head(ctx, world) + UsingBatch(p, rows, world).effects;
  }

  /**
   * The pre- and the post-command are executed with the same parameters: the
   * three watermark values of the project's last extract, under their names.
   */
  lemma StatementsShareWatermark(ctx: BuildContext, rows: nat, world: Collaborators)
    ensures var t := Run(ctx, rows, world).trace;
      forall i :: 0 <= i < |t| && (t[i].ExecPre? || t[i].ExecPost?) ==>
        && t[i].parameters.Keys == {LastMaxIdKey, LastQueryTimeKey, LastMaxModifyTimeKey}
        && t[i].parameters[LastMaxIdKey] == world.LastExtract.MaxId
        && t[i].parameters[LastQueryTimeKey] == world.LastExtract.QueryTime
        && t[i].parameters[LastMaxModifyTimeKey] == world.LastExtract.MaxModifyTime
  {
    PreCommandRunsIffNonEmpty(ctx, rows, world);
    PostCommandRunsIffNonEmpty(ctx, rows, world);
  }

  /** Only a null or empty command is skipped: a command of blanks is still executed. */
  lemma BlankPreCommandRuns(ctx: BuildContext, rows: nat, world: Collaborators)
    requires ReachesStatements(ctx, rows, world) && ctx.Parameters.PreCommand == Some(" ")
    ensures RanPre(Run(ctx, rows, world).trace)
  {
    PreCommandRunsIffNonEmpty(ctx, rows, world);
  }
}
