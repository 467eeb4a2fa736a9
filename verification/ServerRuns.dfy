/** The invariant holds in every state of every run. */
module ServerRuns {
  import opened Base
  import opened Messages
  import opened Server
  import opened ServerInvariant
  import opened ServerFrames
  import opened ServerSteps

  // In each lemma of this file the predicates of the invariant are hidden: a step
  // keeps it by the frames and lemmas named in its case and nothing else.

  // ---------- Connections ----------

  lemma HandleKeeps(setup: Setup, s: State, c: Conn, request: Request)
    requires Inv(setup, s) && CanHandle(s, c)
    ensures Inv(setup, DoHandle(s, c, request))
  {
    hide Executors, Complete, Shutdowns, TableOk, JobHolders, ConnHolders, StopHolders, Owners, Builders, PoolJobs,
      Results, OwnJobs, Places, Histories, Conns, Outputs, Flags, Drops, StopOk, Windows, Creations, Destructions,
      Drained, AnswerOrder;
    var found := Lookup(s, request);
    if found.Some? {
      var e := found.value;
      var job := Job(c, request, Own(e));
      TableFacts(s, request, e);
      AppendFrame(s, job, Queued);
      AppendOutputs(setup, s, job, Queued);
      AppendTargetsFrame(s, job, Queued);
      AppendDrainFrame(s, job, Queued);
      SubmitOwnExecutors(setup, s, e);
      SubmitOwnJobs(s, e, job);
      ExecutorFacts(setup, s, e);
      SubmitOwnPlaces(setup, s, e, job);
      SubmitOwnOthers(setup, s, c, request, e);
      SubmitOwnHistories(AddJob(s, job, Queued), e, |s.jobs|);
    } else if s.poolLive {
      AppendFrame(s, Job(c, request, Shared), Queued);
      AppendOutputs(setup, s, Job(c, request, Shared), Queued);
      AppendTargetsFrame(s, Job(c, request, Shared), Queued);
      AppendDrainFrame(s, Job(c, request, Shared), Queued);
      AppendSharedKeeps(setup, s, c, request, Queued);
      SubmitSharedKeeps(s, c, request);
    } else {
      var conn := s.conns[c].(phase := Ending, closed := true);
      WorsenKeeps(s, c, conn);
      var t := WithConn(s, c, conn);
      AppendFrame(t, Job(c, request, Shared), Dropped);
      AppendOutputs(setup, t, Job(c, request, Shared), Dropped);
      AppendTargetsFrame(t, Job(c, request, Shared), Dropped);
      AppendDrainFrame(t, Job(c, request, Shared), Dropped);
      AppendSharedKeeps(setup, t, c, request, Dropped);
      RefuseKeeps(t, c, request);
    }
  }

  /** Entry `e` of a connection's cleanup or of the stopping thread is shut down or let go. */
  lemma RetiredFrames(s: State, e: EntryId, b: Custody)
    requires Shape(s) && e < |s.custody| && Retires(s.custody[e], b)
    requires b.holder == Released ==> IsIdle(s.execs[e])
    requires JobHolders(s.stages, s.custody) && Builders(s.jobs, s.stages, s.custody)
    requires Shutdowns(s.custody) && TableOk(s.table, s.custody) && Owners(s.custody, s.conns)
    requires Complete(s.custody, s.execs) && OwnJobs(s.jobs, s.custody, s.execs)
    requires Places(s.jobs, s.stages, s.custody, s.execs) && Windows(s.jobs, s.custody)
    requires Creations(s.jobs, s.results, s.targets, s.custody)
    requires Destructions(s.jobs, s.stages, s.results, s.targets, s.custody)
    requires Drained(s.jobs, s.results, s.targets, s.custody, s.execs)
    ensures var custody := s.custody[e := b];
      && JobHolders(s.stages, custody) && Builders(s.jobs, s.stages, custody)
      && Shutdowns(custody) && TableOk(s.table, custody) && Owners(custody, s.conns)
      && Complete(custody, s.execs) && OwnJobs(s.jobs, custody, s.execs)
      && Places(s.jobs, s.stages, custody, s.execs) && Windows(s.jobs, custody)
      && Creations(s.jobs, s.results, s.targets, custody)
      && Destructions(s.jobs, s.stages, s.results, s.targets, custody)
      && Drained(s.jobs, s.results, s.targets, custody, s.execs)
  {
    RetireShutdowns(s, e);
    RetireKeeps(s, e, b);
    hide Executors, Complete, Shutdowns, TableOk, JobHolders, ConnHolders, StopHolders, Owners, Builders, PoolJobs,
      Results, OwnJobs, Places, Histories, Conns, Outputs, Flags, Drops, StopOk, Windows, Creations, Destructions,
      Drained, AnswerOrder;
    UnlistedKeeps(s, e, b);
    CustodyFrame(s, s.custody[e := b]);
    CustodyPlacesFrame(s, s.custody[e := b]);
    CustodyTargetsFrame(s, s.custody[e := b]);
  }

  /** All entries of the table that belong to `taken` change hands at once. */
  lemma HandedOverFrames(s: State, taken: set<EntryId>, holder: Holder)
    requires Shape(s) && (holder.ByConn? || holder == ByStop) && Shutdowns(s.custody)
    requires forall e :: e in taken ==> e < |s.custody| && s.custody[e].holder == Published
    requires JobHolders(s.stages, s.custody) && Builders(s.jobs, s.stages, s.custody)
    requires Complete(s.custody, s.execs) && OwnJobs(s.jobs, s.custody, s.execs)
    requires Places(s.jobs, s.stages, s.custody, s.execs) && Windows(s.jobs, s.custody)
    requires Creations(s.jobs, s.results, s.targets, s.custody)
    requires Destructions(s.jobs, s.stages, s.results, s.targets, s.custody)
    requires Drained(s.jobs, s.results, s.targets, s.custody, s.execs)
    ensures var custody := HandOver(s.custody, taken, holder, |s.jobs|);
      && JobHolders(s.stages, custody) && Builders(s.jobs, s.stages, custody) && Shutdowns(custody)
      && Complete(custody, s.execs) && OwnJobs(s.jobs, custody, s.execs)
      && Places(s.jobs, s.stages, custody, s.execs) && Windows(s.jobs, custody)
      && Creations(s.jobs, s.results, s.targets, custody)
      && Destructions(s.jobs, s.stages, s.results, s.targets, custody)
      && Drained(s.jobs, s.results, s.targets, custody, s.execs)
  {
    hide Executors, Complete, Shutdowns, TableOk, JobHolders, ConnHolders, StopHolders, Owners, Builders, PoolJobs,
      Results, OwnJobs, Places, Histories, Conns, Outputs, Flags, Drops, StopOk, Windows, Creations, Destructions,
      Drained, AnswerOrder;
    var custody := HandOver(s.custody, taken, holder, |s.jobs|);
    HandOverJobs(s, taken, holder);
    HandOverEvolves(s, taken, holder);
    CustodyFrame(s, custody);
    CustodyPlacesFrame(s, custody);
    CustodyTargetsFrame(s, custody);
  }

  lemma ConnStepKeeps(setup: Setup, s: State, step: ConnStep)
    requires Inv(setup, s) && CanConn(s, step)
    ensures Inv(setup, DoConn(s, step))
  {
    hide Executors, Complete, Shutdowns, TableOk, JobHolders, ConnHolders, StopHolders, Owners, Builders, PoolJobs,
      Results, OwnJobs, Places, Histories, Conns, Outputs, Flags, Drops, StopOk, Windows, Creations, Destructions,
      Drained, AnswerOrder;
    match step
    case Accept => AcceptKeeps(setup, s);
    case Handle(c, request) => HandleKeeps(setup, s, c, request);
    case HandlerEnds(c) => WorsenKeeps(s, c, s.conns[c].(phase := Ending, closed := true));
    case Unlist(c) =>
      ConnFacts(s, c);
      WorsenKeeps(s, c, s.conns[c].(phase := Unlisted));
    case ShutSocket(c) =>
      ConnFacts(s, c);
      WorsenKeeps(s, c, s.conns[c].(phase := SocketShut, broken := true));
    case Reap(c) =>
      ReapTable(s, c);
      ReapConns(s, c);
      ReapOthers(s, c);
      HandedOverFrames(s, Owned(s, c), ByConn(c));
    case ReapShutdown(c, e) =>
      ReapShutdownHolders(s, c, e);
      RetireShutdowns(s, e);
      RetiredFrames(s, e, ShutDown(s.custody[e], Cancelling, ByConn(c)));
      ReapingFlags(s.(custody := s.custody[e := ShutDown(s.custody[e], Cancelling, ByConn(c))]), c,
                   s.conns[c].(phase := Reaping(s.conns[c].phase.todo - {e}, Some(e))));
    case ReapJoined(c) =>
      var e := s.conns[c].phase.joining.value;
      ReapJoinedHolders(s, c);
      RetireShutdowns(s, e);
      RetiredFrames(s, e, s.custody[e].(holder := Released));
      ReapingFlags(s.(custody := s.custody[e := s.custody[e].(holder := Released)]), c,
                   s.conns[c].(phase := Reaping(s.conns[c].phase.todo, None)));
    case ReapEnds(c) =>
      ConnFacts(s, c);
      WorsenKeeps(s, c, s.conns[c].(phase := Ended));
  }

  // ---------- Tasks of the shared pool ----------

  /** A pool task goes on to a stage that holds no entry, or still the same one. */
  lemma SharedMoves(setup: Setup, s: State, j: JobId, stage: Stage, result: Option<Outcome>)
    requires Inv(setup, s) && IsJob(s, j) && s.jobs[j].lane == Shared && s.stages[j] != Queued
    requires Moves(s, j, stage, result) && Honest(s, j, result) && stage != Cancelled && stage != Started
    requires !stage.Popped? && !stage.Joining?
    requires stage == Dropped ==> s.conns[s.jobs[j].conn].closed
    requires stage == Silent ==> !Audible(setup, s.jobs[j], result)
    requires Holds(stage) || Holds(s.stages[j]) ==> s.stages[j].Built? && stage.Unpublished? && stage.entry == s.stages[j].entry
    requires stage.Faulted? ==> s.jobs[j].request.body.CreateActor?
    ensures Inv(setup, s.(stages := s.stages[j := stage], results := s.results[j := result]))
  {
    hide Executors, Complete, Shutdowns, TableOk, JobHolders, ConnHolders, StopHolders, Owners, Builders, PoolJobs,
      Results, OwnJobs, Places, Histories, Conns, Outputs, Flags, Drops, StopOk, Windows, Creations, Destructions,
      Drained, AnswerOrder;
    MoveFrame(setup, s, j, stage, result);
    ResultFrame(s, j, stage, result);
    HolderFrame(s, j, stage);
    SharedFrame(s, j, stage, result);
    RunsWereSubmitted(setup, s.execs);
    SharedHistories(s, j, result);
  }

  lemma PoolTakes(setup: Setup, s: State, stage: Stage)
    requires Inv(setup, s) && CanPoolTake(s) && (stage == Started || (stage == Cancelled && !s.poolLive))
    ensures Inv(setup, DoPoolTake(s, stage))
  {
    hide Executors, Complete, Shutdowns, TableOk, JobHolders, ConnHolders, StopHolders, Owners, Builders, PoolJobs,
      Results, OwnJobs, Places, Histories, Conns, Outputs, Flags, Drops, StopOk, Windows, Creations, Destructions,
      Drained, AnswerOrder;
    var j := s.poolQueue[0];
    PoolTakeKeeps(s, stage);
    PoolTakeOthers(s, stage);
    FreshResult(s, j);
    assert s.results[j := None] == s.results;
    MoveFrame(setup, s, j, stage, None);
    ResultFrame(s, j, stage, None);
    HolderFrame(s, j, stage);
  }

  lemma BuildsKeep(setup: Setup, s: State, j: JobId, instance: Value)
    requires Inv(setup, s) && CanConstruct(s, j)
    ensures Inv(setup, Build(s, j, instance))
  {
    hide Executors, Complete, Shutdowns, TableOk, JobHolders, ConnHolders, StopHolders, Owners, Builders, PoolJobs,
      Results, OwnJobs, Places, Histories, Conns, Outputs, Flags, Drops, StopOk, Windows, Creations, Destructions,
      Drained, AnswerOrder;
    var c, exec := NewCustody(j, s.jobs[j]), NewExecutor(instance);
    BuildExecutors(setup, s, c, instance);
    BuildCustody(s, c);
    BuildHolders(s, j, instance);
    BuildExtends(s, c, exec);
    FreshResult(s, j);
    assert s.results[j := None] == s.results;
    var t := s.(custody := s.custody + [c], execs := s.execs + [exec]);
    var stage := Built(|s.custody|);
    MoveFrame(setup, t, j, stage, None);
    ResultFrame(t, j, stage, None);
    SharedFrame(t, j, stage, None);
  }

  lemma InsertsKeep(setup: Setup, s: State, j: JobId, e: EntryId)
    requires Inv(setup, s) && IsJob(s, j) && IsEntry(s, e) && s.stages[j] == Built(e)
    requires s.custody[e].actorId !in s.table && !s.conns[s.jobs[j].conn].closed
    ensures Inv(setup, Insert(s, j, e))
  {
    hide Executors, Complete, Shutdowns, TableOk, JobHolders, ConnHolders, StopHolders, Owners, Builders, PoolJobs,
      Results, OwnJobs, Places, Histories, Conns, Outputs, Flags, Drops, StopOk, Windows, Creations, Destructions,
      Drained, AnswerOrder;
    var b := s.custody[e].(holder := Published, born := Some(|s.jobs|));
    var result := Some(Returned(Null));
    BuilderFacts(s, j);
    FreshResult(s, j);
    UnbornFacts(setup, s, e);
    InsertKeeps(s, j, e);
    HeldKeeps(s, j, Replying, b);
    InsertTargets(s, j, e);
    BystandersKeep(s, e, b);
    var t := s.(custody := s.custody[e := b]);
    CustodyFrame(s, t.custody);
    CustodyPlacesFrame(s, t.custody);
    MoveFrame(setup, s, j, Replying, result);
    SharedFrame(t, j, Replying, result);
    RunsWereSubmitted(setup, s.execs);
    SharedHistories(s, j, result);
  }

  lemma PopsKeep(setup: Setup, s: State, j: JobId, e: EntryId)
    requires Inv(setup, s) && CanDestroy(s, j) && s.jobs[j].request.body.actorId in s.table
    requires s.table[s.jobs[j].request.body.actorId] == e && s.custody[e].owner == s.jobs[j].conn
    ensures Inv(setup, Pop(s, j, e))
  {
    hide Executors, Complete, Shutdowns, TableOk, JobHolders, ConnHolders, StopHolders, Owners, Builders, PoolJobs,
      Results, OwnJobs, Places, Histories, Conns, Outputs, Flags, Drops, StopOk, Windows, Creations, Destructions,
      Drained, AnswerOrder;
    var b := s.custody[e].(holder := ByJob(j), died := Some(|s.jobs|));
    ListedFacts(s, s.jobs[j].request.body.actorId);
    FreshResult(s, j);
    assert s.results[j := None] == s.results;
    PopTable(s, j, e);
    PopHolders(s, j, e, b);
    PopTargets(s, j, e);
    BystandersKeep(s, e, b);
    StopUnlists(s);
    var t := s.(custody := s.custody[e := b], table := s.table - {s.jobs[j].request.body.actorId});
    CustodyFrame(s, t.custody);
    CustodyPlacesFrame(s, t.custody);
    MoveFrame(setup, s, j, Popped(e), None);
    SharedFrame(t, j, Popped(e), None);
  }

  /** A job shuts down the entry it holds, or lets go of it. */
  lemma HeldMoves(setup: Setup, s: State, j: JobId, stage: Stage, result: Option<Outcome>, b: Custody)
    requires Inv(setup, s) && IsJob(s, j) && Holds(s.stages[j]) && s.stages[j].entry < |s.custody|
    requires Moves(s, j, stage, result) && s.jobs[j].lane == Shared
    requires stage.Faulted? || stage.Joining? || stage == Replying
    requires if Holds(stage) then stage == Joining(s.stages[j].entry) && s.stages[j].Popped? && b.holder == ByJob(j) && b.mode == Draining
      else b.holder == Released && b.mode != Live && IsIdle(s.execs[s.stages[j].entry])
    requires stage.Faulted? ==> s.stages[j].Unpublished? && result == None
    requires s.custody[s.stages[j].entry].holder == ByJob(j)
    requires var a := s.custody[s.stages[j].entry];
      && b == Custody(a.actorId, a.owner, a.maker, b.mode, b.shutdowns, b.holder, a.born, a.died)
      && (a.mode != Live ==> b.mode == a.mode) && b.shutdowns == (if b.mode == Live then 0 else 1)
    requires var t := s.(stages := s.stages[j := stage], results := s.results[j := result],
                         custody := s.custody[s.stages[j].entry := b]);
      && Creations(t.jobs, t.results, t.targets, t.custody)
      && Destructions(t.jobs, t.stages, t.results, t.targets, t.custody)
      && Drained(t.jobs, t.results, t.targets, t.custody, t.execs)
    ensures Inv(setup, s.(stages := s.stages[j := stage], results := s.results[j := result],
                          custody := s.custody[s.stages[j].entry := b]))
  {
    hide Executors, Complete, Shutdowns, TableOk, JobHolders, ConnHolders, StopHolders, Owners, Builders, PoolJobs,
      Results, OwnJobs, Places, Histories, Conns, Outputs, Flags, Drops, StopOk, Windows, Creations, Destructions,
      Drained, AnswerOrder;
    var e := s.stages[j].entry;
    UnlistedKeeps(s, e, b);
    HeldKeeps(s, j, stage, b);
    BystandersKeep(s, e, b);
    var t := s.(custody := s.custody[e := b]);
    CustodyFrame(s, t.custody);
    CustodyPlacesFrame(s, t.custody);
    MoveFrame(setup, s, j, stage, result);
    SharedFrame(t, j, stage, result);
    RunsWereSubmitted(setup, s.execs);
    SharedHistories(s, j, result);
  }

  lemma CreateStepKeeps(setup: Setup, s: State, step: TaskStep)
    requires Inv(setup, s) && CanTask(s, step) && (step.Construct? || step.Publish? || step.CheckClosed?)
    ensures Inv(setup, DoTask(s, step))
  {
    hide Executors, Complete, Shutdowns, TableOk, JobHolders, ConnHolders, StopHolders, Owners, Builders, PoolJobs,
      Results, OwnJobs, Places, Histories, Conns, Outputs, Flags, Drops, StopOk, Windows, Creations, Destructions,
      Drained, AnswerOrder;
    match step
    case Construct(j, built) =>
      FreshResult(s, j);
      match built {
        case Err(error) =>
          assert s.results[j := None] == s.results;
          SharedMoves(setup, s, j, if error.Some? then Faulted(error.value) else Silent, None);
        case Ok(instance) => BuildsKeep(setup, s, j, instance);
      }
    case Publish(j) =>
      FreshResult(s, j);
      BuilderFacts(s, j);
      var e := s.stages[j].entry;
      var stage := DoPublish(s, j).stages[j];
      if stage.Unpublished? {
        assert s.results[j := None] == s.results;
        SharedMoves(setup, s, j, stage, None);
      } else {
        InsertsKeep(setup, s, j, e);
      }
    case CheckClosed(j) =>
      FreshResult(s, j);
      FaultFacts(s, j);
      if s.conns[s.jobs[j].conn].closed {
        assert s.results[j := None] == s.results;
        SharedMoves(setup, s, j, Dropped, None);
      } else {
        SharedMoves(setup, s, j, Replying, Some(Raised(s.stages[j].error)));
      }
  }

  lemma DestroyStepKeeps(setup: Setup, s: State, step: TaskStep)
    requires Inv(setup, s) && CanTask(s, step) && (step.Discard? || step.DestroyShutdown? || step.DestroyJoined?)
    ensures Inv(setup, DoTask(s, step))
  {
    hide Executors, Complete, Shutdowns, TableOk, JobHolders, ConnHolders, StopHolders, Owners, Builders, PoolJobs,
      Results, OwnJobs, Places, Histories, Conns, Outputs, Flags, Drops, StopOk, Windows, Creations, Destructions,
      Drained, AnswerOrder;
    var j := step.j;
    var e := s.stages[j].entry;
    FreshResult(s, j);
    match step
    case Discard(_) =>
      BuilderFacts(s, j);
      UnbornFacts(setup, s, e);
      RetireShutdowns(s, e);
      var b := ShutDown(s.custody[e], Cancelling, Released);
      CustodyTargetsFrame(s, s.custody[e := b]);
      ResultFrame(s.(custody := s.custody[e := b]), j, Faulted(s.stages[j].error), None);
      assert s.results[j := None] == s.results;
      HeldMoves(setup, s, j, Faulted(s.stages[j].error), None, b);
    case DestroyShutdown(_) =>
      DestroyerFacts(s, j);
      RetireShutdowns(s, e);
      var b := ShutDown(s.custody[e], Draining, ByJob(j));
      CustodyTargetsFrame(s, s.custody[e := b]);
      DestroyingFrame(s.(custody := s.custody[e := b]), j, e, Joining(e));
      assert s.results[j := None] == s.results;
      HeldMoves(setup, s, j, Joining(e), None, b);
    case DestroyJoined(_) =>
      DestroyerFacts(s, j);
      RetireShutdowns(s, e);
      DestroyJoinedTargets(s, j);
      HeldMoves(setup, s, j, Replying, Some(Returned(Null)), s.custody[e].(holder := Released));
  }

  lemma TaskStepKeeps(setup: Setup, s: State, step: TaskStep)
    requires Inv(setup, s) && CanTask(s, step)
    ensures Inv(setup, DoTask(s, step))
  {
    hide Executors, Complete, Shutdowns, TableOk, JobHolders, ConnHolders, StopHolders, Owners, Builders, PoolJobs,
      Results, OwnJobs, Places, Histories, Conns, Outputs, Flags, Drops, StopOk, Windows, Creations, Destructions,
      Drained, AnswerOrder;
    match step
    case PoolStart => PoolTakes(setup, s, Started);
    case PoolCancel => PoolTakes(setup, s, Cancelled);
    case FunctionReturns(j, outcome) =>
      FreshResult(s, j);
      assert s.results[j := None] == s.results;
      SharedMoves(setup, s, j, if outcome.Some? then Replying else Silent, outcome);
    case ReportMissing(j) =>
      FreshResult(s, j);
      SharedMoves(setup, s, j, Replying, Some(NotFound(s.jobs[j].request.body.actorId)));
    case Construct(_, _) => CreateStepKeeps(setup, s, step);
    case Publish(_) => CreateStepKeeps(setup, s, step);
    case CheckClosed(_) => CreateStepKeeps(setup, s, step);
    case Attach(j) =>
      FreshResult(s, j);
      SharedMoves(setup, s, j, Replying, DoAttach(s, j).results[j]);
    case Destroy(j) =>
      FreshResult(s, j);
      var id := s.jobs[j].request.body.actorId;
      if id in s.table && s.custody[s.table[id]].owner == s.jobs[j].conn {
        PopsKeep(setup, s, j, s.table[id]);
      } else {
        SharedMoves(setup, s, j, Replying, DoDestroy(s, j).results[j]);
      }
    case Discard(_) => DestroyStepKeeps(setup, s, step);
    case DestroyShutdown(_) => DestroyStepKeeps(setup, s, step);
    case DestroyJoined(_) => DestroyStepKeeps(setup, s, step);
  }

  // ---------- Actor executors and responses ----------

  /** A job of an actor's executor goes on without being answered. */
  lemma OwnMoves(setup: Setup, s: State, j: JobId, e: EntryId, stage: Stage, result: Option<Outcome>, exec: Executor)
    requires Inv(setup, s) && IsJob(s, j) && s.jobs[j].lane == Own(e) && IsEntry(s, e)
    requires Moves(s, j, stage, result) && Honest(s, j, result) && !Holds(stage) && !Holds(s.stages[j])
    requires !stage.Faulted?
    requires stage == Started ==> s.stages[j] == Queued
    requires stage != Dropped && (stage == Silent ==> !Audible(setup, s.jobs[j], result))
    requires Works(s.execs[e], exec) && (s.custody[e].mode != Cancelling ==> Line(exec) == exec.submitted)
    requires Sound(setup, exec)
    requires Places(s.jobs, s.stages[j := stage], s.custody, s.execs[e := exec])
    requires Histories(s.jobs, s.results[j := result], s.execs[e := exec])
    ensures Inv(setup, s.(stages := s.stages[j := stage], results := s.results[j := result], execs := s.execs[e := exec]))
  {
    ExecutorsUpdate(setup, s.execs, e, exec);
    hide Executors, Complete, Shutdowns, TableOk, JobHolders, ConnHolders, StopHolders, Owners, Builders, PoolJobs,
      Results, OwnJobs, Places, Histories, Conns, Outputs, Flags, Drops, StopOk, Windows, Creations, Destructions,
      Drained, AnswerOrder;
    MoveFrame(setup, s, j, stage, result);
    ResultFrame(s, j, stage, result);
    HolderFrame(s, j, stage);
    OwnFrame(s, j, stage, result);
    WorkFrame(s.(results := s.results[j := result]), e, exec);
  }

  lemma ActorStartKeeps(setup: Setup, s: State, e: EntryId)
    requires Inv(setup, s) && CanActorStart(s, e)
    ensures Inv(setup, DoActorStart(s, e))
  {
    var exec := Take(s.execs[e]);
    var j := s.execs[e].queue[0];
    HeadFacts(setup, s, e);
    ActorStartPlaces(setup, s, e);
    ExecutorFacts(setup, s, e);
    TakeKeeps(setup, s.execs[e]);
    hide Executors, Complete, Shutdowns, TableOk, JobHolders, ConnHolders, StopHolders, Owners, Builders, PoolJobs,
      Results, OwnJobs, Places, Histories, Conns, Outputs, Flags, Drops, StopOk, Windows, Creations, Destructions,
      Drained, AnswerOrder;
    FreshResult(s, j);
    LineFacts(s, e);
    JobConn(s, j);
    assert s.results[j := None] == s.results;
    WorkHistories(s.jobs, s.results, s.execs, e, exec);
    OwnMoves(setup, s, j, e, Started, None, exec);
  }

  lemma ActorCancelKeeps(setup: Setup, s: State, e: EntryId)
    requires Inv(setup, s) && CanActorCancel(s, e)
    ensures Inv(setup, DoActorCancel(s, e))
  {
    hide Executors, Complete, Shutdowns, TableOk, JobHolders, ConnHolders, StopHolders, Owners, Builders, PoolJobs,
      Results, OwnJobs, Places, Histories, Conns, Outputs, Flags, Drops, StopOk, Windows, Creations, Destructions,
      Drained, AnswerOrder;
    var exec := Skip(s.execs[e]);
    var j := s.execs[e].queue[0];
    HeadFacts(setup, s, e);
    ActorCancelPlaces(setup, s, e);
    ExecutorFacts(setup, s, e);
    SkipKeeps(setup, s.execs[e]);
    FreshResult(s, j);
    JobConn(s, j);
    assert s.results[j := None] == s.results;
    WorkHistories(s.jobs, s.results, s.execs, e, exec);
    OwnMoves(setup, s, j, e, Cancelled, None, exec);
  }

  lemma ActorInvokeKeeps(setup: Setup, s: State, e: EntryId)
    requires Inv(setup, s) && CanActorInvoke(s, e)
    ensures Inv(setup, DoActorInvoke(setup, s, e))
  {
    hide Executors, Complete, Shutdowns, TableOk, JobHolders, ConnHolders, StopHolders, Owners, Builders, PoolJobs,
      Results, OwnJobs, Places, Histories, Conns, Outputs, Flags, Drops, StopOk, Windows, Creations, Destructions,
      Drained, AnswerOrder, RunMethod;
    var j := s.execs[e].worker.job;
    var call := s.jobs[j].request.body;
    var exec := Invoke(setup, s.execs[e], call);
    var outcome := RunMethod(setup, s.execs[e].instance, call).1;
    RunningFacts(setup, s, e);
    var stage := if outcome.Some? then Replying else Silent;
    InvokePlaces(setup, s, e, stage, exec);
    InvokeHistories(setup, s, e, exec, outcome);
    ExecutorFacts(setup, s, e);
    InvokeKeeps(setup, s.execs[e], call);
    FreshResult(s, j);
    LineFacts(s, e);
    JobConn(s, j);
    assert s.results[j := None] == s.results;
    OwnMoves(setup, s, j, e, stage, outcome, exec);
  }

  lemma ReplyKeeps(setup: Setup, s: State, j: JobId)
    requires Inv(setup, s) && CanReply(setup, s, j)
    ensures Inv(setup, DoReply(setup, s, j))
  {
    hide Executors, Complete, Shutdowns, TableOk, JobHolders, ConnHolders, StopHolders, Owners, Builders, PoolJobs,
      Results, OwnJobs, Places, Histories, Conns, Outputs, Flags, Drops, StopOk, Windows, Creations, Destructions,
      Drained, AnswerOrder;
    var c := s.jobs[j].conn;
    var response := WireForm(setup, s.jobs[j], s.results[j].value).response;
    var stage := Answered(|s.written[c]|);
    AnswerOutputs(setup, s, j, response);
    AnswerShared(setup, s, j);
    AnswerKeepsOrder(setup, s, j);
    HolderFrame(s, j, stage);
    WrittenFrame(s, s.written[c := s.written[c] + [Sent(j, response)]]);
    if s.jobs[j].lane == Shared {
      AnswerSharedPlaces(s, j, stage);
    } else {
      RestKeepsAll(setup, s, j, stage);
    }
  }

  lemma ReplyFailsKeeps(setup: Setup, s: State, j: JobId)
    requires Inv(setup, s) && CanFinish(s, j)
    ensures Inv(setup, DoReplyFails(s, j))
  {
    hide Executors, Complete, Shutdowns, TableOk, JobHolders, ConnHolders, StopHolders, Owners, Builders, PoolJobs,
      Results, OwnJobs, Places, Histories, Conns, Outputs, Flags, Drops, StopOk, Windows, Creations, Destructions,
      Drained, AnswerOrder;
    var c := s.jobs[j].conn;
    var conn := s.conns[c].(closed := true, broken := true);
    ConnFacts(s, c);
    WorsenKeeps(s, c, conn);
    var t := s.(conns := s.conns[c := conn]);
    assert s.results[j := s.results[j]] == s.results;
    DropOutputs(setup, t, j, Dropped);
    ResultFrame(t, j, Dropped, s.results[j]);
    HolderFrame(t, j, Dropped);
    if s.jobs[j].lane == Shared {
      SharedFrame(t, j, Dropped, s.results[j]);
    } else {
      OwnFrame(t, j, Dropped, s.results[j]);
      RestKeepsAll(setup, t, j, Dropped);
    }
  }

  lemma ReplyEscapesKeeps(setup: Setup, s: State, j: JobId)
    requires Inv(setup, s) && CanReplyEscape(setup, s, j)
    ensures Inv(setup, EndTask(s, j, Silent))
  {
    hide Executors, Complete, Shutdowns, TableOk, JobHolders, ConnHolders, StopHolders, Owners, Builders, PoolJobs,
      Results, OwnJobs, Places, Histories, Conns, Outputs, Flags, Drops, StopOk, Windows, Creations, Destructions,
      Drained, AnswerOrder;
    assert s.results[j := s.results[j]] == s.results;
    DropOutputs(setup, s, j, Silent);
    ResultFrame(s, j, Silent, s.results[j]);
    HolderFrame(s, j, Silent);
    if s.jobs[j].lane == Shared {
      SharedFrame(s, j, Silent, s.results[j]);
    } else {
      OwnFrame(s, j, Silent, s.results[j]);
      RestKeepsAll(setup, s, j, Silent);
    }
  }

  lemma WorkStepKeeps(setup: Setup, s: State, step: WorkStep)
    requires Inv(setup, s) && CanWork(setup, s, step)
    ensures Inv(setup, DoWork(setup, s, step))
  {
    hide Executors, Complete, Shutdowns, TableOk, JobHolders, ConnHolders, StopHolders, Owners, Builders, PoolJobs,
      Results, OwnJobs, Places, Histories, Conns, Outputs, Flags, Drops, StopOk, Windows, Creations, Destructions,
      Drained, AnswerOrder;
    match step
    case ActorStart(e) => ActorStartKeeps(setup, s, e);
    case ActorInvoke(e) => ActorInvokeKeeps(setup, s, e);
    case ActorCancel(e) => ActorCancelKeeps(setup, s, e);
    case Reply(j) => ReplyKeeps(setup, s, j);
    case ReplyFails(j) => ReplyFailsKeeps(setup, s, j);
    case ReplyEscapes(j) => ReplyEscapesKeeps(setup, s, j);
  }

  // ---------- The stopping thread ----------

  lemma StopStepKeeps(setup: Setup, s: State, step: StopStep)
    requires Inv(setup, s) && CanStop(s, step)
    ensures Inv(setup, DoStop(s, step))
  {
    hide Executors, Complete, Shutdowns, TableOk, JobHolders, ConnHolders, StopHolders, Owners, Builders, PoolJobs,
      Results, OwnJobs, Places, Histories, Conns, Outputs, Flags, Drops, StopOk, Windows, Creations, Destructions,
      Drained, AnswerOrder;
    match step
    case Start =>
    case StopFlag => StopPhaseKeeps(s, Flagged);
    case StopSnapshot => StopPhaseKeeps(s, ClosingConns(s.connections));
    case StopMark(c) =>
      ConnFacts(s, c);
      WorsenKeeps(s, c, s.conns[c].(closed := true));
    case StopShut(c) =>
      ConnFacts(s, c);
      WorsenKeeps(s, c, s.conns[c].(broken := true));
      StopPhaseKeeps(s, ClosingConns(s.stop.conns - {c}));
    case StopPool => StopPoolKeeps(s);
    case StopCollect =>
      StopCollectTable(s);
      StopCollectHolders(s);
      HandedOverFrames(s, s.table.Values, ByStop);
    case StopShutdown(e) =>
      StopShutdownHolders(s, e);
      RetireShutdowns(s, e);
      RetiredFrames(s, e, ShutDown(s.custody[e], Cancelling, ByStop));
      StopPhaseStays(s, StoppingActors(s.stop.todo - {e}, Some(e)));
    case StopJoined =>
      var e := s.stop.joining.value;
      StopJoinedHolders(s);
      RetireShutdowns(s, e);
      RetiredFrames(s, e, s.custody[e].(holder := Released));
      StopPhaseStays(s, StoppingActors(s.stop.todo, None));
    case StopEnds =>
      StopPhaseStays(s, Stopped);
      StopEndsHolders(s);
  }

  // ---------- All steps, all runs ----------

  lemma StepKeeps(setup: Setup, s: State, step: Step)
    requires Inv(setup, s) && Can(setup, s, step)
    ensures Inv(setup, Do(setup, s, step))
  {
    hide Executors, Complete, Shutdowns, TableOk, JobHolders, ConnHolders, StopHolders, Owners, Builders, PoolJobs,
      Results, OwnJobs, Places, Histories, Conns, Outputs, Flags, Drops, StopOk, Windows, Creations, Destructions,
      Drained, AnswerOrder;
    match step
    case ByConnection(x) => ConnStepKeeps(setup, s, x);
    case ByTask(x) => TaskStepKeeps(setup, s, x);
    case ByWorker(x) => WorkStepKeeps(setup, s, x);
    case ByStopper(x) => StopStepKeeps(setup, s, x);
  }

  lemma InitialEntries(setup: Setup)
    ensures var s := INITIAL;
      && Executors(setup, s.execs) && Complete(s.custody, s.execs)
      && Shutdowns(s.custody) && TableOk(s.table, s.custody) && JobHolders(s.stages, s.custody)
      && ConnHolders(s.conns, s.custody) && StopHolders(s.stop, s.custody)
      && Owners(s.custody, s.conns) && Builders(s.jobs, s.stages, s.custody)
  {
  }

  lemma InitialJobs(setup: Setup)
    ensures var s := INITIAL;
      && PoolJobs(s.jobs, s.stages, s.poolQueue, s.poolLive) && Results(s.stages, s.results)
      && OwnJobs(s.jobs, s.custody, s.execs) && Places(s.jobs, s.stages, s.custody, s.execs)
      && Histories(s.jobs, s.results, s.execs)
      && Conns(s.jobs, s.conns, s.written) && Outputs(setup, s.jobs, s.stages, s.results, s.written)
      && Flags(s.conns) && Drops(s.jobs, s.stages, s.conns)
  {
  }

  lemma InitialTargets()
    ensures var s := INITIAL;
      && StopOk(s.stop, s.poolLive, s.table, s.jobs, s.stages, s.poolQueue)
      && Windows(s.jobs, s.custody)
      && Creations(s.jobs, s.results, s.targets, s.custody)
      && Destructions(s.jobs, s.stages, s.results, s.targets, s.custody)
      && Drained(s.jobs, s.results, s.targets, s.custody, s.execs)
      && AnswerOrder(s.jobs, s.stages, s.results, s.targets)
  {
  }

  lemma InitialInv(setup: Setup)
    ensures Inv(setup, INITIAL)
  {
    InitialEntries(setup);
    InitialJobs(setup);
    InitialTargets();
    hide Executors, Complete, Shutdowns, TableOk, JobHolders, ConnHolders, StopHolders, Owners, Builders, PoolJobs,
      Results, OwnJobs, Places, Histories, Conns, Outputs, Flags, Drops, StopOk, Windows, Creations, Destructions,
      Drained, AnswerOrder;
  }

  lemma {:induction false} RunInv(setup: Setup, states: seq<State>, steps: seq<Step>, i: nat)
    requires IsRun(setup, states, steps) && i < |states|
    ensures Inv(setup, states[i])
  {
    if i == 0 {
      InitialInv(setup);
    } else {
      RunInv(setup, states, steps, i - 1);
      StepKeeps(setup, states[i - 1], steps[i - 1]);
    }
  }
}
