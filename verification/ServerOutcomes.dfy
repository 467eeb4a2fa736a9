/** What the answers of the actor requests mean. */
module ServerOutcomes {
  import opened Base
  import opened Messages
  import opened Server
  import opened ServerInvariant
  import opened ServerSteps
  import opened ServerRuns
  import opened ServerHistory

  /** The outcome of a pool task that is about actors is the one its request calls for: an actor that was created or
      destroyed has an entry on record and success is reported for it; a call that
      found no actor, an attachment or destruction that found none, and a destruction by
      somebody else are reported as what they are. */
  predicate Truthful(job: Job, outcome: Outcome, target: Option<EntryId>) {
    match job.request.body
    case Call(_, _, _) => true
    case CallActor(id, _, _, _) => job.lane == Shared ==> outcome == Raised(Error("ActorNotFoundError", id))
    case CreateActor(_, _, _, _) => if target.Some? then outcome == Returned(Null) else outcome.Raised?
    case AttachActor(id) => outcome == Returned(Null) || outcome == Raised(Error("ActorNotFoundError", id))
    case DestroyActor(id) =>
      if target.Some? then outcome == Returned(Null)
      else outcome == Raised(Error("ActorNotFoundError", id)) || outcome == Raised(Error("ActorOwnershipError", id))
  }

  ghost predicate Verdicts(a: Ledger) {
    && Balanced(a)
    && (forall j {:trigger a.results[j]} :: 0 <= j < |a.jobs| && a.results[j].Some? ==>
          Truthful(a.jobs[j], a.results[j].value, a.targets[j]))
    && (forall j {:trigger a.targets[j]} :: 0 <= j < |a.jobs| && a.jobs[j].request.body.CreateActor? && a.targets[j].Some? ==>
          a.results[j].Some?)
  }

  /** Only job `j` moves, to `result` and `target`. */
  lemma VerdictMoves(a: Ledger, b: Ledger, j: JobId)
    requires Verdicts(a) && Balanced(b) && j < |a.jobs| && b.jobs == a.jobs
    requires b.results == a.results[j := b.results[j]] && b.targets == a.targets[j := b.targets[j]]
    requires b.results[j].Some? ==> Truthful(a.jobs[j], b.results[j].value, b.targets[j])
    requires a.jobs[j].request.body.CreateActor? && b.targets[j].Some? ==> b.results[j].Some?
    ensures Verdicts(b)
  {
  }

  lemma VerdictAppended(a: Ledger, b: Ledger, job: Job, stage: Stage)
    requires Verdicts(a)
    requires b == Ledger(a.jobs + [job], a.stages + [stage], a.results + [None], a.targets + [None])
    ensures Verdicts(b)
  {
  }

  lemma HandleVerdicts(s: State, c: Conn, request: Request)
    requires CanHandle(s, c) && Verdicts(Books(s))
    ensures Verdicts(Books(DoHandle(s, c, request)))
  {
    hide Verdicts;
    var t := DoHandle(s, c, request);
    VerdictAppended(Books(s), Books(t), t.jobs[|s.jobs|], t.stages[|s.jobs|]);
  }

  lemma ConnVerdicts(s: State, step: ConnStep)
    requires CanConn(s, step) && Verdicts(Books(s))
    ensures Verdicts(Books(DoConn(s, step)))
  {
    hide Verdicts;
    match step {
      case Handle(c, request) =>
        hide DoHandle;
        HandleVerdicts(s, c, request);
      case _ => assert Books(DoConn(s, step)) == Books(s);
    }
  }

  /** Before it has its outcome, a creation has not published anything. */
  lemma NotPublished(s: State, j: JobId)
    requires Shape(s) && j < |s.jobs| && s.jobs[j].request.body.CreateActor? && s.results[j] == None
    requires Verdicts(Books(s))
    ensures s.targets[j] == None
  {
  }

  lemma ConstructVerdicts(s: State, j: JobId, built: Result<Value, Option<Error>>)
    requires CanConstruct(s, j) && Verdicts(Books(s)) && s.results[j] == None
    ensures Verdicts(Books(DoConstruct(s, j, built)))
  {
    NotPublished(s, j);
    hide Verdicts, Truthful;
    VerdictMoves(Books(s), Books(DoConstruct(s, j, built)), j);
  }

  lemma InsertVerdicts(s: State, j: JobId, e: EntryId)
    requires IsJob(s, j) && IsEntry(s, e) && s.jobs[j].request.body.CreateActor? && Verdicts(Books(s))
    ensures Verdicts(Books(Insert(s, j, e)))
  {
    assert Truthful(s.jobs[j], Returned(Null), Some(e));
    hide Verdicts, Truthful;
    VerdictMoves(Books(s), Books(Insert(s, j, e)), j);
  }

  lemma PublishVerdicts(s: State, j: JobId)
    requires CanPublish(s, j) && s.jobs[j].request.body.CreateActor? && Verdicts(Books(s)) && s.results[j] == None
    ensures Verdicts(Books(DoPublish(s, j)))
  {
    NotPublished(s, j);
    hide Verdicts, Truthful, Insert;
    var e := s.stages[j].entry;
    if s.conns[s.jobs[j].conn].closed || s.custody[e].actorId in s.table {
      VerdictMoves(Books(s), Books(DoPublish(s, j)), j);
    } else {
      InsertVerdicts(s, j, e);
    }
  }

  lemma CheckClosedVerdicts(s: State, j: JobId)
    requires CanCheckClosed(s, j) && s.jobs[j].request.body.CreateActor? && Verdicts(Books(s)) && s.results[j] == None
    ensures Verdicts(Books(DoCheckClosed(s, j)))
  {
    NotPublished(s, j);
    assert Truthful(s.jobs[j], Raised(s.stages[j].error), None);
    hide Verdicts, Truthful;
    VerdictMoves(Books(s), Books(DoCheckClosed(s, j)), j);
  }

  lemma CreateVerdicts(s: State, step: TaskStep)
    requires CanTask(s, step) && Verdicts(Books(s)) && Results(s.stages, s.results)
    requires step.Construct? || step.Publish? || step.Discard? || step.CheckClosed?
    requires Builders(s.jobs, s.stages, s.custody)
    ensures Verdicts(Books(DoTask(s, step)))
  {
    FreshResult(s, step.j);
    assert s.jobs[step.j].request.body.CreateActor?;
    hide Verdicts, Results, Builders;
    match step {
      case Construct(j, built) => ConstructVerdicts(s, j, built);
      case Publish(j) => PublishVerdicts(s, j);
      case CheckClosed(j) => CheckClosedVerdicts(s, j);
      case Discard(j) => VerdictMoves(Books(s), Books(DoDiscard(s, j)), j);
    }
  }

  /** A task that only computes its outcome. */
  lemma ComputeVerdicts(s: State, j: JobId, outcome: Outcome)
    requires InPool(s, j) && Verdicts(Books(s)) && Truthful(s.jobs[j], outcome, s.targets[j])
    ensures Verdicts(Books(DoCompute(s, j, outcome)))
  {
    hide Verdicts, Truthful;
    VerdictMoves(Books(s), Books(DoCompute(s, j, outcome)), j);
  }

  lemma DestroyVerdicts(s: State, j: JobId)
    requires CanDestroy(s, j) && Verdicts(Books(s)) && s.targets[j] == None && s.results[j] == None
    ensures Verdicts(Books(DoDestroy(s, j)))
  {
    var id := s.jobs[j].request.body.actorId;
    assert Truthful(s.jobs[j], NotFound(id), None);
    assert Truthful(s.jobs[j], Raised(Error("ActorOwnershipError", id)), None);
    hide Verdicts, Truthful, DoCompute;
    if id !in s.table {
      ComputeVerdicts(s, j, NotFound(id));
    } else if s.custody[s.table[id]].owner != s.jobs[j].conn {
      ComputeVerdicts(s, j, Raised(Error("ActorOwnershipError", id)));
    } else {
      VerdictMoves(Books(s), Books(Pop(s, j, s.table[id])), j);
    }
  }

  lemma DestroyJoinedVerdicts(s: State, j: JobId)
    requires CanDestroyJoined(s, j) && Verdicts(Books(s)) && s.jobs[j].request.body.DestroyActor? && s.targets[j].Some?
    ensures Verdicts(Books(DoDestroyJoined(s, j)))
  {
    assert Truthful(s.jobs[j], Returned(Null), s.targets[j]);
    hide Verdicts, Truthful;
    VerdictMoves(Books(s), Books(DoDestroyJoined(s, j)), j);
  }

  lemma AttachVerdicts(s: State, j: JobId)
    requires CanAttach(s, j) && Verdicts(Books(s))
    ensures Verdicts(Books(DoAttach(s, j)))
  {
    var id := s.jobs[j].request.body.actorId;
    assert Truthful(s.jobs[j], Returned(Null), s.targets[j]) && Truthful(s.jobs[j], NotFound(id), s.targets[j]);
    hide Verdicts, Truthful, DoCompute;
    ComputeVerdicts(s, j, if id in s.table then Returned(Null) else NotFound(id));
  }

  lemma TaskVerdicts(setup: Setup, s: State, step: TaskStep)
    requires Inv(setup, s) && CanTask(s, step) && Verdicts(Books(s))
    ensures Verdicts(Books(DoTask(s, step)))
  {
    hide Executors, Complete, Shutdowns, TableOk, JobHolders, ConnHolders, StopHolders, Owners, Builders, PoolJobs,
      Results, OwnJobs, Places, Histories, Conns, Outputs, Flags, Drops, StopOk, Windows, Creations, Destructions,
      Drained, AnswerOrder, Verdicts, Truthful, DoAttach, DoDestroy, DoDestroyJoined, DoCompute;
    match step {
      case PoolStart => PoolTakeVerdicts(s, Started);
      case PoolCancel => PoolTakeVerdicts(s, Cancelled);
      case FunctionReturns(j, outcome) =>
        if outcome.Some? {
          AnyOutcome(s.jobs[j], outcome.value, s.targets[j]);
          ComputeVerdicts(s, j, outcome.value);
        } else {
          VerdictStages(Books(s), Books(DoReturn(s, j, outcome)));
        }
      case ReportMissing(j) =>
        MissingOutcome(s.jobs[j], s.targets[j]);
        ComputeVerdicts(s, j, NotFound(s.jobs[j].request.body.actorId));
      case Attach(j) => AttachVerdicts(s, j);
      case Destroy(j) =>
        FreshResult(s, j);
        PendingTarget(s, j);
        DestroyVerdicts(s, j);
      case DestroyShutdown(j) =>
        FreshResult(s, j);
        DestroyerFacts(s, j);
        VerdictMoves(Books(s), Books(DoDestroyShutdown(s, j)), j);
      case DestroyJoined(j) =>
        DestroyerFacts(s, j);
        DestroyJoinedVerdicts(s, j);
      case _ => CreateVerdicts(s, step);
    }
  }

  lemma AnyOutcome(job: Job, outcome: Outcome, target: Option<EntryId>)
    requires job.request.body.Call?
    ensures Truthful(job, outcome, target)
  {
  }

  lemma MissingOutcome(job: Job, target: Option<EntryId>)
    requires job.request.body.CallActor?
    ensures Truthful(job, NotFound(job.request.body.actorId), target)
  {
  }

  lemma PoolTakeVerdicts(s: State, stage: Stage)
    requires CanPoolTake(s) && Verdicts(Books(s))
    ensures Verdicts(Books(DoPoolTake(s, stage)))
  {
  }

  lemma InvokeVerdicts(setup: Setup, s: State, e: EntryId)
    requires Inv(setup, s) && CanActorInvoke(s, e) && Verdicts(Books(s))
    ensures Verdicts(Books(DoActorInvoke(setup, s, e)))
  {
    hide Executors, Complete, Shutdowns, TableOk, JobHolders, ConnHolders, StopHolders, Owners, Builders, PoolJobs,
      Results, OwnJobs, Places, Histories, Conns, Outputs, Flags, Drops, StopOk, Windows, Creations, Destructions,
      Drained, AnswerOrder, Verdicts, Truthful, RunMethod;
    var t := DoActorInvoke(setup, s, e);
    var j := s.execs[e].worker.job;
    RunningFacts(setup, s, e);
    FreshResult(s, j);
    if t.results[j].Some? { OwnOutcome(s.jobs[j], t.results[j].value, t.targets[j]); }
    VerdictMoves(Books(s), Books(t), j);
  }

  lemma WorkVerdicts(setup: Setup, s: State, step: WorkStep)
    requires Inv(setup, s) && CanWork(setup, s, step) && Verdicts(Books(s))
    ensures Verdicts(Books(DoWork(setup, s, step)))
  {
    hide Inv, Verdicts, RunMethod, Transmit, DoActorInvoke;
    if step.ActorInvoke? {
      InvokeVerdicts(setup, s, step.e);
    } else {
      SameResults(setup, s, step);
      VerdictStages(Books(s), Books(DoWork(setup, s, step)));
    }
  }

  lemma SameResults(setup: Setup, s: State, step: WorkStep)
    requires CanWork(setup, s, step) && !step.ActorInvoke?
    ensures var t := DoWork(setup, s, step);
      Balanced(Books(t)) && t.jobs == s.jobs && t.results == s.results && t.targets == s.targets
  {
    hide RunMethod, Transmit;
  }

  lemma OwnOutcome(job: Job, outcome: Outcome, target: Option<EntryId>)
    requires job.request.body.CallActor? && job.lane.Own?
    ensures Truthful(job, outcome, target)
  {
  }

  lemma VerdictStages(a: Ledger, b: Ledger)
    requires Verdicts(a) && Balanced(b) && b.jobs == a.jobs && b.results == a.results && b.targets == a.targets
    ensures Verdicts(b)
  {
  }

  lemma StepVerdicts(setup: Setup, s: State, step: Step)
    requires Inv(setup, s) && Can(setup, s, step) && Verdicts(Books(s))
    ensures Verdicts(Books(Do(setup, s, step)))
  {
    hide Inv, Verdicts, CanConn, DoConn, CanTask, DoTask, CanWork, DoWork;
    match step
    case ByConnection(x) => ConnVerdicts(s, x);
    case ByTask(x) => TaskVerdicts(setup, s, x);
    case ByWorker(x) => WorkVerdicts(setup, s, x);
    case ByStopper(_) =>
  }

  lemma InitialVerdicts()
    ensures Verdicts(Books(INITIAL))
  {
  }

  lemma {:induction false} RunVerdicts(setup: Setup, states: seq<State>, steps: seq<Step>, i: nat)
    requires IsRun(setup, states, steps) && i < |states|
    ensures Verdicts(Books(states[i]))
  {
    hide Inv, Can, Do, Verdicts;
    if i == 0 {
      InitialVerdicts();
    } else {
      RunVerdicts(setup, states, steps, i - 1);
      RunInv(setup, states, steps, i - 1);
      StepVerdicts(setup, states[i - 1], steps[i - 1]);
    }
  }

  /** Every outcome is the truth: a creation succeeds if and only if it published an actor, a destruction if and
      only if it took its own connection's actor out of the table, and everything
      else about actors is reported as not found or not owned. */
  lemma OutcomesAreTruthful(setup: Setup, states: seq<State>, steps: seq<Step>, i: nat, j: JobId)
    requires IsRun(setup, states, steps) && i < |states| && Shape(states[i]) && j < |states[i].jobs|
    requires states[i].results[j].Some?
    ensures Truthful(states[i].jobs[j], states[i].results[j].value, states[i].targets[j])
    ensures states[i].targets[j].Some? && states[i].jobs[j].request.body.DestroyActor? ==>
      && states[i].targets[j].value < |states[i].custody|
      && states[i].custody[states[i].targets[j].value].owner == states[i].jobs[j].conn
      && states[i].custody[states[i].targets[j].value].actorId == states[i].jobs[j].request.body.actorId
  {
    RunVerdicts(setup, states, steps, i);
    RunInv(setup, states, steps, i);
    hide Executors, Complete, Shutdowns, TableOk, JobHolders, ConnHolders, StopHolders, Owners, Builders, PoolJobs,
      Results, OwnJobs, Places, Histories, Conns, Outputs, Flags, Drops, StopOk, Windows, Creations,
      Drained, AnswerOrder, Truthful, IsRun;
  }
}
