/** Where results come from: the one step of the past in which user code gave them or the table was asked. */
module ServerCauses {
  import opened Base
  import opened Messages
  import opened Server
  import opened ServerInvariant
  import opened ServerSteps
  import opened ServerRuns
  import opened ServerHistory
  import opened ServerTheorems
  import opened ServerAccounting
  import opened ServerOutcomes

  // ---------- One step of a run ----------

  /** What is known of a step of a run and the states around it. */
  lemma StepFacts(setup: Setup, states: seq<State>, steps: seq<Step>, i: nat)
    requires IsRun(setup, states, steps) && i < |steps|
    ensures Can(setup, states[i], steps[i]) && states[i + 1] == Do(setup, states[i], steps[i])
    ensures Shape(states[i]) && Shape(states[i + 1])
    ensures Builders(states[i].jobs, states[i].stages, states[i].custody) && Results(states[i].stages, states[i].results)
    ensures Destructions(states[i].jobs, states[i].stages, states[i].results, states[i].targets, states[i].custody)
    ensures JobsFollow(Books(states[i]), Books(states[i + 1])) && EntriesFollow(states[i].custody, states[i + 1].custody)
    ensures Arrives(states[i], steps[i], states[i + 1])
  {
    hide Executors, Complete, Shutdowns, TableOk, JobHolders, ConnHolders, StopHolders, Owners, Builders, PoolJobs,
      Results, OwnJobs, Places, Histories, Conns, Outputs, Flags, Drops, StopOk, Windows, Creations, Destructions,
      Drained, AnswerOrder, Can, Do, Makers, JobsFollow, EntriesFollow, ConnsFollow, OutputFollows, Arrives;
    RunInv(setup, states, steps, i);
    RunMakers(setup, states, steps, i);
    StepFollows(setup, states[i], steps[i]);
  }

  lemma SameJob(a: Ledger, b: Ledger, j: JobId)
    requires JobsFollow(a, b) && j < |a.jobs|
    ensures j < |b.jobs| && b.jobs[j] == a.jobs[j]
  {
  }

  // ---------- The job that a step is about ----------

  function Subject(s: State, step: Step): Option<JobId> {
    match step
    case ByTask(PoolStart) => if s.poolQueue != [] then Some(s.poolQueue[0]) else None
    case ByTask(PoolCancel) => if s.poolQueue != [] then Some(s.poolQueue[0]) else None
    case ByTask(x) => Some(x.j)
    case ByWorker(ActorStart(e)) => if e < |s.execs| && s.execs[e].queue != [] then Some(s.execs[e].queue[0]) else None
    case ByWorker(ActorCancel(e)) => if e < |s.execs| && s.execs[e].queue != [] then Some(s.execs[e].queue[0]) else None
    case ByWorker(ActorInvoke(e)) => if e < |s.execs| && s.execs[e].worker.Running? then Some(s.execs[e].worker.job) else None
    case ByWorker(x) => Some(x.j)
    case _ => None
  }

  /** Nothing changes for job `j`. */
  predicate Rests(s: State, u: State, j: JobId) {
    && Shape(s) && Shape(u) && j < |s.jobs| <= |u.jobs|
    && u.stages[j] == s.stages[j] && u.results[j] == s.results[j] && u.targets[j] == s.targets[j]
  }

  lemma HandleRests(s: State, c: Conn, request: Request, j: JobId)
    requires CanHandle(s, c) && j < |s.jobs|
    ensures Rests(s, DoHandle(s, c, request), j)
  {
  }

  lemma ConnRests(s: State, step: ConnStep, j: JobId)
    requires CanConn(s, step) && Shape(s) && j < |s.jobs|
    ensures Rests(s, DoConn(s, step), j)
  {
    hide DoHandle, HandOver;
    if step.Handle? { HandleRests(s, step.c, step.request, j); }
  }

  lemma StopRests(s: State, step: StopStep, j: JobId)
    requires CanStop(s, step) && Shape(s) && j < |s.jobs|
    ensures Rests(s, DoStop(s, step), j)
  {
  }

  lemma WorkRests(setup: Setup, s: State, step: WorkStep, j: JobId)
    requires CanWork(setup, s, step) && Shape(s) && j < |s.jobs| && Subject(s, ByWorker(step)) != Some(j)
    ensures Rests(s, DoWork(setup, s, step), j)
  {
    hide RunMethod, Transmit;
  }

  predicate OfDestruction(step: TaskStep) {
    step.Destroy? || step.DestroyShutdown? || step.DestroyJoined?
  }

  lemma PublishRests(s: State, i: JobId, j: JobId)
    requires CanPublish(s, i) && j < |s.jobs| && i != j
    ensures Rests(s, DoPublish(s, i), j)
  {
  }

  lemma DestructionRests(s: State, step: TaskStep, j: JobId)
    requires CanTask(s, step) && OfDestruction(step) && Shape(s) && j < |s.jobs| && step.j != j
    ensures Rests(s, DoTask(s, step), j)
  {
  }

  lemma TaskRests(s: State, step: TaskStep, j: JobId)
    requires CanTask(s, step) && !OfDestruction(step) && !step.Publish?
    requires Shape(s) && j < |s.jobs| && Subject(s, ByTask(step)) != Some(j)
    ensures Rests(s, DoTask(s, step), j)
  {
  }

  /** A step changes nothing for jobs that it is not about. */
  lemma OthersRest(setup: Setup, s: State, step: Step, j: JobId)
    requires Can(setup, s, step) && Shape(s) && j < |s.jobs| && Subject(s, step) != Some(j)
    ensures Rests(s, Do(setup, s, step), j)
  {
    hide CanConn, DoConn, CanTask, DoTask, CanWork, DoWork, CanStop, DoStop, DoPublish, Rests;
    match step {
      case ByConnection(x) => ConnRests(s, x, j);
      case ByWorker(x) => WorkRests(setup, s, x, j);
      case ByStopper(x) => StopRests(s, x, j);
      case ByTask(x) =>
        if x.Publish? { PublishStep(s, x.j, j); }
        else if OfDestruction(x) { DestructionRests(s, x, j); }
        else { TaskRests(s, x, j); }
    }
  }

  lemma PublishStep(s: State, i: JobId, j: JobId)
    requires CanTask(s, Publish(i)) && j < |s.jobs| && i != j
    ensures Rests(s, DoTask(s, Publish(i)), j)
  {
    hide DoPublish, Rests;
    PublishRests(s, i, j);
  }

  // ---------- Functions ----------

  predicate IsFunction(s: State, j: JobId) {
    Shape(s) && j < |s.jobs| && s.jobs[j].request.body.Call?
  }

  /** The task of job `j` is over, or has its result. */
  predicate Computed(s: State, j: JobId) {
    Shape(s) && j < |s.jobs| && (s.results[j].Some? || s.stages[j] == Silent)
  }

  /** A step about a function call that has not computed its result is its start, its cancelling or its return. */
  lemma FunctionSubject(setup: Setup, s: State, step: Step, j: JobId)
    requires Can(setup, s, step) && Subject(s, step) == Some(j) && IsFunction(s, j)
    requires Builders(s.jobs, s.stages, s.custody) && Results(s.stages, s.results)
    ensures
      || step == ByTask(PoolStart) || step == ByTask(PoolCancel)
      || (step.ByTask? && step.task.FunctionReturns? && !Computed(s, j))
      || (step.ByWorker? && (step.work.ActorStart? || step.work.ActorCancel? || (Computed(s, j) && s.results[j].Some?)))
  {
    hide RunMethod, Transmit;
  }

  lemma KeepsResult(setup: Setup, s: State, step: Step, j: JobId)
    requires Can(setup, s, step) && Shape(s) && j < |s.jobs|
    requires step == ByTask(PoolStart) || step == ByTask(PoolCancel) ||
      (step.ByWorker? && (step.work.ActorStart? || step.work.ActorCancel?))
    ensures var u := Do(setup, s, step);
      Shape(u) && j < |u.jobs| && u.results[j] == s.results[j] && (u.stages[j] == Silent ==> s.stages[j] == Silent)
  {
  }

  /** Only the function's own return gives a function call its result or its silence. */
  lemma FunctionStep(setup: Setup, s: State, step: Step, j: JobId)
    requires Can(setup, s, step) && IsFunction(s, j)
    requires Builders(s.jobs, s.stages, s.custody) && Results(s.stages, s.results)
    requires !Computed(s, j) && Computed(Do(setup, s, step), j)
    ensures step == ByTask(FunctionReturns(j, Do(setup, s, step).results[j]))
  {
    if Subject(s, step) == Some(j) {
      FunctionSubject(setup, s, step, j);
      if step.ByTask? && step.task.FunctionReturns? {
        ReturnRecords(setup, s, j, step.task.outcome);
      } else {
        hide Can, Do;
        KeepsResult(setup, s, step, j);
        assert false;
      }
    } else {
      hide Can, Do;
      OthersRest(setup, s, step, j);
      assert false;
    }
  }

  /** A function that is under way can come to anything, and what it comes to is recorded. */
  lemma ReturnRecords(setup: Setup, s: State, j: JobId, outcome: Option<Outcome>)
    requires IsFunction(s, j) && s.stages[j] == Started && s.jobs[j].lane == Shared && s.jobs[j].conn < |s.conns|
    ensures var step := ByTask(FunctionReturns(j, outcome));
      && Can(setup, s, step)
      && var u := Do(setup, s, step);
         if outcome.Some? then u.stages[j] == Replying && u.results[j] == outcome
         else u.stages[j] == Silent && u.results[j] == s.results[j]
  {
  }

  /** A request that has just been accepted has no result yet. */
  lemma NewIsNotComputed(setup: Setup, s: State, step: Step, j: JobId)
    requires Can(setup, s, step) && Shape(s) && |s.jobs| <= j && Arrives(s, step, Do(setup, s, step))
    ensures !Computed(Do(setup, s, step), j)
  {
  }

  lemma {:induction false} FindReturn(setup: Setup, states: seq<State>, steps: seq<Step>, i: nat, j: JobId) returns (k: nat)
    requires IsRun(setup, states, steps) && i < |states| && IsFunction(states[i], j) && Computed(states[i], j)
    ensures k < i && steps[k] == ByTask(FunctionReturns(j, states[i].results[j]))
  {
    k := 0;
    if i == 0 {
      assert false;
    } else {
      k := i - 1;
      StepFacts(setup, states, steps, k);
      if |states[k].jobs| <= j {
        NewIsNotComputed(setup, states[k], steps[k], j);
        assert false;
      } else {
        SameJob(Books(states[k]), Books(states[i]), j);
        hide Can, Do, Builders, Results, EntriesFollow, Arrives;
        if Computed(states[k], j) {
          k := FindReturn(setup, states, steps, i - 1, j);
          StaysComputed(setup, states, steps, i - 1, j, k);
        } else {
          hide JobsFollow, Computed;
          FunctionStep(setup, states[k], steps[k], j);
        }
      }
    }
  }

  /** A function call's result stays as it is, and so does its silence. */
  lemma StaysComputed(setup: Setup, states: seq<State>, steps: seq<Step>, i: nat, j: JobId, k: nat)
    requires IsRun(setup, states, steps) && i < |steps| && IsFunction(states[i], j) && Computed(states[i], j) && k < i
    requires steps[k] == ByTask(FunctionReturns(j, states[i].results[j]))
    requires Shape(states[i + 1]) && j < |states[i + 1].jobs|
    ensures states[i + 1].results[j] == states[i].results[j]
  {
    StepFacts(setup, states, steps, i);
    if states[i].results[j] == None {
      SilentStays(setup, states[i], steps[i], j);
    }
    hide Can, Do, Builders, Results, EntriesFollow, Arrives;
  }

  lemma SilentStays(setup: Setup, s: State, step: Step, j: JobId)
    requires Can(setup, s, step) && IsFunction(s, j) && s.stages[j] == Silent && s.results[j] == None
    requires Builders(s.jobs, s.stages, s.custody) && Results(s.stages, s.results)
    ensures var u := Do(setup, s, step); Shape(u) && j < |u.jobs| && u.results[j] == None
  {
    if Subject(s, step) == Some(j) {
      FunctionSubject(setup, s, step, j);
      hide Can, Do;
      KeepsResult(setup, s, step, j);
    } else {
      hide Can, Do;
      OthersRest(setup, s, step, j);
    }
  }

  /** Once a job has been started and has gone on it is not started again. */
  lemma ReturnsOnce(setup: Setup, states: seq<State>, steps: seq<Step>, j: JobId, k: nat, m: nat)
    requires IsRun(setup, states, steps) && k < |steps| && m < |steps|
    requires steps[k].ByTask? && steps[k].task.FunctionReturns? && steps[k].task.j == j
    requires steps[m].ByTask? && steps[m].task.FunctionReturns? && steps[m].task.j == j
    ensures k == m
  {
    if k < m {
      StartedNoMore(setup, states, steps, k, m);
      assert false;
    } else if m < k {
      StartedNoMore(setup, states, steps, m, k);
      assert false;
    }
  }

  lemma StartedNoMore(setup: Setup, states: seq<State>, steps: seq<Step>, k: nat, m: nat)
    requires IsRun(setup, states, steps) && k < m < |steps|
    requires steps[k].ByTask? && steps[k].task.FunctionReturns?
    ensures !(steps[m].ByTask? && steps[m].task.FunctionReturns? && steps[m].task.j == steps[k].task.j)
  {
    var j := steps[k].task.j;
    assert Can(setup, states[k], steps[k]) && states[k + 1] == Do(setup, states[k], steps[k]);
    assert states[k + 1].stages[j] == Replying || states[k + 1].stages[j] == Silent;
    assert j < |states[k + 1].jobs|;
    assert Can(setup, states[m], steps[m]);
    assert steps[m].ByTask? && steps[m].task.FunctionReturns? && steps[m].task.j == j ==> states[m].stages[j] == Started;
    hide Can, Do;
    RunFollows(setup, states, steps, k + 1, m);
    hide EntriesFollow, ConnsFollow, OutputFollows;
  }

  /** A function is called once and its caller gets what it came to: a function call that is over, other than by being
      dropped or cancelled, or has its result, was returned from in exactly one step of the
      past, and that step's outcome is the result on record, or there is none. */
  lemma FunctionsReturnTheirResult(setup: Setup, states: seq<State>, steps: seq<Step>, i: nat, j: JobId) returns (k: nat)
    requires IsRun(setup, states, steps) && i < |states| && IsFunction(states[i], j) && Computed(states[i], j)
    ensures k < i && steps[k] == ByTask(FunctionReturns(j, states[i].results[j]))
    ensures forall m :: 0 <= m < |steps| && steps[m].ByTask? && steps[m].task.FunctionReturns? && steps[m].task.j == j ==> m == k
  {
    hide Can, Do;
    k := FindReturn(setup, states, steps, i, j);
    forall m | 0 <= m < |steps| && steps[m].ByTask? && steps[m].task.FunctionReturns? && steps[m].task.j == j ensures m == k {
      ReturnsOnce(setup, states, steps, j, k, m);
    }
  }

  // ---------- Attachments and destructions ----------

  predicate IsAttachment(s: State, j: JobId) {
    j < |s.jobs| && s.jobs[j].request.body.AttachActor?
  }

  /** The answer to attachment `j`, by the table of state `s`. */
  function AttachVerdict(s: State, j: JobId): Outcome
    requires IsAttachment(s, j)
  {
    var id := s.jobs[j].request.body.actorId;
    if id in s.table then Returned(Null) else Raised(Error("ActorNotFoundError", id))
  }

  predicate IsDestruction(s: State, j: JobId) {
    j < |s.jobs| && s.jobs[j].request.body.DestroyActor?
  }

  /** The answer to destruction `j`, by the table of state `s`. */
  function DestroyVerdict(s: State, j: JobId): Outcome
    requires IsDestruction(s, j) && TableInBounds(s)
  {
    var id := s.jobs[j].request.body.actorId;
    if id !in s.table then Raised(Error("ActorNotFoundError", id))
    else if s.custody[s.table[id]].owner != s.jobs[j].conn then Raised(Error("ActorOwnershipError", id))
    else Returned(Null)
  }

  predicate Looks(s: State, j: JobId) {
    IsAttachment(s, j) || IsDestruction(s, j)
  }

  /** Job `j` has its answer, or the entry it is to destroy. */
  predicate Decided(s: State, j: JobId) {
    Shape(s) && j < |s.jobs| && (s.results[j].Some? || s.targets[j].Some?)
  }

  /** In this step job `j` looked at the table, and got its answer or the entry to destroy. */
  predicate Looked(s: State, step: Step, u: State, j: JobId) {
    && Shape(u) && j < |u.jobs|
    && match step
       case ByTask(Attach(i)) => i == j && IsAttachment(s, j) && u.results[j] == Some(AttachVerdict(s, j))
       case ByTask(Destroy(i)) =>
         && i == j && IsDestruction(s, j) && TableInBounds(s)
         && if DestroyVerdict(s, j) == Returned(Null) then u.targets[j].Some? else u.results[j] == Some(DestroyVerdict(s, j))
       case _ => false
  }

  lemma AttachStep(setup: Setup, s: State, j: JobId)
    requires Can(setup, s, ByTask(Attach(j)))
    ensures Looked(s, ByTask(Attach(j)), Do(setup, s, ByTask(Attach(j))), j)
  {
  }

  lemma DestroyStep(setup: Setup, s: State, j: JobId)
    requires Can(setup, s, ByTask(Destroy(j)))
    ensures Looked(s, ByTask(Destroy(j)), Do(setup, s, ByTask(Destroy(j))), j)
  {
  }

  /** Any other step about such a job that is undecided leaves it undecided. */
  lemma UndecidedStays(setup: Setup, s: State, step: Step, j: JobId)
    requires Can(setup, s, step) && Shape(s) && Looks(s, j) && Subject(s, step) == Some(j) && !Decided(s, j)
    requires step != ByTask(Attach(j)) && step != ByTask(Destroy(j))
    requires Builders(s.jobs, s.stages, s.custody)
    requires Destructions(s.jobs, s.stages, s.results, s.targets, s.custody)
    ensures !Decided(Do(setup, s, step), j)
  {
    hide RunMethod, Transmit;
    LookingSubject(setup, s, step, j);
    hide Builders, Destructions;
  }

  lemma LookingSubject(setup: Setup, s: State, step: Step, j: JobId)
    requires Can(setup, s, step) && Shape(s) && Looks(s, j) && Subject(s, step) == Some(j) && !Decided(s, j)
    requires step != ByTask(Attach(j)) && step != ByTask(Destroy(j))
    requires Builders(s.jobs, s.stages, s.custody)
    requires Destructions(s.jobs, s.stages, s.results, s.targets, s.custody)
    ensures step == ByTask(PoolStart) || step == ByTask(PoolCancel) ||
      (step.ByWorker? && (step.work.ActorStart? || step.work.ActorCancel?))
  {
    hide RunMethod, Transmit;
  }

  lemma LookingDecides(setup: Setup, s: State, step: Step, j: JobId)
    requires Can(setup, s, step) && Shape(s) && j < |s.jobs| && Looks(s, j)
    requires Builders(s.jobs, s.stages, s.custody)
    requires Destructions(s.jobs, s.stages, s.results, s.targets, s.custody)
    requires !Decided(s, j) && Decided(Do(setup, s, step), j)
    ensures Looked(s, step, Do(setup, s, step), j)
  {
    hide Can, Do, Builders, Destructions, Looked, Looks;
    if step == ByTask(Attach(j)) { AttachStep(setup, s, j); }
    else if step == ByTask(Destroy(j)) { DestroyStep(setup, s, j); }
    else if Subject(s, step) == Some(j) { UndecidedStays(setup, s, step, j); }
    else { OthersRest(setup, s, step, j); }
  }

  /** A job that has just been accepted has neither result nor target. */
  lemma NewIsBlank(setup: Setup, s: State, step: Step, j: JobId)
    requires Can(setup, s, step) && Shape(s) && |s.jobs| <= j && Arrives(s, step, Do(setup, s, step))
    ensures !Decided(Do(setup, s, step), j)
  {
  }

  /** A job that has its answer or its entry looked at the table in an earlier step. */
  lemma {:induction false} FindLook(setup: Setup, states: seq<State>, steps: seq<Step>, i: nat, j: JobId) returns (k: nat)
    requires IsRun(setup, states, steps) && i < |states| && Looks(states[i], j) && Decided(states[i], j)
    ensures k < i && Looked(states[k], steps[k], states[k + 1], j)
  {
    k := 0;
    if i == 0 {
      assert false;
    } else {
      k := i - 1;
      StepFacts(setup, states, steps, k);
      if |states[k].jobs| <= j {
        NewIsBlank(setup, states[k], steps[k], j);
        assert false;
      } else {
        SameJob(Books(states[k]), Books(states[i]), j);
        assert Looks(states[k], j);
        hide Can, Do, Builders, Results, Destructions, EntriesFollow, JobsFollow, Arrives, Looked, Looks;
        if Decided(states[k], j) {
          k := FindLook(setup, states, steps, i - 1, j);
        } else {
          hide Decided;
          LookingDecides(setup, states[k], steps[k], j);
        }
      }
    }
  }

  /** The answer to an attachment is what the table said at the one step in which the attachment looked. */
  lemma AttachmentsLookOnce(setup: Setup, states: seq<State>, steps: seq<Step>, i: nat, j: JobId) returns (k: nat)
    requires IsRun(setup, states, steps) && i < |states| && Shape(states[i]) && IsAttachment(states[i], j)
    requires states[i].results[j].Some?
    ensures k < i && steps[k] == ByTask(Attach(j)) && IsAttachment(states[k], j)
    ensures var id := states[i].jobs[j].request.body.actorId;
      states[i].results[j].value == if id in states[k].table then Returned(Null) else Raised(Error("ActorNotFoundError", id))
  {
    hide Can, Do;
    k := FindLook(setup, states, steps, i, j);
    RunFollows(setup, states, steps, k, i);
    RunFollows(setup, states, steps, k + 1, i);
    hide IsRun, DestroyVerdict, EntriesFollow, ConnsFollow, OutputFollows;
  }

  /** The answer to a destruction is what the table said at the one step in which it looked: not found exactly when the
      actor was not there, not owned exactly when it was another connection's, and success exactly
      when it was its own. */
  lemma DestructionsLookOnce(setup: Setup, states: seq<State>, steps: seq<Step>, i: nat, j: JobId) returns (k: nat)
    requires IsRun(setup, states, steps) && i < |states| && Shape(states[i]) && IsDestruction(states[i], j)
    requires states[i].results[j].Some?
    ensures k < i && steps[k] == ByTask(Destroy(j)) && TableInBounds(states[k])
    ensures var id, outcome := states[i].jobs[j].request.body.actorId, states[i].results[j].value;
      if id !in states[k].table then outcome == Raised(Error("ActorNotFoundError", id))
      else if states[k].custody[states[k].table[id]].owner != states[i].jobs[j].conn then
        outcome == Raised(Error("ActorOwnershipError", id))
      else outcome == Returned(Null)
  {
    hide Can, Do;
    k := FindLook(setup, states, steps, i, j);
    RunFollows(setup, states, steps, k, i);
    RunFollows(setup, states, steps, k + 1, i);
    OutcomesAreTruthful(setup, states, steps, i, j);
    hide IsRun, AttachVerdict, EntriesFollow, ConnsFollow, OutputFollows;
  }

  // ---------- Creations ----------

  predicate IsCreation(s: State, j: JobId) {
    Shape(s) && j < |s.jobs| && s.jobs[j].request.body.CreateActor?
  }

  /** The creation has failed with `error` and is not yet answered. */
  predicate HasFailed(s: State, j: JobId, error: Error) {
    Shape(s) && j < |s.jobs| &&
    ((s.stages[j].Unpublished? && s.stages[j].error == error) || s.stages[j] == Faulted(error))
  }

  /** Why a creation fails: its constructor raised, or publishing found its connection closed or its id taken. */
  predicate Fails(s: State, step: Step, j: JobId, error: Error) {
    IsCreation(s, j) && s.jobs[j].conn < |s.conns| &&
    match step
    case ByTask(Construct(i, built)) => i == j && built == Err(Some(error))
    case ByTask(Publish(i)) =>
      && i == j
      && if s.conns[s.jobs[j].conn].closed then
           error == Error("ConnectionClosedError", "client disconnected during actor creation")
         else s.jobs[j].request.body.actorId in s.table && error == Error("ValueError", s.jobs[j].request.body.actorId)
    case _ => false
  }

  lemma PublishFails(setup: Setup, s: State, j: JobId, error: Error)
    requires Can(setup, s, ByTask(Publish(j))) && IsCreation(s, j)
    requires Builders(s.jobs, s.stages, s.custody) && HasFailed(Do(setup, s, ByTask(Publish(j))), j, error)
    ensures Fails(s, ByTask(Publish(j)), j, error)
  {
  }

  lemma TaskFailure(s: State, step: TaskStep, j: JobId, error: Error)
    requires CanTask(s, step) && IsCreation(s, j) && Subject(s, ByTask(step)) == Some(j)
    requires HasFailed(DoTask(s, step), j, error) && !step.Publish?
    ensures HasFailed(s, j, error) || Fails(s, ByTask(step), j, error)
  {
    match step {
      case Construct(_, built) => assert DoConstruct(s, j, built).stages[j] == Faulted(error);
      case Discard(_) => assert DoDiscard(s, j).stages[j] == Faulted(s.stages[j].error);
      case Destroy(_) => assert false;
      case DestroyShutdown(_) => assert false;
      case DestroyJoined(_) => assert false;
      case CheckClosed(_) => assert false;
      case _ =>
    }
  }

  lemma WorkFailure(setup: Setup, s: State, step: WorkStep, j: JobId, error: Error)
    requires CanWork(setup, s, step) && IsCreation(s, j) && Subject(s, ByWorker(step)) == Some(j)
    ensures !HasFailed(DoWork(setup, s, step), j, error)
  {
    hide RunMethod, Transmit;
  }

  /** Any step about a creation other than publishing it. */
  lemma FailureSubject(setup: Setup, s: State, step: Step, j: JobId, error: Error)
    requires Can(setup, s, step) && IsCreation(s, j) && Subject(s, step) == Some(j)
    requires HasFailed(Do(setup, s, step), j, error) && step != ByTask(Publish(j))
    ensures HasFailed(s, j, error) || Fails(s, step, j, error)
  {
    hide CanTask, DoTask, CanWork, DoWork, HasFailed, Fails;
    match step {
      case ByTask(x) => TaskFailure(s, x, j, error);
      case ByWorker(x) => WorkFailure(setup, s, x, j, error);
      case _ => assert false;
    }
  }

  lemma FailureStep(setup: Setup, s: State, step: Step, j: JobId, error: Error)
    requires Can(setup, s, step) && IsCreation(s, j) && Builders(s.jobs, s.stages, s.custody)
    requires HasFailed(Do(setup, s, step), j, error)
    ensures HasFailed(s, j, error) || Fails(s, step, j, error)
  {
    if Subject(s, step) == Some(j) {
      hide Can, Do, Builders, HasFailed, Fails;
      if step == ByTask(Publish(j)) { PublishFails(setup, s, j, error); } else { FailureSubject(setup, s, step, j, error); }
    } else {
      hide Can, Do, Builders, Fails;
      OthersRest(setup, s, step, j);
    }
  }

  lemma NewHasNotFailed(setup: Setup, s: State, step: Step, j: JobId, error: Error)
    requires Can(setup, s, step) && Shape(s) && |s.jobs| <= j && Arrives(s, step, Do(setup, s, step))
    ensures !HasFailed(Do(setup, s, step), j, error)
  {
  }

  lemma {:induction false} FindFailure(setup: Setup, states: seq<State>, steps: seq<Step>, i: nat, j: JobId, error: Error)
      returns (k: nat)
    requires IsRun(setup, states, steps) && i < |states| && IsCreation(states[i], j) && HasFailed(states[i], j, error)
    ensures k < i && Fails(states[k], steps[k], j, error)
  {
    k := 0;
    if i == 0 {
      assert false;
    } else {
      k := i - 1;
      StepFacts(setup, states, steps, k);
      if |states[k].jobs| <= j {
        NewHasNotFailed(setup, states[k], steps[k], j, error);
        assert false;
      } else {
        SameJob(Books(states[k]), Books(states[i]), j);
        hide Can, Do, Builders, Results, Destructions, EntriesFollow, JobsFollow, Arrives, HasFailed, Fails;
        FailureStep(setup, states[k], steps[k], j, error);
        if HasFailed(states[k], j, error) {
          k := FindFailure(setup, states, steps, i - 1, j, error);
        }
      }
    }
  }

  /** The creation has its outcome. */
  predicate Settled(s: State, j: JobId) {
    Shape(s) && j < |s.jobs| && s.results[j].Some?
  }

  /** The step gives creation `j` its outcome: it published the actor, or its failure is to be reported. */
  predicate Settles(s: State, step: Step, j: JobId, outcome: Outcome) {
    IsCreation(s, j) && s.jobs[j].conn < |s.conns| && !s.conns[s.jobs[j].conn].closed &&
    match step
    case ByTask(Publish(i)) => i == j && s.jobs[j].request.body.actorId !in s.table && outcome == Returned(Null)
    case ByTask(CheckClosed(i)) => i == j && outcome.Raised? && HasFailed(s, j, outcome.error)
    case _ => false
  }

  lemma SettlingSubject(setup: Setup, s: State, step: Step, j: JobId)
    requires Can(setup, s, step) && IsCreation(s, j) && Subject(s, step) == Some(j)
    requires Builders(s.jobs, s.stages, s.custody)
    requires !Settled(s, j) && Settled(Do(setup, s, step), j)
    ensures step == ByTask(Publish(j)) || step == ByTask(CheckClosed(j))
  {
    hide RunMethod, Transmit;
  }

  lemma InsertSettles(s: State, j: JobId, e: EntryId)
    requires IsJob(s, j) && IsEntry(s, e)
    ensures |Insert(s, j, e).results| == |s.results| && Insert(s, j, e).results[j] == Some(Returned(Null))
  {
  }

  lemma PublishSettles(s: State, j: JobId)
    requires CanPublish(s, j) && IsCreation(s, j) && Builders(s.jobs, s.stages, s.custody)
    requires !Settled(s, j) && Settled(DoPublish(s, j), j)
    ensures Settles(s, ByTask(Publish(j)), j, DoPublish(s, j).results[j].value)
  {
    InsertSettles(s, j, s.stages[j].entry);
    hide Insert;
  }

  lemma SettlingStep(setup: Setup, s: State, step: Step, j: JobId)
    requires Can(setup, s, step) && IsCreation(s, j) && Builders(s.jobs, s.stages, s.custody)
    requires step == ByTask(Publish(j)) || step == ByTask(CheckClosed(j))
    requires !Settled(s, j) && Settled(Do(setup, s, step), j)
    ensures Settles(s, step, j, Do(setup, s, step).results[j].value)
  {
    if step == ByTask(Publish(j)) {
      PublishSettles(s, j);
      hide CanPublish, DoPublish, Builders, Shape, IsJob;
    }
  }

  lemma {:induction false} FindSettling(setup: Setup, states: seq<State>, steps: seq<Step>, i: nat, j: JobId) returns (k: nat)
    requires IsRun(setup, states, steps) && i < |states| && IsCreation(states[i], j) && states[i].results[j].Some?
    ensures k < i && Settles(states[k], steps[k], j, states[i].results[j].value)
  {
    k := 0;
    if i == 0 {
      assert false;
    } else {
      k := i - 1;
      StepFacts(setup, states, steps, k);
      if |states[k].jobs| <= j {
        NewIsBlank(setup, states[k], steps[k], j);
        assert false;
      } else {
        SameJob(Books(states[k]), Books(states[i]), j);
        hide Can, Do, Builders, Results, Destructions, EntriesFollow, Arrives, Settles;
        if Settled(states[k], j) {
          k := FindSettling(setup, states, steps, i - 1, j);
        } else {
          hide JobsFollow;
          if Subject(states[k], steps[k]) == Some(j) {
            SettlingSubject(setup, states[k], steps[k], j);
            SettlingStep(setup, states[k], steps[k], j);
          } else {
            OthersRest(setup, states[k], steps[k], j);
            assert false;
          }
        }
      }
    }
  }

  /** Why a creation has the outcome it has: success means that it published its actor under a free id while its
      connection was open, in one step of the past; a failure was reported on an open connection, and
      is what its own constructor raised or that its id was taken when it was to be published. */
  lemma CreationsTellWhatHappened(setup: Setup, states: seq<State>, steps: seq<Step>, i: nat, j: JobId)
      returns (k: nat, m: nat)
    requires IsRun(setup, states, steps) && i < |states| && IsCreation(states[i], j) && states[i].results[j].Some?
    ensures m <= k < i && Settles(states[k], steps[k], j, states[i].results[j].value)
    ensures states[i].results[j].value.Raised? ==>
      var e, id := states[i].results[j].value.error, states[i].jobs[j].request.body.actorId;
      || steps[m] == ByTask(Construct(j, Err(Some(e))))
      || (steps[m] == ByTask(Publish(j)) && id in states[m].table && e == Error("ValueError", id))
  {
    hide Can, Do;
    k := FindSettling(setup, states, steps, i, j);
    m := k;
    if states[i].results[j].value.Raised? {
      m := FindFailure(setup, states, steps, k, j, states[i].results[j].value.error);
      RunFollows(setup, states, steps, m, k);
      RunFollows(setup, states, steps, m, i);
    }
    hide IsRun, HasFailed, EntriesFollow, OutputFollows;
  }

  // ---------- Instances ----------

  lemma BuildsOne(s: State, step: TaskStep, e: EntryId)
    requires CanTask(s, step) && |s.execs| == |s.custody| <= e < |DoTask(s, step).custody|
    ensures var u := DoTask(s, step);
      |u.execs| == |u.custody| && step == Construct(u.custody[e].maker, Ok(u.execs[e].initial))
  {
    if !step.Construct? {
      KeepsEntries(s, step);
      assert false;
    }
  }

  lemma KeepsEntries(s: State, step: TaskStep)
    requires CanTask(s, step) && !step.Construct?
    ensures |DoTask(s, step).custody| == |s.custody|
  {
    hide DoPublish, DoDestroy, TableInBounds;
    if step.Publish? { PublishKeepsEntries(s, step.j); }
    if step.Destroy? { DestroyKeepsEntries(s, step.j); }
  }

  lemma InsertKeepsEntries(s: State, j: JobId, e: EntryId)
    requires IsJob(s, j) && IsEntry(s, e)
    ensures |Insert(s, j, e).custody| == |s.custody|
  {
  }

  lemma PublishKeepsEntries(s: State, j: JobId)
    requires CanPublish(s, j)
    ensures |DoPublish(s, j).custody| == |s.custody|
  {
    InsertKeepsEntries(s, j, s.stages[j].entry);
    hide Insert, Shape;
  }

  lemma DestroyKeepsEntries(s: State, j: JobId)
    requires CanDestroy(s, j)
    ensures |DoDestroy(s, j).custody| == |s.custody|
  {
  }

  lemma ConnKeepsEntries(s: State, step: ConnStep)
    requires CanConn(s, step)
    ensures |DoConn(s, step).custody| == |s.custody|
  {
    hide DoHandle;
    if step.Handle? { HandleKeepsEntries(s, step.c, step.request); }
  }

  lemma HandleKeepsEntries(s: State, c: Conn, request: Request)
    requires CanHandle(s, c)
    ensures |DoHandle(s, c, request).custody| == |s.custody|
  {
  }

  lemma StopKeepsEntries(s: State, step: StopStep)
    requires CanStop(s, step)
    ensures |DoStop(s, step).custody| == |s.custody|
  {
  }

  /** Entry `e` is new in this step, in which its creation's constructor built its instance. */
  lemma BuildingStep(setup: Setup, s: State, step: Step, e: EntryId)
    requires Can(setup, s, step) && |s.execs| == |s.custody| <= e < |Do(setup, s, step).custody|
    ensures var u := Do(setup, s, step);
      |u.execs| == |u.custody| && step == ByTask(Construct(u.custody[e].maker, Ok(u.execs[e].initial)))
  {
    hide CanConn, DoConn, CanTask, DoTask, CanWork, DoWork, CanStop, DoStop;
    if step.ByTask? {
      BuildsOne(s, step.task, e);
    } else {
      match step {
        case ByConnection(x) => ConnKeepsEntries(s, x);
        case ByWorker(x) => WorkEntries(setup, s, x);
        case ByStopper(x) => StopKeepsEntries(s, x);
      }
      assert false;
    }
  }

  /** Every actor begins as what its own creation's constructor built. */
  lemma {:induction false} InstancesAreBuilt(setup: Setup, states: seq<State>, steps: seq<Step>, i: nat, e: EntryId) returns (k: nat)
    requires IsRun(setup, states, steps) && i < |states| && Shape(states[i]) && e < |states[i].custody|
    ensures k < i && steps[k] == ByTask(Construct(states[i].custody[e].maker, Ok(states[i].execs[e].initial)))
  {
    k := 0;
    if i == 0 {
      assert false;
    } else {
      k := i - 1;
      StepFacts(setup, states, steps, k);
      StepExecs(setup, states[k], steps[k]);
      if e < |states[k].custody| {
        hide Can, Do, Builders, Results, Destructions, JobsFollow, Arrives;
        k := InstancesAreBuilt(setup, states, steps, i - 1, e);
      } else {
        hide Can, Do, Builders, Results, Destructions, JobsFollow, Arrives, EntriesFollow;
        BuildingStep(setup, states[k], steps[k], e);
      }
    }
  }
}
