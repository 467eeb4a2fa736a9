/** What the runtime promises, as statements about every state of every run. */
module ServerTheorems {
  import opened Base
  import opened Messages
  import opened Server
  import opened ServerInvariant
  import opened ServerSteps
  import opened ServerRuns
  import opened ServerHistory

  // The predicates of the invariant are hidden in each theorem; the lemma it calls
  // says which of them the theorem rests on.

  // ---------- Requests are accepted in wire order ----------

  /** The requests accepted from connection `c`, in order. */
  ghost function Accepted(jobs: seq<Job>, c: Conn): seq<Request> {
    if jobs == [] then []
    else
      var last := jobs[|jobs| - 1];
      Accepted(jobs[..|jobs| - 1], c) + (if last.conn == c then [last.request] else [])
  }

  /** The requests the thread of connection `c` has read off the wire, in order. */
  ghost function ReadBy(steps: seq<Step>, c: Conn): seq<Request> {
    if steps == [] then []
    else
      var x := Arrival(steps[|steps| - 1]);
      ReadBy(steps[..|steps| - 1], c) + (if x.Some? && x.value.0 == c then [x.value.1] else [])
  }

  /** Job ids extend the wire order of every connection: the jobs of a connection
      are the requests its thread read, in that order and without omissions. */
  lemma {:induction false} WireOrder(setup: Setup, states: seq<State>, steps: seq<Step>, i: nat, c: Conn)
    requires IsRun(setup, states, steps) && i < |states|
    ensures Accepted(states[i].jobs, c) == ReadBy(steps[..i], c)
  {
    hide Inv, Makers, Follows, Can, Do;
    if i > 0 {
      WireOrder(setup, states, steps, i - 1, c);
      RunInv(setup, states, steps, i - 1);
      RunMakers(setup, states, steps, i - 1);
      StepFollows(setup, states[i - 1], steps[i - 1]);
      assert steps[..i][..i - 1] == steps[..i - 1];
      ArrivalExtends(states[i - 1], steps[i - 1], states[i], c);
    } else {
      assert INITIAL.jobs == [];
    }
  }

  lemma ArrivalExtends(s: State, step: Step, t: State, c: Conn)
    requires Arrives(s, step, t)
    ensures var x := Arrival(step);
      Accepted(t.jobs, c) == Accepted(s.jobs, c) + (if x.Some? && x.value.0 == c then [x.value.1] else [])
  {
  }

  // ---------- Actor calls are serial ----------

  predicate Underway(stage: Stage) {
    stage == Started || stage == Replying
  }

  /** The calls of one actor do not overlap: from the start of a method to the end of
      its answer, no other job of that actor is under way. */
  lemma CallsDoNotOverlap(setup: Setup, states: seq<State>, steps: seq<Step>, i: nat, e: EntryId, j: JobId, k: JobId)
    requires IsRun(setup, states, steps) && i < |states|
    requires Shape(states[i]) && j < |states[i].jobs| && k < |states[i].jobs|
    requires states[i].jobs[j].lane == states[i].jobs[k].lane == Own(e)
    requires Underway(states[i].stages[j]) && Underway(states[i].stages[k])
    ensures j == k
  {
    RunInv(setup, states, steps, i);
    var s := states[i];
    hide Executors, Complete, Shutdowns, TableOk, JobHolders, ConnHolders, StopHolders, Owners, Builders, PoolJobs,
      Results, OwnJobs, Places, Histories, Conns, Outputs, Flags, Drops, StopOk, Windows, Creations, Destructions,
      Drained, AnswerOrder;
    UnderwayFacts(s, j);
    UnderwayFacts(s, k);
  }

  lemma UnderwayFacts(s: State, j: JobId)
    requires Shape(s) && j < |s.jobs| && s.jobs[j].lane.Own? && Underway(s.stages[j])
    requires OwnJobs(s.jobs, s.custody, s.execs) && Places(s.jobs, s.stages, s.custody, s.execs)
    ensures s.jobs[j].lane.entry < |s.execs|
    ensures s.execs[s.jobs[j].lane.entry].worker == Running(j) || s.execs[s.jobs[j].lane.entry].worker == Finishing(j)
  {
  }

  /** What one call of method `name` on an instance in state `before` leaves behind and produces. */
  ghost predicate Executes(setup: Setup, before: Value, call: Body, after: Value, outcome: Option<Outcome>) {
    && call.CallActor?
    && if call.methodName != [] && call.methodName[0] == '_' then
         && after == before
         && outcome == Some(Raised(Error("AttributeError", "private actor methods are not remotely callable")))
       else
         var (looked, attribute) := setup.attribute(before, call.methodName);
         match attribute
         case Callable => (after, outcome) == setup.invoke(looked, call)
         case NotCallable =>
           after == looked && outcome == Some(Raised(Error("TypeError", "actor attribute is not callable")))
         case Fails(Some(e)) => after == looked && outcome == Some(Raised(e))
         case Fails(None) => after == looked && outcome == None
  }

  /** `trace` leads an instance from `initial` to `instance` by the calls of the history, each with the outcome that
      it has there. */
  ghost predicate Leads(setup: Setup, initial: Value, history: seq<Invocation>, instance: Value, trace: seq<Value>) {
    && |trace| == |history| + 1 && trace[0] == initial && trace[|history|] == instance
    && forall k {:trigger history[k]} :: 0 <= k < |history| ==>
         Executes(setup, trace[k], history[k].call, trace[k + 1], history[k].outcome)
  }

  /** The jobs an actor's executor ran, what they asked for and what they got: a total order by
      job id, hence of every connection's wire order, whose results and final
      instance are those of executing the calls one after the other, each on the
      instance that the one before has left. */
  ghost predicate Serial(setup: Setup, s: State, e: EntryId, trace: seq<Value>)
    requires Shape(s) && e < |s.execs|
  {
    var exec := s.execs[e];
    && Increasing(exec.ran) && |exec.history| == |exec.ran|
    && Leads(setup, exec.initial, exec.history, exec.instance, trace)
    && (forall k {:trigger exec.ran[k]} :: 0 <= k < |exec.ran| ==>
          && exec.ran[k] < |s.jobs| && s.jobs[exec.ran[k]].lane == Own(e)
          && s.jobs[exec.ran[k]].request.body == exec.history[k].call
          && s.results[exec.ran[k]] == exec.history[k].outcome)
  }

  lemma ActorIsSerial(setup: Setup, states: seq<State>, steps: seq<Step>, i: nat, e: EntryId) returns (trace: seq<Value>)
    requires IsRun(setup, states, steps) && i < |states| && Shape(states[i]) && e < |states[i].execs|
    ensures Serial(setup, states[i], e, trace)
  {
    RunInv(setup, states, steps, i);
    hide Executors, Complete, Shutdowns, TableOk, JobHolders, ConnHolders, StopHolders, Owners, Builders, PoolJobs,
      Results, OwnJobs, Places, Histories, Conns, Outputs, Flags, Drops, StopOk, Windows, Creations, Destructions,
      Drained, AnswerOrder, Serial, Leads;
    trace := TraceOf(setup, states[i].execs, e);
    SerialFacts(setup, states[i], e, trace);
  }

  lemma SerialFacts(setup: Setup, s: State, e: EntryId, trace: seq<Value>)
    requires Shape(s) && e < |s.execs| && Executors(setup, s.execs)
    requires OwnJobs(s.jobs, s.custody, s.execs) && Histories(s.jobs, s.results, s.execs)
    requires Leads(setup, s.execs[e].initial, s.execs[e].history, s.execs[e].instance, trace)
    ensures Serial(setup, s, e, trace)
  {
    ExecutorFacts(setup, s, e);
    hide Leads;
    var exec := s.execs[e];
    forall k | 0 <= k < |exec.ran| ensures exec.ran[k] in exec.submitted {
      assert Line(exec)[k] == exec.ran[k];
      assert exec.ran[k] in Line(exec);
    }
    assert forall k :: 0 <= k < |exec.ran| ==> Line(exec)[k] == exec.ran[k];
  }

  lemma TraceOf(setup: Setup, execs: seq<Executor>, e: EntryId) returns (trace: seq<Value>)
    requires e < |execs| && Executors(setup, execs)
    ensures Leads(setup, execs[e].initial, execs[e].history, execs[e].instance, trace)
  {
    var exec := execs[e];
    assert Sequential(setup, exec);
    var n := |exec.history|;
    hide Executors, InOrder, StateAfter;
    trace := seq(n + 1, k requires 0 <= k <= n => StateAfter(setup, exec.initial, exec.history[..k]));
    assert exec.history[..n] == exec.history;
    StartsBuilt(setup, exec.initial, exec.history);
    forall k | 0 <= k < n ensures Executes(setup, trace[k], exec.history[k].call, trace[k + 1], exec.history[k].outcome) {
      OneCallFurther(setup, exec.initial, exec.history, k);
      MethodRuns(setup, trace[k], exec.history[k].call);
    }
  }

  lemma StartsBuilt(setup: Setup, initial: Value, history: seq<Invocation>)
    requires AllCalls(history)
    ensures StateAfter(setup, initial, history[..0]) == initial
  {
  }

  /** The fold, one call further. */
  lemma OneCallFurther(setup: Setup, initial: Value, history: seq<Invocation>, k: nat)
    requires AllCalls(history) && k < |history|
    ensures StateAfter(setup, initial, history[..k + 1]) ==
      RunMethod(setup, StateAfter(setup, initial, history[..k]), history[k].call).0
  {
    assert history[..k + 1][..k] == history[..k];
    hide RunMethod;
  }

  lemma MethodRuns(setup: Setup, instance: Value, call: Body)
    requires call.CallActor?
    ensures Executes(setup, instance, call, RunMethod(setup, instance, call).0, RunMethod(setup, instance, call).1)
  {
  }

  // ---------- Private names ----------

  predicate IsPrivate(call: Body) {
    call.CallActor? && call.methodName != [] && call.methodName[0] == '_'
  }

  /** The history without the calls of private names. */
  ghost function Publics(history: seq<Invocation>): seq<Invocation> {
    if history == [] then []
    else
      var last := |history| - 1;
      Publics(history[..last]) + (if IsPrivate(history[last].call) then [] else [history[last]])
  }

  lemma {:induction false} StrikePrivates(setup: Setup, initial: Value, history: seq<Invocation>, instance: Value, trace: seq<Value>)
      returns (rest: seq<Value>)
    requires Leads(setup, initial, history, instance, trace)
    ensures Leads(setup, initial, Publics(history), instance, rest)
  {
    if history == [] {
      rest := trace;
    } else {
      var last := |history| - 1;
      var before := StrikePrivates(setup, initial, history[..last], trace[last], trace[..last + 1]);
      assert Executes(setup, trace[last], history[last].call, trace[last + 1], history[last].outcome);
      rest := if IsPrivate(history[last].call) then before else before + [instance];
    }
  }

  predicate IsRefusal(outcome: Option<Outcome>) {
    outcome.Some? && outcome.value.Raised? && outcome.value.error.kind == "AttributeError"
  }

  /** Calls of names that begin with an underscore get an attribute error, whatever the actor defines, and are invisible: the
      other calls alone lead the instance to the same state, in the same order and with the same outcomes. */
  lemma PrivateCallsAreInvisible(setup: Setup, states: seq<State>, steps: seq<Step>, i: nat, e: EntryId)
      returns (trace: seq<Value>)
    requires IsRun(setup, states, steps) && i < |states| && Shape(states[i]) && e < |states[i].execs|
    ensures var exec := states[i].execs[e];
      && Leads(setup, exec.initial, Publics(exec.history), exec.instance, trace)
      && (forall k :: 0 <= k < |exec.history| && IsPrivate(exec.history[k].call) ==> IsRefusal(exec.history[k].outcome))
  {
    var exec := states[i].execs[e];
    var all := ActorIsSerial(setup, states, steps, i, e);
    hide IsRun, Publics;
    trace := StrikePrivates(setup, exec.initial, exec.history, exec.instance, all);
    forall k | 0 <= k < |exec.history| && IsPrivate(exec.history[k].call) ensures IsRefusal(exec.history[k].outcome) {
      assert Executes(setup, all[k], exec.history[k].call, all[k + 1], exec.history[k].outcome);
    }
  }

  /** An executor that nobody cancels skips nothing: its jobs are exactly the calls
      submitted to it, and those that ran come first, in submission order. */
  lemma NothingIsSkipped(setup: Setup, states: seq<State>, steps: seq<Step>, i: nat, e: EntryId)
    requires IsRun(setup, states, steps) && i < |states| && Shape(states[i]) && e < |states[i].execs|
    requires states[i].custody[e].mode != Cancelling
    ensures var s := states[i]; var exec := s.execs[e];
      && Increasing(exec.submitted)
      && (forall j {:trigger j in exec.submitted} :: j in exec.submitted <==> 0 <= j < |s.jobs| && s.jobs[j].lane == Own(e))
      && exec.ran + Current(exec.worker) + exec.queue == exec.submitted
  {
    RunInv(setup, states, steps, i);
    hide Executors, Complete, Shutdowns, TableOk, JobHolders, ConnHolders, StopHolders, Owners, Builders, PoolJobs,
      Results, OwnJobs, Places, Histories, Conns, Outputs, Flags, Drops, StopOk, Windows, Creations, Destructions,
      Drained, AnswerOrder;
    SubmissionFacts(setup, states[i], e);
  }

  lemma SubmissionFacts(setup: Setup, s: State, e: EntryId)
    requires Shape(s) && e < |s.execs| && s.custody[e].mode != Cancelling
    requires Executors(setup, s.execs) && Complete(s.custody, s.execs) && OwnJobs(s.jobs, s.custody, s.execs)
    ensures Increasing(s.execs[e].submitted) && Line(s.execs[e]) == s.execs[e].submitted
    ensures forall j {:trigger j in s.execs[e].submitted} ::
      j in s.execs[e].submitted <==> 0 <= j < |s.jobs| && s.jobs[j].lane == Own(e)
  {
  }

  // ---------- An actor's past is not rewritten ----------

  ghost predicate ExecsFollow(a: seq<Executor>, b: seq<Executor>) {
    && |a| <= |b|
    && forall e {:trigger b[e]} :: 0 <= e < |a| ==>
         && b[e].initial == a[e].initial && a[e].ran <= b[e].ran
         && a[e].history <= b[e].history && a[e].submitted <= b[e].submitted
  }

  lemma SameExecs(execs: seq<Executor>)
    ensures ExecsFollow(execs, execs)
  {
  }

  lemma OneMoreExec(execs: seq<Executor>, exec: Executor)
    ensures ExecsFollow(execs, execs + [exec])
  {
  }

  lemma OneExecChanges(execs: seq<Executor>, e: EntryId, exec: Executor)
    requires e < |execs| && exec.initial == execs[e].initial && execs[e].ran <= exec.ran
    requires execs[e].history <= exec.history && execs[e].submitted <= exec.submitted
    ensures ExecsFollow(execs, execs[e := exec])
  {
  }

  lemma StepExecs(setup: Setup, s: State, step: Step)
    requires Can(setup, s, step)
    ensures ExecsFollow(s.execs, Do(setup, s, step).execs)
  {
    hide ExecsFollow;
    SameExecs(s.execs);
    match step
    case ByConnection(x) => ConnExecs(s, x);
    case ByTask(x) => TaskExecs(s, x);
    case ByWorker(x) => WorkExecs(setup, s, x);
    case ByStopper(_) =>
  }

  lemma ConnExecs(s: State, step: ConnStep)
    requires CanConn(s, step)
    ensures ExecsFollow(s.execs, DoConn(s, step).execs)
  {
    hide ExecsFollow;
    SameExecs(s.execs);
    if step.Handle? && Lookup(s, step.request).Some? {
      var e := Lookup(s, step.request).value;
      OneExecChanges(s.execs, e, Submit(s.execs[e], |s.jobs|));
    }
  }

  lemma TaskExecs(s: State, step: TaskStep)
    requires CanTask(s, step)
    ensures ExecsFollow(s.execs, DoTask(s, step).execs)
  {
    hide ExecsFollow;
    SameExecs(s.execs);
    if step.Construct? && step.built.Ok? {
      OneMoreExec(s.execs, NewExecutor(step.built.value));
    }
  }

  lemma WorkExecs(setup: Setup, s: State, step: WorkStep)
    requires CanWork(setup, s, step)
    ensures ExecsFollow(s.execs, DoWork(setup, s, step).execs)
  {
    hide ExecsFollow;
    SameExecs(s.execs);
    match step
    case ActorStart(e) => OneExecChanges(s.execs, e, Take(s.execs[e]));
    case ActorCancel(e) => OneExecChanges(s.execs, e, Skip(s.execs[e]));
    case ActorInvoke(e) =>
      OneExecChanges(s.execs, e, Invoke(setup, s.execs[e], s.jobs[s.execs[e].worker.job].request.body));
    case Reply(j) => RestExecs(s, j);
    case ReplyFails(j) => RestExecs(s, j);
    case ReplyEscapes(j) => RestExecs(s, j);
  }

  lemma RestExecs(s: State, j: JobId)
    requires CanFinish(s, j)
    ensures s.jobs[j].lane.Own? ==> 
      ExecsFollow(s.execs, s.execs[s.jobs[j].lane.entry := s.execs[s.jobs[j].lane.entry].(worker := Idle)])
  {
  }

  /** What has run stays run, in the same order and with the same results. */
  lemma {:induction false} HistoryGrows(setup: Setup, states: seq<State>, steps: seq<Step>, i: nat, k: nat)
    requires IsRun(setup, states, steps) && i <= k < |states|
    ensures ExecsFollow(states[i].execs, states[k].execs)
    decreases k
  {
    hide Can, Do;
    if i < k {
      HistoryGrows(setup, states, steps, i, k - 1);
      StepExecs(setup, states[k - 1], steps[k - 1]);
    }
  }
}
