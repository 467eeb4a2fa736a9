/** Actors, their owners and their executors over whole runs. */
module ServerLifecycle {
  import opened Base
  import opened Messages
  import opened Server
  import opened ServerInvariant
  import opened ServerSteps
  import opened ServerRuns
  import opened ServerHistory
  import opened ServerTheorems
  import opened ServerAccounting

  // ---------- Executors ----------

  /** An actor in the table always has a live executor that nobody has shut down, and
      no executor is ever shut down twice, whoever gets there first. */
  lemma ExecutorDiscipline(setup: Setup, states: seq<State>, steps: seq<Step>, i: nat)
    requires IsRun(setup, states, steps) && i < |states|
    ensures var s := states[i];
      && (forall id :: id in s.table ==>
            s.table[id] < |s.custody| && s.custody[s.table[id]].mode == Live && s.custody[s.table[id]].shutdowns == 0)
      && (forall e :: 0 <= e < |s.custody| ==> s.custody[e].shutdowns <= 1)
      && (forall e :: 0 <= e < |s.custody| && s.custody[e].holder == Released ==> s.custody[e].shutdowns == 1)
  {
    RunInv(setup, states, steps, i);
    hide Executors, Complete, JobHolders, ConnHolders, StopHolders, Owners, Builders, PoolJobs, Results, OwnJobs,
      Places, Histories, Conns, Outputs, Flags, Drops, StopOk, Windows, Creations, Destructions, Drained,
      AnswerOrder;
  }

  /** A call to an actor that is in the table when its request is handled is never
      refused: it becomes the last job of that actor's executor. */
  lemma SubmissionIsNeverRefused(setup: Setup, states: seq<State>, steps: seq<Step>, i: nat)
    requires IsRun(setup, states, steps) && i < |steps|
    requires steps[i].ByConnection? && steps[i].conn.Handle? && steps[i].conn.request.body.CallActor?
    requires steps[i].conn.request.body.actorId in states[i].table
    ensures var s, t, e := states[i], states[i + 1], states[i].table[steps[i].conn.request.body.actorId];
      && e < |s.execs| && e < |t.execs|
      && |t.jobs| == |s.jobs| + 1 && t.jobs[|s.jobs|] == Job(steps[i].conn.c, steps[i].conn.request, Own(e))
      && t.execs[e].queue == s.execs[e].queue + [|s.jobs|]
      && t.conns == s.conns
  {
    RunInv(setup, states, steps, i);
    hide Executors, Complete, Shutdowns, TableOk, JobHolders, ConnHolders, StopHolders, Owners, Builders, PoolJobs,
      Results, OwnJobs, Places, Histories, Conns, Outputs, Flags, Drops, StopOk, Windows, Creations, Destructions,
      Drained, AnswerOrder;
    ListedFacts(states[i], steps[i].conn.request.body.actorId);
  }

  // ---------- No leaked actors ----------

  /** Once the cleanup of a connection has taken its actors out of the table, no later state has
      one of its actors in the table, whatever creations of that connection are still running. */
  lemma NoLeakedActors(setup: Setup, states: seq<State>, steps: seq<Step>, i: nat, k: nat, c: Conn, id: string)
    requires IsRun(setup, states, steps) && i <= k < |states|
    requires c < |states[i].conns| && CleaningUp(states[i].conns[c].phase) && id in states[k].table
    ensures states[k].table[id] < |states[k].custody| && states[k].custody[states[k].table[id]].owner != c
  {
    RunInv(setup, states, steps, k);
    RunFollows(setup, states, steps, i, k);
    hide Executors, Complete, Shutdowns, TableOk, JobHolders, ConnHolders, StopHolders, Owners, Builders, PoolJobs,
      Results, OwnJobs, Places, Histories, Conns, Outputs, Flags, Drops, StopOk, Windows, Creations, Destructions,
      Drained, AnswerOrder, JobsFollow, EntriesFollow, OutputFollows;
    OwnerServes(states[k], id);
  }

  lemma OwnerServes(s: State, id: string)
    requires id in s.table && TableOk(s.table, s.custody) && Owners(s.custody, s.conns)
    ensures s.table[id] < |s.custody| && s.custody[s.table[id]].owner < |s.conns|
    ensures !CleaningUp(s.conns[s.custody[s.table[id]].owner].phase)
  {
  }

  // ---------- Ownership ----------

  /** The step takes entry `e` out of the table by right: its owner destroys it, its
      owner's connection is cleaned up, or the runtime stops. */
  ghost predicate RightfulRemoval(s: State, step: Step, e: EntryId)
    requires e < |s.custody|
  {
    match step
    case ByTask(Destroy(j)) =>
      j < |s.jobs| && s.jobs[j].conn == s.custody[e].owner &&
      s.jobs[j].request.body.DestroyActor? && s.jobs[j].request.body.actorId == s.custody[e].actorId
    case ByConnection(Reap(c)) => c == s.custody[e].owner
    case ByStopper(StopCollect) => true
    case _ => false
  }

  /** The step puts the actor `id` into the table: a creation of that name publishes it for its own connection. */
  ghost predicate RightfulEntry(s: State, step: Step, t: State, id: string)
    requires id in t.table
  {
    match step
    case ByTask(Publish(j)) =>
      && j < |s.jobs| && s.jobs[j].request.body.CreateActor? && s.jobs[j].request.body.actorId == id
      && t.table[id] < |t.custody| && t.custody[t.table[id]].owner == s.jobs[j].conn
      && t.custody[t.table[id]].maker == j
    case _ => false
  }

  /** What one step does to the place of `id` in the table. */
  ghost predicate Rightful(s: State, step: Step, t: State, id: string)
    requires TableInBounds(s)
  {
    if id in s.table then
      if id in t.table then t.table[id] == s.table[id] else RightfulRemoval(s, step, s.table[id])
    else
      id in t.table ==> RightfulEntry(s, step, t, id)
  }

  lemma ConnRightful(s: State, step: ConnStep, id: string)
    requires CanConn(s, step) && TableInBounds(s)
    ensures Rightful(s, ByConnection(step), DoConn(s, step), id)
  {
  }

  lemma PublishRightful(s: State, j: JobId, id: string)
    requires CanPublish(s, j) && TableInBounds(s)
    requires Builders(s.jobs, s.stages, s.custody) && JobHolders(s.stages, s.custody)
    ensures Rightful(s, ByTask(Publish(j)), DoPublish(s, j), id)
  {
    hide Shape;
  }

  lemma DestroyRightful(s: State, j: JobId, id: string)
    requires CanDestroy(s, j) && TableOk(s.table, s.custody)
    ensures Rightful(s, ByTask(Destroy(j)), DoDestroy(s, j), id)
  {
  }

  lemma TaskRightful(s: State, step: TaskStep, id: string)
    requires CanTask(s, step) && TableInBounds(s) && !step.Publish? && !step.Destroy?
    ensures DoTask(s, step).table == s.table
  {
  }

  /** Neither the table nor a connection's phase nor the list changes. */
  predicate Untouched(s: State, t: State) {
    && t.table == s.table && t.connections == s.connections && t.stop == s.stop && |t.conns| == |s.conns|
    && forall c :: 0 <= c < |s.conns| ==> t.conns[c].phase == s.conns[c].phase
  }

  lemma EndTaskTouchesNothing(s: State, j: JobId, stage: Stage)
    requires IsJob(s, j) && (s.jobs[j].lane.Own? ==> IsEntry(s, s.jobs[j].lane.entry))
    ensures Untouched(s, EndTask(s, j, stage))
  {
  }

  lemma ExecutorTouchesNothing(setup: Setup, s: State, step: WorkStep)
    requires CanWork(setup, s, step) && (step.ActorStart? || step.ActorInvoke? || step.ActorCancel?)
    ensures Untouched(s, DoWork(setup, s, step))
  {
    hide RunMethod;
  }

  lemma ReplyTouchesNothing(setup: Setup, s: State, step: WorkStep)
    requires CanWork(setup, s, step) && !step.ActorStart? && !step.ActorInvoke? && !step.ActorCancel?
    ensures Untouched(s, DoWork(setup, s, step))
  {
    hide EndTask, WireForm;
    var c := s.jobs[step.j].conn;
    match step {
      case Reply(j) =>
        EndTaskTouchesNothing(
          s.(written := s.written[c := s.written[c] + [Sent(j, WireForm(setup, s.jobs[j], s.results[j].value).response)]]),
          j, Answered(|s.written[c]|));
      case ReplyFails(j) => EndTaskTouchesNothing(WithConn(s, c, s.conns[c].(closed := true, broken := true)), j, Dropped);
      case ReplyEscapes(j) => EndTaskTouchesNothing(s, j, Silent);
    }
  }

  lemma WorkTouchesNothing(setup: Setup, s: State, step: WorkStep)
    requires CanWork(setup, s, step)
    ensures Untouched(s, DoWork(setup, s, step))
  {
    hide CanWork, DoWork, Untouched;
    if step.ActorStart? || step.ActorInvoke? || step.ActorCancel? {
      ExecutorTouchesNothing(setup, s, step);
    } else {
      ReplyTouchesNothing(setup, s, step);
    }
  }

  lemma StopRightful(s: State, step: StopStep, id: string)
    requires CanStop(s, step) && TableInBounds(s)
    ensures Rightful(s, ByStopper(step), DoStop(s, step), id)
  {
  }

  lemma StepRightful(setup: Setup, s: State, step: Step, id: string)
    requires Can(setup, s, step) && Shape(s) && TableOk(s.table, s.custody)
    requires Builders(s.jobs, s.stages, s.custody) && JobHolders(s.stages, s.custody)
    ensures TableInBounds(s) && Rightful(s, step, Do(setup, s, step), id)
  {
    hide CanConn, DoConn, CanStop, DoStop, CanWork, DoWork, DoPublish, DoDestroy, Builders, JobHolders,
      RightfulRemoval, RightfulEntry;
    match step
    case ByConnection(x) => ConnRightful(s, x, id);
    case ByTask(x) =>
      match x {
        case Publish(j) => PublishRightful(s, j, id);
        case Destroy(j) => DestroyRightful(s, j, id);
        case _ => TaskRightful(s, x, id);
      }
    case ByWorker(x) => WorkTouchesNothing(setup, s, x);
    case ByStopper(x) => StopRightful(s, x, id);
  }

  /** An actor enters the table only by a creation of its name for that connection. It leaves
      it only by its owner's destruction, its owner's cleanup or the stop, and while
      it stays its entry is the same. Attaching, calling, being refused and
      destructions by others therefore leave every actor where it is. */
  lemma ActorsComeAndGoByRight(setup: Setup, states: seq<State>, steps: seq<Step>, i: nat, id: string)
    requires IsRun(setup, states, steps) && i < |steps|
    ensures TableInBounds(states[i]) && Rightful(states[i], steps[i], states[i + 1], id)
  {
    RunInv(setup, states, steps, i);
    hide Executors, Complete, Shutdowns, TableOk, JobHolders, ConnHolders, StopHolders, Owners, Builders, PoolJobs,
      Results, OwnJobs, Places, Histories, Conns, Outputs, Flags, Drops, StopOk, Windows, Creations, Destructions,
      Drained, AnswerOrder, Rightful, Can, Do;
    StepRightful(setup, states[i], steps[i], id);
  }

  /** The owner of an actor never changes, nor does its name or the creation that made it. */
  lemma OwnershipIsForever(setup: Setup, states: seq<State>, steps: seq<Step>, i: nat, k: nat, e: EntryId)
    requires IsRun(setup, states, steps) && i <= k < |states| && e < |states[i].custody|
    ensures e < |states[k].custody| && states[k].custody[e].owner == states[i].custody[e].owner
    ensures states[k].custody[e].actorId == states[i].custody[e].actorId
    ensures states[k].custody[e].maker == states[i].custody[e].maker
  {
    hide Can, Do, Inv;
    RunFollows(setup, states, steps, i, k);
  }

  // ---------- Stopping ----------

  /** From the moment the stopping thread has emptied the actor table, and so after `stop` has
      returned, the table stays empty, no task of the shared pool runs or waits,
      and `start` cannot succeed, whatever else still happens. */
  lemma StopIsTerminal(setup: Setup, states: seq<State>, steps: seq<Step>, i: nat, k: nat)
    requires IsRun(setup, states, steps) && i <= k < |states| && StopRank(states[i].stop) >= 4
    ensures states[k].table == map[] && PoolDone(states[k].jobs, states[k].stages, states[k].poolQueue)
    ensures !Can(setup, states[k], ByStopper(Start)) && !states[k].poolLive
    ensures states[i].stop == Stopped ==> states[k].stop == Stopped
  {
    RunInv(setup, states, steps, k);
    RunFollows(setup, states, steps, i, k);
    hide Executors, Complete, Shutdowns, TableOk, JobHolders, ConnHolders, StopHolders, Owners, Builders, PoolJobs,
      Results, OwnJobs, Places, Histories, Conns, Outputs, Flags, Drops, Windows, Creations, Destructions, Drained,
      AnswerOrder, JobsFollow, EntriesFollow, OutputFollows, ConnsFollow, PoolDone, IsRun;
  }

  /** When `stop` has returned, every executor it took over has been shut down and is idle. */
  lemma StopLeavesNothingRunning(setup: Setup, states: seq<State>, steps: seq<Step>, i: nat, e: EntryId)
    requires IsRun(setup, states, steps) && i < |states| && states[i].stop == Stopped
    requires e < |states[i].custody| && !states[i].custody[e].holder.ByConn?
    ensures Shape(states[i]) && states[i].custody[e].holder == Released && IsIdle(states[i].execs[e])
    ensures states[i].custody[e].shutdowns == 1
  {
    RunInv(setup, states, steps, i);
    hide Executors, Results, OwnJobs, Places, Histories, Conns, Outputs, Flags, Drops, Windows, Creations,
      Destructions, Drained, AnswerOrder, Owners, ConnHolders, IsRun;
    NothingIsHeld(states[i], e);
  }

  lemma NothingIsHeld(s: State, e: EntryId)
    requires Shape(s) && s.stop == Stopped && e < |s.custody| && !s.custody[e].holder.ByConn?
    requires StopOk(s.stop, s.poolLive, s.table, s.jobs, s.stages, s.poolQueue) && TableOk(s.table, s.custody)
    requires JobHolders(s.stages, s.custody) && Builders(s.jobs, s.stages, s.custody) && StopHolders(s.stop, s.custody)
    ensures s.custody[e].holder == Released
  {
  }

  /** Until the stopping thread takes the list, every connection that is being served is on it. */
  ghost predicate Enlisted(conns: seq<ConnState>, connections: set<Conn>, stop: StopPhase) {
    StopRank(stop) < 2 ==>
      forall c :: 0 <= c < |conns| && (conns[c].phase == Serving || conns[c].phase == Ending) ==> c in connections
  }

  /** A step other than the stop's: it adds a new connection to the list or removes some. */
  predicate Listing(s: State, t: State) {
    && t.stop == s.stop && |s.conns| <= |t.conns|
    && (t.connections <= s.connections || (t.connections == s.connections + {|s.conns|} && |s.conns| < |t.conns|))
  }

  lemma HandleEnlists(s: State, c: Conn, request: Request)
    requires CanHandle(s, c) && Enlisted(s.conns, s.connections, s.stop)
    ensures var t := DoHandle(s, c, request); Enlisted(t.conns, t.connections, t.stop) && Listing(s, t)
  {
  }

  lemma ReapEnlists(s: State, c: Conn)
    requires CanReap(s, c) && Enlisted(s.conns, s.connections, s.stop)
    ensures var t := DoReap(s, c); Enlisted(t.conns, t.connections, t.stop) && Listing(s, t)
  {
    hide HandOver, Owned;
  }

  lemma ConnEnlists(s: State, step: ConnStep)
    requires CanConn(s, step) && Enlisted(s.conns, s.connections, s.stop)
    ensures var t := DoConn(s, step); Enlisted(t.conns, t.connections, t.stop) && Listing(s, t)
  {
    hide DoHandle, DoReap, TableInBounds;
    if step.Handle? {
      hide Enlisted, Listing;
      HandleEnlists(s, step.c, step.request);
    } else if step.Reap? {
      hide Enlisted, Listing;
      ReapEnlists(s, step.c);
    }
  }

  lemma WorkEnlists(setup: Setup, s: State, step: WorkStep)
    requires CanWork(setup, s, step) && Enlisted(s.conns, s.connections, s.stop)
    ensures var t := DoWork(setup, s, step); Enlisted(t.conns, t.connections, t.stop) && Listing(s, t)
  {
    hide CanWork, DoWork;
    WorkTouchesNothing(setup, s, step);
  }

  lemma StopEnlists(s: State, step: StopStep)
    requires CanStop(s, step) && Enlisted(s.conns, s.connections, s.stop)
    ensures var t := DoStop(s, step);
      Enlisted(t.conns, t.connections, t.stop) && |t.conns| == |s.conns| && t.connections <= s.connections
  {
  }

  /** The stop and the list are left alone. */
  predicate SameConns(s: State, t: State) {
    t.conns == s.conns && t.connections == s.connections && t.stop == s.stop
  }

  lemma InsertLeavesConns(s: State, j: JobId, e: EntryId)
    requires IsJob(s, j) && IsEntry(s, e)
    ensures SameConns(s, Insert(s, j, e))
  {
  }

  lemma BuildingLeavesConns(s: State, step: TaskStep)
    requires CanTask(s, step) && (step.Construct? || step.Publish?)
    ensures SameConns(s, DoTask(s, step))
  {
    if step.Publish? {
      InsertLeavesConns(s, step.j, s.stages[step.j].entry);
      hide Insert, Shape, TableInBounds;
    }
  }

  lemma DestroyingLeavesConns(s: State, step: TaskStep)
    requires CanTask(s, step) && (step.Destroy? || step.DestroyShutdown? || step.DestroyJoined?)
    ensures SameConns(s, DoTask(s, step))
  {
    hide HandOver;
  }

  lemma TaskLeavesConns(s: State, step: TaskStep)
    requires CanTask(s, step)
    ensures SameConns(s, DoTask(s, step))
  {
    if step.Construct? || step.Publish? {
      hide CanTask, DoTask, SameConns;
      BuildingLeavesConns(s, step);
    } else if step.Destroy? || step.DestroyShutdown? || step.DestroyJoined? {
      hide CanTask, DoTask, SameConns;
      DestroyingLeavesConns(s, step);
    } else {
      hide HandOver;
    }
  }

  lemma StepEnlists(setup: Setup, s: State, step: Step)
    requires Can(setup, s, step) && Enlisted(s.conns, s.connections, s.stop)
    ensures var t := Do(setup, s, step);
      && Enlisted(t.conns, t.connections, t.stop)
      && (Listing(s, t) || (step.ByStopper? && |t.conns| == |s.conns| && t.connections <= s.connections))
  {
    hide CanConn, DoConn, CanTask, DoTask, CanWork, DoWork, CanStop, DoStop, Enlisted;
    match step
    case ByConnection(x) => ConnEnlists(s, x);
    case ByTask(x) => TaskLeavesConns(s, x);
    case ByWorker(x) => WorkEnlists(setup, s, x);
    case ByStopper(x) => StopEnlists(s, x);
  }

  lemma {:induction false} RunEnlists(setup: Setup, states: seq<State>, steps: seq<Step>, i: nat)
    requires IsRun(setup, states, steps) && i < |states|
    ensures Enlisted(states[i].conns, states[i].connections, states[i].stop)
    ensures forall c :: c in states[i].connections ==> c < |states[i].conns|
  {
    if i > 0 {
      hide Can, Do;
      RunEnlists(setup, states, steps, i - 1);
      StepEnlists(setup, states[i - 1], steps[i - 1]);
    }
  }

  /** What the stopping thread took off the list it is still to close, or it has closed it and shut its socket. */
  ghost predicate ToClose(listed: set<Conn>, s: State) {
    StopRank(s.stop) >= 2 &&
    forall c :: c in listed && c < |s.conns| ==>
      (s.stop.ClosingConns? && c in s.stop.conns) || (s.conns[c].closed && s.conns[c].broken)
  }

  lemma ClosingGoesOn(setup: Setup, s: State, step: Step, listed: set<Conn>)
    requires Can(setup, s, step) && ToClose(listed, s) && Flags(s.conns)
    requires Enlisted(s.conns, s.connections, s.stop)
    requires var t := Do(setup, s, step); Follows(s, t) && forall c :: c in listed ==> c < |s.conns|
    ensures ToClose(listed, Do(setup, s, step))
  {
    var t := Do(setup, s, step);
    if step.ByStopper? {
      hide Follows;
    } else {
      hide Can, Do, Enlisted;
      StepEnlists(setup, s, step);
      assert ConnsFollow(s.conns, t.conns);
      hide Follows;
    }
  }

  lemma ClosingBegins(setup: Setup, s: State)
    requires Can(setup, s, ByStopper(StopSnapshot))
    ensures ToClose(s.connections, Do(setup, s, ByStopper(StopSnapshot)))
  {
  }

  lemma {:induction false} StaysToClose(setup: Setup, states: seq<State>, steps: seq<Step>, i: nat, k: nat)
    requires IsRun(setup, states, steps) && i < |steps| && steps[i] == ByStopper(StopSnapshot) && i < k < |states|
    requires forall c :: c in states[i].connections ==> c < |states[i].conns|
    ensures ToClose(states[i].connections, states[k]) && |states[i].conns| <= |states[k].conns|
    decreases k
  {
    hide Can, Do, ToClose, Follows, Flags, Enlisted;
    CloseFacts(setup, states, steps, k - 1);
    if k == i + 1 {
      hide IsRun;
      ClosingBegins(setup, states[i]);
      ConnsGrow(states[i], states[k]);
    } else {
      StaysToClose(setup, states, steps, i, k - 1);
      RunEnlists(setup, states, steps, k - 1);
      hide IsRun;
      ClosingGoesOn(setup, states[k - 1], steps[k - 1], states[i].connections);
      ConnsGrow(states[k - 1], states[k]);
    }
  }

  lemma ConnsGrow(a: State, b: State)
    requires Follows(a, b)
    ensures |a.conns| <= |b.conns|
  {
  }

  lemma CloseFacts(setup: Setup, states: seq<State>, steps: seq<Step>, i: nat)
    requires IsRun(setup, states, steps) && i < |steps|
    ensures Can(setup, states[i], steps[i]) && states[i + 1] == Do(setup, states[i], steps[i])
    ensures Flags(states[i].conns) && Follows(states[i], states[i + 1])
  {
    hide Executors, Complete, Shutdowns, TableOk, JobHolders, ConnHolders, StopHolders, Owners, Builders, PoolJobs,
      Results, OwnJobs, Places, Histories, Conns, Outputs, Flags, Drops, StopOk, Windows, Creations, Destructions,
      Drained, AnswerOrder, Can, Do, Makers, Follows;
    RunInv(setup, states, steps, i);
    RunMakers(setup, states, steps, i);
    StepFollows(setup, states[i], steps[i]);
  }

  /** When the stop has gone on to the pool, every connection there was when it took the list is closed, and
      every one that was then being served has its socket shut. */
  lemma StopClosesConnections(setup: Setup, states: seq<State>, steps: seq<Step>, i: nat, k: nat, c: Conn)
    requires IsRun(setup, states, steps) && i < |steps| && steps[i] == ByStopper(StopSnapshot) && i < k < |states|
    requires StopRank(states[k].stop) >= 3 && c < |states[i].conns|
    ensures c < |states[k].conns| && states[k].conns[c].closed
    ensures states[i].conns[c].phase == Serving || states[i].conns[c].phase == Ending ==> states[k].conns[c].broken
  {
    assert Can(setup, states[i], steps[i]);
    assert states[i].stop == Flagged;
    hide Can, Do;
    RunEnlists(setup, states, steps, i);
    StaysToClose(setup, states, steps, i, k);
    RunFollows(setup, states, steps, i, k);
    CloseFacts(setup, states, steps, i);
    assert ConnsFollow(states[i].conns, states[k].conns);
    hide Follows, IsRun;
  }

  // ---------- Destruction drains ----------

  /** Job `j` has been answered before job `d`, or there was nothing to say about it. */
  predicate AnsweredBefore(setup: Setup, s: State, j: JobId, d: JobId)
    requires Shape(s) && j < |s.jobs| && d < |s.jobs| && s.stages[d].Answered?
  {
    if Audible(setup, s.jobs[j], s.results[j]) then s.stages[j].Answered? && s.stages[j].at < s.stages[d].at
    else s.stages[j] == Silent
  }

  /** Every call that connection accepted for its actor between the actor's
      publication and the request to destroy it has run, in submission order, and its answer,
      if there is anything to say about it, is on the wire before the answer to the
      successful destruction. */
  lemma DestructionDrains(setup: Setup, states: seq<State>, steps: seq<Step>, i: nat, d: JobId, j: JobId)
    requires IsRun(setup, states, steps) && i < |states| && Shape(states[i]) && d < |states[i].jobs|
    requires states[i].jobs[d].request.body.DestroyActor? && states[i].stages[d].Answered?
    requires Success(states[i].results[d])
    requires states[i].targets[d].Some? && states[i].targets[d].value < |states[i].custody|
    requires states[i].custody[states[i].targets[d].value].born.Some?
    requires states[i].custody[states[i].targets[d].value].born.value <= j < d
    requires states[i].jobs[j].conn == states[i].jobs[d].conn && states[i].jobs[j].request.body.CallActor?
    requires states[i].jobs[j].request.body.actorId == states[i].jobs[d].request.body.actorId
    ensures var s := states[i]; var e := s.targets[d].value;
      && s.jobs[j].lane == Own(e) && e < |s.execs| && j in s.execs[e].ran && AnsweredBefore(setup, s, j, d)
  {
    RunInv(setup, states, steps, i);
    hide Executors, Complete, Shutdowns, TableOk, JobHolders, ConnHolders, StopHolders, Owners, Builders, PoolJobs,
      Results, OwnJobs, Places, Histories, Conns, Outputs, Flags, Drops, StopOk, Windows, Creations, Destructions,
      Drained, AnswerOrder, IsRun;
    DrainFacts(setup, states[i], d, j);
  }

  lemma DrainFacts(setup: Setup, s: State, d: JobId, j: JobId)
    requires Shape(s) && d < |s.jobs|
    requires s.jobs[d].request.body.DestroyActor? && s.stages[d].Answered? && Success(s.results[d])
    requires s.targets[d].Some? && s.targets[d].value < |s.custody|
    requires s.custody[s.targets[d].value].born.Some? && s.custody[s.targets[d].value].born.value <= j < d
    requires s.jobs[j].conn == s.jobs[d].conn && s.jobs[j].request.body.CallActor?
    requires s.jobs[j].request.body.actorId == s.jobs[d].request.body.actorId
    requires Destructions(s.jobs, s.stages, s.results, s.targets, s.custody) && Windows(s.jobs, s.custody)
    requires Places(s.jobs, s.stages, s.custody, s.execs) && OwnJobs(s.jobs, s.custody, s.execs)
    requires AnswerOrder(s.jobs, s.stages, s.results, s.targets)
    requires Outputs(setup, s.jobs, s.stages, s.results, s.written)
    ensures var e := s.targets[d].value;
      && s.jobs[j].lane == Own(e) && e < |s.execs| && j in s.execs[e].ran && AnsweredBefore(setup, s, j, d)
  {
  }
}
