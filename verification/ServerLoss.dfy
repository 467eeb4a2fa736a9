/** Exactly which calls can be lost: those to an actor that another connection owns. */
module ServerLoss {
  import opened Base
  import opened Messages
  import opened Server
  import opened ServerInvariant
  import opened ServerSteps
  import opened ServerRuns
  import opened ServerHistory
  import opened ServerAccounting

  /** The run goes on. */
  ghost predicate Continues(setup: Setup, states: seq<State>, steps: seq<Step>, later: seq<State>, further: seq<Step>) {
    IsRun(setup, later, further) && states <= later && steps <= further
  }

  /** Request `j` is over, its connection is open and the pool up, and it neither was answered nor had nothing to say. */
  predicate Lost(s: State, j: JobId) {
    && Shape(s) && j < |s.jobs| && Served(s, j)
    && Finished(s.stages[j]) && !s.stages[j].Answered? && s.stages[j] != Silent
  }

  /** The run can go on so that request `j` is lost. */
  ghost predicate CanBeLost(setup: Setup, states: seq<State>, steps: seq<Step>, j: JobId) {
    exists later: seq<State>, further: seq<Step> ::
      Continues(setup, states, steps, later, further) && Lost(later[|further|], j)
  }

  // ---------- A continuation that loses the call ----------

  /** The run goes on by one step. */
  lemma Next(setup: Setup, states: seq<State>, steps: seq<Step>, later: seq<State>, further: seq<Step>, step: Step)
      returns (longer: seq<State>, more: seq<Step>)
    requires Continues(setup, states, steps, later, further) && Can(setup, later[|further|], step)
    ensures Continues(setup, states, steps, longer, more)
    ensures longer[|more|] == Do(setup, later[|further|], step)
  {
    hide Can, Do;
    longer, more := later + [Do(setup, later[|further|], step)], further + [step];
  }

  /** Nothing but connection `c` has changed, and that only on its way to its clean-up. */
  predicate OnlyEnds(a: State, b: State, c: Conn) {
    && Shape(a) && c < |a.conns| && |b.conns| == |a.conns|
    && b == a.(conns := b.conns, connections := b.connections) && b.conns == a.conns[c := b.conns[c]]
  }

  lemma EndsConnection(setup: Setup, states: seq<State>, steps: seq<Step>, c: Conn)
      returns (later: seq<State>, further: seq<Step>)
    requires IsRun(setup, states, steps)
    requires Shape(states[|steps|]) && c < |states[|steps|].conns| && !CleaningUp(states[|steps|].conns[c].phase)
    ensures Continues(setup, states, steps, later, further)
    ensures OnlyEnds(states[|steps|], later[|further|], c) && later[|further|].conns[c].phase == SocketShut
  {
    later, further := states, steps;
    if later[|further|].conns[c].phase == Serving {
      EndsOnce(setup, later[|further|], HandlerEnds(c));
      later, further := Next(setup, states, steps, later, further, ByConnection(HandlerEnds(c)));
    }
    if later[|further|].conns[c].phase == Ending {
      EndsOnce(setup, later[|further|], Unlist(c));
      later, further := Next(setup, states, steps, later, further, ByConnection(Unlist(c)));
    }
    if later[|further|].conns[c].phase == Unlisted {
      EndsOnce(setup, later[|further|], ShutSocket(c));
      later, further := Next(setup, states, steps, later, further, ByConnection(ShutSocket(c)));
    }
  }

  lemma EndsOnce(setup: Setup, s: State, step: ConnStep)
    requires step.HandlerEnds? || step.Unlist? || step.ShutSocket?
    requires InPhase(s, step.c, if step.HandlerEnds? then Serving else if step.Unlist? then Ending else Unlisted)
    ensures Can(setup, s, ByConnection(step))
    ensures var u := Do(setup, s, ByConnection(step));
      && OnlyEnds(s, u, step.c)
      && u.conns[step.c].phase == if step.HandlerEnds? then Ending else if step.Unlist? then Unlisted else SocketShut
  {
  }

  /** What the clean-up of connection `c` leaves alone while it shuts executor `e` down. */
  predicate Spares(a: State, b: State, c: Conn) {
    && Shape(a) && Shape(b) && c < |a.conns| == |b.conns| && |b.custody| == |a.custody|
    && b.jobs == a.jobs && b.stop == a.stop && b.written == a.written
    && (forall d :: 0 <= d < |a.conns| && d != c ==> b.conns[d] == a.conns[d])
  }

  lemma ShutsDown(setup: Setup, s: State, c: Conn, e: EntryId)
    requires Shape(s) && c < |s.conns| && s.conns[c].phase == SocketShut && TableOk(s.table, s.custody)
    requires e < |s.custody| && s.custody[e].holder == Published && s.custody[e].owner == c
    ensures var first, second := ByConnection(Reap(c)), ByConnection(ReapShutdown(c, e));
      && Can(setup, s, first)
      && var u := Do(setup, s, first);
         && Can(setup, u, second)
         && var v := Do(setup, u, second);
            && Spares(s, v, c) && v.stages == s.stages && v.execs == s.execs && v.custody[e].mode == Cancelling
  {
    assert s.custody[e].actorId in s.table;
    assert e in Owned(s, c);
  }

  /** Cancelling the queue of `e` from its head reaches job `j`. */
  lemma Cancels(setup: Setup, states: seq<State>, steps: seq<Step>, c: Conn, e: EntryId, j: JobId)
      returns (later: seq<State>, further: seq<Step>)
    requires IsRun(setup, states, steps)
    requires Shape(states[|steps|]) && c < |states[|steps|].conns| && e < |states[|steps|].execs|
    requires states[|steps|].custody[e].mode == Cancelling && j in states[|steps|].execs[e].queue
    ensures Continues(setup, states, steps, later, further)
    ensures Spares(states[|steps|], later[|further|], c)
    ensures j < |later[|further|].stages| && later[|further|].stages[j] == Cancelled
    decreases |states[|steps|].execs[e].queue|
  {
    var s := states[|steps|];
    var head := s.execs[e].queue[0];
    QueueInBounds(setup, states, steps, e, head);
    QueueInBounds(setup, states, steps, e, j);
    CancelsOne(setup, s, c, e);
    var longer, more := Next(setup, states, steps, states, steps, ByWorker(ActorCancel(e)));
    if head == j {
      later, further := longer, more;
    } else {
      later, further := Cancels(setup, longer, more, c, e, j);
    }
    hide IsRun, Can, Do;
  }

  lemma QueueInBounds(setup: Setup, states: seq<State>, steps: seq<Step>, e: EntryId, j: JobId)
    requires IsRun(setup, states, steps) && e < |states[|steps|].execs| && j in states[|steps|].execs[e].queue
    ensures j < |states[|steps|].jobs|
  {
    hide Can, Do;
    RunInv(setup, states, steps, |steps|);
    hide Executors, Complete, Shutdowns, TableOk, JobHolders, ConnHolders, StopHolders, Owners, Builders, PoolJobs,
      Results, OwnJobs, Places, Histories, Conns, Outputs, Flags, Drops, StopOk, Windows, Creations, Destructions,
      Drained, AnswerOrder;
    QueuedWasSubmitted(setup, states[|steps|], e, j);
  }

  lemma CancelsOne(setup: Setup, s: State, c: Conn, e: EntryId)
    requires Shape(s) && c < |s.conns| && e < |s.execs| && s.custody[e].mode == Cancelling
    requires s.execs[e].queue != [] && s.execs[e].queue[0] < |s.jobs|
    ensures Can(setup, s, ByWorker(ActorCancel(e)))
    ensures var u := Do(setup, s, ByWorker(ActorCancel(e)));
      && Spares(s, u, c) && u.custody == s.custody && |u.execs| == |s.execs|
      && u.execs[e].queue == s.execs[e].queue[1..] && u.stages[s.execs[e].queue[0]] == Cancelled
  {
  }

  /** The owner of the actor goes away, and its clean-up cancels the call. */
  lemma OwnerLeaves(setup: Setup, states: seq<State>, steps: seq<Step>, j: JobId, e: EntryId)
    requires IsRun(setup, states, steps) && Shape(states[|steps|]) && j < |states[|steps|].jobs|
    requires states[|steps|].stages[j] == Queued && states[|steps|].jobs[j].lane == Own(e) && Served(states[|steps|], j)
    requires e < |states[|steps|].custody| && states[|steps|].custody[e].holder == Published
    requires states[|steps|].custody[e].owner != states[|steps|].jobs[j].conn
    ensures CanBeLost(setup, states, steps, j)
  {
    var s := states[|steps|];
    var c := s.custody[e].owner;
    hide Can, Do;
    PublishedFacts(setup, states, steps, e);
    QueuedFacts(setup, states, steps, j, e);
    var later, further := EndsConnection(setup, states, steps, c);
    var a := later[|further|];
    ShutsDown(setup, a, c, e);
    later, further := Next(setup, states, steps, later, further, ByConnection(Reap(c)));
    later, further := Next(setup, states, steps, later, further, ByConnection(ReapShutdown(c, e)));
    var b := later[|further|];
    var last, all := Cancels(setup, later, further, c, e, j);
    assert Continues(setup, states, steps, last, all);
    assert Lost(last[|all|], j);
  }

  lemma PublishedFacts(setup: Setup, states: seq<State>, steps: seq<Step>, e: EntryId)
    requires IsRun(setup, states, steps) && e < |states[|steps|].custody| && states[|steps|].custody[e].holder == Published
    ensures var s := states[|steps|];
      TableOk(s.table, s.custody) && s.custody[e].owner < |s.conns| && !CleaningUp(s.conns[s.custody[e].owner].phase)
  {
    hide Can, Do;
    RunInv(setup, states, steps, |steps|);
    hide Executors, Complete, Shutdowns, TableOk, JobHolders, ConnHolders, StopHolders, Builders, PoolJobs,
      Results, OwnJobs, Places, Histories, Conns, Outputs, Flags, Drops, StopOk, Windows, Creations, Destructions,
      Drained, AnswerOrder;
  }

  lemma QueuedFacts(setup: Setup, states: seq<State>, steps: seq<Step>, j: JobId, e: EntryId)
    requires IsRun(setup, states, steps) && Shape(states[|steps|]) && j < |states[|steps|].jobs|
    requires states[|steps|].stages[j] == Queued && states[|steps|].jobs[j].lane == Own(e) && e < |states[|steps|].execs|
    ensures j in states[|steps|].execs[e].queue
  {
    hide Can, Do;
    RunInv(setup, states, steps, |steps|);
    hide Executors, Complete, Shutdowns, TableOk, JobHolders, ConnHolders, StopHolders, Owners, Builders, PoolJobs,
      Results, OwnJobs, Histories, Conns, Outputs, Flags, Drops, StopOk, Windows, Creations, Destructions,
      Drained, AnswerOrder;
  }

  // ---------- Exactly then ----------

  lemma OwnCallsAreSafe(setup: Setup, states: seq<State>, steps: seq<Step>, later: seq<State>, further: seq<Step>, j: JobId)
    requires IsRun(setup, states, steps) && Continues(setup, states, steps, later, further)
    requires Shape(states[|steps|]) && j < |states[|steps|].jobs| && OwnedOrShared(states[|steps|], j)
    ensures !Lost(later[|further|], j)
  {
    hide Can, Do;
    RunFollows(setup, later, further, |steps|, |further|);
    assert later[|steps|] == states[|steps|];
    StaysOwned(states[|steps|], later[|further|], j);
    if Lost(later[|further|], j) {
      OwnRequestsAreAnswered(setup, later, further, |further|, j);
      hide IsRun, AnswersAt;
      assert false;
    }
  }

  lemma StaysOwned(a: State, b: State, j: JobId)
    requires Follows(a, b) && j < |a.jobs| && OwnedOrShared(a, j)
    ensures j < |b.jobs| && OwnedOrShared(b, j)
  {
  }

  /** A call that waits at an actor in the table can be lost, with its own connection open and the runtime up, if and only
      if another connection owns the actor. */
  lemma CallsAreLostExactlyWhen(setup: Setup, states: seq<State>, steps: seq<Step>, j: JobId, e: EntryId)
    requires IsRun(setup, states, steps) && Shape(states[|steps|]) && j < |states[|steps|].jobs|
    requires states[|steps|].stages[j] == Queued && states[|steps|].jobs[j].lane == Own(e) && Served(states[|steps|], j)
    requires e < |states[|steps|].custody| && states[|steps|].custody[e].holder == Published
    ensures CanBeLost(setup, states, steps, j) <==> states[|steps|].custody[e].owner != states[|steps|].jobs[j].conn
  {
    hide Can, Do, Lost;
    if states[|steps|].custody[e].owner != states[|steps|].jobs[j].conn {
      OwnerLeaves(setup, states, steps, j, e);
    } else if CanBeLost(setup, states, steps, j) {
      var later: seq<State>, further: seq<Step> :|
        Continues(setup, states, steps, later, further) && Lost(later[|further|], j);
      OwnCallsAreSafe(setup, states, steps, later, further, j);
      assert false;
    }
  }
}
