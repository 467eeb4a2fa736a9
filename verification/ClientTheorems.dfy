/** What the client promises its callers, over every run. */
module ClientTheorems {
  import opened Base
  import opened Messages
  import opened Client
  import opened ClientInvariant
  import opened ClientRuns

  // ---------- Later states add to earlier ones ----------

  ghost predicate Follows(a: State, b: State) {
    && Shape(a) && Shape(b) && b.maxFrame == a.maxFrame
    && a.calls <= b.calls && a.wire <= b.wire && a.handled <= b.handled
    && (forall r {:trigger b.states[r]} :: 0 <= r < |a.states| && a.states[r].Done? ==> b.states[r] == a.states[r])
    && |a.handles| <= |b.handles|
    && (forall h {:trigger b.handles[h]} :: 0 <= h < |a.handles| ==>
          && b.handles[h].actorId == a.handles[h].actorId && b.handles[h].maker == a.handles[h].maker
          && b.handles[h].owns == a.handles[h].owns
          && (a.handles[h].destroyer.Some? ==> b.handles[h].destroyer == a.handles[h].destroyer))
    && (a.closing != Open ==> b.closing != Open && b.pending.Keys <= a.pending.Keys)
  }

  lemma FollowsTransitive(a: State, b: State, c: State)
    requires Follows(a, b) && Follows(b, c)
    ensures Follows(a, c)
  {
  }

  predicate ByCaller(step: Step) {
    step.Issue? || step.CallVia? || step.MakeHandle? || step.CloseHandle? || step.Destroy?
  }

  lemma CallerFollows(s: State, step: Step)
    requires Shape(s) && Can(s, step) && ByCaller(step)
    ensures Follows(s, Do(s, step))
  {
  }

  predicate BySender(step: Step) {
    step.Insert? || step.Write? || step.TooLong? || step.SocketFails? || step.Return? || step.Pop? || step.Look? || step.Report?
  }

  lemma SenderFollows(s: State, step: Step)
    requires Shape(s) && Can(s, step) && BySender(step)
    ensures Follows(s, Do(s, step))
  {
  }

  lemma OthersFollow(s: State, step: Step)
    requires Shape(s) && Can(s, step) && !ByCaller(step) && !BySender(step)
    ensures Follows(s, Do(s, step))
  {
  }

  lemma StepFollows(s: State, step: Step)
    requires Shape(s) && Can(s, step)
    ensures Follows(s, Do(s, step))
  {
    hide Can, Do, Follows;
    if ByCaller(step) { CallerFollows(s, step); } else if BySender(step) { SenderFollows(s, step); } else { OthersFollow(s, step); }
  }

  /** A completed reference stays as it is, what is on the wire stays there, and once the connection
      is closed nothing enters the pending map any more. */
  lemma {:induction false} NothingIsUndone(states: seq<State>, steps: seq<Step>, i: nat, k: nat)
    requires IsRun(states, steps) && i <= k < |states|
    ensures Follows(states[i], states[k])
    decreases k
  {
    hide Inv, Can, Do, Follows;
    if i == k {
      RunInv(states, steps, i);
      FollowsReflexive(states[i]);
    } else {
      NothingIsUndone(states, steps, i, k - 1);
      RunShape(states, steps, k - 1);
      StepFollows(states[k - 1], steps[k - 1]);
      FollowsTransitive(states[i], states[k - 1], states[k]);
    }
  }

  lemma FollowsReflexive(s: State)
    requires Inv(s)
    ensures Follows(s, s)
  {
  }

  lemma RunShape(states: seq<State>, steps: seq<Step>, i: nat)
    requires IsRun(states, steps) && i < |states|
    ensures Shape(states[i])
  {
    hide Can, Do;
    RunInv(states, steps, i);
  }

  // ---------- Who holds which reference ----------

  datatype Owner = TheMap | TheReader | TheCloser | TheCaller | Nobody

  /** `owner` is responsible for reference `r`; its caller is once it is complete. */
  ghost predicate Owns(s: State, r: RefId, owner: Owner)
    requires Shape(s) && r < |s.calls|
  {
    match owner
    case TheMap => s.calls[r].request.callId in s.pending && s.pending[s.calls[r].request.callId] == r
    case TheReader => s.reader.Holding? && s.reader.ref == r
    case TheCloser => s.closing.Draining? && r in s.closing.todo
    case TheCaller => s.states[r].Done?
    case Nobody => r in s.orphans
  }

  /** Every reference that has entered the map, and whose own send has not failed, has exactly
      one owner in every reachable state. */
  lemma OneOwner(states: seq<State>, steps: seq<Step>, i: nat, r: RefId)
    requires IsRun(states, steps) && i < |states| && Shape(states[i]) && r < |states[i].calls|
    requires Entered(states[i].sends[r]) && !Broke(states[i].sends[r])
    ensures exists owner :: Owns(states[i], r, owner)
    ensures forall one, other :: Owns(states[i], r, one) && Owns(states[i], r, other) ==> one == other
  {
    RunInv(states, steps, i);
    hide IsRun, Locks, WireOk, HandlesOk, ViasOk, CloseIsLast, ReturnsOk, OrderOk, WritesOk, LatestVia, ViaOrder;
    OneOwnerFacts(states[i], r);
  }

  lemma OneOwnerFacts(s: State, r: RefId)
    requires Shape(s) && r < |s.calls| && Entered(s.sends[r]) && !Broke(s.sends[r])
    requires Ids(s.calls) && MapOk(s.calls, s.sends, s.states, s.pending)
    requires HandledOk(s.calls, s.sends, s.states, s.pending, s.reader, s.handled)
    requires ClosingOk(s.sends, s.states, s.pending, s.closing, s.handled)
    requires OrphansOk(s.calls, s.sends, s.states, s.pending, s.closing, s.handled, s.orphans)
    requires Somewhere(s.calls, s.sends, s.states, s.pending, s.reader, s.closing, s.orphans)
    ensures exists owner :: Owns(s, r, owner)
    ensures forall one, other :: Owns(s, r, one) && Owns(s, r, other) ==> one == other
  {
    var id := s.calls[r].request.callId;
    assert id in s.pending ==> s.pending[id] == r;
    assert s.reader.Holding? ==> s.reader.ref in s.handled;
    var owner :=
      if id in s.pending then TheMap
      else if s.reader.Holding? && s.reader.ref == r then TheReader
      else if s.closing.Draining? && r in s.closing.todo then TheCloser
      else if s.states[r].Done? then TheCaller
      else Nobody;
    assert Owns(s, r, owner);
  }

  // ---------- One completion each ----------

  /** The step is an attempt to complete reference `r`. */
  predicate Attempts(s: State, step: Step, r: RefId) {
    match step
    case Complete => s.reader.Holding? && s.reader.ref == r
    case FailOne(x) => x == r
    case Report(x) => x == r
    case _ => false
  }

  /** An attempt to complete a reference finds it waiting, so it succeeds, unless the
      reference's own send failed after it had entered the pending map. */
  lemma OnlyFailedSendsClash(states: seq<State>, steps: seq<Step>, i: nat, r: RefId)
    requires IsRun(states, steps) && i < |steps| && Attempts(states[i], steps[i], r)
    ensures Shape(states[i]) && r < |states[i].calls|
    ensures states[i].states[r] == Waiting || Broke(states[i].sends[r])
  {
    RunInv(states, steps, i);
    hide IsRun, Locks, WireOk, HandlesOk, ViasOk, CloseIsLast, ReturnsOk, MapOk, Somewhere, OrphansOk, OrderOk,
      WritesOk, LatestVia, ViaOrder;
    assert steps[i].FailOne? ==> r in states[i].closing.todo;
  }

  /** The send of `r` has failed after it had entered the pending map. */
  predicate BrokenIn(s: State, r: RefId) {
    Shape(s) && r < |s.calls| && Broke(s.sends[r])
  }

  /** A send fails after insertion only in its write: because its own request is too long for a frame,
      or because the socket failed. */
  lemma {:induction false} BrokenByAWrite(states: seq<State>, steps: seq<Step>, i: nat, r: RefId)
    requires IsRun(states, steps) && i < |states| && BrokenIn(states[i], r)
    ensures if states[i].calls[r].size > Limit(states[i].maxFrame) then TooLong(r) in steps[..i] else SocketFails(r) in steps[..i]
  {
    hide Inv, Can, Do, IsRun, Shape, Limit;
    NothingBreaksFirst(states, steps, r);
    if i > 0 {
      RunShape(states, steps, i - 1);
      StepOf(states, steps, i - 1);
      BreakingStep(states[i - 1], steps[i - 1], r);
      CallStays(states[i - 1], steps[i - 1], r);
      assert steps[..i] == steps[..i - 1] + [steps[i - 1]];
      if BrokenIn(states[i - 1], r) {
        BrokenByAWrite(states, steps, i - 1, r);
      }
    }
  }

  lemma StepOf(states: seq<State>, steps: seq<Step>, i: nat)
    requires IsRun(states, steps) && i < |steps|
    ensures |states| == |steps| + 1 && Can(states[i], steps[i]) && states[i + 1] == Do(states[i], steps[i])
  {
    hide Can, Do;
  }

  lemma NothingBreaksFirst(states: seq<State>, steps: seq<Step>, r: RefId)
    requires IsRun(states, steps)
    ensures |states| == |steps| + 1 && !BrokenIn(states[0], r)
  {
  }

  lemma CallStays(s: State, step: Step, r: RefId)
    requires Shape(s) && Can(s, step)
    ensures Do(s, step).maxFrame == s.maxFrame && |s.calls| <= |Do(s, step).calls|
    ensures r < |s.calls| ==> Do(s, step).calls[r] == s.calls[r]
  {
    hide Can, Do;
    StepFollows(s, step);
  }

  lemma BreakingStep(s: State, step: Step, r: RefId)
    requires Shape(s) && Can(s, step) && BrokenIn(Do(s, step), r)
    ensures BrokenIn(s, r) ||
      (r < |s.calls| && if s.calls[r].size > Limit(s.maxFrame) then step == TooLong(r) else step == SocketFails(r))
  {
  }

  // ---------- Why a reference is complete ----------

  lemma ClosingStep(s: State, step: Step)
    requires Can(s, step) && (Do(s, step).closing.Flagged? || Do(s, step).closing.Draining?)
    ensures var t := Do(s, step);
      step == Close(t.closing.error) || ((s.closing.Flagged? || s.closing.Draining?) && s.closing.error == t.closing.error)
  {
  }

  /** The error that a closer hands out is the one it was called with. */
  lemma {:induction false} FindClose(states: seq<State>, steps: seq<Step>, i: nat) returns (m: nat)
    requires IsRun(states, steps) && i < |states| && (states[i].closing.Flagged? || states[i].closing.Draining?)
    ensures m < i && steps[m] == Close(states[i].closing.error)
  {
    m := 0;
    if i == 0 {
      assert false;
    } else {
      hide Can, Do;
      ClosingStep(states[i - 1], steps[i - 1]);
      if steps[i - 1] == Close(states[i].closing.error) { m := i - 1; } else { m := FindClose(states, steps, i - 1); }
    }
  }

  predicate Holds(s: State, r: RefId, outcome: Outcome) {
    s.reader == Holding(r, outcome)
  }

  lemma HoldingStep(s: State, step: Step, r: RefId, outcome: Outcome)
    requires Shape(s) && Can(s, step) && Holds(Do(s, step), r, outcome)
    requires MapOk(s.calls, s.sends, s.states, s.pending)
    ensures Holds(s, r, outcome) || (r < |s.calls| && step == Receive(Completes(s.calls[r].request.callId, outcome)))
  {
  }

  lemma MapFacts(states: seq<State>, steps: seq<Step>, i: nat)
    requires IsRun(states, steps) && i < |states|
    ensures Shape(states[i]) && MapOk(states[i].calls, states[i].sends, states[i].states, states[i].pending)
    ensures states[i].reader.Holding? ==> states[i].reader.ref < |states[i].calls|
  {
    hide Can, Do, Ids, MapOk, Locks, Unentered, ClosingOk, OrphansOk, Somewhere, WireOk, ReturnsOk, HandlesOk,
      ViasOk, CloseIsLast, OrderOk, WritesOk, LatestVia, ViaOrder;
    RunInv(states, steps, i);
  }

  /** What the reader holds it has received, for that very reference. */
  lemma {:induction false} FindReceive(states: seq<State>, steps: seq<Step>, i: nat, r: RefId, outcome: Outcome) returns (m: nat)
    requires IsRun(states, steps) && i < |states| && Holds(states[i], r, outcome)
    ensures Shape(states[i]) && r < |states[i].calls|
    ensures m < i && steps[m] == Receive(Completes(states[i].calls[r].request.callId, outcome))
  {
    m := 0;
    MapFacts(states, steps, i);
    if i == 0 {
      assert false;
    } else {
      MapFacts(states, steps, i - 1);
      CallStays(states[i - 1], steps[i - 1], r);
      hide Can, Do, MapOk;
      HoldingStep(states[i - 1], steps[i - 1], r, outcome);
      if Holds(states[i - 1], r, outcome) { m := FindReceive(states, steps, i - 1, r, outcome); } else { m := i - 1; }
    }
  }

  predicate IsDone(s: State, r: RefId, outcome: Outcome) {
    Shape(s) && r < |s.states| && s.states[r] == Done(outcome)
  }

  /** The step completes reference `r` with `outcome`. */
  predicate CompletesWith(s: State, step: Step, r: RefId, outcome: Outcome) {
    match step
    case Complete => s.reader == Holding(r, outcome)
    case FailOne(x) => x == r && s.closing.Draining? && outcome == Raised(s.closing.error)
    case Report(x) => x == r && outcome == Raised(Error("ConnectionError", "failed to send remote call"))
    case _ => false
  }

  lemma DoneStep(s: State, step: Step, r: RefId, outcome: Outcome)
    requires Shape(s) && Can(s, step) && IsDone(Do(s, step), r, outcome) && !IsDone(s, r, outcome)
    ensures CompletesWith(s, step, r, outcome)
  {
  }

  lemma {:induction false} FindCompletion(states: seq<State>, steps: seq<Step>, i: nat, r: RefId, outcome: Outcome) returns (k: nat)
    requires IsRun(states, steps) && i < |states| && IsDone(states[i], r, outcome)
    ensures k < i && CompletesWith(states[k], steps[k], r, outcome)
  {
    k := 0;
    if i == 0 {
      assert false;
    } else {
      k := i - 1;
      RunShape(states, steps, k);
      hide Can, Do, CompletesWith;
      if IsDone(states[k], r, outcome) {
        k := FindCompletion(states, steps, i - 1, r, outcome);
      } else {
        hide IsDone;
        DoneStep(states[k], steps[k], r, outcome);
      }
    }
  }

  /** Every outcome has its cause: a complete reference holds what a response for its own call said, or the error that the
      connection was closed with, or that its own request could not be sent. */
  lemma OutcomesHaveCauses(states: seq<State>, steps: seq<Step>, i: nat, r: RefId, outcome: Outcome) returns (m: nat)
    requires IsRun(states, steps) && i < |states| && IsDone(states[i], r, outcome)
    ensures m < i && r < |states[i].calls|
    ensures
      || steps[m] == Receive(Completes(states[i].calls[r].request.callId, outcome))
      || (steps[m].Close? && outcome == Raised(steps[m].error))
      || (steps[m] == Report(r) && outcome == Raised(Error("ConnectionError", "failed to send remote call")))
  {
    hide Can, Do, Follows;
    var k := FindCompletion(states, steps, i, r, outcome);
    m := k;
    if steps[k].Complete? {
      m := FindReceive(states, steps, k, r, outcome);
      NothingIsUndone(states, steps, k, i);
      SameCall(states[k], states[i], r);
    } else if steps[k].FailOne? {
      m := FindClose(states, steps, k);
    }
    hide IsRun;
  }

  lemma SameCall(a: State, b: State, r: RefId)
    requires Follows(a, b) && r < |a.calls|
    ensures r < |b.calls| && b.calls[r] == a.calls[r]
  {
  }

  // ---------- Nothing is left behind ----------

  predicate IsBadFlag(step: Step) {
    step.Receive? && step.reading.BadFlag?
  }

  /** The `ok` of every response is a boolean. */
  ghost predicate NoBadFlag(steps: seq<Step>) {
    forall k :: 0 <= k < |steps| ==> !IsBadFlag(steps[k])
  }

  /** No request is longer than `longest`. */
  ghost predicate SizesUpTo(calls: seq<Issued>, longest: nat) {
    forall r :: 0 <= r < |calls| ==> calls[r].size <= longest
  }

  /** Whatever is left without reader and closer is in the hands of its own sender. */
  ghost predicate OrphansBroke(sends: seq<Sending>, orphans: set<RefId>) {
    forall r {:trigger r in orphans} :: r in orphans ==> r < |sends| && Broke(sends[r])
  }

  /** The closer finds a reference complete that its own sender has failed: if its request fits a frame, the socket
      had failed before, so all that were inserted later were refused as well. */
  lemma CrashOrphans(s: State, r: RefId)
    requires Inv(s) && CanFailOne(s, r) && s.states[r].Done? && SizesUpTo(s.calls, Limit(s.maxFrame))
    ensures OrphansBroke(s.sends, Elements(s.closing.todo[1..]))
  {
    hide Ids, MapOk, Unentered, HandledOk, OrphansOk, Somewhere, WireOk, ReturnsOk, HandlesOk, ViasOk,
      CloseIsLast, OrderOk, LatestVia, ViaOrder;
    var todo := s.closing.todo;
    assert r in todo && Broke(s.sends[r]);
    forall q | q in Elements(todo[1..]) ensures q < |s.sends| && Broke(s.sends[q]) {
      var k :| 0 <= k < |todo[1..]| && todo[1..][k] == q;
      assert todo[k + 1] == q && q in todo;
    }
  }

  lemma OrphansStep(s: State, step: Step)
    requires Shape(s) && Inv(s) && Can(s, step) && !IsBadFlag(step) && SizesUpTo(s.calls, Limit(s.maxFrame))
    requires OrphansBroke(s.sends, s.orphans)
    ensures OrphansBroke(Do(s, step).sends, Do(s, step).orphans)
  {
    hide Inv, Can, Do;
    if step.FailOne? {
      CrashStep(s, step.r);
    } else {
      SameOrphans(s, step);
      SendsStayBroken(s, step);
    }
  }

  lemma CrashStep(s: State, r: RefId)
    requires Inv(s) && Can(s, FailOne(r)) && SizesUpTo(s.calls, Limit(s.maxFrame)) && OrphansBroke(s.sends, s.orphans)
    ensures var t := Do(s, FailOne(r)); OrphansBroke(t.sends, t.orphans)
  {
    if s.states[r].Done? { CrashOrphans(s, r); }
    hide Inv;
  }

  lemma SameOrphans(s: State, step: Step)
    requires Can(s, step) && !IsBadFlag(step) && !step.FailOne?
    ensures Do(s, step).orphans == s.orphans
  {
  }

  lemma SendsStayBroken(s: State, step: Step)
    requires Shape(s) && Can(s, step)
    ensures |s.sends| <= |Do(s, step).sends|
    ensures forall r :: 0 <= r < |s.sends| && Broke(s.sends[r]) ==> Broke(Do(s, step).sends[r])
  {
  }

  lemma {:induction false} OrphansAreBroken(states: seq<State>, steps: seq<Step>, i: nat)
    requires IsRun(states, steps) && i < |states| && NoBadFlag(steps[..i])
    requires SizesUpTo(states[i].calls, Limit(states[i].maxFrame))
    ensures OrphansBroke(states[i].sends, states[i].orphans)
  {
    if i > 0 {
      hide Can, Do, Inv;
      assert steps[..i][..i - 1] == steps[..i - 1] && steps[..i][i - 1] == steps[i - 1];
      RunShape(states, steps, i - 1);
      EarlierSizes(states[i - 1], steps[i - 1]);
      OrphansAreBroken(states, steps, i - 1);
      RunInv(states, steps, i - 1);
      OrphansStep(states[i - 1], steps[i - 1]);
    }
  }

  lemma EarlierSizes(s: State, step: Step)
    requires Shape(s) && Can(s, step) && SizesUpTo(Do(s, step).calls, Limit(Do(s, step).maxFrame))
    ensures SizesUpTo(s.calls, Limit(s.maxFrame))
  {
    hide Can, Do;
    forall r | 0 <= r < |s.calls| ensures s.calls[r].size <= Limit(s.maxFrame) {
      CallStays(s, step, r);
    }
    CallStays(s, step, 0);
  }

  /** Its own sender is about to complete the reference, unless it is complete. */
  predicate Unwinding(sending: Sending) {
    Broke(sending) && !sending.Rejected?
  }

  /** Closing completes everything. Let all requests fit a frame and all responses have a boolean `ok`; sockets may
      fail, and senders and closers race, at any time. When the close is over, with or without an exception, and
      the reader is not just completing a reference, the map is empty and every reference that ever
      entered it is complete, or its own sender, whose write failed, is just doing that. */
  lemma CloseCompletesEverything(states: seq<State>, steps: seq<Step>, i: nat, r: RefId)
    requires IsRun(states, steps) && i < |states| && NoBadFlag(steps[..i])
    requires SizesUpTo(states[i].calls, Limit(states[i].maxFrame))
    requires states[i].closing == Closed || states[i].closing == Crashed
    requires !states[i].reader.Holding?
    requires Shape(states[i]) && r < |states[i].calls| && Entered(states[i].sends[r])
    ensures states[i].pending == map[]
    ensures states[i].states[r].Done? || Unwinding(states[i].sends[r])
  {
    OrphansAreBroken(states, steps, i);
    RunInv(states, steps, i);
    hide IsRun;
    ClosedFacts(states[i], r);
  }

  lemma ClosedFacts(s: State, r: RefId)
    requires Inv(s) && OrphansBroke(s.sends, s.orphans) && !s.reader.Holding?
    requires s.closing == Closed || s.closing == Crashed
    requires r < |s.calls| && Entered(s.sends[r])
    ensures s.pending == map[] && (s.states[r].Done? || Unwinding(s.sends[r]))
  {
    hide Ids, MapOk, HandledOk, OrphansOk, WireOk, ReturnsOk, HandlesOk, ViasOk, CloseIsLast, OrderOk, WritesOk,
      LatestVia, ViaOrder;
  }

  /** A sender whose write failed completes its reference by steps of its own, which nobody can block. */
  lemma BrokenSendEnds(s: State, r: RefId)
    requires Shape(s) && r < |s.calls| && s.sends[r] == Failing(true)
    ensures Can(s, Pop(r))
    ensures var a := Do(s, Pop(r));
      && Can(a, Look(r))
      && var b := Do(a, Look(r)); b.states[r].Done? || (Can(b, Report(r)) && Do(b, Report(r)).states[r].Done?)
  {
  }

  // ---------- What is lost is lost for ever ----------

  /** The request was sent, the close is over, the reader has ended, and the caller waits. */
  predicate Lost(s: State, r: RefId) {
    && Shape(s) && r < |s.calls| && s.sends[r] == Sent && s.states[r] == Waiting
    && (s.closing == Closed || s.closing == Crashed) && s.reader == Ended
  }

  lemma LostStep(s: State, step: Step, r: RefId)
    requires Lost(s, r) && Can(s, step)
    ensures Lost(Do(s, step), r)
  {
  }

  lemma {:induction false} LostForEver(states: seq<State>, steps: seq<Step>, i: nat, k: nat, r: RefId)
    requires IsRun(states, steps) && i <= k < |states| && Lost(states[i], r)
    ensures Lost(states[k], r)
    decreases k
  {
    if i < k {
      hide Can, Do, Lost;
      LostForEver(states, steps, i, k - 1, r);
      LostStep(states[k - 1], steps[k - 1], r);
    }
  }
}
