/** When a client can lose a call whose request it has sent: exactly the two ways there are. */
module ClientWitness {
  import opened Base
  import opened Messages
  import opened Client
  import opened ClientTheorems

  const FIRST := Request("x", Call("f", [], map[]))
  const SECOND := Request("y", Call("g", [], map[]))
  const ERROR := Error("ConnectionClosedError", "client connection closed")

  ghost predicate ReceivesNothing(steps: seq<Step>) {
    forall k :: 0 <= k < |steps| ==> !steps[k].Receive?
  }

  /** The run goes on by one step, to state `t`. */
  lemma Next(states: seq<State>, steps: seq<Step>, step: Step, t: State) returns (longer: seq<State>, more: seq<Step>)
    requires IsRun(states, steps) && Can(states[|steps|], step) && Do(states[|steps|], step) == t
    ensures IsRun(longer, more) && longer[|more|] == t
    ensures longer[0] == states[0] && more == steps + [step]
    ensures ReceivesNothing(steps) && !step.Receive? ==> ReceivesNothing(more)
  {
    hide Can, Do;
    longer, more := states + [t], steps + [step];
  }

  // ---------- A response whose `ok` is not a boolean ----------

  /** A call has been sent and nothing received. */
  function Sends(maxFrame: nat): State {
    State(maxFrame, [Issued(FIRST, None, 0)], [Sent], [Waiting], [], map["x" := 0], [0], None, Open, Reading, [0], [], {}, false)
  }

  lemma SendsOne(maxFrame: nat) returns (states: seq<State>, steps: seq<Step>)
    ensures IsRun(states, steps) && states[0].maxFrame == maxFrame && states[|steps|] == Sends(maxFrame)
  {
    states, steps := [Initial(maxFrame)], [];
    var t := Sends(maxFrame).(sends := [Ready], pending := map[], order := [], wire := []);
    states, steps := Next(states, steps, Issue(FIRST, 0), t);
    t := Sends(maxFrame).(sends := [Inserted], lock := Some(0), wire := []);
    states, steps := Next(states, steps, Insert(0), t);
    t := t.(sends := [OnWire], wire := [0]);
    states, steps := Next(states, steps, Write(0), t);
    states, steps := Next(states, steps, Return(0), Sends(maxFrame));
  }

  /** A response whose `ok` is not a boolean takes its reference out of the map before the reader
      gives up: the connection closes completely and the caller waits for ever. */
  lemma BadFlagLosesACall(maxFrame: nat) returns (states: seq<State>, steps: seq<Step>)
    ensures IsRun(states, steps) && states[0].maxFrame == maxFrame
    ensures states[|steps|].calls == [Issued(FIRST, None, 0)]
    ensures Lost(states[|steps|], 0) && states[|steps|].closing == Closed
  {
    states, steps := SendsOne(maxFrame);
    var s := Sends(maxFrame);
    var t := s.(pending := map[], order := [], reader := GivingUp, orphans := {0});
    assert s.pending - {"x"} == t.pending;
    states, steps := Next(states, steps, Receive(BadFlag("x")), t);
    states, steps := Next(states, steps, Close(ERROR), t.(closing := Flagged(ERROR)));
    states, steps := Next(states, steps, Drain, t.(closing := Client.Draining([], ERROR)));
    states, steps := Next(states, steps, CloseEnds, t.(closing := Closed));
    states, steps := Next(states, steps, ReaderEnds, t.(closing := Closed, reader := Ended));
  }

  // ---------- A request that is too long ----------

  /** The first request is longer than a frame: nothing was written, and its sender has not yet cleaned up. */
  function TooBig(maxFrame: nat, size: nat): State {
    State(maxFrame, [Issued(FIRST, None, size)], [Failing(true)], [Waiting], [], map["x" := 0], [0], None, Open, Reading, [], [], {}, false)
  }

  lemma BreaksOne(maxFrame: nat, size: nat) returns (states: seq<State>, steps: seq<Step>)
    requires size > Limit(maxFrame)
    ensures IsRun(states, steps) && ReceivesNothing(steps)
    ensures states[0].maxFrame == maxFrame && states[|steps|] == TooBig(maxFrame, size)
  {
    states, steps := [Initial(maxFrame)], [];
    var t := TooBig(maxFrame, size).(sends := [Ready], pending := map[], order := []);
    states, steps := Next(states, steps, Issue(FIRST, size), t);
    states, steps := Next(states, steps, Insert(0), TooBig(maxFrame, size).(sends := [Inserted], lock := Some(0)));
    states, steps := Next(states, steps, TooLong(0), TooBig(maxFrame, size));
  }

  /** The first request is longer than a frame; the second has been sent and waits for its answer. */
  function Refused(maxFrame: nat, size: nat): State {
    State(maxFrame, [Issued(FIRST, None, size), Issued(SECOND, None, 0)], [Failing(true), Sent], [Waiting, Waiting], [],
          map["x" := 0, "y" := 1], [0, 1], None, Open, Reading, [1], [], {}, false)
  }

  /** The second call has entered the map behind the first. */
  function Behind(maxFrame: nat, size: nat): State {
    Refused(maxFrame, size).(sends := [Failing(true), Inserted], lock := Some(1), wire := [])
  }

  lemma EntersBehind(maxFrame: nat, size: nat) returns (states: seq<State>, steps: seq<Step>)
    requires size > Limit(maxFrame)
    ensures IsRun(states, steps) && ReceivesNothing(steps)
    ensures states[0].maxFrame == maxFrame && states[|steps|] == Behind(maxFrame, size)
  {
    states, steps := BreaksOne(maxFrame, size);
    var t := Behind(maxFrame, size).(sends := [Failing(true), Ready], pending := map["x" := 0], order := [0], lock := None);
    states, steps := Next(states, steps, Issue(SECOND, 0), t);
    states, steps := Next(states, steps, Insert(1), Behind(maxFrame, size));
  }

  lemma RefusesOne(maxFrame: nat, size: nat) returns (states: seq<State>, steps: seq<Step>)
    requires size > Limit(maxFrame)
    ensures IsRun(states, steps) && ReceivesNothing(steps)
    ensures states[0].maxFrame == maxFrame && states[|steps|] == Refused(maxFrame, size)
  {
    states, steps := EntersBehind(maxFrame, size);
    var t := Behind(maxFrame, size).(sends := [Failing(true), OnWire], wire := [1]);
    states, steps := Next(states, steps, Write(1), t);
    states, steps := Next(states, steps, Return(1), Refused(maxFrame, size));
  }

  /** A closer has taken both references, in the order of their insertion. */
  function Taken(maxFrame: nat, size: nat): State {
    Refused(maxFrame, size).(reader := GivingUp, closing := Client.Draining([0, 1], ERROR), pending := map[], order := [])
  }

  lemma TakesBoth(maxFrame: nat, size: nat) returns (states: seq<State>, steps: seq<Step>)
    requires size > Limit(maxFrame)
    ensures IsRun(states, steps) && ReceivesNothing(steps)
    ensures states[0].maxFrame == maxFrame && states[|steps|] == Taken(maxFrame, size)
  {
    states, steps := RefusesOne(maxFrame, size);
    var s := Refused(maxFrame, size);
    states, steps := Next(states, steps, ReadFails, s.(reader := GivingUp));
    states, steps := Next(states, steps, Close(ERROR), s.(reader := GivingUp, closing := Flagged(ERROR)));
    states, steps := Next(states, steps, Drain, Taken(maxFrame, size));
  }

  /** The sender of the request that is too long cleans up outside the lifecycle lock. When a closer has taken its
      reference before, the closer finds it complete, raises, and never fails the
      references behind it: the caller of the second call waits for ever. */
  lemma OversizedRequestLosesAnotherCall(maxFrame: nat, size: nat) returns (states: seq<State>, steps: seq<Step>)
    requires size > Limit(maxFrame)
    ensures IsRun(states, steps) && ReceivesNothing(steps) && states[0].maxFrame == maxFrame
    ensures states[|steps|].calls == [Issued(FIRST, None, size), Issued(SECOND, None, 0)]
    ensures Lost(states[|steps|], 1) && states[|steps|].closing == Crashed
  {
    states, steps := TakesBoth(maxFrame, size);
    var t := Taken(maxFrame, size).(sends := [Popped(true), Sent]);
    assert t.pending - {"x"} == map[];
    states, steps := Next(states, steps, Pop(0), t);
    t := t.(sends := [Reporting(true), Sent]);
    states, steps := Next(states, steps, Look(0), t);
    t := t.(sends := [Rejected(true), Sent], states := [Done(SEND_ERROR), Waiting]);
    states, steps := Next(states, steps, Report(0), t);
    t := t.(closing := Crashed, orphans := {1});
    states, steps := Next(states, steps, FailOne(0), t);
    states, steps := Next(states, steps, ReaderEnds, t.(reader := Ended));
  }

  // ---------- Exactly these ----------

  /** Some run whose requests are no longer than `longest`, and in which only with `flags` a response's `ok` may
      be something else than a boolean, loses a call for ever. */
  ghost predicate CanLose(maxFrame: nat, longest: nat, flags: bool) {
    exists states: seq<State>, steps: seq<Step>, r: RefId ::
      && IsRun(states, steps) && states[0].maxFrame == maxFrame && (flags || NoBadFlag(steps))
      && SizesUpTo(states[|steps|].calls, longest) && Lost(states[|steps|], r)
  }

  /** A client can lose a call it has sent if and only if its peer may answer with an `ok` that is not a boolean or
      one of its requests may exceed the frame limit, whatever the socket does. */
  lemma CallsAreLostExactlyWhen(maxFrame: nat, longest: nat, flags: bool)
    ensures CanLose(maxFrame, longest, flags) <==> flags || longest > Limit(maxFrame)
  {
    hide Can, Do, Lost;
    if flags {
      var states, steps := BadFlagLosesACall(maxFrame);
      assert Lost(states[|steps|], 0);
    }
    if longest > Limit(maxFrame) {
      var states, steps := OversizedRequestLosesAnotherCall(maxFrame, longest);
      assert NoBadFlag(steps) && Lost(states[|steps|], 1);
    }
    if !flags && longest <= Limit(maxFrame) && CanLose(maxFrame, longest, flags) {
      var states: seq<State>, steps: seq<Step>, r: RefId :|
        && IsRun(states, steps) && states[0].maxFrame == maxFrame && (flags || NoBadFlag(steps))
        && SizesUpTo(states[|steps|].calls, longest) && Lost(states[|steps|], r);
      NothingLost(states, steps, r);
      assert false;
    }
  }

  lemma NothingLost(states: seq<State>, steps: seq<Step>, r: RefId)
    requires IsRun(states, steps) && NoBadFlag(steps)
    requires SizesUpTo(states[|steps|].calls, Limit(states[0].maxFrame))
    ensures !Lost(states[|steps|], r)
  {
    hide Can, Do, Follows;
    assert steps[..|steps|] == steps;
    NothingIsUndone(states, steps, 0, |steps|);
    SameLimit(states[0], states[|steps|]);
    if Lost(states[|steps|], r) {
      CloseCompletesEverything(states, steps, |steps|, r);
      assert false;
    }
  }

  lemma SameLimit(a: State, b: State)
    requires Follows(a, b)
    ensures b.maxFrame == a.maxFrame
  {
  }
}
