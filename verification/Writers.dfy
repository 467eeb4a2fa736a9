/** Many threads writing frames to one socket. With the write lock, what arrives is an ordered
    message channel; without it, it need not be. */
module Writers {
  import opened Base
  import opened Framing

  type Thread = nat

  /** Where a thread is in writing one frame: the header, then the payload, each in as many pieces as the
      network takes. */
  datatype Writer =
    | Idle
    | Waiting(payload: Bytes)                   // its size has been checked
    | Writing(payload: Bytes, done: nat)        // holds the lock; `done` bytes of the frame are out
    | Failed

  datatype State = State(
    writers: seq<Writer>, lock: Option<Thread>,
    out: Bytes,                 // everything that has been sent
    broken: bool,               // a send has failed
    order: seq<Bytes>,          // the payloads in the order in which their threads got the lock
    completed: seq<Bytes>)      // those whose frames have been written in full

  datatype Step =
    | Begin(t: Thread, payload: Bytes)
    | Acquire(t: Thread)
    | Send(t: Thread, n: nat)
    | Finish(t: Thread)
    | Fail(t: Thread)

  function Initial(threads: nat): State {
    State(seq(threads, _ => Idle), None, [], false, [], [])
  }

  predicate IsWriting(s: State, t: Thread) {
    t < |s.writers| && s.writers[t].Writing? && |s.writers[t].payload| <= MAX_UINT32
  }

  predicate Can(maxFrame: nat, locking: bool, s: State, step: Step) {
    match step
    case Begin(t, payload) => t < |s.writers| && s.writers[t] == Idle && Fits(payload, maxFrame)
    case Acquire(t) => t < |s.writers| && s.writers[t].Waiting? && (locking ==> s.lock == None)
    case Send(t, n) =>
      IsWriting(s, t) && !s.broken && 0 < n && s.writers[t].done + n <= |Frame(s.writers[t].payload)| &&
      (s.writers[t].done < HEADER_SIZE ==> s.writers[t].done + n <= HEADER_SIZE)
    case Finish(t) => IsWriting(s, t) && s.writers[t].done == |Frame(s.writers[t].payload)|
    case Fail(t) => IsWriting(s, t) && s.writers[t].done < |Frame(s.writers[t].payload)|
  }

  function Do(maxFrame: nat, locking: bool, s: State, step: Step): State
    requires Can(maxFrame, locking, s, step)
  {
    match step
    case Begin(t, payload) => s.(writers := s.writers[t := Waiting(payload)])
    case Acquire(t) =>
      s.(writers := s.writers[t := Writing(s.writers[t].payload, 0)], lock := if locking then Some(t) else None,
         order := s.order + [s.writers[t].payload])
    case Send(t, n) =>
      var w := s.writers[t];
      s.(writers := s.writers[t := Writing(w.payload, w.done + n)], out := s.out + Frame(w.payload)[w.done..w.done + n])
    case Finish(t) =>
      s.(writers := s.writers[t := Idle], lock := None, completed := s.completed + [s.writers[t].payload])
    case Fail(t) => s.(writers := s.writers[t := Failed], lock := None, broken := true)
  }

  ghost predicate IsRun(threads: nat, maxFrame: nat, locking: bool, states: seq<State>, steps: seq<Step>) {
    && |states| == |steps| + 1
    && states[0] == Initial(threads)
    && forall i :: 0 <= i < |steps| ==>
         Can(maxFrame, locking, states[i], steps[i]) && states[i + 1] == Do(maxFrame, locking, states[i], steps[i])
  }

  // ---------- With the lock ----------

  /** The holder of the lock, with the frame it is writing. */
  predicate Held(s: State) {
    s.lock.Some? && IsWriting(s, s.lock.value) && s.writers[s.lock.value].done <= |Frame(s.writers[s.lock.value].payload)|
  }

  /** What follows the complete frames: the part that the lock's holder has sent of its frame, or the
      unfinished frame after which the connection broke. */
  ghost predicate Tail(s: State, maxFrame: nat, rest: Bytes)
    requires s.lock.Some? ==> Held(s)
  {
    if s.broken then Unfinished(rest, maxFrame)
    else if s.lock.Some? then rest == Frame(s.writers[s.lock.value].payload)[..s.writers[s.lock.value].done]
    else rest == []
  }

  ghost predicate Inv(maxFrame: nat, s: State) {
    && AllFit(s.completed, maxFrame)
    && (forall t :: 0 <= t < |s.writers| && (s.writers[t].Waiting? || s.writers[t].Writing?) ==> Fits(s.writers[t].payload, maxFrame))
    && (s.lock.Some? ==> Held(s))
    && (forall t :: 0 <= t < |s.writers| && s.writers[t].Writing? ==> s.lock == Some(t))
    && (s.broken && s.lock.Some? ==> s.writers[s.lock.value].done < |Frame(s.writers[s.lock.value].payload)|)
    && Frames(s.completed, maxFrame) <= s.out
    && Tail(s, maxFrame, s.out[|Frames(s.completed, maxFrame)|..])
    && (if s.broken then s.completed <= s.order
        else s.order == s.completed + (if s.lock.Some? then [s.writers[s.lock.value].payload] else []))
  }

  lemma SendKeeps(maxFrame: nat, s: State, t: Thread, n: nat)
    requires Inv(maxFrame, s) && Can(maxFrame, true, s, Send(t, n))
    ensures Inv(maxFrame, Do(maxFrame, true, s, Send(t, n)))
  {
  }

  lemma FinishKeeps(maxFrame: nat, s: State, t: Thread)
    requires Inv(maxFrame, s) && Can(maxFrame, true, s, Finish(t))
    ensures Inv(maxFrame, Do(maxFrame, true, s, Finish(t)))
  {
    var frames, p := Frames(s.completed, maxFrame), s.writers[t].payload;
    assert (s.completed + [p])[|s.completed|] == p;
    assert AllFit(s.completed + [p], maxFrame);
    FramesAppend(s.completed, p, maxFrame);
    assert s.out == frames + s.out[|frames|..];
  }

  lemma FailKeeps(maxFrame: nat, s: State, t: Thread)
    requires Inv(maxFrame, s) && Can(maxFrame, true, s, Fail(t))
    ensures Inv(maxFrame, Do(maxFrame, true, s, Fail(t)))
  {
  }

  lemma StepKeeps(maxFrame: nat, s: State, step: Step)
    requires Inv(maxFrame, s) && Can(maxFrame, true, s, step)
    ensures Inv(maxFrame, Do(maxFrame, true, s, step))
  {
    match step {
      case Send(t, n) =>
        hide Inv;
        SendKeeps(maxFrame, s, t, n);
      case Finish(t) =>
        hide Inv;
        FinishKeeps(maxFrame, s, t);
      case Fail(t) =>
        hide Inv;
        FailKeeps(maxFrame, s, t);
      case _ =>
    }
  }

  lemma {:induction false} RunInv(threads: nat, maxFrame: nat, states: seq<State>, steps: seq<Step>, i: nat)
    requires IsRun(threads, maxFrame, true, states, steps) && i < |states|
    ensures Inv(maxFrame, states[i])
  {
    if i > 0 {
      RunInv(threads, maxFrame, states, steps, i - 1);
      StepKeeps(maxFrame, states[i - 1], steps[i - 1]);
    }
  }

  /** However many threads write and however their sends interleave and are cut up, what has been sent
      decodes to the payloads of the frames written, in the order in which their
      threads got the lock, and nothing else: `completed` is a prefix of that order, and
      at most one frame, the next in that order, is on its way. */
  lemma WireIsAChannel(threads: nat, maxFrame: nat, states: seq<State>, steps: seq<Step>, i: nat)
    requires IsRun(threads, maxFrame, true, states, steps) && i < |states|
    ensures var s := states[i]; var got := ReadAll(s.out, maxFrame);
      && s.completed <= s.order && s.completed <= got <= s.order && |got| <= |s.completed| + 1
      && (!s.broken ==> |s.order| <= |s.completed| + 1)
  {
    RunInv(threads, maxFrame, states, steps, i);
    var s := states[i];
    var frames := Frames(s.completed, maxFrame);
    var rest := s.out[|frames|..];
    assert s.out == frames + rest;
    if !s.broken && s.lock.Some? {
      var p, done := s.writers[s.lock.value].payload, s.writers[s.lock.value].done;
      if done == |Frame(p)| {
        assert rest == Frame(p);
        assert (s.completed + [p])[|s.completed|] == p;
        FramesAppend(s.completed, p, maxFrame);
        assert s.out == Frames(s.completed + [p], maxFrame) + [];
        ReadBack(s.completed + [p], [], maxFrame);
      } else {
        assert rest < Frame(p);
        ReadBack(s.completed, rest, maxFrame);
      }
    } else {
      ReadBack(s.completed, rest, maxFrame);
    }
  }

  /** The same for a reader that has so far received any prefix of what was sent: it has the first payloads
      in lock order. */
  lemma ReceivedSoFar(threads: nat, maxFrame: nat, states: seq<State>, steps: seq<Step>, i: nat, seen: Bytes)
    requires IsRun(threads, maxFrame, true, states, steps) && i < |states| && seen <= states[i].out
    ensures ReadAll(seen, maxFrame) <= states[i].order
  {
    RunInv(threads, maxFrame, states, steps, i);
    var s := states[i];
    var frames := Frames(s.completed, maxFrame);
    var rest := s.out[|frames|..];
    assert s.out == frames + rest;
    if !s.broken && s.lock.Some? && s.writers[s.lock.value].done == |Frame(s.writers[s.lock.value].payload)| {
      var p := s.writers[s.lock.value].payload;
      assert rest == Frame(p);
      assert (s.completed + [p])[|s.completed|] == p;
      FramesAppend(s.completed, p, maxFrame);
      assert s.out == Frames(s.completed + [p], maxFrame) + [];
      var n := PrefixOfFrames(s.completed + [p], [], seen, maxFrame);
    } else {
      if !s.broken && s.lock.Some? { assert rest < Frame(s.writers[s.lock.value].payload); }
      var n := PrefixOfFrames(s.completed, rest, seen, maxFrame);
    }
  }

  // ---------- The channel ----------

  /** An ordered channel of whole messages: those sent, and how many of them have been received. */
  datatype Channel = Channel(sent: seq<Bytes>, received: nat)

  /** Messages may be sent, and the next ones in order are delivered. */
  ghost predicate Delivers(a: Channel, b: Channel, messages: seq<Bytes>) {
    && a.sent <= b.sent && a.received <= b.received <= |b.sent|
    && messages == b.sent[a.received..b.received]
  }

  /** What a reader has understood of the first `n` bytes on the socket. */
  function Understood(maxFrame: nat, s: State, n: nat): seq<Bytes>
    requires n <= |s.out|
  {
    ReadAll(s.out[..n], maxFrame)
  }

  /** The channel that writers and a reader with `n` bytes make: whoever has got the lock has sent. */
  function AsChannel(maxFrame: nat, s: State, n: nat): Channel
    requires n <= |s.out|
  {
    Channel(s.order, |Understood(maxFrame, s, n)|)
  }

  /** While the writers run, a reader gets more and more of the bytes that were sent. */
  ghost predicate Reads(states: seq<State>, seen: seq<nat>) {
    && |seen| == |states|
    && (forall i :: 0 <= i < |seen| ==> seen[i] <= |states[i].out|)
    && (forall i :: 0 <= i < |seen| - 1 ==> seen[i] <= seen[i + 1])
  }

  /** Bytes refine messages: every step of the locked writers and of a reader, however the sends interleave and the
      bytes are cut up, is a step of the ordered channel, and the messages the reader newly
      understands are those that the channel delivers. */
  lemma BytesRefineTheChannel(threads: nat, maxFrame: nat, states: seq<State>, steps: seq<Step>, seen: seq<nat>, i: nat)
      returns (messages: seq<Bytes>)
    requires IsRun(threads, maxFrame, true, states, steps) && Reads(states, seen) && i < |steps|
    ensures Delivers(AsChannel(maxFrame, states[i], seen[i]), AsChannel(maxFrame, states[i + 1], seen[i + 1]), messages)
    ensures Understood(maxFrame, states[i + 1], seen[i + 1]) == Understood(maxFrame, states[i], seen[i]) + messages
  {
    var s, t := states[i], states[i + 1];
    var some, more := s.out[..seen[i]], t.out[..seen[i + 1]];
    assert s.out <= t.out && s.order <= t.order by {
      assert Can(maxFrame, true, s, steps[i]) && t == Do(maxFrame, true, s, steps[i]);
    }
    assert some <= more;
    ReceivedSoFar(threads, maxFrame, states, steps, i, some);
    ReceivedSoFar(threads, maxFrame, states, steps, i + 1, more);
    ReadingGrows(some, more, maxFrame);
    hide IsRun, ReadAll;
    var before, after := ReadAll(some, maxFrame), ReadAll(more, maxFrame);
    messages := after[|before|..];
    assert after == t.order[..|after|];
  }

  // ---------- Without the lock ----------

  /** The run goes on by one step. */
  lemma Next(maxFrame: nat, states: seq<State>, steps: seq<Step>, step: Step) returns (longer: seq<State>,
             more: seq<Step>)
    requires IsRun(2, maxFrame, false, states, steps) && Can(maxFrame, false, states[|steps|], step)
    ensures IsRun(2, maxFrame, false, longer, more)
    ensures |more| == |steps| + 1 && longer[|more|] == Do(maxFrame, false, states[|steps|], step)
  {
    hide Can, Do;
    longer, more := states + [Do(maxFrame, false, states[|steps|], step)], steps + [step];
  }

  lemma BothHeaders(maxFrame: nat) returns (states: seq<State>, steps: seq<Step>)
    requires maxFrame >= 1
    ensures IsRun(2, maxFrame, false, states, steps)
    ensures states[|steps|] ==
      State([Writing([65], 4), Writing([66], 4)], None, Header(1) + Header(1), false, [[65], [66]], [])
  {
    states, steps := [Initial(2)], [];
    states, steps := Next(maxFrame, states, steps, Begin(0, [65]));
    states, steps := Next(maxFrame, states, steps, Begin(1, [66]));
    states, steps := Next(maxFrame, states, steps, Acquire(0));
    states, steps := Next(maxFrame, states, steps, Acquire(1));
    states, steps := Next(maxFrame, states, steps, Send(0, 4));
    assert Frame([65])[0..4] == Header(1) && Frame([66])[0..4] == Header(1);
    states, steps := Next(maxFrame, states, steps, Send(1, 4));
    assert states[|steps|].out == Header(1) + Header(1);
    assert states[|steps|].writers == [Writing([65], 4), Writing([66], 4)];
  }

  lemma BothPayloads(maxFrame: nat) returns (states: seq<State>, steps: seq<Step>)
    requires maxFrame >= 1
    ensures IsRun(2, maxFrame, false, states, steps)
    ensures states[|steps|] ==
      State([Writing([65], 5), Writing([66], 5)], None, Header(1) + Header(1) + [65] + [66], false, [[65], [66]], [])
  {
    states, steps := BothHeaders(maxFrame);
    assert Frame([65])[4..5] == [65] && Frame([66])[4..5] == [66];
    states, steps := Next(maxFrame, states, steps, Send(0, 1));
    states, steps := Next(maxFrame, states, steps, Send(1, 1));
    assert states[|steps|].writers == [Writing([65], 5), Writing([66], 5)];
  }

  /** Two threads that do not lock put both headers on the wire before both payloads: a reader gets a message
      that nobody wrote. */
  lemma UnlockedWritersCorrupt(maxFrame: nat) returns (states: seq<State>, steps: seq<Step>)
    requires maxFrame >= 1
    ensures IsRun(2, maxFrame, false, states, steps) && states[|steps|].completed == [[65], [66]]
    ensures [[0]] <= ReadAll(states[|steps|].out, maxFrame)
  {
    states, steps := BothPayloads(maxFrame);
    var out := states[|steps|].out;
    assert out == Frame([0]) + [0, 0, 1, 65, 66];
    ReadIsExact(out, maxFrame, [0]);
    states, steps := Next(maxFrame, states, steps, Finish(0));
    states, steps := Next(maxFrame, states, steps, Finish(1));
  }
}
