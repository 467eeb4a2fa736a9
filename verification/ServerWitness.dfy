/** Runs in which a request is over without a response: "exactly one response" is false
    for calls through a handle that is merely attached, and for what `stop` finds queued. */
module ServerWitness {
  import opened Base
  import opened Messages
  import opened Server
  import opened ServerLoss

  const CREATION := Request("x", CreateActor("a", "C", [], map[]))
  const ATTACHMENT := Request("y", AttachActor("a"))
  const QUEUED_CALL := Request("z", CallActor("a", "m", [], map[]))
  const OPEN := ConnState(Serving, false, false)

  /** The run goes on by one step, to state `t`. */
  lemma Goes(setup: Setup, states: seq<State>, steps: seq<Step>, step: Step, t: State)
      returns (longer: seq<State>, more: seq<Step>)
    requires IsRun(setup, states, steps) && Can(setup, states[|steps|], step) && Do(setup, states[|steps|], step) == t
    ensures IsRun(setup, longer, more) && longer[|more|] == t
  {
    hide Can, Do;
    longer, more := states + [t], steps + [step];
  }

  // ---------- The owner leaves ----------

  /** Two clients have connected, and the first has asked for an actor. */
  const ASKED := State([Job(0, CREATION, Shared)], [Queued], [None], [None], [], [], map[],
                       [OPEN, OPEN], [[], []], {0, 1}, [0], true, true, NotStopping)

  lemma Asks(setup: Setup) returns (states: seq<State>, steps: seq<Step>)
    ensures IsRun(setup, states, steps) && states[|steps|] == ASKED
  {
    states, steps := [INITIAL], [];
    states, steps := Goes(setup, states, steps, ByStopper(Start), INITIAL.(started := true));
    var t := INITIAL.(started := true, conns := [OPEN], written := [[]], connections := {0});
    states, steps := Goes(setup, states, steps, ByConnection(Accept), t);
    t := INITIAL.(started := true, conns := [OPEN, OPEN], written := [[], []], connections := {0, 1});
    states, steps := Goes(setup, states, steps, ByConnection(Accept), t);
    states, steps := Goes(setup, states, steps, ByConnection(Handle(0, CREATION)), ASKED);
  }

  /** The actor is in the table. */
  const CREATED := State([Job(0, CREATION, Shared)], [Replying], [Some(Returned(Null))], [Some(0)],
                         [Custody("a", 0, 0, Live, 0, Published, Some(1), None)], [NewExecutor(Null)], map["a" := 0],
                         [OPEN, OPEN], [[], []], {0, 1}, [], true, true, NotStopping)

  lemma Creates(setup: Setup) returns (states: seq<State>, steps: seq<Step>)
    ensures IsRun(setup, states, steps) && states[|steps|] == CREATED
  {
    states, steps := Asks(setup);
    var t := ASKED.(stages := [Started], poolQueue := []);
    states, steps := Goes(setup, states, steps, ByTask(PoolStart), t);
    t := t.(stages := [Built(0)], custody := [Custody("a", 0, 0, Live, 0, ByJob(0), None, None)], execs := [NewExecutor(Null)]);
    states, steps := Goes(setup, states, steps, ByTask(Construct(0, Ok(Null))), t);
    states, steps := Goes(setup, states, steps, ByTask(Publish(0)), CREATED);
  }

  /** The serializer can say that the creation and the attachment succeeded. */
  predicate Confirms(setup: Setup) {
    Transmit(setup, Response("x", Returned(Null))).Sends? && Transmit(setup, Response("y", Returned(Null))).Sends?
  }

  function Confirmation(setup: Setup, j: JobId, callId: string): Sent
    requires Transmit(setup, Response(callId, Returned(Null))).Sends?
  {
    Sent(j, Transmit(setup, Response(callId, Returned(Null))).response)
  }

  /** The first client has its answer. */
  function Made(setup: Setup): State
    requires Confirms(setup)
  {
    CREATED.(stages := [Answered(0)], written := [[Confirmation(setup, 0, "x")], []])
  }

  /** The second client has attached, and has its answer. */
  function Attached(setup: Setup): State
    requires Confirms(setup)
  {
    Made(setup).(jobs := [Job(0, CREATION, Shared), Job(1, ATTACHMENT, Shared)], stages := [Answered(0), Answered(0)],
                 results := [Some(Returned(Null)), Some(Returned(Null))], targets := [Some(0), None],
                 written := [[Confirmation(setup, 0, "x")], [Confirmation(setup, 1, "y")]])
  }

  lemma Makes(setup: Setup) returns (states: seq<State>, steps: seq<Step>)
    requires Confirms(setup)
    ensures IsRun(setup, states, steps) && states[|steps|] == Made(setup)
  {
    states, steps := Creates(setup);
    var sent := Confirmation(setup, 0, "x");
    hide Transmit;
    assert [] + [sent] == [sent];
    assert CREATED.written[0 := [sent]] == [[sent], []];
    states, steps := Goes(setup, states, steps, ByWorker(Reply(0)), Made(setup));
  }

  lemma Attaches(setup: Setup) returns (states: seq<State>, steps: seq<Step>)
    requires Confirms(setup)
    ensures IsRun(setup, states, steps) && states[|steps|] == Attached(setup)
  {
    states, steps := Makes(setup);
    var sent := Confirmation(setup, 1, "y");
    hide Transmit;
    var a := Attached(setup).(written := Made(setup).written);
    var t := a.(stages := [Answered(0), Queued], results := [Some(Returned(Null)), None], poolQueue := [1]);
    states, steps := Goes(setup, states, steps, ByConnection(Handle(1, ATTACHMENT)), t);
    t := t.(stages := [Answered(0), Started], poolQueue := []);
    states, steps := Goes(setup, states, steps, ByTask(PoolStart), t);
    t := a.(stages := [Answered(0), Replying]);
    states, steps := Goes(setup, states, steps, ByTask(Attach(1)), t);
    assert [] + [sent] == [sent];
    assert t.written[1 := [sent]] == Attached(setup).written;
    states, steps := Goes(setup, states, steps, ByWorker(Reply(1)), Attached(setup));
  }

  /** The second client's call waits for the actor. */
  function Called(setup: Setup): State
    requires Confirms(setup)
  {
    var s := Attached(setup);
    s.(jobs := s.jobs + [Job(1, QUEUED_CALL, Own(0))], stages := s.stages + [Queued], results := s.results + [None],
       targets := s.targets + [None], execs := [Executor(Null, Null, [2], Idle, [2], [], [])])
  }

  /** Two clients are being served; the second has attached to the first one's actor and calls it. The run can go on so that
      the call ends without a response although its client is still being served. */
  lemma OwnerLeavingLosesACall(setup: Setup) returns (states: seq<State>, steps: seq<Step>)
    requires Confirms(setup)
    ensures IsRun(setup, states, steps) && states[|steps|] == Called(setup)
    ensures CanBeLost(setup, states, steps, 2)
  {
    states, steps := Attaches(setup);
    assert Submit(NewExecutor(Null), 2) == Called(setup).execs[0];
    assert Attached(setup).execs[0 := Called(setup).execs[0]] == Called(setup).execs;
    states, steps := Goes(setup, states, steps, ByConnection(Handle(1, QUEUED_CALL)), Called(setup));
    hide IsRun, Transmit;
    OwnerLeaves(setup, states, steps, 2, 0);
  }

  // ---------- The runtime stops ----------

  const FUNCTION_CALL := Request("f", Call("f", [], map[]))

  /** A client has called a function, and no worker of the pool is free yet. */
  const WAITS := State([Job(0, FUNCTION_CALL, Shared)], [Queued], [None], [None], [], [], map[],
                       [OPEN], [[]], {0}, [0], true, true, NotStopping)

  lemma Waits(setup: Setup) returns (states: seq<State>, steps: seq<Step>)
    ensures IsRun(setup, states, steps) && states[|steps|] == WAITS
  {
    states, steps := [INITIAL], [];
    states, steps := Goes(setup, states, steps, ByStopper(Start), INITIAL.(started := true));
    var t := INITIAL.(started := true, conns := [OPEN], written := [[]], connections := {0});
    states, steps := Goes(setup, states, steps, ByConnection(Accept), t);
    states, steps := Goes(setup, states, steps, ByConnection(Handle(0, FUNCTION_CALL)), WAITS);
  }

  /** `stop` cancels a request that waits in the shared pool; its client gets no response. */
  lemma StopLosesACall(setup: Setup) returns (states: seq<State>, steps: seq<Step>)
    ensures IsRun(setup, states, steps)
    ensures states[|steps|] == WAITS.(stages := [Cancelled], poolQueue := [], poolLive := false, connections := {},
                                      conns := [ConnState(Serving, true, true)], stop := PoolDown)
  {
    states, steps := Waits(setup);
    var t := WAITS.(stop := Flagged);
    states, steps := Goes(setup, states, steps, ByStopper(StopFlag), t);
    t := WAITS.(stop := ClosingConns({0}), connections := {});
    states, steps := Goes(setup, states, steps, ByStopper(StopSnapshot), t);
    t := t.(conns := [ConnState(Serving, true, false)]);
    states, steps := Goes(setup, states, steps, ByStopper(StopMark(0)), t);
    t := t.(conns := [ConnState(Serving, true, true)], stop := ClosingConns({}));
    assert {0} - {0} == t.stop.conns;
    states, steps := Goes(setup, states, steps, ByStopper(StopShut(0)), t);
    t := t.(stop := PoolDown, poolLive := false);
    states, steps := Goes(setup, states, steps, ByStopper(StopPool), t);
    states, steps := Goes(setup, states, steps, ByTask(PoolCancel), t.(stages := [Cancelled], poolQueue := []));
  }
}
