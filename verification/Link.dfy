/** One client and the server, joined by a connection that delivers whole messages in
    order: what the two ends know of each other. Other connections of the server
    do as they like. */
module Link {
  import opened Base
  import opened Messages
  import S = Server
  import SH = ServerHistory
  import C = Client

  /** The server's side of the connection, Python's `str` and the client's frame limit. */
  datatype Wiring = Wiring(setup: S.Setup, conn: S.Conn, show: Value -> string, maxFrame: nat)

  datatype System = System(
    server: S.State, client: C.State,
    accepted: seq<S.JobId>,    // the jobs made of the client's requests, in wire order
    received: nat)             // how many responses the client's reader has read

  function Initial(w: Wiring): System {
    System(S.INITIAL, C.Initial(w.maxFrame), [], 0)
  }

  datatype Step = Serve(server: S.Step) | Act(client: C.Step)

  /** A request the server reads on this connection is the next one the client wrote. */
  ghost predicate CanServe(w: Wiring, x: System, step: S.Step) {
    && S.Can(w.setup, x.server, step)
    && (SH.Arrival(step).Some? && SH.Arrival(step).value.0 == w.conn ==>
          && |x.accepted| < |x.client.wire|
          && x.client.wire[|x.accepted|] < |x.client.calls|
          && ParseRequest(BuildRequest(x.client.calls[x.client.wire[|x.accepted|]].request)) == Ok(SH.Arrival(step).value.1))
  }

  ghost function DoServe(w: Wiring, x: System, step: S.Step): System
    requires CanServe(w, x, step)
  {
    var y := x.(server := S.Do(w.setup, x.server, step));
    if SH.Arrival(step).Some? && SH.Arrival(step).value.0 == w.conn then y.(accepted := x.accepted + [|x.server.jobs|]) else y
  }

  /** A message the client reads is the next one the server wrote on this connection. */
  ghost predicate CanAct(w: Wiring, x: System, step: C.Step) {
    && C.Can(x.client, step)
    && (step.Receive? ==>
          && w.conn < |x.server.written| && x.received < |x.server.written[w.conn]|
          && step.reading == ReadResponse(w.show, BuildResponse(x.server.written[w.conn][x.received].response)))
  }

  ghost function DoAct(w: Wiring, x: System, step: C.Step): System
    requires CanAct(w, x, step)
  {
    x.(client := C.Do(x.client, step), received := if step.Receive? then x.received + 1 else x.received)
  }

  ghost predicate Can(w: Wiring, x: System, step: Step) {
    match step
    case Serve(s) => CanServe(w, x, s)
    case Act(c) => CanAct(w, x, c)
  }

  ghost function Do(w: Wiring, x: System, step: Step): System
    requires Can(w, x, step)
  {
    match step
    case Serve(s) => DoServe(w, x, s)
    case Act(c) => DoAct(w, x, c)
  }

  /** `str` of a string is the string. */
  ghost predicate Wired(w: Wiring) {
    forall s :: w.show(Text(s)) == s
  }

  ghost predicate IsRun(w: Wiring, systems: seq<System>, steps: seq<Step>) {
    && Wired(w)
    && |systems| == |steps| + 1
    && systems[0] == Initial(w)
    && forall i :: 0 <= i < |steps| ==> Can(w, systems[i], steps[i]) && systems[i + 1] == Do(w, systems[i], steps[i])
  }
}
