/** What holds between the two ends of a connection. */
module LinkInvariant {
  import opened Base
  import opened Messages
  import opened Link
  import S = Server
  import SI = ServerInvariant
  import SH = ServerHistory
  import SA = ServerAccounting
  import SR = ServerRuns
  import C = Client
  import CI = ClientInvariant
  import CR = ClientRuns
  import CT = ClientTheorems

  /** The jobs of the connection are the requests on the wire, one each and in order. */
  ghost predicate Delivered(c: S.Conn, jobs: seq<S.Job>, calls: seq<C.Issued>, wire: seq<C.RefId>,
                            accepted: seq<S.JobId>) {
    && |accepted| <= |wire|
    && Increasing(accepted)
    && (forall k {:trigger wire[k]} :: 0 <= k < |accepted| ==> wire[k] < |calls|)
    && (forall k {:trigger accepted[k]} :: 0 <= k < |accepted| ==>
          && accepted[k] < |jobs|
          && jobs[accepted[k]].conn == c && jobs[accepted[k]].request == calls[wire[k]].request)
    && (forall j :: 0 <= j < |jobs| && jobs[j].conn == c ==> j in accepted)
  }

  /** What the reader popped are the references of the responses it read, in order, and they got
      the outcomes these responses carry. */
  ghost predicate Received(output: seq<S.Sent>, calls: seq<C.Issued>, states: seq<C.RefState>, wire: seq<C.RefId>,
                           reader: C.Reader, handled: seq<C.RefId>, received: nat) {
    && |handled| <= received <= |output|
    && |states| == |calls|
    && (reader.Reading? || reader.Holding? ==> |handled| == received)
    && (reader.Holding? ==> handled != [] && reader.ref == handled[|handled| - 1])
    && (forall a {:trigger handled[a]} :: 0 <= a < |handled| ==>
          && handled[a] < |calls| && handled[a] in wire
          && calls[handled[a]].request.callId == output[a].response.callId
          && (states[handled[a]] == C.Done(output[a].response.outcome) || reader == C.Holding(handled[a], output[a].response.outcome)))
  }

  /** The server's output on connection `c`, nothing before it is accepted. */
  function Output(written: seq<seq<S.Sent>>, c: S.Conn): seq<S.Sent> {
    if c < |written| then written[c] else []
  }

  /** The actor behind an owning handle was in the table before any call through the handle was accepted. */
  ghost predicate Published(custody: seq<S.Custody>, targets: seq<Option<S.EntryId>>, calls: seq<C.Issued>,
                            handles: seq<C.Handle>, wire: seq<C.RefId>, accepted: seq<S.JobId>) {
    && |accepted| <= |wire|
    && (forall k {:trigger wire[k]} :: 0 <= k < |accepted| ==> wire[k] < |calls|)
    && (forall k {:trigger accepted[k]} :: 0 <= k < |accepted| ==> accepted[k] < |targets|)
    && (forall h {:trigger handles[h]} :: 0 <= h < |handles| && handles[h].owns ==> handles[h].maker in wire[..|accepted|])
    && (forall h, m {:trigger handles[h], accepted[m]} ::
          0 <= h < |handles| && handles[h].owns && 0 <= m < |accepted| && wire[m] == handles[h].maker ==>
          InTable(custody, targets[accepted[m]]))
    && (forall k, m {:trigger accepted[k], accepted[m]} ::
          0 <= k < |accepted| && 0 <= m < |accepted| && Through(calls, handles, wire[k], wire[m]) &&
          InTable(custody, targets[accepted[m]]) ==>
          custody[targets[accepted[m]].value].born.value <= accepted[k])
  }

  /** A creation's target has been in the table. */
  ghost predicate InTable(custody: seq<S.Custody>, target: Option<S.EntryId>) {
    target.Some? && target.value < |custody| && custody[target.value].born.Some?
  }

  /** Reference `r` is a call through the owning handle that creation `maker` gave. */
  ghost predicate Through(calls: seq<C.Issued>, handles: seq<C.Handle>, r: C.RefId, maker: C.RefId) {
    && r < |calls| && calls[r].via.Some? && calls[r].via.value < |handles|
    && handles[calls[r].via.value].owns && handles[calls[r].via.value].maker == maker
  }

  ghost predicate Inv(w: Wiring, x: System) {
    && SI.Inv(w.setup, x.server) && SH.Makers(SH.Books(x.server), x.server.custody)
    && CI.Inv(x.client)
    && Delivered(w.conn, x.server.jobs, x.client.calls, x.client.wire, x.accepted)
    && Received(Output(x.server.written, w.conn), x.client.calls, x.client.states, x.client.wire,
                x.client.reader, x.client.handled, x.received)
    && Published(x.server.custody, x.server.targets, x.client.calls, x.client.handles, x.client.wire, x.accepted)
    && (x.client.closing != C.Crashed ==> x.client.orphans == {})
  }
}
