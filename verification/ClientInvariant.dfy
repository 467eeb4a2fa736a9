/** What every step of the client keeps: who is responsible for which reference. */
module ClientInvariant {
  import opened Base
  import opened Messages
  import opened Client

  /** The reference has been in the pending map. */
  predicate Entered(sending: Sending) {
    match sending
    case Ready => false
    case Inserted => true
    case OnWire => true
    case Sent => true
    case Failing(broken) => broken
    case Popped(broken) => broken
    case Reporting(broken) => broken
    case Rejected(broken) => broken
  }

  predicate Written(sending: Sending) {
    sending.OnWire? || sending.Sent?
  }

  /** Its own send failed after it had entered the map. */
  predicate Broke(sending: Sending) {
    Entered(sending) && !Written(sending) && !sending.Inserted?
  }

  ghost predicate Ids(calls: seq<Issued>) {
    forall q, r {:trigger calls[q], calls[r]} :: 0 <= q < r < |calls| ==> calls[q].request.callId != calls[r].request.callId
  }

  ghost predicate MapOk(calls: seq<Issued>, sends: seq<Sending>, states: seq<RefState>, pending: map<string, RefId>) {
    && |sends| == |states| == |calls|
    && forall id {:trigger pending[id]} :: id in pending ==>
         && pending[id] < |calls| && calls[pending[id]].request.callId == id
         && Entered(sends[pending[id]]) && (Broke(sends[pending[id]]) ==> sends[pending[id]].Failing?)
         && states[pending[id]] == Waiting
  }

  ghost predicate Locks(sends: seq<Sending>, lock: Option<RefId>, closing: Closing) {
    && (lock.Some? ==> lock.value < |sends| && (sends[lock.value] == Inserted || sends[lock.value] == OnWire) && closing == Open)
    && (forall r :: 0 <= r < |sends| && (sends[r] == Inserted || sends[r] == OnWire) ==> lock == Some(r))
  }

  ghost predicate Unentered(sends: seq<Sending>, states: seq<RefState>) {
    && |sends| == |states|
    && (forall r :: 0 <= r < |sends| && !Entered(sends[r]) && !sends[r].Rejected? ==> states[r] == Waiting)
    && (forall r :: 0 <= r < |sends| && sends[r].Rejected? ==> states[r].Done?)
  }

  /** What the reader popped is out of the map and complete, unless the reader is just at it or its send failed. */
  ghost predicate HandledOk(calls: seq<Issued>, sends: seq<Sending>, states: seq<RefState>, pending: map<string, RefId>,
                            reader: Reader, handled: seq<RefId>) {
    && |sends| == |states| == |calls|
    && NoDuplicates(handled)
    && (forall r {:trigger r in handled} :: r in handled ==>
          && r < |calls| && Entered(sends[r]) && calls[r].request.callId !in pending
          && (states[r].Done? || Broke(sends[r]) || (reader.Holding? && reader.ref == r)))
    && (reader.Holding? ==>
          && handled != [] && handled[|handled| - 1] == reader.ref
          && reader.ref < |calls| && (states[reader.ref] == Waiting || Broke(sends[reader.ref])))
  }

  ghost predicate ClosingOk(sends: seq<Sending>, states: seq<RefState>, pending: map<string, RefId>,
                            closing: Closing, handled: seq<RefId>) {
    && |sends| == |states|
    && (closing != Open && !closing.Flagged? ==> pending == map[])
    && (closing.Draining? ==> NoDuplicates(closing.todo))
    && (closing.Draining? ==> forall r {:trigger r in closing.todo} :: r in closing.todo ==>
          r < |sends| && Entered(sends[r]) && r !in handled && (states[r] == Waiting || Broke(sends[r])))
  }

  ghost predicate OrphansOk(calls: seq<Issued>, sends: seq<Sending>, states: seq<RefState>, pending: map<string, RefId>,
                            closing: Closing, handled: seq<RefId>, orphans: set<RefId>) {
    && |sends| == |states| == |calls|
    && forall r {:trigger r in orphans} :: r in orphans ==>
         && r < |calls| && Entered(sends[r]) && calls[r].request.callId !in pending && r !in handled
         && (closing.Draining? ==> r !in closing.todo) && (states[r] == Waiting || Broke(sends[r]))
  }

  /** A reference that is waiting for its answer is in somebody's hands. */
  ghost predicate Somewhere(calls: seq<Issued>, sends: seq<Sending>, states: seq<RefState>, pending: map<string, RefId>,
                            reader: Reader, closing: Closing, orphans: set<RefId>) {
    && |sends| == |states| == |calls|
    && forall r {:trigger states[r]} :: 0 <= r < |calls| && Entered(sends[r]) && !Broke(sends[r]) && states[r] == Waiting ==>
         || calls[r].request.callId in pending
         || (reader.Holding? && reader.ref == r)
         || (closing.Draining? && r in closing.todo)
         || r in orphans
  }

  ghost predicate WireOk(sends: seq<Sending>, wire: seq<RefId>) {
    && NoDuplicates(wire)
    && (forall r {:trigger r in wire} :: r in wire ==> r < |sends| && Written(sends[r]))
    && (forall r :: 0 <= r < |sends| && Written(sends[r]) ==> r in wire)
  }

  /** A reference that finished with a value, or before anything was failed by a closer, was completed by the reader. */
  ghost predicate ReturnsOk(sends: seq<Sending>, states: seq<RefState>, closing: Closing, handled: seq<RefId>) {
    && |sends| == |states|
    && (forall r :: 0 <= r < |states| && states[r].Done? && states[r].outcome.Returned? ==> r in handled)
    && (closing.Open? || closing.Flagged? ==>
          forall r :: 0 <= r < |states| && states[r].Done? && Entered(sends[r]) && !Broke(sends[r]) ==> r in handled)
  }

  // ---------- The order of insertion ----------

  /** `order` lists the values of the map, each once. */
  ghost predicate OrderOk(calls: seq<Issued>, pending: map<string, RefId>, order: seq<RefId>) {
    && NoDuplicates(order)
    && (forall r {:trigger r in order} :: r in order ==>
          r < |calls| && calls[r].request.callId in pending && pending[calls[r].request.callId] == r)
    && (forall id {:trigger pending[id]} :: id in pending ==> pending[id] in order)
  }

  /** The request fits a frame, yet the socket refused it. */
  predicate SocketBroke(calls: seq<Issued>, sends: seq<Sending>, limit: nat, r: RefId) {
    r < |calls| && r < |sends| && Broke(sends[r]) && calls[r].size <= limit
  }

  /** Behind a reference that the socket refused none has been written. */
  ghost predicate Doomed(calls: seq<Issued>, sends: seq<Sending>, limit: nat, refs: seq<RefId>) {
    forall k, l {:trigger refs[k], refs[l]} :: 0 <= k < l < |refs| && SocketBroke(calls, sends, limit, refs[k]) ==>
      refs[l] < |sends| && !Written(sends[refs[l]])
  }

  ghost predicate WritesOk(calls: seq<Issued>, sends: seq<Sending>, limit: nat, order: seq<RefId>, lock: Option<RefId>,
                           closing: Closing, dead: bool) {
    && |sends| == |calls|
    && (forall r {:trigger sends[r]} :: 0 <= r < |sends| && Broke(sends[r]) && calls[r].size <= limit ==> dead)
    && (lock.Some? && lock.value in order ==> order[|order| - 1] == lock.value)
    && (forall r {:trigger r in order} :: r in order ==> r < |sends|)
    && Doomed(calls, sends, limit, order)
    && (closing.Draining? ==> Doomed(calls, sends, limit, closing.todo))
  }

  // ---------- Handles ----------

  predicate Over(sending: Sending) {
    sending.Sent? || sending.Rejected?
  }

  ghost predicate HandlesOk(calls: seq<Issued>, sends: seq<Sending>, states: seq<RefState>, handles: seq<Handle>) {
    && |sends| == |states| == |calls|
    && (forall h :: 0 <= h < |handles| ==>
          && handles[h].maker < |calls| && sends[handles[h].maker] == Sent
          && states[handles[h].maker].Done? && states[handles[h].maker].outcome.Returned?
          && (calls[handles[h].maker].request.body.CreateActor? || calls[handles[h].maker].request.body.AttachActor?)
          && calls[handles[h].maker].request.body.actorId == handles[h].actorId
          && handles[h].owns == calls[handles[h].maker].request.body.CreateActor?
          && (handles[h].closed ==> handles[h].lock == None)
          && (handles[h].destroyer.Some? ==>
                && handles[h].closed && handles[h].destroyer.value < |calls|
                && calls[handles[h].destroyer.value].via == None
                && calls[handles[h].destroyer.value].request.body == DestroyActor(handles[h].actorId)))
  }

  /** The sender of a call through a handle holds the handle's lock until the call is over. */
  ghost predicate ViasOk(calls: seq<Issued>, sends: seq<Sending>, handles: seq<Handle>) {
    && |sends| == |calls|
    && (forall r {:trigger calls[r]} :: 0 <= r < |calls| && calls[r].via.Some? ==>
          && calls[r].via.value < |handles|
          && calls[r].request.body.CallActor?
          && calls[r].request.body.actorId == handles[calls[r].via.value].actorId
          && (Over(sends[r]) || handles[calls[r].via.value].lock == Some(r)))
    && (forall h :: 0 <= h < |handles| && handles[h].lock.Some? ==>
          && handles[h].lock.value < |calls| && calls[handles[h].lock.value].via == Some(h)
          && !Over(sends[handles[h].lock.value]))
  }

  /** The destruction a handle's close sends follows every call sent through the handle on the wire. */
  ghost predicate CloseIsLast(calls: seq<Issued>, handles: seq<Handle>, wire: seq<RefId>) {
    forall h, k, l {:trigger handles[h], wire[k], wire[l]} ::
      0 <= h < |handles| && 0 <= k < |wire| && 0 <= l < |wire| && wire[k] < |calls| &&
      calls[wire[k]].via == Some(h) && handles[h].destroyer == Some(wire[l])
      ==> k < l
  }

  /** The call that holds a handle's lock is the latest made through it. */
  ghost predicate LatestVia(calls: seq<Issued>, handles: seq<Handle>) {
    forall h, q {:trigger handles[h], calls[q]} ::
      0 <= h < |handles| && 0 <= q < |calls| && handles[h].lock.Some? && calls[q].via == Some(h)
      ==> q <= handles[h].lock.value
  }

  /** Calls through one handle are written in the order in which they were made. */
  ghost predicate ViaOrder(calls: seq<Issued>, wire: seq<RefId>) {
    forall k, l {:trigger wire[k], wire[l]} ::
      0 <= k < l < |wire| && wire[k] < |calls| && wire[l] < |calls| &&
      calls[wire[k]].via.Some? && calls[wire[k]].via == calls[wire[l]].via
      ==> wire[k] < wire[l]
  }

  ghost predicate Inv(s: State) {
    && Shape(s) && Ids(s.calls)
    && MapOk(s.calls, s.sends, s.states, s.pending)
    && Locks(s.sends, s.lock, s.closing)
    && Unentered(s.sends, s.states)
    && HandledOk(s.calls, s.sends, s.states, s.pending, s.reader, s.handled)
    && ClosingOk(s.sends, s.states, s.pending, s.closing, s.handled)
    && OrphansOk(s.calls, s.sends, s.states, s.pending, s.closing, s.handled, s.orphans)
    && Somewhere(s.calls, s.sends, s.states, s.pending, s.reader, s.closing, s.orphans)
    && WireOk(s.sends, s.wire)
    && ReturnsOk(s.sends, s.states, s.closing, s.handled)
    && HandlesOk(s.calls, s.sends, s.states, s.handles)
    && ViasOk(s.calls, s.sends, s.handles)
    && CloseIsLast(s.calls, s.handles, s.wire)
    && OrderOk(s.calls, s.pending, s.order)
    && WritesOk(s.calls, s.sends, Limit(s.maxFrame), s.order, s.lock, s.closing, s.dead)
    && LatestVia(s.calls, s.handles)
    && ViaOrder(s.calls, s.wire)
  }
}
