/** The client's invariant holds in every state of every run. */
module ClientRuns {
  import opened Base
  import opened Messages
  import opened Client
  import opened ClientInvariant

  // The lemmas about a whole step hide the predicates of the invariant; the lemmas
  // they name say what each step does to each of them.

  // ---------- A reference is made ----------

  lemma AddRefKeeps(s: State, issued: Issued)
    requires Shape(s) && Ids(s.calls) && Fresh(s, issued.request.callId)
    requires MapOk(s.calls, s.sends, s.states, s.pending) && Locks(s.sends, s.lock, s.closing)
    requires Unentered(s.sends, s.states) && WireOk(s.sends, s.wire)
    requires ReturnsOk(s.sends, s.states, s.closing, s.handled)
    ensures var t := AddRef(s, issued);
      && Ids(t.calls) && MapOk(t.calls, t.sends, t.states, t.pending) && Locks(t.sends, t.lock, t.closing)
      && Unentered(t.sends, t.states) && WireOk(t.sends, t.wire) && ReturnsOk(t.sends, t.states, t.closing, t.handled)
  {
  }

  lemma AddRefOwners(s: State, issued: Issued)
    requires Shape(s)
    requires HandledOk(s.calls, s.sends, s.states, s.pending, s.reader, s.handled)
    requires ClosingOk(s.sends, s.states, s.pending, s.closing, s.handled)
    requires OrphansOk(s.calls, s.sends, s.states, s.pending, s.closing, s.handled, s.orphans)
    requires Somewhere(s.calls, s.sends, s.states, s.pending, s.reader, s.closing, s.orphans)
    ensures var t := AddRef(s, issued);
      && HandledOk(t.calls, t.sends, t.states, t.pending, t.reader, t.handled)
      && ClosingOk(t.sends, t.states, t.pending, t.closing, t.handled)
      && OrphansOk(t.calls, t.sends, t.states, t.pending, t.closing, t.handled, t.orphans)
      && Somewhere(t.calls, t.sends, t.states, t.pending, t.reader, t.closing, t.orphans)
  {
  }

  lemma AddRefHandles(s: State, issued: Issued)
    requires Shape(s) && HandlesOk(s.calls, s.sends, s.states, s.handles)
    ensures var t := AddRef(s, issued); HandlesOk(t.calls, t.sends, t.states, t.handles)
    ensures issued.via == None && ViasOk(s.calls, s.sends, s.handles) ==>
      ViasOk(AddRef(s, issued).calls, AddRef(s, issued).sends, s.handles)
  {
  }

  /** A handle is locked for a new call: what else is known of handles stays. */
  lemma LockHandles(s: State, h: HandleId, lock: Option<RefId>)
    requires Shape(s) && h < |s.handles| && (s.handles[h].closed ==> lock == None)
    requires HandlesOk(s.calls, s.sends, s.states, s.handles)
    ensures HandlesOk(s.calls, s.sends, s.states, s.handles[h := s.handles[h].(lock := lock)])
  {
  }

  lemma CallViaVias(s: State, h: HandleId, request: Request, size: nat)
    requires CanCallVia(s, h, request) && ViasOk(s.calls, s.sends, s.handles)
    ensures var t := DoCallVia(s, h, request, size); ViasOk(t.calls, t.sends, t.handles)
  {
  }

  /** The new call is the latest through its handle. */
  lemma CallViaLatest(calls: seq<Issued>, handles: seq<Handle>, h: HandleId, issued: Issued)
    requires LatestVia(calls, handles) && h < |handles| && issued.via == Some(h)
    ensures LatestVia(calls + [issued], handles[h := handles[h].(lock := Some(|calls|))])
  {
  }

  /** A reference with no handle is made, and no handle gets locked. */
  lemma LatestFrame(calls: seq<Issued>, issued: Issued, handles: seq<Handle>)
    requires LatestVia(calls, handles) && issued.via == None
    ensures LatestVia(calls + [issued], handles)
  {
  }

  /** A handle is free again, or closed, or gets its destroyer. */
  lemma LatestUnlocks(calls: seq<Issued>, handles: seq<Handle>, h: HandleId, handle: Handle)
    requires LatestVia(calls, handles) && h < |handles| && (handle.lock == None || handle.lock == handles[h].lock)
    ensures LatestVia(calls, handles[h := handle])
  {
  }

  lemma AddRefWrites(calls: seq<Issued>, sends: seq<Sending>, limit: nat, order: seq<RefId>, lock: Option<RefId>,
                     closing: Closing, dead: bool, issued: Issued)
    requires WritesOk(calls, sends, limit, order, lock, closing, dead)
    requires closing.Draining? ==> forall r :: r in closing.todo ==> r < |calls|
    ensures WritesOk(calls + [issued], sends + [Ready], limit, order, lock, closing, dead)
  {
    assert forall k :: 0 <= k < |order| ==> order[k] in order;
    assert closing.Draining? ==> forall k :: 0 <= k < |closing.todo| ==> closing.todo[k] in closing.todo;
  }

  lemma AddRefOrder(s: State, issued: Issued)
    requires Shape(s) && OrderOk(s.calls, s.pending, s.order) && ViaOrder(s.calls, s.wire)
    requires forall r :: r in s.wire ==> r < |s.calls|
    requires WritesOk(s.calls, s.sends, Limit(s.maxFrame), s.order, s.lock, s.closing, s.dead)
    requires s.closing.Draining? ==> forall r :: r in s.closing.todo ==> r < |s.calls|
    ensures var t := AddRef(s, issued);
      && OrderOk(t.calls, t.pending, t.order) && ViaOrder(t.calls, t.wire)
      && WritesOk(t.calls, t.sends, Limit(t.maxFrame), t.order, t.lock, t.closing, t.dead)
  {
    hide WritesOk;
    assert forall k :: 0 <= k < |s.wire| ==> s.wire[k] in s.wire;
    AddRefWrites(s.calls, s.sends, Limit(s.maxFrame), s.order, s.lock, s.closing, s.dead, issued);
  }

  /** The handles keep their destroyers, and new references are not on the wire. */
  lemma CloseFrame(calls: seq<Issued>, more: seq<Issued>, handles: seq<Handle>, others: seq<Handle>, wire: seq<RefId>)
    requires CloseIsLast(calls, handles, wire) && |calls| <= |more| && more[..|calls|] == calls
    requires forall r :: r in wire ==> r < |calls|
    requires |others| == |handles| && forall h :: 0 <= h < |handles| ==> others[h].destroyer == handles[h].destroyer
    ensures CloseIsLast(more, others, wire)
  {
    assert forall k :: 0 <= k < |wire| ==> wire[k] in wire;
  }

  lemma DestroyHandles(s: State, h: HandleId, callId: string, size: nat)
    requires CanDestroy(s, h, callId) && WireOk(s.sends, s.wire)
    requires HandlesOk(s.calls, s.sends, s.states, s.handles) && ViasOk(s.calls, s.sends, s.handles)
    ensures var t := DoDestroy(s, h, callId, size);
      HandlesOk(t.calls, t.sends, t.states, t.handles) && ViasOk(t.calls, t.sends, t.handles)
  {
  }

  lemma DestroyOrder(s: State, h: HandleId, callId: string, size: nat)
    requires CanDestroy(s, h, callId) && WireOk(s.sends, s.wire) && CloseIsLast(s.calls, s.handles, s.wire)
    ensures var t := DoDestroy(s, h, callId, size); CloseIsLast(t.calls, t.handles, t.wire)
  {
    var t := DoDestroy(s, h, callId, size);
    forall k | 0 <= k < |t.wire| ensures t.wire[k] != |s.calls| {
      assert t.wire[k] in s.wire;
    }
  }

  // ---------- A sender goes on ----------

  /** The sender of `r` goes on without entering or leaving the map. */
  lemma SendFrame(s: State, r: RefId, x: Sending)
    requires Shape(s) && r < |s.calls| && Entered(x) == Entered(s.sends[r]) && (Broke(s.sends[r]) ==> Broke(x))
    requires HandledOk(s.calls, s.sends, s.states, s.pending, s.reader, s.handled)
    requires ClosingOk(s.sends, s.states, s.pending, s.closing, s.handled)
    requires OrphansOk(s.calls, s.sends, s.states, s.pending, s.closing, s.handled, s.orphans)
    requires Somewhere(s.calls, s.sends, s.states, s.pending, s.reader, s.closing, s.orphans)
    ensures var sends := s.sends[r := x];
      && HandledOk(s.calls, sends, s.states, s.pending, s.reader, s.handled)
      && ClosingOk(sends, s.states, s.pending, s.closing, s.handled)
      && OrphansOk(s.calls, sends, s.states, s.pending, s.closing, s.handled, s.orphans)
      && Somewhere(s.calls, sends, s.states, s.pending, s.reader, s.closing, s.orphans)
  {
  }

  lemma SendReturns(s: State, r: RefId, x: Sending)
    requires Shape(s) && r < |s.calls| && ReturnsOk(s.sends, s.states, s.closing, s.handled)
    requires Entered(x) && !Broke(x) ==> (Entered(s.sends[r]) && !Broke(s.sends[r])) || s.states[r] == Waiting
    ensures ReturnsOk(s.sends[r := x], s.states, s.closing, s.handled)
  {
  }

  lemma SendMap(s: State, r: RefId, x: Sending)
    requires Shape(s) && r < |s.calls| && (x.Rejected? ==> s.states[r].Done?)
    requires Entered(x) == Entered(s.sends[r]) && (Broke(x) ==> x.Failing? || s.calls[r].request.callId !in s.pending)
    requires !Entered(x) && !x.Rejected? ==> s.states[r] == Waiting
    requires MapOk(s.calls, s.sends, s.states, s.pending) && Unentered(s.sends, s.states)
    ensures var sends := s.sends[r := x]; MapOk(s.calls, sends, s.states, s.pending) && Unentered(sends, s.states)
  {
  }

  lemma SendLocks(s: State, r: RefId, x: Sending)
    requires Shape(s) && r < |s.calls| && Locks(s.sends, s.lock, s.closing)
    ensures (s.sends[r] == Inserted || s.sends[r] == OnWire) && x != Inserted && x != OnWire ==> Locks(s.sends[r := x], None, s.closing)
    ensures s.sends[r] == Inserted && x == OnWire ==> Locks(s.sends[r := x], s.lock, s.closing)
    ensures s.sends[r] != Inserted && s.sends[r] != OnWire && x != Inserted && x != OnWire ==> Locks(s.sends[r := x], s.lock, s.closing)
  {
  }

  lemma SendWire(s: State, r: RefId, x: Sending)
    requires Shape(s) && r < |s.calls| && Written(x) == Written(s.sends[r]) && WireOk(s.sends, s.wire)
    ensures WireOk(s.sends[r := x], s.wire)
  {
  }

  lemma WriteWire(s: State, r: RefId)
    requires Shape(s) && r < |s.calls| && !Written(s.sends[r]) && WireOk(s.sends, s.wire)
    ensures WireOk(s.sends[r := OnWire], s.wire + [r])
  {
    var wire := s.wire + [r];
    assert r !in s.wire;
    assert forall q :: q in wire <==> q in s.wire || q == r;
    assert forall k :: 0 <= k < |s.wire| ==> s.wire[k] in s.wire;
  }

  lemma WriteOrder(s: State, r: RefId)
    requires Shape(s) && r < |s.calls| && s.sends[r] == Inserted && WireOk(s.sends, s.wire)
    requires HandlesOk(s.calls, s.sends, s.states, s.handles) && ViasOk(s.calls, s.sends, s.handles)
    requires CloseIsLast(s.calls, s.handles, s.wire)
    ensures CloseIsLast(s.calls, s.handles, s.wire + [r])
  {
  }

  /** The sender of `r` goes on; the call is not over. */
  lemma SendHandles(s: State, r: RefId, x: Sending)
    requires Shape(s) && r < |s.calls| && Over(x) == Over(s.sends[r]) && (s.sends[r] == Sent ==> x == Sent)
    requires HandlesOk(s.calls, s.sends, s.states, s.handles) && ViasOk(s.calls, s.sends, s.handles)
    ensures HandlesOk(s.calls, s.sends[r := x], s.states, s.handles) && ViasOk(s.calls, s.sends[r := x], s.handles)
  {
  }

  /** The call is over and its handle's lock free. */
  lemma ReleaseHandles(s: State, r: RefId, x: Sending)
    requires Shape(s) && r < |s.calls| && Over(x) && !Over(s.sends[r]) && WireOk(s.sends, s.wire)
    requires HandlesOk(s.calls, s.sends, s.states, s.handles) && ViasOk(s.calls, s.sends, s.handles)
    requires CloseIsLast(s.calls, s.handles, s.wire)
    ensures HandlesOk(s.calls, s.sends[r := x], s.states, Release(s, r))
    ensures ViasOk(s.calls, s.sends[r := x], Release(s, r))
    ensures CloseIsLast(s.calls, Release(s, r), s.wire)
  {
    CloseFrame(s.calls, s.calls, s.handles, Release(s, r), s.wire);
    ReleaseVias(s, r, x);
    hide CloseIsLast, ViasOk;
  }

  lemma ReleaseVias(s: State, r: RefId, x: Sending)
    requires Shape(s) && r < |s.calls| && Over(x) && !Over(s.sends[r]) && ViasOk(s.calls, s.sends, s.handles)
    ensures ViasOk(s.calls, s.sends[r := x], Release(s, r))
  {
  }

  lemma EntersMap(s: State, r: RefId)
    requires Shape(s) && r < |s.calls| && s.sends[r] == Ready && s.closing == Open && s.lock == None && Ids(s.calls)
    requires MapOk(s.calls, s.sends, s.states, s.pending) && Locks(s.sends, s.lock, s.closing)
    requires Unentered(s.sends, s.states) && WireOk(s.sends, s.wire)
    ensures var sends, pending := s.sends[r := Inserted], s.pending[s.calls[r].request.callId := r];
      && MapOk(s.calls, sends, s.states, pending) && Locks(sends, Some(r), s.closing)
      && Unentered(sends, s.states) && WireOk(sends, s.wire)
  {
  }

  lemma EntersOwners(s: State, r: RefId)
    requires Shape(s) && r < |s.calls| && s.sends[r] == Ready && s.closing == Open && Ids(s.calls)
    requires HandledOk(s.calls, s.sends, s.states, s.pending, s.reader, s.handled)
    requires ClosingOk(s.sends, s.states, s.pending, s.closing, s.handled)
    requires OrphansOk(s.calls, s.sends, s.states, s.pending, s.closing, s.handled, s.orphans)
    requires Somewhere(s.calls, s.sends, s.states, s.pending, s.reader, s.closing, s.orphans)
    ensures var sends, pending := s.sends[r := Inserted], s.pending[s.calls[r].request.callId := r];
      && HandledOk(s.calls, sends, s.states, pending, s.reader, s.handled)
      && ClosingOk(sends, s.states, pending, s.closing, s.handled)
      && OrphansOk(s.calls, sends, s.states, pending, s.closing, s.handled, s.orphans)
      && Somewhere(s.calls, sends, s.states, pending, s.reader, s.closing, s.orphans)
  {
  }

  /** A sender whose write failed takes its reference out of the map, if it is still there. */
  lemma PopOwners(s: State, r: RefId)
    requires CanPop(s, r) && Ids(s.calls)
    requires MapOk(s.calls, s.sends, s.states, s.pending)
    requires HandledOk(s.calls, s.sends, s.states, s.pending, s.reader, s.handled)
    requires ClosingOk(s.sends, s.states, s.pending, s.closing, s.handled)
    requires OrphansOk(s.calls, s.sends, s.states, s.pending, s.closing, s.handled, s.orphans)
    requires Somewhere(s.calls, s.sends, s.states, s.pending, s.reader, s.closing, s.orphans)
    ensures var pending := s.pending - {s.calls[r].request.callId};
      && MapOk(s.calls, s.sends, s.states, pending)
      && HandledOk(s.calls, s.sends, s.states, pending, s.reader, s.handled)
      && ClosingOk(s.sends, s.states, pending, s.closing, s.handled)
      && OrphansOk(s.calls, s.sends, s.states, pending, s.closing, s.handled, s.orphans)
      && Somewhere(s.calls, s.sends, s.states, pending, s.reader, s.closing, s.orphans)
  {
  }

  lemma PhaseFacts(s: State, r: RefId)
    requires Shape(s) && r < |s.calls| && Ids(s.calls)
    requires Unentered(s.sends, s.states) && MapOk(s.calls, s.sends, s.states, s.pending)
    ensures !Entered(s.sends[r]) && !s.sends[r].Rejected? ==> s.states[r] == Waiting
    ensures s.sends[r].Popped? || s.sends[r].Reporting? ==> s.calls[r].request.callId !in s.pending || !Broke(s.sends[r])
  {
  }

  lemma RemovingOne(order: seq<RefId>, r: RefId)
    requires NoDuplicates(order) && r in order
    ensures NoDuplicates(Removing(order, r))
    ensures forall q :: q in Removing(order, r) <==> q in order && q != r
  {
    var i := RemovingPlace(order, r);
    hide Removing;
    OneLess(order, i);
  }

  lemma OneLess(order: seq<RefId>, i: nat)
    requires NoDuplicates(order) && i < |order|
    ensures var rest := order[..i] + order[i + 1..];
      && NoDuplicates(rest) && (forall q :: q in rest <==> q in order && q != order[i])
  {
    var rest := order[..i] + order[i + 1..];
    forall k, l | 0 <= k < l < |rest| ensures rest[k] != rest[l] {
      var a, b := if k < i then k else k + 1, if l < i then l else l + 1;
      assert rest[k] == order[a] && rest[l] == order[b];
    }
    forall k | 0 <= k < |rest| ensures rest[k] != order[i] {
      assert rest[k] == order[if k < i then k else k + 1];
    }
    assert order == order[..i] + [order[i]] + order[i + 1..];
  }

  lemma RemovingDoomed(calls: seq<Issued>, sends: seq<Sending>, limit: nat, order: seq<RefId>, i: nat)
    requires i < |order| && Doomed(calls, sends, limit, order)
    ensures Doomed(calls, sends, limit, order[..i] + order[i + 1..])
  {
    var rest := order[..i] + order[i + 1..];
    forall k, l | 0 <= k < l < |rest| && SocketBroke(calls, sends, limit, rest[k])
      ensures rest[l] < |sends| && !Written(sends[rest[l]])
    {
      var a, b := if k < i then k else k + 1, if l < i then l else l + 1;
      assert rest[k] == order[a] && rest[l] == order[b];
    }
  }

  lemma RemovingLast(order: seq<RefId>, r: RefId, x: RefId)
    requires NoDuplicates(order) && r in order && x in order && x != r && order[|order| - 1] == x
    ensures var rest := Removing(order, r); rest != [] && rest[|rest| - 1] == x
  {
    var i := RemovingPlace(order, r);
    assert i != |order| - 1;
  }

  lemma RemovingWrites(calls: seq<Issued>, sends: seq<Sending>, limit: nat, order: seq<RefId>, lock: Option<RefId>,
                      closing: Closing, dead: bool, r: RefId)
    requires NoDuplicates(order) && r in order && WritesOk(calls, sends, limit, order, lock, closing, dead)
    ensures WritesOk(calls, sends, limit, Removing(order, r), lock, closing, dead)
  {
    RemovingOne(order, r);
    assert Doomed(calls, sends, limit, Removing(order, r)) by {
      var i := RemovingPlace(order, r);
      RemovingDoomed(calls, sends, limit, order, i);
    }
    hide Doomed, Removing, NoDuplicates;
    if lock.Some? && lock.value in Removing(order, r) {
      RemovingLast(order, r, lock.value);
    }
  }

  lemma OrderDrops(calls: seq<Issued>, pending: map<string, RefId>, order: seq<RefId>, r: RefId, rest: seq<RefId>)
    requires OrderOk(calls, pending, order) && Ids(calls) && r in order && r < |calls| && NoDuplicates(rest)
    requires forall id {:trigger pending[id]} :: id in pending ==> pending[id] < |calls| && calls[pending[id]].request.callId == id
    requires forall q :: q in rest <==> q in order && q != r
    ensures OrderOk(calls, pending - {calls[r].request.callId}, rest)
  {
    hide NoDuplicates;
  }

  /** `r` is taken out of the map and out of the order, if it is there. */
  lemma OrderLeaves(s: State, r: RefId)
    requires Shape(s) && r < |s.calls| && Ids(s.calls) && MapOk(s.calls, s.sends, s.states, s.pending)
    requires OrderOk(s.calls, s.pending, s.order)
    requires WritesOk(s.calls, s.sends, Limit(s.maxFrame), s.order, s.lock, s.closing, s.dead)
    ensures var pending, order := s.pending - {s.calls[r].request.callId}, Removing(s.order, r);
      && OrderOk(s.calls, pending, order)
      && WritesOk(s.calls, s.sends, Limit(s.maxFrame), order, s.lock, s.closing, s.dead)
  {
    OrderListsOnce(s.calls, s.pending, s.order);
    if r in s.order {
      RemovingOne(s.order, r);
      RemovingWrites(s.calls, s.sends, Limit(s.maxFrame), s.order, s.lock, s.closing, s.dead, r);
      OrderDrops(s.calls, s.pending, s.order, r, Removing(s.order, r));
      hide *;
    } else {
      NotInTheMap(s, r);
      var _ := RemovingPlace(s.order, r);
      assert s.pending - {s.calls[r].request.callId} == s.pending;
      hide *;
    }
  }

  lemma OrderListsOnce(calls: seq<Issued>, pending: map<string, RefId>, order: seq<RefId>)
    requires OrderOk(calls, pending, order)
    ensures NoDuplicates(order)
  {
  }

  lemma NotInTheMap(s: State, r: RefId)
    requires Shape(s) && r < |s.calls| && Ids(s.calls) && MapOk(s.calls, s.sends, s.states, s.pending)
    requires OrderOk(s.calls, s.pending, s.order) && r !in s.order
    ensures s.calls[r].request.callId !in s.pending
  {
  }

  /** The sender of `r` goes on; only a sender that holds the lock writes or breaks. */
  lemma SendOrder(s: State, r: RefId, x: Sending, lock: Option<RefId>, dead: bool)
    requires Shape(s) && r < |s.calls| && OrderOk(s.calls, s.pending, s.order)
    requires lock == s.lock || lock == None
    requires s.dead ==> dead
    requires WritesOk(s.calls, s.sends, Limit(s.maxFrame), s.order, s.lock, s.closing, s.dead)
    requires Written(x) && !Written(s.sends[r]) ==> s.lock == Some(r) && !s.dead && !s.closing.Draining?
    requires Broke(x) && !Broke(s.sends[r]) ==>
      s.lock == Some(r) && !s.closing.Draining? && (s.calls[r].size <= Limit(s.maxFrame) ==> dead)
    ensures WritesOk(s.calls, s.sends[r := x], Limit(s.maxFrame), s.order, lock, s.closing, dead)
  {
  }

  lemma OrderEnters(s: State, r: RefId)
    requires Shape(s) && r < |s.calls| && s.sends[r] == Ready && s.closing == Open && s.lock == None && Ids(s.calls)
    requires MapOk(s.calls, s.sends, s.states, s.pending) && OrderOk(s.calls, s.pending, s.order)
    requires WritesOk(s.calls, s.sends, Limit(s.maxFrame), s.order, s.lock, s.closing, s.dead)
    ensures var sends, pending := s.sends[r := Inserted], s.pending[s.calls[r].request.callId := r];
      && OrderOk(s.calls, pending, s.order + [r])
      && WritesOk(s.calls, sends, Limit(s.maxFrame), s.order + [r], Some(r), s.closing, s.dead)
  {
    var order := s.order + [r];
    assert s.calls[r].request.callId !in s.pending;
    assert r !in s.order;
    assert forall q :: q in order <==> q in s.order || q == r;
    assert forall k :: 0 <= k < |s.order| ==> s.order[k] in s.order;
  }

  /** The call that is written is the latest through its handle. */
  lemma WriteVias(s: State, r: RefId)
    requires Shape(s) && r < |s.calls| && s.sends[r] == Inserted && WireOk(s.sends, s.wire)
    requires ViasOk(s.calls, s.sends, s.handles) && LatestVia(s.calls, s.handles) && ViaOrder(s.calls, s.wire)
    ensures ViaOrder(s.calls, s.wire + [r])
  {
    assert forall k :: 0 <= k < |s.wire| ==> s.wire[k] in s.wire;
    assert r !in s.wire;
    if s.calls[r].via.Some? {
      assert s.handles[s.calls[r].via.value].lock == Some(r);
    }
  }

  lemma ReleaseLatest(s: State, r: RefId)
    requires Shape(s) && r < |s.calls| && LatestVia(s.calls, s.handles)
    ensures LatestVia(s.calls, Release(s, r))
  {
  }

  /** Who is about to write, or has just written, holds the lock. */
  lemma LockFacts(s: State, r: RefId)
    requires Shape(s) && r < |s.calls| && Locks(s.sends, s.lock, s.closing)
    ensures s.sends[r] == Inserted || s.sends[r] == OnWire ==> s.lock == Some(r) && s.closing == Open
  {
  }

  lemma LookKeeps(s: State, r: RefId)
    requires Inv(s) && CanLook(s, r)
    ensures Inv(DoLook(s, r))
  {
    hide Ids, MapOk, Locks, Unentered, HandledOk, ClosingOk, OrphansOk, Somewhere, WireOk, ReturnsOk, HandlesOk,
      ViasOk, CloseIsLast, OrderOk, WritesOk, LatestVia, ViaOrder;
    PhaseFacts(s, r);
    var x := DoLook(s, r).sends[r];
    SendFrame(s, r, x);
    SendReturns(s, r, x);
    SendMap(s, r, x);
    SendLocks(s, r, x);
    SendWire(s, r, x);
    SendOrder(s, r, x, s.lock, s.dead);
    ReleaseLatest(s, r);
    if x.Rejected? { ReleaseHandles(s, r, x); } else { SendHandles(s, r, x); }
  }

  /** The sender of `r` enters the map, finds the connection closed, or leaves the map. */
  lemma MapStepKeeps(s: State, step: Step)
    requires Inv(s) && Can(s, step) && (step.Insert? || step.Pop?)
    ensures Inv(Do(s, step))
  {
    hide Ids, MapOk, Locks, Unentered, HandledOk, ClosingOk, OrphansOk, Somewhere, WireOk, ReturnsOk, HandlesOk,
      ViasOk, CloseIsLast, OrderOk, WritesOk, LatestVia, ViaOrder;
    var r := step.r;
    var x := Do(s, step).sends[r];
    PhaseFacts(s, r);
    SendHandles(s, r, x);
    SendLocks(s, r, x);
    SendReturns(s, r, x);
    match step
    case Insert(_) =>
      if s.closing == Open {
        EntersMap(s, r);
        EntersOwners(s, r);
        OrderEnters(s, r);
      } else {
        SendOrder(s, r, x, s.lock, s.dead);
        SendFrame(s, r, x);
        SendMap(s, r, x);
        SendWire(s, r, x);
      }
    case Pop(_) =>
      PopOwners(s, r);
      OrderLeaves(s, r);
      var t := s.(pending := s.pending - {s.calls[r].request.callId}, order := Removing(s.order, r));
      SendOrder(t, r, x, s.lock, s.dead);
      SendFrame(t, r, x);
      SendMap(t, r, x);
      SendWire(t, r, x);
  }

  lemma SenderKeeps(s: State, step: Step)
    requires Inv(s) && Can(s, step)
    requires step.Write? || step.TooLong? || step.SocketFails? || step.Return?
    ensures Inv(Do(s, step))
  {
    hide Ids, MapOk, Locks, Unentered, HandledOk, ClosingOk, OrphansOk, Somewhere, WireOk, ReturnsOk, HandlesOk,
      ViasOk, CloseIsLast, OrderOk, WritesOk, LatestVia, ViaOrder;
    var r := step.r;
    var x := Do(s, step).sends[r];
    PhaseFacts(s, r);
    SendHandlesAny(s, r, x);
    SendLocks(s, r, x);
    SendReturns(s, r, x);
    LockFacts(s, r);
    ReleaseLatest(s, r);
    match step
    case Write(_) =>
      SendFrame(s, r, x);
      SendMap(s, r, x);
      WriteWire(s, r);
      WriteOrder(s, r);
      WriteVias(s, r);
      SendOrder(s, r, x, s.lock, s.dead);
    case TooLong(_) =>
      SendFrame(s, r, x);
      SendMap(s, r, x);
      SendWire(s, r, x);
      SendOrder(s, r, x, None, s.dead);
    case SocketFails(_) =>
      SendFrame(s, r, x);
      SendMap(s, r, x);
      SendWire(s, r, x);
      SendOrder(s, r, x, None, true);
    case Return(_) =>
      SendOrder(s, r, x, None, s.dead);
      SendFrame(s, r, x);
      SendMap(s, r, x);
      SendWire(s, r, x);
  }

  lemma SendHandlesAny(s: State, r: RefId, x: Sending)
    requires Shape(s) && r < |s.calls| && !Over(s.sends[r]) && WireOk(s.sends, s.wire)
    requires HandlesOk(s.calls, s.sends, s.states, s.handles) && ViasOk(s.calls, s.sends, s.handles)
    requires CloseIsLast(s.calls, s.handles, s.wire)
    ensures var handles := if Over(x) then Release(s, r) else s.handles;
      && HandlesOk(s.calls, s.sends[r := x], s.states, handles) && ViasOk(s.calls, s.sends[r := x], handles)
      && CloseIsLast(s.calls, handles, s.wire)
  {
    if Over(x) { ReleaseHandles(s, r, x); } else { SendHandles(s, r, x); }
  }

  lemma ReportOwners(s: State, r: RefId, state: RefState)
    requires CanReport(s, r) && state.Done? && (s.states[r].Done? ==> state == s.states[r])
    requires state.outcome.Returned? ==> s.states[r].Done?
    requires Ids(s.calls) && MapOk(s.calls, s.sends, s.states, s.pending) && Unentered(s.sends, s.states)
    requires HandledOk(s.calls, s.sends, s.states, s.pending, s.reader, s.handled)
    requires ClosingOk(s.sends, s.states, s.pending, s.closing, s.handled)
    requires OrphansOk(s.calls, s.sends, s.states, s.pending, s.closing, s.handled, s.orphans)
    requires Somewhere(s.calls, s.sends, s.states, s.pending, s.reader, s.closing, s.orphans)
    requires ReturnsOk(s.sends, s.states, s.closing, s.handled)
    ensures var sends, states := s.sends[r := Rejected(s.sends[r].broken)], s.states[r := state];
      && MapOk(s.calls, sends, states, s.pending) && Unentered(sends, states)
      && HandledOk(s.calls, sends, states, s.pending, s.reader, s.handled)
      && ClosingOk(sends, states, s.pending, s.closing, s.handled)
      && OrphansOk(s.calls, sends, states, s.pending, s.closing, s.handled, s.orphans)
      && Somewhere(s.calls, sends, states, s.pending, s.reader, s.closing, s.orphans)
      && ReturnsOk(sends, states, s.closing, s.handled)
  {
    PhaseFacts(s, r);
    assert s.reader.Holding? ==> s.reader.ref in s.handled;
  }

  /** A reference becomes complete: handles look only at references that were. */
  lemma DoneHandles(s: State, r: RefId, state: RefState)
    requires Shape(s) && r < |s.calls| && (s.states[r].Done? ==> state == s.states[r])
    requires HandlesOk(s.calls, s.sends, s.states, s.handles)
    ensures HandlesOk(s.calls, s.sends, s.states[r := state], s.handles)
  {
  }

  lemma ReportKeeps(s: State, r: RefId)
    requires Inv(s) && CanReport(s, r)
    ensures Inv(DoReport(s, r))
  {
    hide Ids, MapOk, Locks, Unentered, HandledOk, ClosingOk, OrphansOk, Somewhere, WireOk, ReturnsOk, HandlesOk,
      ViasOk, CloseIsLast, OrderOk, WritesOk, LatestVia, ViaOrder;
    var x := Rejected(s.sends[r].broken);
    var state := Completed(s.states[r], SEND_ERROR);
    ReportOwners(s, r, state);
    SendLocks(s, r, x);
    SendWire(s, r, x);
    SendOrder(s, r, x, s.lock, s.dead);
    ReleaseLatest(s, r);
    DoneHandles(s, r, state);
    ReleaseHandles(WithState(s, r, state), r, x);
  }

  // ---------- The reader ----------

  /** `id` leaves the map into the reader's hands, or as an orphan. */
  lemma ReceiveTakes(s: State, id: string, reader: Reader)
    requires Shape(s) && s.reader == Reading && id in s.pending && Ids(s.calls)
    requires reader == GivingUp || (reader.Holding? && reader.ref == s.pending[id])
    requires MapOk(s.calls, s.sends, s.states, s.pending)
    requires HandledOk(s.calls, s.sends, s.states, s.pending, s.reader, s.handled)
    requires ClosingOk(s.sends, s.states, s.pending, s.closing, s.handled)
    requires OrphansOk(s.calls, s.sends, s.states, s.pending, s.closing, s.handled, s.orphans)
    requires Somewhere(s.calls, s.sends, s.states, s.pending, s.reader, s.closing, s.orphans)
    requires ReturnsOk(s.sends, s.states, s.closing, s.handled)
    ensures var pending, r := s.pending - {id}, s.pending[id];
      var handled := if reader.Holding? then s.handled + [r] else s.handled;
      var orphans := if reader.Holding? then s.orphans else s.orphans + {r};
      && MapOk(s.calls, s.sends, s.states, pending)
      && HandledOk(s.calls, s.sends, s.states, pending, reader, handled)
      && ClosingOk(s.sends, s.states, pending, s.closing, handled)
      && OrphansOk(s.calls, s.sends, s.states, pending, s.closing, handled, orphans)
      && Somewhere(s.calls, s.sends, s.states, pending, reader, s.closing, orphans)
      && ReturnsOk(s.sends, s.states, s.closing, handled)
  {
    var r := s.pending[id];
    assert r !in s.handled;
    var handled := s.handled + [r];
    assert forall q :: q in handled <==> q in s.handled || q == r;
    assert forall k :: 0 <= k < |s.handled| ==> s.handled[k] in s.handled;
  }

  lemma ReceiveOrder(s: State, id: string)
    requires Shape(s) && id in s.pending && Ids(s.calls) && MapOk(s.calls, s.sends, s.states, s.pending)
    requires OrderOk(s.calls, s.pending, s.order)
    requires WritesOk(s.calls, s.sends, Limit(s.maxFrame), s.order, s.lock, s.closing, s.dead)
    ensures var pending, order := s.pending - {id}, Removing(s.order, s.pending[id]);
      && OrderOk(s.calls, pending, order)
      && WritesOk(s.calls, s.sends, Limit(s.maxFrame), order, s.lock, s.closing, s.dead)
  {
    var r := s.pending[id];
    assert r < |s.calls| && s.calls[r].request.callId == id;
    hide Ids, MapOk, OrderOk, WritesOk;
    OrderLeaves(s, r);
  }

  /** The reader stops reading without a reference in its hands. */
  lemma ReaderLeaves(s: State, reader: Reader)
    requires Shape(s) && !s.reader.Holding? && !reader.Holding?
    requires HandledOk(s.calls, s.sends, s.states, s.pending, s.reader, s.handled)
    requires Somewhere(s.calls, s.sends, s.states, s.pending, s.reader, s.closing, s.orphans)
    ensures HandledOk(s.calls, s.sends, s.states, s.pending, reader, s.handled)
    ensures Somewhere(s.calls, s.sends, s.states, s.pending, reader, s.closing, s.orphans)
  {
  }

  lemma CompleteOwners(s: State, reader: Reader, state: RefState)
    requires CanComplete(s) && !reader.Holding? && state.Done?
    requires s.states[s.reader.ref].Done? ==> state == s.states[s.reader.ref]
    requires Ids(s.calls) && MapOk(s.calls, s.sends, s.states, s.pending) && Unentered(s.sends, s.states)
    requires HandledOk(s.calls, s.sends, s.states, s.pending, s.reader, s.handled)
    requires ClosingOk(s.sends, s.states, s.pending, s.closing, s.handled)
    requires OrphansOk(s.calls, s.sends, s.states, s.pending, s.closing, s.handled, s.orphans)
    requires Somewhere(s.calls, s.sends, s.states, s.pending, s.reader, s.closing, s.orphans)
    requires ReturnsOk(s.sends, s.states, s.closing, s.handled)
    ensures var states := s.states[s.reader.ref := state];
      && MapOk(s.calls, s.sends, states, s.pending) && Unentered(s.sends, states)
      && HandledOk(s.calls, s.sends, states, s.pending, reader, s.handled)
      && ClosingOk(s.sends, states, s.pending, s.closing, s.handled)
      && OrphansOk(s.calls, s.sends, states, s.pending, s.closing, s.handled, s.orphans)
      && Somewhere(s.calls, s.sends, states, s.pending, reader, s.closing, s.orphans)
      && ReturnsOk(s.sends, states, s.closing, s.handled)
  {
    assert s.reader.ref in s.handled;
  }

  lemma ReaderKeeps(s: State, step: Step)
    requires Inv(s) && Can(s, step) && (step.Receive? || step.ReadFails? || step.Complete? || step.ReaderEnds?)
    ensures Inv(Do(s, step))
  {
    hide Ids, MapOk, Locks, Unentered, HandledOk, ClosingOk, OrphansOk, Somewhere, WireOk, ReturnsOk, HandlesOk,
      ViasOk, CloseIsLast, OrderOk, WritesOk, LatestVia, ViaOrder;
    var reader := Do(s, step).reader;
    match step {
      case Receive(Malformed(_)) => ReaderLeaves(s, reader);
      case Receive(Completes(id, _)) => if id in s.pending { ReceiveTakes(s, id, reader); ReceiveOrder(s, id); } else { ReaderLeaves(s, reader); }
      case Receive(BadFlag(id)) => if id in s.pending { ReceiveTakes(s, id, reader); ReceiveOrder(s, id); } else { ReaderLeaves(s, reader); }
      case ReadFails => ReaderLeaves(s, reader);
      case ReaderEnds => ReaderLeaves(s, reader);
      case Complete =>
        var state := Completed(s.states[s.reader.ref], s.reader.outcome);
        CompleteOwners(s, reader, state);
        DoneHandles(s, s.reader.ref, state);
    }
  }

  // ---------- Closers ----------

  lemma DrainOwners(s: State)
    requires Shape(s) && s.closing.Flagged? && Ids(s.calls) && MapOk(s.calls, s.sends, s.states, s.pending)
    requires HandledOk(s.calls, s.sends, s.states, s.pending, s.reader, s.handled)
    requires OrphansOk(s.calls, s.sends, s.states, s.pending, s.closing, s.handled, s.orphans)
    requires Somewhere(s.calls, s.sends, s.states, s.pending, s.reader, s.closing, s.orphans)
    requires OrderOk(s.calls, s.pending, s.order)
    ensures var closing := Draining(s.order, s.closing.error);
      && MapOk(s.calls, s.sends, s.states, map[])
      && HandledOk(s.calls, s.sends, s.states, map[], s.reader, s.handled)
      && ClosingOk(s.sends, s.states, map[], closing, s.handled)
      && OrphansOk(s.calls, s.sends, s.states, map[], closing, s.handled, s.orphans)
      && Somewhere(s.calls, s.sends, s.states, map[], s.reader, closing, s.orphans)
  {
  }

  lemma FailOneOwners(s: State, r: RefId, state: RefState, closing: Closing, orphans: set<RefId>)
    requires CanFailOne(s, r)
    requires if s.states[r] == Waiting
      then state == Done(Raised(s.closing.error)) && closing == Draining(s.closing.todo[1..], s.closing.error) && orphans == s.orphans
      else state == s.states[r] && closing == Crashed && orphans == s.orphans + Elements(s.closing.todo[1..])
    requires MapOk(s.calls, s.sends, s.states, s.pending) && Unentered(s.sends, s.states)
    requires HandledOk(s.calls, s.sends, s.states, s.pending, s.reader, s.handled)
    requires ClosingOk(s.sends, s.states, s.pending, s.closing, s.handled)
    requires OrphansOk(s.calls, s.sends, s.states, s.pending, s.closing, s.handled, s.orphans)
    requires Somewhere(s.calls, s.sends, s.states, s.pending, s.reader, s.closing, s.orphans)
    requires ReturnsOk(s.sends, s.states, s.closing, s.handled)
    ensures var states := s.states[r := state];
      && MapOk(s.calls, s.sends, states, s.pending) && Unentered(s.sends, states)
      && HandledOk(s.calls, s.sends, states, s.pending, s.reader, s.handled)
      && ClosingOk(s.sends, states, s.pending, closing, s.handled)
      && OrphansOk(s.calls, s.sends, states, s.pending, closing, s.handled, orphans)
      && Somewhere(s.calls, s.sends, states, s.pending, s.reader, closing, orphans)
      && ReturnsOk(s.sends, states, closing, s.handled)
  {
    var todo := s.closing.todo;
    assert forall q :: q in todo <==> q == r || q in todo[1..];
    assert r !in todo[1..];
  }

  lemma FailOneWrites(s: State, closing: Closing)
    requires s.closing.Draining? && s.closing.todo != []
    requires closing.Draining? ==> closing.todo == s.closing.todo[1..]
    requires WritesOk(s.calls, s.sends, Limit(s.maxFrame), s.order, s.lock, s.closing, s.dead)
    ensures WritesOk(s.calls, s.sends, Limit(s.maxFrame), s.order, s.lock, closing, s.dead)
  {
  }

  lemma DrainWrites(s: State, error: Error)
    requires Locks(s.sends, s.lock, s.closing) && s.closing.Flagged?
    requires WritesOk(s.calls, s.sends, Limit(s.maxFrame), s.order, s.lock, s.closing, s.dead)
    ensures WritesOk(s.calls, s.sends, Limit(s.maxFrame), [], s.lock, Draining(s.order, error), s.dead)
    ensures OrderOk(s.calls, map[], [])
  {
  }

  /** The closer changes phase and takes nothing. */
  lemma CloserWrites(s: State, closing: Closing)
    requires !closing.Draining?
    requires WritesOk(s.calls, s.sends, Limit(s.maxFrame), s.order, s.lock, s.closing, s.dead)
    ensures WritesOk(s.calls, s.sends, Limit(s.maxFrame), s.order, s.lock, closing, s.dead)
  {
  }

  lemma CloseEndsOwners(s: State)
    requires Shape(s) && s.closing.Draining? && s.closing.todo == []
    requires ClosingOk(s.sends, s.states, s.pending, s.closing, s.handled)
    requires OrphansOk(s.calls, s.sends, s.states, s.pending, s.closing, s.handled, s.orphans)
    requires Somewhere(s.calls, s.sends, s.states, s.pending, s.reader, s.closing, s.orphans)
    ensures ClosingOk(s.sends, s.states, s.pending, Closed, s.handled)
    ensures OrphansOk(s.calls, s.sends, s.states, s.pending, Closed, s.handled, s.orphans)
    ensures Somewhere(s.calls, s.sends, s.states, s.pending, s.reader, Closed, s.orphans)
  {
  }

  lemma FlagOwners(s: State, error: Error)
    requires Shape(s) && s.closing == Open && s.lock == None && Locks(s.sends, s.lock, s.closing)
    requires ClosingOk(s.sends, s.states, s.pending, s.closing, s.handled)
    requires OrphansOk(s.calls, s.sends, s.states, s.pending, s.closing, s.handled, s.orphans)
    requires Somewhere(s.calls, s.sends, s.states, s.pending, s.reader, s.closing, s.orphans)
    requires ReturnsOk(s.sends, s.states, s.closing, s.handled)
    ensures Locks(s.sends, s.lock, Flagged(error)) && ReturnsOk(s.sends, s.states, Flagged(error), s.handled)
    ensures ClosingOk(s.sends, s.states, s.pending, Flagged(error), s.handled)
    ensures OrphansOk(s.calls, s.sends, s.states, s.pending, Flagged(error), s.handled, s.orphans)
    ensures Somewhere(s.calls, s.sends, s.states, s.pending, s.reader, Flagged(error), s.orphans)
  {
  }

  /** Once `_closed` is set nobody holds the lock for sending. */
  lemma ClosedLocks(s: State, closing: Closing)
    requires Locks(s.sends, s.lock, s.closing) && s.closing != Open && !closing.Open? && !closing.Flagged?
    requires ReturnsOk(s.sends, s.states, s.closing, s.handled)
    ensures Locks(s.sends, s.lock, closing) && ReturnsOk(s.sends, s.states, closing, s.handled)
  {
  }

  lemma CloserKeeps(s: State, step: Step)
    requires Inv(s) && Can(s, step) && (step.Close? || step.Drain? || step.FailOne? || step.CloseEnds?)
    ensures Inv(Do(s, step))
  {
    hide Ids, MapOk, Locks, Unentered, HandledOk, ClosingOk, OrphansOk, Somewhere, WireOk, ReturnsOk, HandlesOk,
      ViasOk, CloseIsLast, OrderOk, WritesOk, LatestVia, ViaOrder;
    var t := Do(s, step);
    match step {
      case Close(error) =>
        FlagOwners(s, error);
        CloserWrites(s, t.closing);
      case Drain =>
        ClosedLocks(s, t.closing);
        DrainWrites(s, s.closing.error);
        DrainOwners(s);
      case FailOne(r) =>
        ClosedLocks(s, t.closing);
        var state := Completed(s.states[r], Raised(s.closing.error));
        assert t.states == s.states[r := state];
        FailOneOwners(s, r, state, t.closing, t.orphans);
        FailOneWrites(s, t.closing);
        DoneHandles(s, r, state);
      case CloseEnds =>
        ClosedLocks(s, t.closing);
        CloseEndsOwners(s);
        CloserWrites(s, t.closing);
    }
  }

  // ---------- Callers ----------

  lemma MakeHandleHandles(s: State, r: RefId)
    requires CanMakeHandle(s, r) && HandlesOk(s.calls, s.sends, s.states, s.handles)
    requires ViasOk(s.calls, s.sends, s.handles) && CloseIsLast(s.calls, s.handles, s.wire)
    requires LatestVia(s.calls, s.handles)
    ensures var t := DoMakeHandle(s, r);
      && HandlesOk(t.calls, t.sends, t.states, t.handles) && ViasOk(t.calls, t.sends, t.handles)
      && CloseIsLast(t.calls, t.handles, t.wire) && LatestVia(t.calls, t.handles)
  {
  }

  lemma CloseHandleHandles(s: State, h: HandleId)
    requires CanCloseHandle(s, h) && WireOk(s.sends, s.wire) && HandlesOk(s.calls, s.sends, s.states, s.handles)
    requires ViasOk(s.calls, s.sends, s.handles) && CloseIsLast(s.calls, s.handles, s.wire)
    ensures var t := WithHandle(s, h, s.handles[h].(closed := true));
      && HandlesOk(t.calls, t.sends, t.states, t.handles) && ViasOk(t.calls, t.sends, t.handles)
      && CloseIsLast(t.calls, t.handles, t.wire)
  {
  }

  lemma WireBounds(s: State)
    requires Shape(s) && WireOk(s.sends, s.wire) && ClosingOk(s.sends, s.states, s.pending, s.closing, s.handled)
    ensures forall r :: r in s.wire ==> r < |s.calls|
    ensures s.closing.Draining? ==> forall r :: r in s.closing.todo ==> r < |s.calls|
  {
  }

  lemma CallerKeeps(s: State, step: Step)
    requires Inv(s) && Can(s, step)
    requires step.Issue? || step.CallVia? || step.MakeHandle? || step.CloseHandle? || step.Destroy?
    ensures Inv(Do(s, step))
  {
    hide Ids, MapOk, Locks, Unentered, HandledOk, ClosingOk, OrphansOk, Somewhere, WireOk, ReturnsOk, HandlesOk,
      ViasOk, CloseIsLast, OrderOk, WritesOk, LatestVia, ViaOrder;
    var t := Do(s, step);
    WireBounds(s);
    match step {
      case Issue(request, size) =>
        AddRefKeeps(s, Issued(request, None, size));
        AddRefOwners(s, Issued(request, None, size));
        AddRefHandles(s, Issued(request, None, size));
        AddRefOrder(s, Issued(request, None, size));
        LatestFrame(s.calls, Issued(request, None, size), s.handles);
        CloseFrame(s.calls, t.calls, s.handles, t.handles, s.wire);
      case CallVia(h, request, size) =>
        AddRefKeeps(s, Issued(request, Some(h), size));
        AddRefOwners(s, Issued(request, Some(h), size));
        AddRefHandles(s, Issued(request, Some(h), size));
        AddRefOrder(s, Issued(request, Some(h), size));
        LockHandles(AddRef(s, Issued(request, Some(h), size)), h, Some(|s.calls|));
        CallViaVias(s, h, request, size);
        CallViaLatest(s.calls, s.handles, h, Issued(request, Some(h), size));
        CloseFrame(s.calls, t.calls, s.handles, t.handles, s.wire);
      case MakeHandle(r) => MakeHandleHandles(s, r);
      case CloseHandle(h) =>
        CloseHandleHandles(s, h);
        LatestUnlocks(s.calls, s.handles, h, t.handles[h]);
      case Destroy(h, callId, size) =>
        AddRefKeeps(s, t.calls[|s.calls|]);
        AddRefOwners(s, t.calls[|s.calls|]);
        AddRefOrder(s, t.calls[|s.calls|]);
        LatestFrame(s.calls, t.calls[|s.calls|], s.handles);
        LatestUnlocks(t.calls, s.handles, h, t.handles[h]);
        DestroyHandles(s, h, callId, size);
        DestroyOrder(s, h, callId, size);
    }
  }

  // ---------- All steps, all runs ----------

  lemma StepKeeps(s: State, step: Step)
    requires Inv(s) && Can(s, step)
    ensures Inv(Do(s, step))
  {
    hide Inv, Do;
    match step {
      case Look(r) => LookStep(s, r);
      case Report(r) => ReportStep(s, r);
      case _ =>
        if step.Insert? || step.Pop? { MapStepKeeps(s, step); }
        else if step.Write? || step.TooLong? || step.SocketFails? || step.Return? { SenderKeeps(s, step); }
        else if step.Receive? || step.ReadFails? || step.Complete? || step.ReaderEnds? { ReaderKeeps(s, step); }
        else if step.Close? || step.Drain? || step.FailOne? || step.CloseEnds? { CloserKeeps(s, step); }
        else { CallerKeeps(s, step); }
    }
  }

  lemma LookStep(s: State, r: RefId)
    requires Inv(s) && CanLook(s, r)
    ensures Inv(Do(s, Look(r)))
  {
    hide Inv;
    LookKeeps(s, r);
  }

  lemma ReportStep(s: State, r: RefId)
    requires Inv(s) && CanReport(s, r)
    ensures Inv(Do(s, Report(r)))
  {
    hide Inv;
    ReportKeeps(s, r);
  }

  lemma InitialInv(maxFrame: nat)
    ensures Inv(Initial(maxFrame))
  {
  }

  lemma {:induction false} RunInv(states: seq<State>, steps: seq<Step>, i: nat)
    requires IsRun(states, steps) && i < |states|
    ensures Inv(states[i])
  {
    hide Inv, Can, Do;
    if i == 0 {
      InitialInv(states[0].maxFrame);
    } else {
      RunInv(states, steps, i - 1);
      StepKeeps(states[i - 1], steps[i - 1]);
    }
  }
}
