/** The client connection as a transition system: senders, the response reader and
    closers compete for object references through the pending map, the connection's
    lifecycle lock and the lock of each actor handle. Every lock-protected
    section and every completion of a reference is one atomic step. */
module Client {
  import opened Base
  import opened Messages
  import Framing

  type RefId = nat      // an ObjectRef: an index into State.calls
  type HandleId = nat   // an ActorHandle: an index into State.handles

  /** What a reference was made for, the handle whose lock its sender holds, and the length of the
      serialized request. */
  datatype Issued = Issued(request: Request, via: Option<HandleId>, size: nat)

  /** How far the sender of a reference has come. `broken` says that the write raised, the reference
      being in the pending map by then; otherwise the connection was already
      closed and the reference never entered the map. */
  datatype Sending =
    | Ready                       // waits for the lifecycle lock
    | Inserted                    // holds it; in the pending map, nothing written
    | OnWire                      // holds it; the frame is written
    | Sent                        // the reference has been returned
    | Failing(broken: bool)       // an exception; the lock is released
    | Popped(broken: bool)        // the pending map has no such entry any more
    | Reporting(broken: bool)     // it was not ready, so it is about to be failed
    | Rejected(broken: bool)      // the exception has been raised to the caller

  datatype RefState = Waiting | Done(outcome: Outcome)

  datatype Handle = Handle(
    actorId: string, owns: bool,
    maker: RefId,                 // the creation or attachment it came from
    lock: Option<RefId>,          // the call being sent under its lock
    closed: bool,
    destroyer: Option<RefId>)     // the destruction its close sends

  datatype Reader =
    | Reading
    | Holding(ref: RefId, outcome: Outcome)   // popped a reference and is about to complete it
    | GivingUp                                // an exception: about to close the connection
    | Ended

  datatype Closing =
    | Open
    | Flagged(error: Error)                        // `_closed` is set, the socket shut
    | Draining(todo: seq<RefId>, error: Error)     // took the pending references, fails them in order
    | Closed
    | Crashed                                      // failing one of them raised, the rest are left

  /** Python's dictionaries keep the order of insertion: the values of `pending` are those of
      `order`, in that order. */
  datatype State = State(
    maxFrame: nat,
    calls: seq<Issued>, sends: seq<Sending>, states: seq<RefState>,
    handles: seq<Handle>, pending: map<string, RefId>, order: seq<RefId>, lock: Option<RefId>,
    closing: Closing, reader: Reader,
    wire: seq<RefId>,          // the requests written, in order
    handled: seq<RefId>,       // the references the reader popped to complete them, in order
    orphans: set<RefId>,       // the references that were taken out and that no reader or closer will complete
    dead: bool)                // a write to the socket has failed, so all later ones will

  function Initial(maxFrame: nat): State {
    State(maxFrame, [], [], [], [], map[], [], None, Open, Reading, [], [], {}, false)
  }

  /** The longest payload that `write_frame` accepts: the frame limit, or what the header can hold. */
  function Limit(maxFrame: nat): nat {
    if maxFrame <= Framing.MAX_UINT32 then maxFrame else Framing.MAX_UINT32
  }

  /** It is what `write_frame` checks and what four bytes can say. */
  lemma LimitIsFits(payload: Framing.Bytes, maxFrame: nat)
    ensures |payload| <= Limit(maxFrame) <==> Framing.Fits(payload, maxFrame)
  {
  }

  datatype Step =
    | Issue(request: Request, size: nat)
    | CallVia(h: HandleId, request: Request, size: nat)
    | MakeHandle(r: RefId)
    | CloseHandle(h: HandleId)
    | Destroy(h: HandleId, callId: string, size: nat)
    | Insert(r: RefId)
    | Write(r: RefId)
    | TooLong(r: RefId)
    | SocketFails(r: RefId)
    | Return(r: RefId)
    | Pop(r: RefId)
    | Look(r: RefId)
    | Report(r: RefId)
    | Receive(reading: Reading)
    | ReadFails
    | Complete
    | ReaderEnds
    | Close(error: Error)
    | Drain
    | FailOne(r: RefId)
    | CloseEnds

  predicate Shape(s: State) {
    |s.sends| == |s.states| == |s.calls|
  }

  /** A call id that no reference has: the model's reading of a random UUID. */
  ghost predicate Fresh(s: State, callId: string) {
    forall r :: 0 <= r < |s.calls| ==> s.calls[r].request.callId != callId
  }

  predicate IsAt(s: State, r: RefId, sending: Sending) {
    Shape(s) && r < |s.calls| && s.sends[r] == sending
  }

  /** The ids of references in the map lead to themselves. */
  predicate MapInBounds(s: State) {
    Shape(s) && forall id :: id in s.pending ==> s.pending[id] < |s.calls|
  }

  function WithSend(s: State, r: RefId, sending: Sending): State
    requires r < |s.sends|
  {
    s.(sends := s.sends[r := sending])
  }

  function WithState(s: State, r: RefId, state: RefState): State
    requires r < |s.states|
  {
    s.(states := s.states[r := state])
  }

  function WithHandle(s: State, h: HandleId, handle: Handle): State
    requires h < |s.handles|
  {
    s.(handles := s.handles[h := handle])
  }

  function AddRef(s: State, issued: Issued): State {
    s.(calls := s.calls + [issued], sends := s.sends + [Ready], states := s.states + [Waiting])
  }

  // ---------- Callers ----------

  ghost predicate CanCallVia(s: State, h: HandleId, request: Request) {
    && Shape(s) && Fresh(s, request.callId)
    && h < |s.handles| && s.handles[h].lock == None && !s.handles[h].closed
    && request.body.CallActor? && request.body.actorId == s.handles[h].actorId
  }

  function DoCallVia(s: State, h: HandleId, request: Request, size: nat): State
    requires h < |s.handles|
  {
    WithHandle(AddRef(s, Issued(request, Some(h), size)), h, s.handles[h].(lock := Some(|s.calls|)))
  }

  /** The creation or attachment returned: its caller makes a handle. */
  ghost predicate CanMakeHandle(s: State, r: RefId) {
    && IsAt(s, r, Sent) && s.states[r].Done? && s.states[r].outcome.Returned?
    && (s.calls[r].request.body.CreateActor? || s.calls[r].request.body.AttachActor?)
    && (forall h :: 0 <= h < |s.handles| ==> s.handles[h].maker != r)
  }

  function DoMakeHandle(s: State, r: RefId): State
    requires r < |s.calls| && (s.calls[r].request.body.CreateActor? || s.calls[r].request.body.AttachActor?)
  {
    var body := s.calls[r].request.body;
    s.(handles := s.handles + [Handle(body.actorId, body.CreateActor?, r, None, false, None)])
  }

  predicate CanCloseHandle(s: State, h: HandleId) {
    h < |s.handles| && s.handles[h].lock == None && !s.handles[h].closed
  }

  ghost predicate CanDestroy(s: State, h: HandleId, callId: string) {
    && Shape(s) && Fresh(s, callId)
    && h < |s.handles| && s.handles[h].closed && s.handles[h].owns && s.handles[h].destroyer == None
  }

  function DoDestroy(s: State, h: HandleId, callId: string, size: nat): State
    requires h < |s.handles|
  {
    WithHandle(AddRef(s, Issued(Request(callId, DestroyActor(s.handles[h].actorId)), None, size)), h,
               s.handles[h].(destroyer := Some(|s.calls|)))
  }

  // ---------- Sending ----------

  predicate CanInsert(s: State, r: RefId) {
    IsAt(s, r, Ready) && s.lock == None
  }

  function DoInsert(s: State, r: RefId): State
    requires CanInsert(s, r)
  {
    if s.closing != Open then WithSend(s, r, Failing(false))
    else WithSend(s, r, Inserted).(
      pending := s.pending[s.calls[r].request.callId := r], order := s.order + [r], lock := Some(r))
  }

  predicate CanWrite(s: State, r: RefId) {
    IsAt(s, r, Inserted) && s.calls[r].size <= Limit(s.maxFrame) && !s.dead
  }

  /** The frame would be too long: nothing is sent, and the socket is as good as before. */
  predicate CanTooLong(s: State, r: RefId) {
    IsAt(s, r, Inserted) && s.calls[r].size > Limit(s.maxFrame)
  }

  /** The socket fails, and will fail from now on. */
  predicate CanSocketFail(s: State, r: RefId) {
    IsAt(s, r, Inserted) && s.calls[r].size <= Limit(s.maxFrame)
  }

  /** The call is over: the handle whose lock it held is free again. */
  function Release(s: State, r: RefId): seq<Handle>
    requires r < |s.calls|
  {
    match s.calls[r].via
    case Some(h) => if h < |s.handles| then s.handles[h := s.handles[h].(lock := None)] else s.handles
    case None => s.handles
  }

  function DoReturn(s: State, r: RefId): State
    requires IsAt(s, r, OnWire)
  {
    WithSend(s, r, Sent).(lock := None, handles := Release(s, r))
  }

  predicate CanPop(s: State, r: RefId) {
    Shape(s) && r < |s.calls| && s.sends[r].Failing?
  }

  function DoPop(s: State, r: RefId): State
    requires CanPop(s, r)
  {
    WithSend(s, r, Popped(s.sends[r].broken)).(
      pending := s.pending - {s.calls[r].request.callId}, order := Removing(s.order, r))
  }

  predicate CanLook(s: State, r: RefId) {
    Shape(s) && r < |s.calls| && s.sends[r].Popped?
  }

  function DoLook(s: State, r: RefId): State
    requires CanLook(s, r)
  {
    if s.states[r] == Waiting then WithSend(s, r, Reporting(s.sends[r].broken))
    else WithSend(s, r, Rejected(s.sends[r].broken)).(handles := Release(s, r))
  }

  predicate CanReport(s: State, r: RefId) {
    Shape(s) && r < |s.calls| && s.sends[r].Reporting?
  }

  /** Completing a reference that is complete already raises and changes nothing. */
  function Completed(state: RefState, outcome: Outcome): RefState {
    if state == Waiting then Done(outcome) else state
  }

  const SEND_ERROR := Raised(Error("ConnectionError", "failed to send remote call"))

  function DoReport(s: State, r: RefId): State
    requires CanReport(s, r)
  {
    WithSend(WithState(s, r, Completed(s.states[r], SEND_ERROR)), r, Rejected(s.sends[r].broken)).(handles := Release(s, r))
  }

  // ---------- The reader ----------

  predicate CanReceive(s: State) {
    s.reader == Reading && MapInBounds(s)
  }

  function DoReceive(s: State, reading: Reading): State
    requires CanReceive(s)
  {
    match reading
    case Malformed(_) => s.(reader := GivingUp)
    case Completes(id, outcome) =>
      if id !in s.pending then s.(reader := GivingUp)
      else s.(pending := s.pending - {id}, order := Removing(s.order, s.pending[id]),
              reader := Holding(s.pending[id], outcome), handled := s.handled + [s.pending[id]])
    case BadFlag(id) =>
      if id !in s.pending then s.(reader := GivingUp)
      else s.(pending := s.pending - {id}, order := Removing(s.order, s.pending[id]),
              reader := GivingUp, orphans := s.orphans + {s.pending[id]})
  }

  predicate CanComplete(s: State) {
    Shape(s) && s.reader.Holding? && s.reader.ref < |s.calls|
  }

  function DoComplete(s: State): State
    requires CanComplete(s)
  {
    var r := s.reader.ref;
    WithState(s, r, Completed(s.states[r], s.reader.outcome)).(
      reader := if s.states[r] == Waiting then Reading else GivingUp)
  }

  // ---------- Closers ----------

  predicate CanFailOne(s: State, r: RefId) {
    Shape(s) && s.closing.Draining? && s.closing.todo != [] && r == s.closing.todo[0] && r < |s.calls|
  }

  function DoFailOne(s: State, r: RefId): State
    requires CanFailOne(s, r)
  {
    if s.states[r] == Waiting then
      WithState(s, r, Done(Raised(s.closing.error))).(closing := Draining(s.closing.todo[1..], s.closing.error))
    else
      s.(closing := Crashed, orphans := s.orphans + Elements(s.closing.todo[1..]))
  }

  function Elements(refs: seq<RefId>): set<RefId> {
    set r | r in refs
  }

  // ---------- Guards and effects together ----------

  ghost predicate Can(s: State, step: Step) {
    match step
    case Issue(request, _) => Shape(s) && Fresh(s, request.callId)
    case CallVia(h, request, _) => CanCallVia(s, h, request)
    case MakeHandle(r) => CanMakeHandle(s, r)
    case CloseHandle(h) => CanCloseHandle(s, h)
    case Destroy(h, callId, _) => CanDestroy(s, h, callId)
    case Insert(r) => CanInsert(s, r)
    case Write(r) => CanWrite(s, r)
    case TooLong(r) => CanTooLong(s, r)
    case SocketFails(r) => CanSocketFail(s, r)
    case Return(r) => IsAt(s, r, OnWire)
    case Pop(r) => CanPop(s, r)
    case Look(r) => CanLook(s, r)
    case Report(r) => CanReport(s, r)
    case Receive(_) => CanReceive(s)
    case ReadFails => s.reader == Reading
    case Complete => CanComplete(s)
    case ReaderEnds => s.reader == GivingUp && s.closing != Open
    case Close(_) => s.closing == Open && s.lock == None
    case Drain => s.closing.Flagged?
    case FailOne(r) => CanFailOne(s, r)
    case CloseEnds => s.closing.Draining? && s.closing.todo == []
  }

  ghost function Do(s: State, step: Step): State
    requires Can(s, step)
  {
    match step
    case Issue(request, size) => AddRef(s, Issued(request, None, size))
    case CallVia(h, request, size) => DoCallVia(s, h, request, size)
    case MakeHandle(r) => DoMakeHandle(s, r)
    case CloseHandle(h) => WithHandle(s, h, s.handles[h].(closed := true))
    case Destroy(h, callId, size) => DoDestroy(s, h, callId, size)
    case Insert(r) => DoInsert(s, r)
    case Write(r) => WithSend(s, r, OnWire).(wire := s.wire + [r])
    case TooLong(r) => WithSend(s, r, Failing(true)).(lock := None)
    case SocketFails(r) => WithSend(s, r, Failing(true)).(lock := None, dead := true)
    case Return(r) => DoReturn(s, r)
    case Pop(r) => DoPop(s, r)
    case Look(r) => DoLook(s, r)
    case Report(r) => DoReport(s, r)
    case Receive(reading) => DoReceive(s, reading)
    case ReadFails => s.(reader := GivingUp)
    case Complete => DoComplete(s)
    case ReaderEnds => s.(reader := Ended)
    case Close(error) => s.(closing := Flagged(error))
    case Drain => s.(closing := Draining(s.order, s.closing.error), pending := map[], order := [])
    case FailOne(r) => DoFailOne(s, r)
    case CloseEnds => s.(closing := Closed)
  }

  ghost predicate IsRun(states: seq<State>, steps: seq<Step>) {
    && |states| == |steps| + 1
    && states[0] == Initial(states[0].maxFrame)
    && forall i :: 0 <= i < |steps| ==> Can(states[i], steps[i]) && states[i + 1] == Do(states[i], steps[i])
  }
}
