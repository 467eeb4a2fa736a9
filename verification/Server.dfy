/** The server runtime as a transition system. Every lock-protected section, event,
    submission, task start and end, executor shutdown, join and response write of
    the source is one atomic step; a run is any sequence of steps whose guards
    hold, so it covers every interleaving of the accept thread, the connection
    threads, the shared pool, the actor executors and the thread that stops the
    runtime. */
module Server {
  import opened Base
  import opened Messages
  import Framing

  type Conn = nat      // a connection object: an index into State.conns
  type EntryId = nat   // an actor entry object with its executor: an index into State.entries
  type JobId = nat     // an accepted request: an index into State.jobs

  // ---------- What the runtime is given ----------

  // User code may end in two ways that `except Exception` does not turn into an
  // answer: by a `BaseException` that is no `Exception`, and by an exception whose
  // `str` raises. Such a call has no outcome.

  /** What looking an attribute up comes to. Properties and `__getattr__` are user code. */
  datatype Attribute = Fails(error: Option<Error>) | NotCallable | Callable

  /** What serializing a message comes to: its bytes, an exception (without a text if its `str` raises), or something
      that `except Exception` does not catch. */
  datatype Dumped = Payload(bytes: seq<Byte>) | Raises(error: Option<Error>) | Escapes

  /** User code and serializer. Looking a method up and calling it are functions of the instance's state and
      the arguments; functions and constructors are left free in each step. */
  datatype Setup = Setup(
    attribute: (Value, string) -> (Value, Attribute),
    invoke: (Value, Body) -> (Value, Option<Outcome>),
    dumps: Response -> Dumped,
    maxFrame: nat)

  /** What becomes of a response: a message is sent, the connection has to be aborted, or nothing happens at all. */
  datatype Transmission = Sends(response: Response) | Aborts | Silence

  function Framed(setup: Setup, r: Response, payload: seq<Byte>): Transmission {
    if Framing.Fits(payload, setup.maxFrame) then Sends(r) else Aborts
  }

  /** The response itself is sent, or when it does not serialize the fallback error. */
  function Transmit(setup: Setup, r: Response): Transmission {
    match setup.dumps(r)
    case Payload(payload) => Framed(setup, r, payload)
    case Raises(Some(e)) =>
      var fallback := Response(r.callId, Raised(e));
      (match setup.dumps(fallback)
       case Payload(payload) => Framed(setup, fallback, payload)
       case Raises(_) => Aborts
       case Escapes => Silence)
    case Raises(None) => Silence
    case Escapes => Silence
  }

  function Failed(error: Option<Error>): Option<Outcome> {
    match error
    case Some(e) => Some(Raised(e))
    case None => None
  }

  /** One actor method call: the new instance state and what the call produced, if anything. */
  function RunMethod(setup: Setup, instance: Value, call: Body): (Value, Option<Outcome>)
    requires call.CallActor?
  {
    var name := call.methodName;
    if name != [] && name[0] == '_' then
      (instance, Some(Raised(Error("AttributeError", "private actor methods are not remotely callable"))))
    else
      var (looked, attribute) := setup.attribute(instance, name);
      match attribute
      case Fails(error) => (looked, Failed(error))
      case NotCallable => (looked, Some(Raised(Error("TypeError", "actor attribute is not callable"))))
      case Callable => setup.invoke(looked, call)
  }

  // ---------- State ----------

  /** Who is responsible for shutting an entry's executor down. */
  datatype Holder =
    | Published              // the actor table
    | ByJob(job: JobId)      // a creation that has not published it, or a destruction that popped it
    | ByConn(conn: Conn)     // the cleanup of its owner's connection
    | ByStop                 // the stopping thread
    | Released               // nobody: shutdown has returned

  datatype Mode = Live | Draining | Cancelling

  /** The executor's only worker thread. */
  datatype Worker = Idle | Running(job: JobId) | Finishing(job: JobId)

  datatype Invocation = Invocation(call: Body, outcome: Option<Outcome>)

  /** An actor entry as an object that somebody owns and has to shut down. */
  datatype Custody = Custody(
    actorId: string, owner: Conn, maker: JobId, mode: Mode, shutdowns: nat, holder: Holder,
    born: Option<nat>,           // the number of requests accepted when it entered the table
    died: Option<nat>)           // and when it left

  /** The same entry's instance and what its executor has seen of work. */
  datatype Executor = Executor(
    initial: Value, instance: Value, queue: seq<JobId>, worker: Worker,
    submitted: seq<JobId>,       // every job ever submitted
    ran: seq<JobId>,             // every job whose method ran, in order
    history: seq<Invocation>)    // and what each of them called and produced

  datatype Lane = Shared | Own(entry: EntryId)

  datatype Job = Job(conn: Conn, request: Request, lane: Lane)

  datatype Stage =
    | Queued
    | Started
    | Built(entry: EntryId)                      // constructor returned, not published
    | Unpublished(entry: EntryId, error: Error)  // publication refused, executor still up
    | Faulted(error: Error)                      // creation failed, about to look at `closed`
    | Popped(entry: EntryId)                     // destroy took the entry out of the table
    | Joining(entry: EntryId)                    // destroy waits for its executor
    | Replying                                   // about to send the computed outcome
    | Answered(at: nat)                          // its response is at this place of its connection's output
    | Dropped                                    // its connection was closed first
    | Silent                                     // it ended without an outcome, or without a message for it
    | Cancelled                                  // its future was cancelled in the queue

  datatype Sent = Sent(job: JobId, response: Response)

  datatype Phase =
    | Serving
    | Ending         // `closed` is set
    | Unlisted       // removed from the runtime's connections
    | SocketShut
    | Reaping(todo: set<EntryId>, joining: Option<EntryId>)
    | Ended

  datatype ConnState = ConnState(phase: Phase, closed: bool, broken: bool)

  datatype StopPhase =
    | NotStopping
    | Flagged
    | ClosingConns(conns: set<Conn>)
    | PoolDown
    | StoppingActors(todo: set<EntryId>, joining: Option<EntryId>)
    | Stopped

  datatype State = State(
    jobs: seq<Job>, stages: seq<Stage>,
    results: seq<Option<Outcome>>,       // what each job computed
    targets: seq<Option<EntryId>>,       // the entry a creation published or a destruction popped
    custody: seq<Custody>, execs: seq<Executor>, table: map<string, EntryId>,
    conns: seq<ConnState>, written: seq<seq<Sent>>, connections: set<Conn>,
    poolQueue: seq<JobId>, poolLive: bool, started: bool, stop: StopPhase)

  const INITIAL := State([], [], [], [], [], [], map[], [], [], {}, [], true, false, NotStopping)

  // ---------- Steps ----------

  datatype ConnStep =
    | Accept
    | Handle(c: Conn, request: Request)
    | HandlerEnds(c: Conn)
    | Unlist(c: Conn)
    | ShutSocket(c: Conn)
    | Reap(c: Conn)
    | ReapShutdown(c: Conn, e: EntryId)
    | ReapJoined(c: Conn)
    | ReapEnds(c: Conn)

  datatype TaskStep =
    | PoolStart
    | PoolCancel
    | FunctionReturns(j: JobId, outcome: Option<Outcome>)
    | ReportMissing(j: JobId)
    | Construct(j: JobId, built: Result<Value, Option<Error>>)
    | Publish(j: JobId)
    | Discard(j: JobId)
    | CheckClosed(j: JobId)
    | Attach(j: JobId)
    | Destroy(j: JobId)
    | DestroyShutdown(j: JobId)
    | DestroyJoined(j: JobId)

  datatype WorkStep =
    | ActorStart(e: EntryId)
    | ActorInvoke(e: EntryId)
    | ActorCancel(e: EntryId)
    | Reply(j: JobId)
    | ReplyFails(j: JobId)
    | ReplyEscapes(j: JobId)

  datatype StopStep =
    | Start
    | StopFlag
    | StopSnapshot
    | StopMark(c: Conn)
    | StopShut(c: Conn)
    | StopPool
    | StopCollect
    | StopShutdown(e: EntryId)
    | StopJoined
    | StopEnds

  datatype Step =
    | ByConnection(conn: ConnStep)
    | ByTask(task: TaskStep)
    | ByWorker(work: WorkStep)
    | ByStopper(stopping: StopStep)

  predicate Finished(stage: Stage) {
    stage.Answered? || stage.Dropped? || stage.Silent? || stage.Cancelled?
  }

  function NotFound(actorId: string): Outcome {
    Raised(Error("ActorNotFoundError", actorId))
  }

  predicate Shape(s: State) {
    && |s.stages| == |s.results| == |s.targets| == |s.jobs|
    && |s.execs| == |s.custody|
    && |s.written| == |s.conns|
  }

  predicate IsJob(s: State, j: JobId) {
    Shape(s) && j < |s.jobs| && s.jobs[j].conn < |s.conns|
  }

  predicate IsEntry(s: State, e: EntryId) {
    Shape(s) && e < |s.custody|
  }

  /** A pool thread has started job `j` and not yet done anything for it. */
  predicate InPool(s: State, j: JobId) {
    IsJob(s, j) && s.jobs[j].lane == Shared && s.stages[j] == Started
  }

  predicate IsIdle(exec: Executor) {
    exec.queue == [] && exec.worker == Idle
  }

  predicate InPhase(s: State, c: Conn, phase: Phase) {
    Shape(s) && c < |s.conns| && s.conns[c].phase == phase
  }

  predicate TableInBounds(s: State) {
    Shape(s) && forall id :: id in s.table ==> s.table[id] < |s.custody|
  }

  predicate PoolDone(jobs: seq<Job>, stages: seq<Stage>, poolQueue: seq<JobId>) {
    poolQueue == [] && |stages| == |jobs| &&
    forall j :: 0 <= j < |jobs| && jobs[j].lane == Shared ==> Finished(stages[j])
  }

  function WithConn(s: State, c: Conn, conn: ConnState): State
    requires c < |s.conns|
  {
    s.(conns := s.conns[c := conn])
  }

  function WithStage(s: State, j: JobId, stage: Stage): State
    requires j < |s.stages|
  {
    s.(stages := s.stages[j := stage])
  }

  function WithResult(s: State, j: JobId, outcome: Outcome): State
    requires j < |s.stages| && j < |s.results|
  {
    s.(stages := s.stages[j := Replying], results := s.results[j := Some(outcome)])
  }

  function WithCustody(s: State, e: EntryId, custody: Custody): State
    requires e < |s.custody|
  {
    s.(custody := s.custody[e := custody])
  }

  function WithExec(s: State, e: EntryId, exec: Executor): State
    requires e < |s.execs|
  {
    s.(execs := s.execs[e := exec])
  }

  function ShutDown(custody: Custody, mode: Mode, holder: Holder): Custody {
    custody.(mode := mode, shutdowns := custody.shutdowns + 1, holder := holder)
  }

  /** The entries in `taken` handed from the table to `holder`, with `now` requests accepted so far. */
  function HandOver(custody: seq<Custody>, taken: set<EntryId>, holder: Holder, now: nat): (r: seq<Custody>)
    ensures |r| == |custody|
    ensures forall e :: 0 <= e < |r| ==>
      r[e] == if e in taken then custody[e].(holder := holder, died := Some(now)) else custody[e]
  {
    seq(|custody|, e requires 0 <= e < |custody| =>
      if e in taken then custody[e].(holder := holder, died := Some(now)) else custody[e])
  }

  // ---------- The accept thread and the connection threads ----------

  function DoAccept(s: State): State {
    s.(conns := s.conns + [ConnState(Serving, false, false)], written := s.written + [[]],
       connections := s.connections + {|s.conns|})
  }

  predicate CanHandle(s: State, c: Conn) {
    InPhase(s, c, Serving) && TableInBounds(s)
  }

  /** The actor executor a request is submitted to, if any. */
  function Lookup(s: State, request: Request): Option<EntryId> {
    if request.body.CallActor? && request.body.actorId in s.table then Some(s.table[request.body.actorId]) else None
  }

  function AddJob(s: State, job: Job, stage: Stage): State {
    s.(jobs := s.jobs + [job], stages := s.stages + [stage], results := s.results + [None],
       targets := s.targets + [None])
  }

  /** The connection thread acts on one request it has read. */
  function DoHandle(s: State, c: Conn, request: Request): State
    requires CanHandle(s, c)
  {
    match Lookup(s, request)
    case Some(e) => if s.custody[e].mode == Live then SubmitOwn(s, c, request, e) else Refuse(s, c, request)
    case None => if s.poolLive then SubmitShared(s, c, request) else Refuse(s, c, request)
  }

  function Submit(exec: Executor, j: JobId): Executor {
    exec.(queue := exec.queue + [j], submitted := exec.submitted + [j])
  }

  function SubmitOwn(s: State, c: Conn, request: Request, e: EntryId): State
    requires IsEntry(s, e)
  {
    WithExec(AddJob(s, Job(c, request, Own(e)), Queued), e, Submit(s.execs[e], |s.jobs|))
  }

  function SubmitShared(s: State, c: Conn, request: Request): State {
    AddJob(s, Job(c, request, Shared), Queued).(poolQueue := s.poolQueue + [|s.jobs|])
  }

  /** An executor that has been shut down refuses the submission: the thread leaves its loop. */
  function Refuse(s: State, c: Conn, request: Request): State
    requires c < |s.conns|
  {
    AddJob(WithConn(s, c, s.conns[c].(phase := Ending, closed := true)), Job(c, request, Shared), Dropped)
  }

  function DoHandlerEnds(s: State, c: Conn): State
    requires InPhase(s, c, Serving)
  {
    WithConn(s, c, s.conns[c].(phase := Ending, closed := true))
  }

  function DoUnlist(s: State, c: Conn): State
    requires InPhase(s, c, Ending)
  {
    WithConn(s.(connections := s.connections - {c}), c, s.conns[c].(phase := Unlisted))
  }

  function DoShutSocket(s: State, c: Conn): State
    requires InPhase(s, c, Unlisted)
  {
    WithConn(s, c, s.conns[c].(phase := SocketShut, broken := true))
  }

  predicate CanReap(s: State, c: Conn) {
    InPhase(s, c, SocketShut) && TableInBounds(s)
  }

  function Owned(s: State, c: Conn): set<EntryId>
    requires TableInBounds(s)
  {
    set id | id in s.table && s.custody[s.table[id]].owner == c :: s.table[id]
  }

  function DoReap(s: State, c: Conn): State
    requires CanReap(s, c)
  {
    var taken := Owned(s, c);
    WithConn(s, c, s.conns[c].(phase := Reaping(taken, None))).(
      custody := HandOver(s.custody, taken, ByConn(c), |s.jobs|),
      table := map id | id in s.table && s.table[id] !in taken :: s.table[id])
  }

  predicate CanReapShutdown(s: State, c: Conn, e: EntryId) {
    c < |s.conns| && IsEntry(s, e) && s.conns[c].phase.Reaping? &&
    e in s.conns[c].phase.todo && s.conns[c].phase.joining == None
  }

  function DoReapShutdown(s: State, c: Conn, e: EntryId): State
    requires CanReapShutdown(s, c, e)
  {
    WithCustody(WithConn(s, c, s.conns[c].(phase := Reaping(s.conns[c].phase.todo - {e}, Some(e)))),
                e, ShutDown(s.custody[e], Cancelling, ByConn(c)))
  }

  predicate CanReapJoined(s: State, c: Conn) {
    c < |s.conns| && s.conns[c].phase.Reaping? && s.conns[c].phase.joining.Some? &&
    IsEntry(s, s.conns[c].phase.joining.value) && IsIdle(s.execs[s.conns[c].phase.joining.value])
  }

  function DoReapJoined(s: State, c: Conn): State
    requires CanReapJoined(s, c)
  {
    var e := s.conns[c].phase.joining.value;
    WithCustody(WithConn(s, c, s.conns[c].(phase := Reaping(s.conns[c].phase.todo, None))),
                e, s.custody[e].(holder := Released))
  }

  function DoReapEnds(s: State, c: Conn): State
    requires InPhase(s, c, Reaping({}, None))
  {
    WithConn(s, c, s.conns[c].(phase := Ended))
  }

  // ---------- The shared pool ----------

  predicate CanPoolTake(s: State) {
    Shape(s) && s.poolQueue != [] && s.poolQueue[0] < |s.jobs|
  }

  function DoPoolTake(s: State, stage: Stage): State
    requires CanPoolTake(s)
  {
    WithStage(s.(poolQueue := s.poolQueue[1..]), s.poolQueue[0], stage)
  }

  function DoCompute(s: State, j: JobId, outcome: Outcome): State
    requires InPool(s, j)
  {
    WithResult(s, j, outcome)
  }

  function DoReturn(s: State, j: JobId, outcome: Option<Outcome>): State
    requires InPool(s, j)
  {
    match outcome
    case Some(o) => DoCompute(s, j, o)
    case None => WithStage(s, j, Silent)
  }

  predicate CanConstruct(s: State, j: JobId) {
    InPool(s, j) && s.jobs[j].request.body.CreateActor?
  }

  function NewCustody(j: JobId, job: Job): Custody
    requires job.request.body.CreateActor?
  {
    Custody(job.request.body.actorId, job.conn, j, Live, 0, ByJob(j), None, None)
  }

  function NewExecutor(instance: Value): Executor {
    Executor(instance, instance, [], Idle, [], [], [])
  }

  function DoConstruct(s: State, j: JobId, built: Result<Value, Option<Error>>): State
    requires CanConstruct(s, j)
  {
    match built
    case Err(Some(e)) => WithStage(s, j, Faulted(e))
    case Err(None) => WithStage(s, j, Silent)
    case Ok(instance) => Build(s, j, instance)
  }

  function Build(s: State, j: JobId, instance: Value): State
    requires CanConstruct(s, j)
  {
    WithStage(s.(custody := s.custody + [NewCustody(j, s.jobs[j])], execs := s.execs + [NewExecutor(instance)]),
              j, Built(|s.custody|))
  }

  predicate CanPublish(s: State, j: JobId) {
    IsJob(s, j) && s.stages[j].Built? && IsEntry(s, s.stages[j].entry)
  }

  function DoPublish(s: State, j: JobId): State
    requires CanPublish(s, j)
  {
    var e := s.stages[j].entry;
    var id := s.custody[e].actorId;
    if s.conns[s.jobs[j].conn].closed then
      WithStage(s, j, Unpublished(e, Error("ConnectionClosedError", "client disconnected during actor creation")))
    else if id in s.table then WithStage(s, j, Unpublished(e, Error("ValueError", id)))
    else Insert(s, j, e)
  }

  function Insert(s: State, j: JobId, e: EntryId): State
    requires IsJob(s, j) && IsEntry(s, e)
  {
    WithResult(WithCustody(s, e, s.custody[e].(holder := Published, born := Some(|s.jobs|))), j, Returned(Null)).(
      table := s.table[s.custody[e].actorId := e], targets := s.targets[j := Some(e)])
  }

  predicate CanDiscard(s: State, j: JobId) {
    IsJob(s, j) && s.stages[j].Unpublished? && IsEntry(s, s.stages[j].entry)
  }

  function DoDiscard(s: State, j: JobId): State
    requires CanDiscard(s, j)
  {
    var e := s.stages[j].entry;
    WithStage(WithCustody(s, e, ShutDown(s.custody[e], Cancelling, Released)), j, Faulted(s.stages[j].error))
  }

  predicate CanCheckClosed(s: State, j: JobId) {
    IsJob(s, j) && s.stages[j].Faulted?
  }

  function DoCheckClosed(s: State, j: JobId): State
    requires CanCheckClosed(s, j)
  {
    if s.conns[s.jobs[j].conn].closed then WithStage(s, j, Dropped)
    else WithResult(s, j, Raised(s.stages[j].error))
  }

  predicate CanAttach(s: State, j: JobId) {
    InPool(s, j) && s.jobs[j].request.body.AttachActor?
  }

  function DoAttach(s: State, j: JobId): State
    requires CanAttach(s, j)
  {
    var id := s.jobs[j].request.body.actorId;
    DoCompute(s, j, if id in s.table then Returned(Null) else NotFound(id))
  }

  predicate CanDestroy(s: State, j: JobId) {
    InPool(s, j) && s.jobs[j].request.body.DestroyActor? && TableInBounds(s)
  }

  function DoDestroy(s: State, j: JobId): State
    requires CanDestroy(s, j)
  {
    var id := s.jobs[j].request.body.actorId;
    if id !in s.table then DoCompute(s, j, NotFound(id))
    else if s.custody[s.table[id]].owner != s.jobs[j].conn then
      DoCompute(s, j, Raised(Error("ActorOwnershipError", id)))
    else Pop(s, j, s.table[id])
  }

  function Pop(s: State, j: JobId, e: EntryId): State
    requires InPool(s, j) && s.jobs[j].request.body.DestroyActor? && IsEntry(s, e)
  {
    WithStage(WithCustody(s, e, s.custody[e].(holder := ByJob(j), died := Some(|s.jobs|))), j, Popped(e)).(
      table := s.table - {s.jobs[j].request.body.actorId}, targets := s.targets[j := Some(e)])
  }

  predicate CanDestroyShutdown(s: State, j: JobId) {
    IsJob(s, j) && s.stages[j].Popped? && IsEntry(s, s.stages[j].entry)
  }

  function DoDestroyShutdown(s: State, j: JobId): State
    requires CanDestroyShutdown(s, j)
  {
    var e := s.stages[j].entry;
    WithStage(WithCustody(s, e, ShutDown(s.custody[e], Draining, ByJob(j))), j, Joining(e))
  }

  predicate CanDestroyJoined(s: State, j: JobId) {
    IsJob(s, j) && s.stages[j].Joining? && IsEntry(s, s.stages[j].entry) && IsIdle(s.execs[s.stages[j].entry])
  }

  function DoDestroyJoined(s: State, j: JobId): State
    requires CanDestroyJoined(s, j)
  {
    var e := s.stages[j].entry;
    WithResult(WithCustody(s, e, s.custody[e].(holder := Released)), j, Returned(Null))
  }

  // ---------- Actor executors ----------

  predicate CanActorTake(s: State, e: EntryId) {
    IsEntry(s, e) && s.execs[e].queue != [] && s.execs[e].queue[0] < |s.jobs|
  }

  predicate CanActorStart(s: State, e: EntryId) {
    CanActorTake(s, e) && s.execs[e].worker == Idle
  }

  function Take(exec: Executor): Executor
    requires exec.queue != []
  {
    exec.(queue := exec.queue[1..], worker := Running(exec.queue[0]))
  }

  function DoActorStart(s: State, e: EntryId): State
    requires CanActorStart(s, e)
  {
    WithStage(WithExec(s, e, Take(s.execs[e])), s.execs[e].queue[0], Started)
  }

  predicate CanActorInvoke(s: State, e: EntryId) {
    IsEntry(s, e) && s.execs[e].worker.Running? && s.execs[e].worker.job < |s.jobs| &&
    s.jobs[s.execs[e].worker.job].request.body.CallActor?
  }

  function Invoke(setup: Setup, exec: Executor, call: Body): Executor
    requires exec.worker.Running? && call.CallActor?
  {
    var (instance, outcome) := RunMethod(setup, exec.instance, call);
    exec.(instance := instance, worker := if outcome.Some? then Finishing(exec.worker.job) else Idle,
          ran := exec.ran + [exec.worker.job], history := exec.history + [Invocation(call, outcome)])
  }

  function DoActorInvoke(setup: Setup, s: State, e: EntryId): State
    requires CanActorInvoke(s, e)
  {
    var exec := s.execs[e];
    var call := s.jobs[exec.worker.job].request.body;
    var t := WithExec(s, e, Invoke(setup, exec, call));
    match RunMethod(setup, exec.instance, call).1
    case Some(outcome) => WithResult(t, exec.worker.job, outcome)
    case None => WithStage(t, exec.worker.job, Silent)
  }

  predicate CanActorCancel(s: State, e: EntryId) {
    CanActorTake(s, e) && s.custody[e].mode == Cancelling
  }

  function Skip(exec: Executor): Executor
    requires exec.queue != []
  {
    exec.(queue := exec.queue[1..])
  }

  function DoActorCancel(s: State, e: EntryId): State
    requires CanActorCancel(s, e)
  {
    WithStage(WithExec(s, e, Skip(s.execs[e])), s.execs[e].queue[0], Cancelled)
  }

  // ---------- Responses ----------

  predicate CanFinish(s: State, j: JobId) {
    IsJob(s, j) && s.stages[j] == Replying && s.results[j].Some? &&
    (s.jobs[j].lane.Own? ==> IsEntry(s, s.jobs[j].lane.entry))
  }

  /** Job `j` is over and ends at `stage`; an actor's worker becomes idle again. */
  function EndTask(s: State, j: JobId, stage: Stage): State
    requires IsJob(s, j) && (s.jobs[j].lane.Own? ==> IsEntry(s, s.jobs[j].lane.entry))
  {
    match s.jobs[j].lane
    case Shared => WithStage(s, j, stage)
    case Own(e) => WithExec(WithStage(s, j, stage), e, s.execs[e].(worker := Idle))
  }

  function WireForm(setup: Setup, job: Job, outcome: Outcome): Transmission {
    Transmit(setup, Response(job.request.callId, outcome))
  }

  predicate CanReply(setup: Setup, s: State, j: JobId) {
    CanFinish(s, j) && !s.conns[s.jobs[j].conn].broken && WireForm(setup, s.jobs[j], s.results[j].value).Sends?
  }

  function DoReply(setup: Setup, s: State, j: JobId): State
    requires CanReply(setup, s, j)
  {
    var c := s.jobs[j].conn;
    var sent := Sent(j, WireForm(setup, s.jobs[j], s.results[j].value).response);
    EndTask(s.(written := s.written[c := s.written[c] + [sent]]), j, Answered(|s.written[c]|))
  }

  predicate CanReplyFail(setup: Setup, s: State, j: JobId) {
    CanFinish(s, j) && WireForm(setup, s.jobs[j], s.results[j].value) != Silence
  }

  predicate CanReplyEscape(setup: Setup, s: State, j: JobId) {
    CanFinish(s, j) && WireForm(setup, s.jobs[j], s.results[j].value) == Silence
  }

  /** The response does not serialize, is too large or cannot be written: the connection is aborted. */
  function DoReplyFails(s: State, j: JobId): State
    requires CanFinish(s, j)
  {
    var c := s.jobs[j].conn;
    EndTask(WithConn(s, c, s.conns[c].(closed := true, broken := true)), j, Dropped)
  }

  // ---------- The stopping thread ----------

  predicate CanStopConn(s: State, c: Conn) {
    s.stop.ClosingConns? && c in s.stop.conns && c < |s.conns|
  }

  function DoStopMark(s: State, c: Conn): State
    requires CanStopConn(s, c)
  {
    WithConn(s, c, s.conns[c].(closed := true))
  }

  function DoStopShut(s: State, c: Conn): State
    requires CanStopConn(s, c)
  {
    WithConn(s.(stop := ClosingConns(s.stop.conns - {c})), c, s.conns[c].(broken := true))
  }

  predicate CanStopCollect(s: State) {
    s.stop == PoolDown && PoolDone(s.jobs, s.stages, s.poolQueue) && TableInBounds(s)
  }

  function DoStopCollect(s: State): State
    requires CanStopCollect(s)
  {
    s.(stop := StoppingActors(s.table.Values, None), table := map[],
       custody := HandOver(s.custody, s.table.Values, ByStop, |s.jobs|))
  }

  predicate CanStopShutdown(s: State, e: EntryId) {
    IsEntry(s, e) && s.stop.StoppingActors? && e in s.stop.todo && s.stop.joining == None
  }

  function DoStopShutdown(s: State, e: EntryId): State
    requires CanStopShutdown(s, e)
  {
    WithCustody(s.(stop := StoppingActors(s.stop.todo - {e}, Some(e))), e, ShutDown(s.custody[e], Cancelling, ByStop))
  }

  predicate CanStopJoined(s: State) {
    s.stop.StoppingActors? && s.stop.joining.Some? && IsEntry(s, s.stop.joining.value) &&
    IsIdle(s.execs[s.stop.joining.value])
  }

  function DoStopJoined(s: State): State
    requires CanStopJoined(s)
  {
    var e := s.stop.joining.value;
    WithCustody(s.(stop := StoppingActors(s.stop.todo, None)), e, s.custody[e].(holder := Released))
  }

  // ---------- Guards and effects together ----------

  predicate CanConn(s: State, step: ConnStep) {
    match step
    case Accept => s.started
    case Handle(c, _) => CanHandle(s, c)
    case HandlerEnds(c) => InPhase(s, c, Serving)
    case Unlist(c) => InPhase(s, c, Ending)
    case ShutSocket(c) => InPhase(s, c, Unlisted)
    case Reap(c) => CanReap(s, c)
    case ReapShutdown(c, e) => CanReapShutdown(s, c, e)
    case ReapJoined(c) => CanReapJoined(s, c)
    case ReapEnds(c) => InPhase(s, c, Reaping({}, None))
  }

  function DoConn(s: State, step: ConnStep): State
    requires CanConn(s, step)
  {
    match step
    case Accept => DoAccept(s)
    case Handle(c, request) => DoHandle(s, c, request)
    case HandlerEnds(c) => DoHandlerEnds(s, c)
    case Unlist(c) => DoUnlist(s, c)
    case ShutSocket(c) => DoShutSocket(s, c)
    case Reap(c) => DoReap(s, c)
    case ReapShutdown(c, e) => DoReapShutdown(s, c, e)
    case ReapJoined(c) => DoReapJoined(s, c)
    case ReapEnds(c) => DoReapEnds(s, c)
  }

  predicate CanTask(s: State, step: TaskStep) {
    match step
    case PoolStart => CanPoolTake(s)
    case PoolCancel => CanPoolTake(s) && !s.poolLive
    case FunctionReturns(j, _) => InPool(s, j) && s.jobs[j].request.body.Call?
    case ReportMissing(j) => InPool(s, j) && s.jobs[j].request.body.CallActor?
    case Construct(j, _) => CanConstruct(s, j)
    case Publish(j) => CanPublish(s, j)
    case Discard(j) => CanDiscard(s, j)
    case CheckClosed(j) => CanCheckClosed(s, j)
    case Attach(j) => CanAttach(s, j)
    case Destroy(j) => CanDestroy(s, j)
    case DestroyShutdown(j) => CanDestroyShutdown(s, j)
    case DestroyJoined(j) => CanDestroyJoined(s, j)
  }

  function DoTask(s: State, step: TaskStep): State
    requires CanTask(s, step)
  {
    match step
    case PoolStart => DoPoolTake(s, Started)
    case PoolCancel => DoPoolTake(s, Cancelled)
    case FunctionReturns(j, outcome) => DoReturn(s, j, outcome)
    case ReportMissing(j) => DoCompute(s, j, NotFound(s.jobs[j].request.body.actorId))
    case Construct(j, built) => DoConstruct(s, j, built)
    case Publish(j) => DoPublish(s, j)
    case Discard(j) => DoDiscard(s, j)
    case CheckClosed(j) => DoCheckClosed(s, j)
    case Attach(j) => DoAttach(s, j)
    case Destroy(j) => DoDestroy(s, j)
    case DestroyShutdown(j) => DoDestroyShutdown(s, j)
    case DestroyJoined(j) => DoDestroyJoined(s, j)
  }

  predicate CanWork(setup: Setup, s: State, step: WorkStep) {
    match step
    case ActorStart(e) => CanActorStart(s, e)
    case ActorInvoke(e) => CanActorInvoke(s, e)
    case ActorCancel(e) => CanActorCancel(s, e)
    case Reply(j) => CanReply(setup, s, j)
    case ReplyFails(j) => CanReplyFail(setup, s, j)
    case ReplyEscapes(j) => CanReplyEscape(setup, s, j)
  }

  function DoWork(setup: Setup, s: State, step: WorkStep): State
    requires CanWork(setup, s, step)
  {
    match step
    case ActorStart(e) => DoActorStart(s, e)
    case ActorInvoke(e) => DoActorInvoke(setup, s, e)
    case ActorCancel(e) => DoActorCancel(s, e)
    case Reply(j) => DoReply(setup, s, j)
    case ReplyFails(j) => DoReplyFails(s, j)
    case ReplyEscapes(j) => EndTask(s, j, Silent)
  }

  predicate CanStop(s: State, step: StopStep) {
    match step
    case Start => s.stop == NotStopping && !s.started
    case StopFlag => s.stop == NotStopping
    case StopSnapshot => s.stop == Flagged
    case StopMark(c) => CanStopConn(s, c)
    case StopShut(c) => CanStopConn(s, c) && s.conns[c].closed
    case StopPool => s.stop == ClosingConns({})
    case StopCollect => CanStopCollect(s)
    case StopShutdown(e) => CanStopShutdown(s, e)
    case StopJoined => CanStopJoined(s)
    case StopEnds => s.stop == StoppingActors({}, None)
  }

  function DoStop(s: State, step: StopStep): State
    requires CanStop(s, step)
  {
    match step
    case Start => s.(started := true)
    case StopFlag => s.(stop := Flagged)
    case StopSnapshot => s.(stop := ClosingConns(s.connections), connections := {})
    case StopMark(c) => DoStopMark(s, c)
    case StopShut(c) => DoStopShut(s, c)
    case StopPool => s.(stop := PoolDown, poolLive := false)
    case StopCollect => DoStopCollect(s)
    case StopShutdown(e) => DoStopShutdown(s, e)
    case StopJoined => DoStopJoined(s)
    case StopEnds => s.(stop := Stopped)
  }

  /** When a step may be taken. */
  predicate Can(setup: Setup, s: State, step: Step) {
    match step
    case ByConnection(x) => CanConn(s, x)
    case ByTask(x) => CanTask(s, x)
    case ByWorker(x) => CanWork(setup, s, x)
    case ByStopper(x) => CanStop(s, x)
  }

  /** The state after a step. */
  function Do(setup: Setup, s: State, step: Step): State
    requires Can(setup, s, step)
  {
    match step
    case ByConnection(x) => DoConn(s, x)
    case ByTask(x) => DoTask(s, x)
    case ByWorker(x) => DoWork(setup, s, x)
    case ByStopper(x) => DoStop(s, x)
  }

  // ---------- Runs ----------

  /** `states` is a run that takes `steps` one after the other. */
  ghost predicate IsRun(setup: Setup, states: seq<State>, steps: seq<Step>) {
    && |states| == |steps| + 1
    && states[0] == INITIAL
    && forall i :: 0 <= i < |steps| ==>
         Can(setup, states[i], steps[i]) && states[i + 1] == Do(setup, states[i], steps[i])
  }
}
