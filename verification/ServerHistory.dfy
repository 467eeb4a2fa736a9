/** What a step can only add to: the past of a run is never rewritten. */
module ServerHistory {
  import opened Base
  import opened Messages
  import opened Server
  import opened ServerInvariant
  import opened ServerSteps
  import opened ServerRuns

  // ---------- From one state to a later one ----------

  datatype Ledger = Ledger(jobs: seq<Job>, stages: seq<Stage>, results: seq<Option<Outcome>>, targets: seq<Option<EntryId>>)

  function Books(s: State): Ledger {
    Ledger(s.jobs, s.stages, s.results, s.targets)
  }

  predicate Balanced(a: Ledger) {
    |a.stages| == |a.results| == |a.targets| == |a.jobs|
  }

  ghost predicate JobsFollow(a: Ledger, b: Ledger) {
    && Balanced(a) && Balanced(b) && |a.jobs| <= |b.jobs|
    && forall j {:trigger b.jobs[j]} {:trigger b.stages[j]} {:trigger b.results[j]} {:trigger b.targets[j]} :: 0 <= j < |a.jobs| ==>
         && b.jobs[j] == a.jobs[j]
         && (Finished(a.stages[j]) ==> b.stages[j] == a.stages[j])
         && (a.stages[j] != Queued ==> b.stages[j] != Queued)
         && (a.stages[j] != Queued && a.stages[j] != Started ==> b.stages[j] != Started)
         && (a.results[j].Some? ==> b.results[j] == a.results[j])
         && (a.targets[j].Some? ==> b.targets[j] == a.targets[j])
  }

  ghost predicate EntriesFollow(a: seq<Custody>, b: seq<Custody>) {
    && |a| <= |b|
    && forall e {:trigger b[e]} :: 0 <= e < |a| ==>
         && b[e].actorId == a[e].actorId && b[e].owner == a[e].owner && b[e].maker == a[e].maker
         && (a[e].born.Some? ==> b[e].born == a[e].born)
         && (a[e].died.Some? ==> b[e].died == a[e].died)
  }

  ghost predicate ConnsFollow(a: seq<ConnState>, b: seq<ConnState>) {
    && |a| <= |b|
    && forall c {:trigger b[c]} :: 0 <= c < |a| ==>
         && (a[c].closed ==> b[c].closed) && (a[c].broken ==> b[c].broken)
         && (CleaningUp(a[c].phase) ==> CleaningUp(b[c].phase))
  }

  ghost predicate OutputFollows(a: seq<seq<Sent>>, b: seq<seq<Sent>>) {
    |a| <= |b| && forall c {:trigger b[c]} :: 0 <= c < |a| ==> a[c] <= b[c]
  }

  /** How far the stopping thread has come. */
  function StopRank(stop: StopPhase): nat {
    match stop
    case NotStopping => 0
    case Flagged => 1
    case ClosingConns(_) => 2
    case PoolDown => 3
    case StoppingActors(_, _) => 4
    case Stopped => 5
  }

  ghost predicate Follows(a: State, b: State) {
    && Shape(a) && Shape(b)
    && JobsFollow(Books(a), Books(b)) && EntriesFollow(a.custody, b.custody) && ConnsFollow(a.conns, b.conns)
    && OutputFollows(a.written, b.written) && StopRank(a.stop) <= StopRank(b.stop)
  }

  lemma FollowsTransitive(a: State, b: State, c: State)
    requires Follows(a, b) && Follows(b, c)
    ensures Follows(a, c)
  {
  }

  /** The requests accepted are those of the handling steps. */
  function Arrival(step: Step): Option<(Conn, Request)> {
    if step.ByConnection? && step.conn.Handle? then Some((step.conn.c, step.conn.request)) else None
  }

  ghost predicate Arrives(a: State, step: Step, b: State) {
    match Arrival(step)
    case None => b.jobs == a.jobs
    case Some(x) => |b.jobs| == |a.jobs| + 1 && b.jobs[..|a.jobs|] == a.jobs && b.jobs[|a.jobs|].conn == x.0 && b.jobs[|a.jobs|].request == x.1
  }

  // ---------- Which creation made which entry ----------

  /** Every entry was made by its own creation, and a creation publishes the entry it made. */
  ghost predicate Makers(a: Ledger, custody: seq<Custody>) {
    && Balanced(a)
    && (forall e {:trigger custody[e]} :: 0 <= e < |custody| ==>
          && custody[e].maker < |a.jobs|
          && a.jobs[custody[e].maker].request.body.CreateActor?
          && a.jobs[custody[e].maker].request.body.actorId == custody[e].actorId
          && a.stages[custody[e].maker] != Queued && a.stages[custody[e].maker] != Started)
    && (forall e, f :: 0 <= e < |custody| && 0 <= f < |custody| && custody[e].maker == custody[f].maker ==> e == f)
    && (forall j :: 0 <= j < |a.jobs| && a.jobs[j].request.body.CreateActor? && a.targets[j].Some? ==>
          a.targets[j].value < |custody| && custody[a.targets[j].value].maker == j)
  }

  lemma MakersStay(a: Ledger, b: Ledger, x: seq<Custody>, y: seq<Custody>)
    requires Makers(a, x) && JobsFollow(a, b) && EntriesFollow(x, y) && |y| == |x|
    requires forall j :: 0 <= j < |b.jobs| && b.jobs[j].request.body.CreateActor? && b.targets[j].Some? ==>
      (j < |a.jobs| && a.targets[j] == b.targets[j]) || (b.targets[j].value < |y| && y[b.targets[j].value].maker == j)
    ensures Makers(b, y)
  {
  }

  /** The step adds to the past and keeps the records straight. */
  ghost predicate Tracks(s: State, step: Step, t: State) {
    Follows(s, t) && Arrives(s, step, t) && Makers(Books(t), t.custody)
  }

  // ---------- Single changes ----------

  lemma NoChange(s: State)
    requires Shape(s)
    ensures JobsFollow(Books(s), Books(s)) && EntriesFollow(s.custody, s.custody) && ConnsFollow(s.conns, s.conns)
    ensures OutputFollows(s.written, s.written)
  {
  }

  lemma ConnChanges(conns: seq<ConnState>, c: Conn, conn: ConnState)
    requires c < |conns| && (conns[c].closed ==> conn.closed) && (conns[c].broken ==> conn.broken)
    requires CleaningUp(conns[c].phase) ==> CleaningUp(conn.phase)
    ensures ConnsFollow(conns, conns[c := conn])
  {
  }

  lemma EntryChanges(custody: seq<Custody>, e: EntryId, b: Custody)
    requires e < |custody|
    requires var a := custody[e];
      && b.actorId == a.actorId && b.owner == a.owner && b.maker == a.maker
      && (a.born.Some? ==> b.born == a.born) && (a.died.Some? ==> b.died == a.died)
    ensures EntriesFollow(custody, custody[e := b])
  {
  }

  lemma HandOverFollows(s: State, taken: set<EntryId>, holder: Holder)
    requires Shutdowns(s.custody) && forall e :: e in taken ==> e < |s.custody| && s.custody[e].holder == Published
    ensures EntriesFollow(s.custody, HandOver(s.custody, taken, holder, |s.jobs|))
  {
  }

  lemma JobChanges(s: State, t: State, j: JobId)
    requires Shape(s) && j < |s.jobs| && !Finished(s.stages[j]) && Shape(t) && t.jobs == s.jobs
    requires t.stages == s.stages[j := t.stages[j]]
    requires t.results == s.results[j := t.results[j]] && t.targets == s.targets[j := t.targets[j]]
    requires s.results[j].Some? ==> t.results[j] == s.results[j]
    requires s.targets[j].Some? ==> t.targets[j] == s.targets[j]
    requires t.stages[j] != Queued && (t.stages[j] == Started ==> s.stages[j] == Queued)
    ensures JobsFollow(Books(s), Books(t))
  {
  }

  lemma OneMoreSent(written: seq<seq<Sent>>, c: Conn, sent: Sent)
    requires c < |written|
    ensures OutputFollows(written, written[c := written[c] + [sent]])
  {
  }

  lemma ReapTakes(s: State, c: Conn)
    requires CanReap(s, c) && TableOk(s.table, s.custody)
    ensures forall e :: e in Owned(s, c) ==> e < |s.custody| && s.custody[e].holder == Published
  {
  }

  lemma StopTakes(s: State)
    requires TableOk(s.table, s.custody)
    ensures forall e :: e in s.table.Values ==> e < |s.custody| && s.custody[e].holder == Published
  {
  }

  /** Job `j` goes on; no entry, connection or output is concerned. */
  lemma MoveFollows(s: State, t: State, j: JobId)
    requires Shape(s) && Shape(t) && j < |s.jobs| && !Finished(s.stages[j]) && Makers(Books(s), s.custody)
    requires t.jobs == s.jobs && t.stages == s.stages[j := t.stages[j]] && t.results == s.results[j := t.results[j]]
    requires t.targets == s.targets && t.custody == s.custody && t.conns == s.conns && t.written == s.written
    requires t.stop == s.stop && (s.results[j].Some? ==> t.results[j] == s.results[j])
    requires t.stages[j] != Queued && (t.stages[j] == Started ==> s.stages[j] == Queued)
    ensures Follows(s, t) && Makers(Books(t), t.custody)
  {
  }

  lemma FollowsReflexive(s: State)
    requires Shape(s)
    ensures Follows(s, s)
  {
  }

  /** No job goes on. */
  lemma OthersFollow(s: State, t: State)
    requires Shape(s) && Shape(t) && Books(t) == Books(s) && Makers(Books(s), s.custody)
    requires EntriesFollow(s.custody, t.custody) && |t.custody| == |s.custody|
    requires ConnsFollow(s.conns, t.conns) && OutputFollows(s.written, t.written)
    requires StopRank(s.stop) <= StopRank(t.stop)
    ensures Follows(s, t) && Makers(Books(t), t.custody)
  {
  }

  // ---------- Steps ----------

  lemma AppendFollows(s: State, t: State, job: Job, stage: Stage)
    requires Shape(s) && Shape(t) && Books(t) == Books(AddJob(s, job, stage)) && Makers(Books(s), s.custody)
    requires t.custody == s.custody && t.written == s.written && t.stop == s.stop && ConnsFollow(s.conns, t.conns)
    ensures Follows(s, t) && Makers(Books(t), t.custody)
  {
  }

  lemma HandleFollows(s: State, c: Conn, request: Request)
    requires CanHandle(s, c) && Makers(Books(s), s.custody)
    ensures Tracks(s, ByConnection(Handle(c, request)), DoHandle(s, c, request))
  {
    hide Follows, ConnsFollow, OutputFollows, JobsFollow, EntriesFollow, Makers;
    var t := DoHandle(s, c, request);
    NoChange(s);
    ConnChanges(s.conns, c, s.conns[c].(phase := Ending, closed := true));
    AppendFollows(s, t, t.jobs[|s.jobs|], t.stages[|s.jobs|]);
  }

  lemma ConnStepFollows(setup: Setup, s: State, step: ConnStep)
    requires Inv(setup, s) && CanConn(s, step) && Makers(Books(s), s.custody)
    ensures Tracks(s, ByConnection(step), DoConn(s, step))
  {
    hide Executors, Complete, Shutdowns, TableOk, JobHolders, ConnHolders, StopHolders, Owners, Builders, PoolJobs,
      Results, OwnJobs, Places, Histories, Conns, Outputs, Flags, Drops, StopOk, Windows, Creations, Destructions,
      Drained, AnswerOrder, Follows, EntriesFollow, ConnsFollow, OutputFollows, Makers, HandOver;
    NoChange(s);
    match step {
      case Accept => AcceptFollows(s);
      case Handle(c, request) => HandleFollows(s, c, request);
      case HandlerEnds(c) => ConnChanges(s.conns, c, s.conns[c].(phase := Ending, closed := true));
      case Unlist(c) => ConnChanges(s.conns, c, s.conns[c].(phase := Unlisted));
      case ShutSocket(c) => ConnChanges(s.conns, c, s.conns[c].(phase := SocketShut, broken := true));
      case Reap(c) =>
        ReapTakes(s, c);
        HandOverFollows(s, Owned(s, c), ByConn(c));
        ConnChanges(s.conns, c, s.conns[c].(phase := Reaping(Owned(s, c), None)));
      case ReapShutdown(c, e) =>
        EntryChanges(s.custody, e, ShutDown(s.custody[e], Cancelling, ByConn(c)));
        ConnChanges(s.conns, c, s.conns[c].(phase := Reaping(s.conns[c].phase.todo - {e}, Some(e))));
      case ReapJoined(c) =>
        var e := s.conns[c].phase.joining.value;
        EntryChanges(s.custody, e, s.custody[e].(holder := Released));
        ConnChanges(s.conns, c, s.conns[c].(phase := Reaping(s.conns[c].phase.todo, None)));
      case ReapEnds(c) => ConnChanges(s.conns, c, s.conns[c].(phase := Ended));
    }
    if !step.Handle? { OthersFollow(s, DoConn(s, step)); }
  }

  lemma AcceptFollows(s: State)
    requires Shape(s)
    ensures ConnsFollow(s.conns, DoAccept(s).conns) && OutputFollows(s.written, DoAccept(s).written)
  {
  }

  lemma StopStepFollows(setup: Setup, s: State, step: StopStep)
    requires Inv(setup, s) && CanStop(s, step) && Makers(Books(s), s.custody)
    ensures Tracks(s, ByStopper(step), DoStop(s, step))
  {
    hide Executors, Complete, Shutdowns, TableOk, JobHolders, ConnHolders, StopHolders, Owners, Builders, PoolJobs,
      Results, OwnJobs, Places, Histories, Conns, Outputs, Flags, Drops, StopOk, Windows, Creations, Destructions,
      Drained, AnswerOrder, Follows, EntriesFollow, ConnsFollow, OutputFollows, Makers, HandOver;
    NoChange(s);
    match step {
      case Start =>
      case StopFlag =>
      case StopSnapshot =>
      case StopMark(c) => ConnChanges(s.conns, c, s.conns[c].(closed := true));
      case StopShut(c) => ConnChanges(s.conns, c, s.conns[c].(broken := true));
      case StopPool =>
      case StopCollect =>
        StopTakes(s);
        HandOverFollows(s, s.table.Values, ByStop);
      case StopShutdown(e) => EntryChanges(s.custody, e, ShutDown(s.custody[e], Cancelling, ByStop));
      case StopJoined =>
        EntryChanges(s.custody, s.stop.joining.value, s.custody[s.stop.joining.value].(holder := Released));
      case StopEnds =>
    }
    OthersFollow(s, DoStop(s, step));
  }

  lemma ReplyFollows(setup: Setup, s: State, j: JobId)
    requires CanReply(setup, s, j) && Makers(Books(s), s.custody)
    ensures Tracks(s, ByWorker(Reply(j)), DoReply(setup, s, j))
  {
    NoChange(s);
    JobChanges(s, DoReply(setup, s, j), j);
    MakersStay(Books(s), Books(DoReply(setup, s, j)), s.custody, s.custody);
    OneMoreSent(s.written, s.jobs[j].conn, Sent(j, WireForm(setup, s.jobs[j], s.results[j].value).response));
    hide JobsFollow, EntriesFollow, ConnsFollow, OutputFollows;
  }

  lemma ReplyFailsFollows(s: State, j: JobId)
    requires CanFinish(s, j) && Makers(Books(s), s.custody)
    ensures Tracks(s, ByWorker(ReplyFails(j)), DoReplyFails(s, j))
  {
  }

  lemma ReplyEscapesFollows(setup: Setup, s: State, j: JobId)
    requires CanReplyEscape(setup, s, j) && Makers(Books(s), s.custody)
    ensures Tracks(s, ByWorker(ReplyEscapes(j)), EndTask(s, j, Silent))
  {
    hide Makers, Follows, Transmit;
    MoveFollows(s, EndTask(s, j, Silent), j);
  }

  lemma ActorStepFollows(setup: Setup, s: State, step: WorkStep)
    requires Inv(setup, s) && CanWork(setup, s, step) && Makers(Books(s), s.custody)
    requires step.ActorStart? || step.ActorInvoke? || step.ActorCancel?
    ensures Tracks(s, ByWorker(step), DoWork(setup, s, step))
  {
    hide Executors, Complete, Shutdowns, TableOk, JobHolders, ConnHolders, StopHolders, Owners, Builders, PoolJobs,
      Results, OwnJobs, Places, Histories, Conns, Outputs, Flags, Drops, StopOk, Windows, Creations, Destructions,
      Drained, AnswerOrder, Follows, Makers, RunMethod;
    var t := DoWork(setup, s, step);
    var j := if step.ActorInvoke? then s.execs[step.e].worker.job else s.execs[step.e].queue[0];
    if step.ActorInvoke? {
      RunningFacts(setup, s, step.e);
      FreshResult(s, j);
    } else {
      HeadFacts(setup, s, step.e);
    }
    MoveFollows(s, t, j);
  }

  lemma WorkStepFollows(setup: Setup, s: State, step: WorkStep)
    requires Inv(setup, s) && CanWork(setup, s, step) && Makers(Books(s), s.custody)
    ensures Tracks(s, ByWorker(step), DoWork(setup, s, step))
  {
    hide Executors, Complete, Shutdowns, TableOk, JobHolders, ConnHolders, StopHolders, Owners, Builders, PoolJobs,
      Results, OwnJobs, Places, Histories, Conns, Outputs, Flags, Drops, StopOk, Windows, Creations, Destructions,
      Drained, AnswerOrder, Follows, Makers;
    match step
    case ActorStart(_) => ActorStepFollows(setup, s, step);
    case ActorInvoke(_) => ActorStepFollows(setup, s, step);
    case ActorCancel(_) => ActorStepFollows(setup, s, step);
    case Reply(j) => ReplyFollows(setup, s, j);
    case ReplyFails(j) => ReplyFailsFollows(s, j);
    case ReplyEscapes(j) => ReplyEscapesFollows(setup, s, j);
  }

  // ---------- Tasks of the shared pool ----------

  lemma BuildFollows(s: State, j: JobId, instance: Value)
    requires CanConstruct(s, j) && Makers(Books(s), s.custody)
    ensures var t := Build(s, j, instance); Follows(s, t) && Makers(Books(t), t.custody)
  {
  }

  lemma InsertFollows(s: State, j: JobId, e: EntryId)
    requires IsJob(s, j) && IsEntry(s, e) && s.stages[j] == Built(e) && s.results[j] == None
    requires s.custody[e].born == None && s.custody[e].maker == j && s.jobs[j].request.body.CreateActor?
    requires Makers(Books(s), s.custody)
    ensures var t := Insert(s, j, e); Follows(s, t) && Makers(Books(t), t.custody) && t.jobs == s.jobs
  {
  }

  lemma PopFollows(s: State, j: JobId, e: EntryId)
    requires InPool(s, j) && s.jobs[j].request.body.DestroyActor? && IsEntry(s, e)
    requires s.targets[j] == None && s.custody[e].died == None && Makers(Books(s), s.custody)
    ensures var t := Pop(s, j, e); Follows(s, t) && Makers(Books(t), t.custody)
  {
  }

  /** Job `j` shuts its entry down or lets go of it. */
  lemma HeldFollows(s: State, j: JobId, stage: Stage, result: Option<Outcome>, e: EntryId, b: Custody)
    requires Shape(s) && j < |s.jobs| && !Finished(s.stages[j]) && s.results[j] == None && e < |s.custody|
    requires stage != Queued && stage != Started && Makers(Books(s), s.custody)
    requires var a := s.custody[e]; b == Custody(a.actorId, a.owner, a.maker, b.mode, b.shutdowns, b.holder, a.born, a.died)
    ensures var t := s.(stages := s.stages[j := stage], results := s.results[j := result], custody := s.custody[e := b]);
      Follows(s, t) && Makers(Books(t), t.custody)
  {
  }

  lemma PublishFollows(s: State, j: JobId)
    requires CanPublish(s, j) && s.results[j] == None && Makers(Books(s), s.custody)
    requires s.custody[s.stages[j].entry].born == None && s.custody[s.stages[j].entry].maker == j
    requires s.jobs[j].request.body.CreateActor?
    ensures Tracks(s, ByTask(Publish(j)), DoPublish(s, j))
  {
    hide Follows, Makers, Insert;
    var e := s.stages[j].entry;
    if s.conns[s.jobs[j].conn].closed || s.custody[e].actorId in s.table {
      MoveFollows(s, DoPublish(s, j), j);
    } else {
      InsertFollows(s, j, e);
    }
  }

  lemma DiscardFollows(s: State, j: JobId)
    requires CanDiscard(s, j) && s.results[j] == None && Makers(Books(s), s.custody)
    ensures Tracks(s, ByTask(Discard(j)), DoDiscard(s, j))
  {
  }

  lemma ConstructFollows(s: State, j: JobId, built: Result<Value, Option<Error>>)
    requires CanConstruct(s, j) && s.results[j] == None && Makers(Books(s), s.custody)
    ensures Tracks(s, ByTask(Construct(j, built)), DoConstruct(s, j, built))
  {
    hide Follows, Makers;
    match built
    case Ok(instance) => BuildFollows(s, j, instance);
    case Err(_) => MoveFollows(s, DoConstruct(s, j, built), j);
  }

  lemma PoolTakeFollows(s: State, step: TaskStep, stage: Stage)
    requires (step == PoolStart && stage == Started) || (step == PoolCancel && stage == Cancelled)
    requires CanPoolTake(s) && s.stages[s.poolQueue[0]] == Queued && Makers(Books(s), s.custody)
    ensures Tracks(s, ByTask(step), DoPoolTake(s, stage))
  {
  }

  /** Tasks that neither make nor take an entry. */
  lemma PlainStepFollows(setup: Setup, s: State, step: TaskStep)
    requires Inv(setup, s) && CanTask(s, step) && Makers(Books(s), s.custody)
    requires step.FunctionReturns? || step.ReportMissing? || step.Attach? || step.CheckClosed?
    ensures Tracks(s, ByTask(step), DoTask(s, step))
  {
    hide Executors, Complete, Shutdowns, TableOk, JobHolders, ConnHolders, StopHolders, Owners, Builders, PoolJobs,
      Results, OwnJobs, Places, Histories, Conns, Outputs, Flags, Drops, StopOk, Windows, Creations, Destructions,
      Drained, AnswerOrder, Follows, Makers;
    FreshResult(s, step.j);
    MoveFollows(s, DoTask(s, step), step.j);
  }

  lemma DestroyStepFollows(setup: Setup, s: State, step: TaskStep)
    requires Inv(setup, s) && CanTask(s, step) && Makers(Books(s), s.custody)
    requires step.Destroy? || step.DestroyShutdown? || step.DestroyJoined?
    ensures Tracks(s, ByTask(step), DoTask(s, step))
  {
    hide Executors, Complete, Shutdowns, TableOk, JobHolders, ConnHolders, StopHolders, Owners, Builders, PoolJobs,
      Results, OwnJobs, Places, Histories, Conns, Outputs, Flags, Drops, StopOk, Windows, Creations, Destructions,
      Drained, AnswerOrder, Follows, Makers;
    var j, t := step.j, DoTask(s, step);
    FreshResult(s, j);
    if step.Destroy? {
      var id := s.jobs[j].request.body.actorId;
      if t.stages[j].Popped? {
        ListedFacts(s, id);
        PendingTarget(s, j);
        PopFollows(s, j, s.table[id]);
      } else {
        MoveFollows(s, t, j);
      }
    } else {
      var e := s.stages[j].entry;
      assert s.results[j := t.results[j]] == t.results;
      HeldFollows(s, j, t.stages[j], t.results[j], e, t.custody[e]);
    }
  }

  lemma PendingTarget(s: State, j: JobId)
    requires InPool(s, j) && Destructions(s.jobs, s.stages, s.results, s.targets, s.custody)
    ensures s.targets[j] == None
  {
  }

  lemma TaskStepFollows(setup: Setup, s: State, step: TaskStep)
    requires Inv(setup, s) && CanTask(s, step) && Makers(Books(s), s.custody)
    ensures Tracks(s, ByTask(step), DoTask(s, step))
  {
    hide Executors, Complete, Shutdowns, TableOk, JobHolders, ConnHolders, StopHolders, Owners, Builders, PoolJobs,
      Results, OwnJobs, Places, Histories, Conns, Outputs, Flags, Drops, StopOk, Windows, Creations, Destructions,
      Drained, AnswerOrder, Follows, Makers;
    match step
    case PoolStart =>
      PoolTakeKeeps(s, Started);
      PoolTakeFollows(s, step, Started);
    case PoolCancel =>
      PoolTakeKeeps(s, Cancelled);
      PoolTakeFollows(s, step, Cancelled);
    case FunctionReturns(_, _) => PlainStepFollows(setup, s, step);
    case ReportMissing(_) => PlainStepFollows(setup, s, step);
    case Attach(_) => PlainStepFollows(setup, s, step);
    case CheckClosed(_) => PlainStepFollows(setup, s, step);
    case Construct(j, built) =>
      FreshResult(s, j);
      ConstructFollows(s, j, built);
    case Publish(j) =>
      FreshResult(s, j);
      BuilderFacts(s, j);
      PublishFollows(s, j);
    case Discard(j) =>
      FreshResult(s, j);
      DiscardFollows(s, j);
    case Destroy(_) => DestroyStepFollows(setup, s, step);
    case DestroyShutdown(_) => DestroyStepFollows(setup, s, step);
    case DestroyJoined(_) => DestroyStepFollows(setup, s, step);
  }

  lemma StepFollows(setup: Setup, s: State, step: Step)
    requires Inv(setup, s) && Can(setup, s, step) && Makers(Books(s), s.custody)
    ensures Tracks(s, step, Do(setup, s, step))
  {
    hide Executors, Complete, Shutdowns, TableOk, JobHolders, ConnHolders, StopHolders, Owners, Builders, PoolJobs,
      Results, OwnJobs, Places, Histories, Conns, Outputs, Flags, Drops, StopOk, Windows, Creations, Destructions,
      Drained, AnswerOrder, Follows, Makers;
    match step
    case ByConnection(x) => ConnStepFollows(setup, s, x);
    case ByTask(x) => TaskStepFollows(setup, s, x);
    case ByWorker(x) => WorkStepFollows(setup, s, x);
    case ByStopper(x) => StopStepFollows(setup, s, x);
  }

  // ---------- Runs ----------

  lemma InitialMakers()
    ensures Makers(Books(INITIAL), INITIAL.custody)
  {
  }

  lemma {:induction false} RunMakers(setup: Setup, states: seq<State>, steps: seq<Step>, i: nat)
    requires IsRun(setup, states, steps) && i < |states|
    ensures Makers(Books(states[i]), states[i].custody)
  {
    hide Executors, Complete, Shutdowns, TableOk, JobHolders, ConnHolders, StopHolders, Owners, Builders, PoolJobs,
      Results, OwnJobs, Places, Histories, Conns, Outputs, Flags, Drops, StopOk, Windows, Creations, Destructions,
      Drained, AnswerOrder, Follows, Makers, Can, Do;
    if i == 0 {
      InitialMakers();
    } else {
      RunMakers(setup, states, steps, i - 1);
      RunInv(setup, states, steps, i - 1);
      StepFollows(setup, states[i - 1], steps[i - 1]);
    }
  }

  /** Later states only add to earlier ones. */
  lemma {:induction false} RunFollows(setup: Setup, states: seq<State>, steps: seq<Step>, i: nat, k: nat)
    requires IsRun(setup, states, steps) && i <= k < |states|
    ensures Follows(states[i], states[k])
    decreases k
  {
    hide Executors, Complete, Shutdowns, TableOk, JobHolders, ConnHolders, StopHolders, Owners, Builders, PoolJobs,
      Results, OwnJobs, Places, Histories, Conns, Outputs, Flags, Drops, StopOk, Windows, Creations, Destructions,
      Drained, AnswerOrder, Follows, Makers, Can, Do;
    if i == k {
      RunInv(setup, states, steps, i);
      FollowsReflexive(states[i]);
    } else {
      RunFollows(setup, states, steps, i, k - 1);
      RunInv(setup, states, steps, k - 1);
      RunMakers(setup, states, steps, k - 1);
      StepFollows(setup, states[k - 1], steps[k - 1]);
      FollowsTransitive(states[i], states[k - 1], states[k]);
    }
  }
}
