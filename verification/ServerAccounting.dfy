/** Where every accepted request is, and which of them are answered. */
module ServerAccounting {
  import opened Base
  import opened Messages
  import Framing
  import opened Server
  import opened ServerInvariant
  import opened ServerSteps
  import opened ServerRuns
  import opened ServerHistory

  // ---------- At most one response each ----------

  /** Place `k` of the output of connection `c` is the response to job `j`. */
  ghost predicate AnswersAt(s: State, c: Conn, k: nat, j: JobId) {
    c < |s.written| && k < |s.written[c]| && s.written[c][k].job == j
  }

  /** A job has a response on the wire exactly when it is answered; then it has one,
      on its own connection. */
  lemma OneResponse(setup: Setup, states: seq<State>, steps: seq<Step>, i: nat, j: JobId)
    requires IsRun(setup, states, steps) && i < |states| && Shape(states[i]) && j < |states[i].jobs|
    ensures var s := states[i];
      && (s.stages[j].Answered? ==> AnswersAt(s, s.jobs[j].conn, s.stages[j].at, j))
      && (forall c, k :: AnswersAt(s, c, k, j) ==> c == s.jobs[j].conn && s.stages[j] == Answered(k))
  {
    RunInv(setup, states, steps, i);
    hide Executors, Complete, Shutdowns, TableOk, JobHolders, ConnHolders, StopHolders, Owners, Builders, PoolJobs,
      Results, OwnJobs, Places, Histories, Conns, Outputs, Flags, Drops, StopOk, Windows, Creations, Destructions,
      Drained, AnswerOrder, AnswersAt;
    OneResponseFacts(setup, states[i], j);
  }

  lemma OneResponseFacts(setup: Setup, s: State, j: JobId)
    requires Shape(s) && j < |s.jobs| && Outputs(setup, s.jobs, s.stages, s.results, s.written)
    ensures s.stages[j].Answered? ==> AnswersAt(s, s.jobs[j].conn, s.stages[j].at, j)
    ensures forall c, k :: AnswersAt(s, c, k, j) ==> c == s.jobs[j].conn && s.stages[j] == Answered(k)
  {
  }

  /** What is on the wire stays, and an answered, dropped, silent or cancelled request stays
      so: no request is ever answered twice or after it was given up. */
  lemma AnswersAreFinal(setup: Setup, states: seq<State>, steps: seq<Step>, i: nat, k: nat, j: JobId, c: Conn)
    requires IsRun(setup, states, steps) && i <= k < |states| && Shape(states[i]) && j < |states[i].jobs|
    requires c < |states[i].written|
    ensures Shape(states[k]) && j < |states[k].jobs| && states[k].jobs[j] == states[i].jobs[j]
    ensures Finished(states[i].stages[j]) ==> states[k].stages[j] == states[i].stages[j]
    ensures c < |states[k].written| && states[i].written[c] <= states[k].written[c]
  {
    hide Can, Do, Inv;
    RunFollows(setup, states, steps, i, k);
  }

  /** `response` says `outcome`, or why the serializer refused to say it. */
  predicate FaithfulTo(setup: Setup, outcome: Outcome, response: Response) {
    var intended := setup.dumps(Response(response.callId, outcome));
    response.outcome == if intended.Raises? && intended.error.Some? then Raised(intended.error.value) else outcome
  }

  /** A response carries the id of its request and the outcome of its task, or the
      serializer's error in place of an outcome it cannot serialize. */
  lemma ResponsesAreHonest(setup: Setup, states: seq<State>, steps: seq<Step>, i: nat, c: Conn, k: nat)
    requires IsRun(setup, states, steps) && i < |states| && c < |states[i].written| && k < |states[i].written[c]|
    ensures var s := states[i]; var sent := s.written[c][k];
      && Shape(s) && sent.job < |s.jobs| && s.jobs[sent.job].conn == c && s.results[sent.job].Some?
      && sent.response.callId == s.jobs[sent.job].request.callId
      && FaithfulTo(setup, s.results[sent.job].value, sent.response)
  {
    RunInv(setup, states, steps, i);
    hide Executors, Complete, Shutdowns, TableOk, JobHolders, ConnHolders, StopHolders, Owners, Builders, PoolJobs,
      Results, OwnJobs, Places, Histories, Conns, Outputs, Flags, Drops, StopOk, Windows, Creations, Destructions,
      Drained, AnswerOrder;
    HonestFacts(setup, states[i], c, k);
  }

  lemma HonestFacts(setup: Setup, s: State, c: Conn, k: nat)
    requires Shape(s) && c < |s.written| && k < |s.written[c]|
    requires Outputs(setup, s.jobs, s.stages, s.results, s.written)
    ensures var sent := s.written[c][k];
      && sent.job < |s.jobs| && s.jobs[sent.job].conn == c && s.results[sent.job].Some?
      && s.stages[sent.job] == Answered(k)
      && sent.response.callId == s.jobs[sent.job].request.callId
      && FaithfulTo(setup, s.results[sent.job].value, sent.response)
  {
  }

  /** A result that the serializer refuses with an orderly error does not end its connection: when the connection is
      not broken and the fallback for this very job fits a frame, the job can answer, the
      answer is the serializer's error, and no connection changes. */
  lemma RefusedResultsAreReported(setup: Setup, states: seq<State>, steps: seq<Step>, i: nat, j: JobId, error: Error)
    requires IsRun(setup, states, steps) && i < |states| && Shape(states[i]) && j < |states[i].jobs|
    requires states[i].stages[j] == Replying && states[i].results[j].Some?
    requires states[i].jobs[j].conn < |states[i].conns| && !states[i].conns[states[i].jobs[j].conn].broken
    requires setup.dumps(Response(states[i].jobs[j].request.callId, states[i].results[j].value)) == Raises(Some(error))
    requires var fallback := setup.dumps(Response(states[i].jobs[j].request.callId, Raised(error)));
      fallback.Payload? && Framing.Fits(fallback.bytes, setup.maxFrame)
    ensures var s, step := states[i], ByWorker(Reply(j)); var c := s.jobs[j].conn;
      && c < |s.written| && Can(setup, s, step)
      && var u := Do(setup, s, step);
         && u.conns == s.conns && u.stages[j] == Answered(|s.written[c]|)
         && u.written == s.written[c := s.written[c] + [Sent(j, Response(s.jobs[j].request.callId, Raised(error)))]]
  {
    RunInv(setup, states, steps, i);
    hide Executors, Complete, Shutdowns, TableOk, JobHolders, ConnHolders, StopHolders, Owners, Builders, PoolJobs,
      Results, OwnJobs, Places, Histories, Conns, Outputs, Flags, Drops, StopOk, Windows, Creations, Destructions,
      Drained, AnswerOrder, IsRun, Do, Can;
    EndingFacts(states[i], j);
    ReportsRefusal(setup, states[i], j, error);
  }

  lemma ReportsRefusal(setup: Setup, s: State, j: JobId, error: Error)
    requires CanFinish(s, j) && !s.conns[s.jobs[j].conn].broken
    requires setup.dumps(Response(s.jobs[j].request.callId, s.results[j].value)) == Raises(Some(error))
    requires var fallback := setup.dumps(Response(s.jobs[j].request.callId, Raised(error)));
      fallback.Payload? && Framing.Fits(fallback.bytes, setup.maxFrame)
    ensures var step, c := ByWorker(Reply(j)), s.jobs[j].conn;
      && Can(setup, s, step)
      && var u := Do(setup, s, step);
         && u.conns == s.conns && u.stages[j] == Answered(|s.written[c]|)
         && u.written == s.written[c := s.written[c] + [Sent(j, Response(s.jobs[j].request.callId, Raised(error)))]]
  {
    var response := Response(s.jobs[j].request.callId, Raised(error));
    assert WireForm(setup, s.jobs[j], s.results[j].value) == Sends(response);
    hide WireForm;
  }

  /** What may be sent for the response `mine`: itself when it serializes to what fits a frame, or the error of
      a serializer that refuses it, when that does. */
  predicate CanSay(setup: Setup, mine: Response, said: Response) {
    && setup.dumps(said).Payload? && |setup.dumps(said).bytes| <= setup.maxFrame && |setup.dumps(said).bytes| <= 0xFFFF_FFFF
    && (said == mine ||
        (setup.dumps(mine).Raises? && setup.dumps(mine).error.Some? &&
         said == Response(mine.callId, Raised(setup.dumps(mine).error.value))))
  }

  /** The serializer ends in a way that nobody turns into an answer or an abort. */
  predicate Escapes(setup: Setup, mine: Response) {
    match setup.dumps(mine)
    case Payload(_) => false
    case Raises(None) => true
    case Raises(Some(e)) => setup.dumps(Response(mine.callId, Raised(e))) == Dumped.Escapes
    case Escapes => true
  }

  /** What job `j`, about to reply, can do: send what can be sent, on an unbroken connection, and nothing else; abort its
      connection; or, exactly when the serializer escapes, end in silence, in which case it can do nothing else. */
  ghost predicate Replies(setup: Setup, s: State, j: JobId)
    requires IsJob(s, j) && s.results[j].Some?
  {
    var c, mine := s.jobs[j].conn, Response(s.jobs[j].request.callId, s.results[j].value);
    && (Can(setup, s, ByWorker(Reply(j))) <==> !s.conns[c].broken && exists said :: CanSay(setup, mine, said))
    && (forall said :: CanSay(setup, mine, said) && !s.conns[c].broken ==>
          && Can(setup, s, ByWorker(Reply(j)))
          && var u := Do(setup, s, ByWorker(Reply(j)));
             && u.conns == s.conns && |u.stages| == |s.stages| && u.stages[j] == Answered(|s.written[c]|)
             && u.written == s.written[c := s.written[c] + [Sent(j, said)]])
    && (Can(setup, s, ByWorker(ReplyFails(j))) <==> !Escapes(setup, mine))
    && (Can(setup, s, ByWorker(ReplyFails(j))) ==>
          var u := Do(setup, s, ByWorker(ReplyFails(j)));
          && |u.conns| == |s.conns| && u.conns[c].closed && u.conns[c].broken && u.written == s.written
          && |u.stages| == |s.stages| && u.stages[j] == Dropped)
    && (Can(setup, s, ByWorker(ReplyEscapes(j))) <==> Escapes(setup, mine))
    && (Can(setup, s, ByWorker(ReplyEscapes(j))) ==>
          var u := Do(setup, s, ByWorker(ReplyEscapes(j)));
          u.conns == s.conns && u.written == s.written && |u.stages| == |s.stages| && u.stages[j] == Silent)
  }

  lemma RepliesSayWhatTheyCan(setup: Setup, states: seq<State>, steps: seq<Step>, i: nat, j: JobId)
    requires IsRun(setup, states, steps) && i < |states| && Shape(states[i]) && j < |states[i].jobs|
    requires states[i].stages[j] == Replying
    ensures IsJob(states[i], j) && states[i].results[j].Some? && Replies(setup, states[i], j)
  {
    RunInv(setup, states, steps, i);
    hide Executors, Complete, Shutdowns, TableOk, JobHolders, ConnHolders, StopHolders, Owners, Builders, PoolJobs,
      Results, OwnJobs, Places, Histories, Conns, Outputs, Flags, Drops, StopOk, Windows, Creations, Destructions,
      Drained, AnswerOrder, IsRun, Replies;
    EndingFacts(states[i], j);
    ReplyFacts(setup, states[i], j);
  }

  lemma ReplyFacts(setup: Setup, s: State, j: JobId)
    requires CanFinish(s, j)
    ensures Replies(setup, s, j)
  {
    var mine := Response(s.jobs[j].request.callId, s.results[j].value);
    TransmitFacts(setup, mine);
    hide Transmit, CanSay, Escapes;
    if Transmit(setup, mine).Sends? { assert CanSay(setup, mine, Transmit(setup, mine).response); }
  }

  lemma TransmitFacts(setup: Setup, mine: Response)
    ensures forall said :: Transmit(setup, mine) == Sends(said) <==> CanSay(setup, mine, said)
    ensures Transmit(setup, mine) == Silence <==> Escapes(setup, mine)
  {
  }

  // ---------- No request is lost silently, except by cancellation ----------

  /** The place where a job that has not started waits: the queue of its lane and no other. */
  ghost predicate WaitsIn(s: State, j: JobId, lane: Lane) {
    match lane
    case Shared => j in s.poolQueue
    case Own(e) => e < |s.execs| && j in s.execs[e].queue
  }

  lemma WaitingFacts(setup: Setup, s: State, j: JobId)
    requires Shape(s) && j < |s.jobs| && Executors(setup, s.execs)
    requires PoolJobs(s.jobs, s.stages, s.poolQueue, s.poolLive)
    requires OwnJobs(s.jobs, s.custody, s.execs) && Places(s.jobs, s.stages, s.custody, s.execs)
    ensures s.stages[j] == Queued <==> WaitsIn(s, j, s.jobs[j].lane)
    ensures forall other :: WaitsIn(s, j, other) ==> other == s.jobs[j].lane
  {
    forall e | 0 <= e < |s.execs| && j in s.execs[e].queue ensures s.jobs[j].lane == Own(e) {
      QueuedWasSubmitted(setup, s, e, j);
    }
  }

  lemma QueuedWasSubmitted(setup: Setup, s: State, e: EntryId, j: JobId)
    requires e < |s.execs| && j in s.execs[e].queue && Executors(setup, s.execs)
    requires OwnJobs(s.jobs, s.custody, s.execs)
    ensures j < |s.jobs| && s.jobs[j].lane == Own(e)
  {
    ExecutorFacts(setup, s, e);
    var exec := s.execs[e];
    var k :| 0 <= k < |exec.queue| && exec.queue[k] == j;
    assert Line(exec)[|exec.ran + Current(exec.worker)| + k] == j;
    assert j in Line(exec);
    assert j in exec.submitted;
  }

  lemma EndingFacts(s: State, j: JobId)
    requires Shape(s) && j < |s.jobs| && Drops(s.jobs, s.stages, s.conns) && Conns(s.jobs, s.conns, s.written)
    requires PoolJobs(s.jobs, s.stages, s.poolQueue, s.poolLive) && Places(s.jobs, s.stages, s.custody, s.execs)
    requires OwnJobs(s.jobs, s.custody, s.execs) && Results(s.stages, s.results)
    ensures s.jobs[j].conn < |s.conns|
    ensures s.stages[j] == Dropped ==> s.conns[s.jobs[j].conn].closed
    ensures s.jobs[j].lane.Own? ==> s.jobs[j].lane.entry < |s.custody|
    ensures s.stages[j] == Cancelled ==>
      if s.jobs[j].lane == Shared then !s.poolLive else s.custody[s.jobs[j].lane.entry].mode == Cancelling
    ensures (s.stages[j].Answered? || s.stages[j] == Replying) ==> s.results[j].Some?
  {
  }

  // ---------- Who cancels ----------

  /** An actor's executor is cancelled only by the cleanup of its owner's connection
      or by the stopping thread. */
  ghost predicate Cancellers(custody: seq<Custody>, conns: seq<ConnState>, stop: StopPhase) {
    && (forall e :: 0 <= e < |custody| ==> custody[e].owner < |conns|)
    && (forall e :: 0 <= e < |custody| && custody[e].holder.ByConn? ==> custody[e].holder.conn == custody[e].owner)
    && (forall e :: 0 <= e < |custody| && custody[e].mode == Cancelling && custody[e].born.Some? ==>
          CleaningUp(conns[custody[e].owner].phase) || StopRank(stop) >= 4)
  }

  /** How one step may change an entry as far as `Cancellers` is concerned. */
  ghost predicate Blameless(a: Custody, b: Custody, conns: seq<ConnState>, stop: StopPhase) {
    && b.owner == a.owner
    && (b.holder == a.holder || (b.holder.ByConn? ==> b.holder.conn == b.owner))
    && ((a.mode == b.mode == Cancelling && b.born == a.born)
        || b.mode != Cancelling || b.born == None
        || (b.owner < |conns| && CleaningUp(conns[b.owner].phase)) || StopRank(stop) >= 4)
  }

  ghost predicate AllBlameless(s: State, t: State) {
    && |t.custody| == |s.custody|
    && forall e {:trigger t.custody[e]} :: 0 <= e < |t.custody| ==> Blameless(s.custody[e], t.custody[e], t.conns, t.stop)
  }

  lemma CancellersStay(s: State, t: State)
    requires Cancellers(s.custody, s.conns, s.stop) && Owners(t.custody, t.conns)
    requires ConnsFollow(s.conns, t.conns) && StopRank(s.stop) <= StopRank(t.stop) && AllBlameless(s, t)
    ensures Cancellers(t.custody, t.conns, t.stop)
  {
  }

  lemma OneEntryBlameless(s: State, t: State, e: EntryId, b: Custody)
    requires e < |s.custody| && t.custody == s.custody[e := b] && Blameless(s.custody[e], b, t.conns, t.stop)
    ensures AllBlameless(s, t)
  {
  }

  lemma SameEntriesBlameless(s: State, t: State)
    requires t.custody == s.custody
    ensures AllBlameless(s, t)
  {
  }

  lemma ConnCancels(setup: Setup, s: State, step: ConnStep)
    requires Shape(s) && CanConn(s, step) && Cancellers(s.custody, s.conns, s.stop)
    requires ConnHolders(s.conns, s.custody) && TableOk(s.table, s.custody)
    ensures var t := DoConn(s, step); AllBlameless(s, t)
  {
    var t := DoConn(s, step);
    match step {
      case Reap(c) => ReapBlameless(s, c);
      case ReapShutdown(c, e) =>
        assert e in s.conns[c].phase.todo;
        OneEntryBlameless(s, t, e, t.custody[e]);
      case ReapJoined(c) => OneEntryBlameless(s, t, s.conns[c].phase.joining.value, t.custody[s.conns[c].phase.joining.value]);
      case _ => SameEntriesBlameless(s, t);
    }
  }

  lemma ReapBlameless(s: State, c: Conn)
    requires CanReap(s, c) && TableOk(s.table, s.custody)
    ensures var t := DoReap(s, c); AllBlameless(s, t)
  {
  }

  lemma TaskCancels(setup: Setup, s: State, step: TaskStep)
    requires Shape(s) && CanTask(s, step) && !step.Construct?
    requires Builders(s.jobs, s.stages, s.custody) && JobHolders(s.stages, s.custody)
    ensures var t := DoTask(s, step); AllBlameless(s, t)
  {
    var t := DoTask(s, step);
    match step {
      case Publish(j) => PublishBlameless(s, j);
      case Discard(j) =>
        BuilderFacts(s, j);
        OneEntryBlameless(s, t, s.stages[j].entry, t.custody[s.stages[j].entry]);
      case Destroy(j) => DestroyBlameless(s, j);
      case DestroyShutdown(j) => OneEntryBlameless(s, t, s.stages[j].entry, t.custody[s.stages[j].entry]);
      case DestroyJoined(j) =>
        assert s.custody[s.stages[j].entry].mode == Draining;
        OneEntryBlameless(s, t, s.stages[j].entry, t.custody[s.stages[j].entry]);
      case _ => SameEntriesBlameless(s, t);
    }
  }

  lemma PublishBlameless(s: State, j: JobId)
    requires CanPublish(s, j) && Builders(s.jobs, s.stages, s.custody) && JobHolders(s.stages, s.custody)
    ensures var t := DoPublish(s, j); AllBlameless(s, t)
  {
  }

  lemma DestroyBlameless(s: State, j: JobId)
    requires CanDestroy(s, j)
    ensures var t := DoDestroy(s, j); AllBlameless(s, t)
  {
  }

  lemma StopCancels(setup: Setup, s: State, step: StopStep)
    requires Shape(s) && CanStop(s, step)
    ensures var t := DoStop(s, step); AllBlameless(s, t)
  {
  }

  lemma BuildCancels(s: State, j: JobId, instance: Value)
    requires CanConstruct(s, j) && Cancellers(s.custody, s.conns, s.stop)
    ensures var t := Build(s, j, instance); Cancellers(t.custody, t.conns, t.stop)
  {
  }

  lemma WorkEntries(setup: Setup, s: State, step: WorkStep)
    requires CanWork(setup, s, step)
    ensures DoWork(setup, s, step).custody == s.custody
  {
  }

  lemma StepCancels(setup: Setup, s: State, step: Step)
    requires Inv(setup, s) && Can(setup, s, step) && Makers(Books(s), s.custody)
    requires Cancellers(s.custody, s.conns, s.stop)
    ensures var t := Do(setup, s, step); Cancellers(t.custody, t.conns, t.stop)
  {
    hide Executors, Complete, Shutdowns, TableOk, JobHolders, ConnHolders, StopHolders, Owners, Builders, PoolJobs,
      Results, OwnJobs, Places, Histories, Conns, Outputs, Flags, Drops, StopOk, Windows, Creations, Destructions,
      Drained, AnswerOrder, Makers, Cancellers, AllBlameless, CanWork, DoWork, CanConn, DoConn, CanStop, DoStop;
    var t := Do(setup, s, step);
    if step.ByTask? && step.task.Construct? && step.task.built.Ok? {
      BuildCancels(s, step.task.j, step.task.built.value);
    } else {
      StepKeeps(setup, s, step);
      StepFollows(setup, s, step);
      match step {
        case ByConnection(x) => ConnCancels(setup, s, x);
        case ByTask(x) => if x.Construct? { SameEntriesBlameless(s, t); } else { TaskCancels(setup, s, x); }
        case ByWorker(x) =>
          WorkEntries(setup, s, x);
          SameEntriesBlameless(s, t);
        case ByStopper(x) => StopCancels(setup, s, x);
      }
      CancellersStay(s, t);
    }
  }

  lemma {:induction false} RunCancellers(setup: Setup, states: seq<State>, steps: seq<Step>, i: nat)
    requires IsRun(setup, states, steps) && i < |states|
    ensures Cancellers(states[i].custody, states[i].conns, states[i].stop)
  {
    hide Inv, Can, Do, Makers;
    if i > 0 {
      RunCancellers(setup, states, steps, i - 1);
      RunInv(setup, states, steps, i - 1);
      RunMakers(setup, states, steps, i - 1);
      StepCancels(setup, states[i - 1], steps[i - 1]);
    }
  }

  // ---------- The account of every request ----------

  /** What the stage of job `j` means. The stages exclude each other, so a job is in exactly one class. */
  ghost predicate Accounted(setup: Setup, s: State, j: JobId)
    requires Shape(s) && j < |s.jobs|
  {
    var lane, c := s.jobs[j].lane, s.jobs[j].conn;
    && c < |s.conns|
    && (s.stages[j] == Queued <==> WaitsIn(s, j, lane))
    && (forall other :: WaitsIn(s, j, other) ==> other == lane)
    && (s.stages[j].Answered? <==> exists k :: AnswersAt(s, c, k, j))
    && (forall other, k :: AnswersAt(s, other, k, j) ==> other == c && s.stages[j] == Answered(k))
    && (s.stages[j] == Dropped ==> s.conns[c].closed)
    && (s.stages[j] == Silent ==> !Audible(setup, s.jobs[j], s.results[j]))
    && (s.stages[j] == Cancelled ==>
          if lane == Shared then StopRank(s.stop) >= 3
          else lane.entry < |s.custody| && StopOrOwnerGone(s, lane.entry))
  }

  ghost predicate StopOrOwnerGone(s: State, e: EntryId)
    requires e < |s.custody|
  {
    StopRank(s.stop) >= 4 || (s.custody[e].owner < |s.conns| && CleaningUp(s.conns[s.custody[e].owner].phase))
  }

  /** In every reachable state every accepted request is in exactly one class: waiting in
      the one queue of its lane, under way, answered once, dropped because its
      connection was closed, silent because its task ended without an outcome or its
      serializer without a message, or cancelled by its actor's owner going away or
      by the runtime stopping. */
  lemma EveryRequestIsAccountedFor(setup: Setup, states: seq<State>, steps: seq<Step>, i: nat, j: JobId)
    requires IsRun(setup, states, steps) && i < |states| && Shape(states[i]) && j < |states[i].jobs|
    ensures Accounted(setup, states[i], j)
  {
    RunInv(setup, states, steps, i);
    RunCancellers(setup, states, steps, i);
    var s := states[i];
    hide Executors, Complete, Shutdowns, TableOk, JobHolders, ConnHolders, StopHolders, Owners, Builders, PoolJobs,
      Results, OwnJobs, Places, Histories, Conns, Outputs, Flags, Drops, StopOk, Windows, Creations, Destructions,
      Drained, AnswerOrder, WaitsIn, AnswersAt, Cancellers;
    WaitingFacts(setup, s, j);
    EndingFacts(s, j);
    OneResponseFacts(setup, s, j);
    SilentFacts(setup, s, j);
    if s.stages[j] == Cancelled { CancelledFacts(s, j); }
  }

  lemma SilentFacts(setup: Setup, s: State, j: JobId)
    requires Shape(s) && j < |s.jobs| && Outputs(setup, s.jobs, s.stages, s.results, s.written)
    ensures s.stages[j] == Silent ==> !Audible(setup, s.jobs[j], s.results[j])
  {
  }

  lemma CancelledFacts(s: State, j: JobId)
    requires Shape(s) && j < |s.jobs| && s.stages[j] == Cancelled
    requires Cancellers(s.custody, s.conns, s.stop) && Complete(s.custody, s.execs)
    requires StopOk(s.stop, s.poolLive, s.table, s.jobs, s.stages, s.poolQueue)
    requires PoolJobs(s.jobs, s.stages, s.poolQueue, s.poolLive) && Places(s.jobs, s.stages, s.custody, s.execs)
    requires OwnJobs(s.jobs, s.custody, s.execs)
    ensures s.jobs[j].lane == Shared ==> StopRank(s.stop) >= 3
    ensures s.jobs[j].lane.Own? ==> s.jobs[j].lane.entry < |s.custody| && StopOrOwnerGone(s, s.jobs[j].lane.entry)
  {
  }

  /** The connection of job `j` is open and the shared pool has not been stopped. */
  predicate Served(s: State, j: JobId)
    requires Shape(s) && j < |s.jobs|
  {
    s.jobs[j].conn < |s.conns| && !s.conns[s.jobs[j].conn].closed && StopRank(s.stop) < 3
  }

  /** The request did not go to an actor, or it went to an actor of its own connection. */
  predicate OwnedOrShared(s: State, j: JobId)
    requires Shape(s) && j < |s.jobs|
  {
    s.jobs[j].lane == Shared ||
    (s.jobs[j].lane.entry < |s.custody| && s.custody[s.jobs[j].lane.entry].owner == s.jobs[j].conn)
  }

  /** While its connection is open and the pool up, a request that went to no actor or to an actor of its own
      connection is answered once it is over, unless there is nothing to say about it. */
  lemma OwnRequestsAreAnswered(setup: Setup, states: seq<State>, steps: seq<Step>, i: nat, j: JobId)
    requires IsRun(setup, states, steps) && i < |states| && Shape(states[i]) && j < |states[i].jobs|
    requires Finished(states[i].stages[j]) && Served(states[i], j) && OwnedOrShared(states[i], j)
    ensures var s := states[i]; var c := s.jobs[j].conn;
      if Audible(setup, s.jobs[j], s.results[j]) then s.stages[j].Answered? && AnswersAt(s, c, s.stages[j].at, j)
      else s.stages[j] == Silent || s.stages[j].Answered?
  {
    EveryRequestIsAccountedFor(setup, states, steps, i, j);
    RunInv(setup, states, steps, i);
    hide Executors, Complete, Shutdowns, TableOk, JobHolders, ConnHolders, StopHolders, Owners, Builders, PoolJobs,
      Results, OwnJobs, Places, Histories, Conns, Outputs, Flags, Drops, StopOk, Windows, Creations, Destructions,
      Drained, AnswerOrder, WaitsIn, IsRun, Accounted, AnswersAt, OwnedOrShared, Served, Finished, Audible;
    OwnFacts(setup, states[i], j);
  }

  lemma OwnFacts(setup: Setup, s: State, j: JobId)
    requires Shape(s) && j < |s.jobs| && Finished(s.stages[j]) && Served(s, j) && OwnedOrShared(s, j)
    requires Accounted(setup, s, j) && Flags(s.conns)
    ensures if Audible(setup, s.jobs[j], s.results[j]) then s.stages[j].Answered? && AnswersAt(s, s.jobs[j].conn, s.stages[j].at, j)
      else s.stages[j] == Silent || s.stages[j].Answered?
  {
    hide Audible, WaitsIn;
  }
}
