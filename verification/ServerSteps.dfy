/** Each step keeps the invariant: what the frames do not already say. */
module ServerSteps {
  import opened Base
  import opened Messages
  import opened Server
  import opened ServerInvariant
  import opened ServerFrames

  // ---------- Facts about the job or entry a step acts on ----------

  lemma BuilderFacts(s: State, j: JobId)
    requires Shape(s) && j < |s.jobs| && (s.stages[j].Built? || s.stages[j].Unpublished?)
    requires Builders(s.jobs, s.stages, s.custody) && JobHolders(s.stages, s.custody)
    ensures s.jobs[j].lane == Shared && s.jobs[j].request.body.CreateActor?
    ensures s.stages[j].entry < |s.custody|
    ensures var c := s.custody[s.stages[j].entry];
      c.holder == ByJob(j) && c.mode == Live && c.born == None && c.owner == s.jobs[j].conn &&
      c.actorId == s.jobs[j].request.body.actorId && c.maker == j
  {
  }

  lemma DestroyerFacts(s: State, j: JobId)
    requires Shape(s) && j < |s.jobs| && (s.stages[j].Popped? || s.stages[j].Joining?)
    requires Builders(s.jobs, s.stages, s.custody) && JobHolders(s.stages, s.custody)
    requires Destructions(s.jobs, s.stages, s.results, s.targets, s.custody)
    ensures s.jobs[j].lane == Shared && s.jobs[j].request.body.DestroyActor?
    ensures s.targets[j] == Some(s.stages[j].entry) && s.stages[j].entry < |s.custody|
    ensures var c := s.custody[s.stages[j].entry];
      c.holder == ByJob(j) && c.born.Some? && c.died.Some? && c.mode == (if s.stages[j].Joining? then Draining else Live)
  {
  }

  lemma TableFacts(s: State, request: Request, e: EntryId)
    requires Lookup(s, request) == Some(e) && TableOk(s.table, s.custody) && Shutdowns(s.custody)
    ensures e < |s.custody| && request.body.CallActor? && request.body.actorId == s.custody[e].actorId
    ensures s.custody[e].holder == Published && s.custody[e].mode == Live && s.custody[e].born.Some?
    ensures s.custody[e].died == None
  {
  }

  lemma ExecutorFacts(setup: Setup, s: State, e: EntryId)
    requires e < |s.execs| && Executors(setup, s.execs)
    ensures InOrder(s.execs[e]) && Sequential(setup, s.execs[e])
  {
  }

  lemma ListedFacts(s: State, id: string)
    requires id in s.table && TableOk(s.table, s.custody) && Shutdowns(s.custody)
    ensures s.table[id] < |s.custody|
    ensures var c := s.custody[s.table[id]];
      c.actorId == id && c.holder == Published && c.mode == Live && c.born.Some? && c.died == None
  {
  }

  lemma HasAMember(jobs: seq<JobId>)
    requires jobs != []
    ensures exists j :: j in jobs
  {
    assert jobs[0] in jobs;
  }

  lemma UnbornFacts(setup: Setup, s: State, e: EntryId)
    requires Shape(s) && e < |s.custody| && s.custody[e].born == None
    requires Shutdowns(s.custody) && Complete(s.custody, s.execs) && Executors(setup, s.execs)
    ensures s.custody[e].died == None && IsIdle(s.execs[e])
  {
    var exec := s.execs[e];
    assert InOrder(exec);
    if Line(exec) != [] {
      HasAMember(Line(exec));
      assert false;
    }
    assert Line(exec) == exec.ran + Current(exec.worker) + exec.queue;
  }

  lemma FaultFacts(s: State, j: JobId)
    requires Shape(s) && j < |s.jobs| && s.stages[j].Faulted? && Builders(s.jobs, s.stages, s.custody)
    ensures s.jobs[j].lane == Shared && s.jobs[j].request.body.CreateActor?
  {
  }

  lemma FreshResult(s: State, j: JobId)
    requires Shape(s) && j < |s.jobs| && Results(s.stages, s.results)
    ensures !Finished(s.stages[j]) && s.stages[j] != Replying ==> s.results[j] == None
  {
  }

  lemma JobConn(s: State, j: JobId)
    requires j < |s.jobs| && Conns(s.jobs, s.conns, s.written)
    ensures s.jobs[j].conn < |s.conns|
  {
  }

  lemma ConnFacts(s: State, c: Conn)
    requires c < |s.conns| && Flags(s.conns)
    ensures var conn := s.conns[c];
      && (conn.phase != Serving ==> conn.closed) && (conn.broken ==> conn.closed)
      && (conn.phase.SocketShut? || CleaningUp(conn.phase) ==> conn.broken)
  {
  }

  lemma LineFacts(s: State, e: EntryId)
    requires Shape(s) && e < |s.custody| && Complete(s.custody, s.execs)
    ensures s.custody[e].mode != Cancelling ==> Line(s.execs[e]) == s.execs[e].submitted
  {
  }

  /** The table is empty once the stopping thread has taken its entries. */
  lemma StopUnlists(s: State)
    requires StopOk(s.stop, s.poolLive, s.table, s.jobs, s.stages, s.poolQueue)
    ensures s.stop.StoppingActors? || s.stop.Stopped? ==> s.table == map[]
    ensures forall id :: StopOk(s.stop, s.poolLive, s.table - {id}, s.jobs, s.stages, s.poolQueue)
  {
  }

  /** How often and in which order an entry in other hands than the table's was shut down. */
  lemma RetireShutdowns(s: State, e: EntryId)
    requires e < |s.custody| && Shutdowns(s.custody)
    ensures var a := s.custody[e];
      && a.shutdowns == (if a.mode == Live then 0 else 1)
      && (a.born.Some? && a.holder != Published ==> a.died.Some?)
  {
  }

  lemma HeadFacts(setup: Setup, s: State, e: EntryId)
    requires CanActorTake(s, e) && Executors(setup, s.execs)
    requires OwnJobs(s.jobs, s.custody, s.execs) && Places(s.jobs, s.stages, s.custody, s.execs)
    ensures s.jobs[s.execs[e].queue[0]].lane == Own(e) && s.stages[s.execs[e].queue[0]] == Queued
  {
    var exec := s.execs[e];
    assert InOrder(exec);
    assert Line(exec)[|exec.ran + Current(exec.worker)|] == exec.queue[0];
    assert exec.queue[0] in Line(exec);
    assert exec.queue[0] in exec.submitted;
  }

  lemma RunningFacts(setup: Setup, s: State, e: EntryId)
    requires CanActorInvoke(s, e) && Executors(setup, s.execs)
    requires OwnJobs(s.jobs, s.custody, s.execs) && Places(s.jobs, s.stages, s.custody, s.execs)
    ensures s.jobs[s.execs[e].worker.job].lane == Own(e) && s.stages[s.execs[e].worker.job] == Started
  {
    var exec := s.execs[e];
    assert InOrder(exec);
    assert Line(exec)[|exec.ran|] == exec.worker.job;
    assert exec.worker.job in Line(exec);
    assert exec.worker.job in exec.submitted;
  }

  // ---------- Connections ----------

  lemma AcceptKeeps(setup: Setup, s: State)
    requires Shape(s) && ConnHolders(s.conns, s.custody) && Owners(s.custody, s.conns) && Flags(s.conns)
    requires Drops(s.jobs, s.stages, s.conns) && Conns(s.jobs, s.conns, s.written)
    requires Outputs(setup, s.jobs, s.stages, s.results, s.written)
    ensures var t := DoAccept(s);
      && ConnHolders(t.conns, s.custody) && Owners(s.custody, t.conns) && Flags(t.conns)
      && Drops(s.jobs, s.stages, t.conns) && Conns(s.jobs, t.conns, t.written)
      && Outputs(setup, s.jobs, s.stages, s.results, t.written)
  {
  }

  lemma WorsenKeeps(s: State, c: Conn, conn: ConnState)
    requires c < |s.conns| && Worsens(s.conns[c], conn)
    requires ConnHolders(s.conns, s.custody) && Owners(s.custody, s.conns) && Flags(s.conns)
    requires Drops(s.jobs, s.stages, s.conns) && Conns(s.jobs, s.conns, s.written)
    ensures var conns := s.conns[c := conn];
      && ConnHolders(conns, s.custody) && Owners(s.custody, conns) && Flags(conns)
      && Drops(s.jobs, s.stages, conns) && Conns(s.jobs, conns, s.written)
  {
  }

  // ---------- Requests ----------

  lemma SubmitSharedKeeps(s: State, c: Conn, request: Request)
    requires Shape(s) && c < |s.conns| && Lookup(s, request) == None && s.poolLive
    requires PoolJobs(s.jobs, s.stages, s.poolQueue, s.poolLive)
    requires StopOk(s.stop, s.poolLive, s.table, s.jobs, s.stages, s.poolQueue)
    ensures var t := SubmitShared(s, c, request);
      && PoolJobs(t.jobs, t.stages, t.poolQueue, t.poolLive)
      && StopOk(t.stop, t.poolLive, t.table, t.jobs, t.stages, t.poolQueue)
  {
    var t := SubmitShared(s, c, request);
    assert forall i :: 0 <= i < |s.poolQueue| ==> s.poolQueue[i] in s.poolQueue;
    assert t.poolQueue[|s.poolQueue|] == |s.jobs|;
    assert |s.jobs| in t.poolQueue;
  }

  /** A request that went to no actor executor although it is accepted. */
  lemma AppendSharedKeeps(setup: Setup, s: State, c: Conn, request: Request, stage: Stage)
    requires Shape(s) && c < |s.conns| && Lookup(s, request) == None
    requires stage == Queued || (stage == Dropped && s.conns[c].closed)
    requires Executors(setup, s.execs) && OwnJobs(s.jobs, s.custody, s.execs)
    requires Places(s.jobs, s.stages, s.custody, s.execs)
    requires Drops(s.jobs, s.stages, s.conns) && Windows(s.jobs, s.custody)
    requires Shutdowns(s.custody) && TableOk(s.table, s.custody)
    ensures var t := AddJob(s, Job(c, request, Shared), stage);
      && OwnJobs(t.jobs, s.custody, s.execs) && Places(t.jobs, t.stages, s.custody, s.execs)
      && Drops(t.jobs, t.stages, s.conns) && Windows(t.jobs, s.custody)
  {
  }

  lemma RefuseKeeps(s: State, c: Conn, request: Request)
    requires Shape(s) && PoolJobs(s.jobs, s.stages, s.poolQueue, s.poolLive)
    requires StopOk(s.stop, s.poolLive, s.table, s.jobs, s.stages, s.poolQueue)
    ensures var t := AddJob(s, Job(c, request, Shared), Dropped);
      && PoolJobs(t.jobs, t.stages, t.poolQueue, t.poolLive)
      && StopOk(t.stop, t.poolLive, t.table, t.jobs, t.stages, t.poolQueue)
  {
  }

  lemma SubmitOwnExecutors(setup: Setup, s: State, e: EntryId)
    requires Shape(s) && e < |s.custody| && s.custody[e].mode == Live && s.custody[e].born.Some?
    requires Executors(setup, s.execs) && Complete(s.custody, s.execs) && OwnJobs(s.jobs, s.custody, s.execs)
    requires s.custody[e].holder == Published
    ensures var execs := s.execs[e := Submit(s.execs[e], |s.jobs|)];
      Executors(setup, execs) && Complete(s.custody, execs)
  {
    assert InOrder(s.execs[e]) && Sequential(setup, s.execs[e]);
    SubmitKeeps(setup, s.execs[e], |s.jobs|);
  }

  lemma SubmitOwnJobs(s: State, e: EntryId, job: Job)
    requires Shape(s) && e < |s.custody| && job.lane == Own(e)
    requires job.request.body.CallActor? && job.request.body.actorId == s.custody[e].actorId
    requires OwnJobs(s.jobs, s.custody, s.execs)
    ensures OwnJobs(s.jobs + [job], s.custody, s.execs[e := Submit(s.execs[e], |s.jobs|)])
  {
  }

  lemma NewcomerIsNowhere(exec: Executor, now: JobId)
    requires InOrder(exec) && now !in exec.submitted
    ensures now !in exec.ran && exec.worker != Running(now) && exec.worker != Finishing(now) && now !in exec.queue
  {
    var n := |exec.ran + Current(exec.worker)|;
    assert now !in Line(exec);
    assert forall k :: 0 <= k < |exec.ran| ==> Line(exec)[k] == exec.ran[k];
    assert forall k :: 0 <= k < |exec.queue| ==> Line(exec)[n + k] == exec.queue[k];
    assert exec.worker.Running? ==> Line(exec)[|exec.ran|] == exec.worker.job;
  }

  lemma SubmitOwnPlaces(setup: Setup, s: State, e: EntryId, job: Job)
    requires Shape(s) && e < |s.custody| && job.lane == Own(e)
    requires InOrder(s.execs[e]) && OwnJobs(s.jobs, s.custody, s.execs)
    requires Places(s.jobs, s.stages, s.custody, s.execs)
    ensures Places(s.jobs + [job], s.stages + [Queued], s.custody, s.execs[e := Submit(s.execs[e], |s.jobs|)])
  {
    var exec, now := s.execs[e], |s.jobs|;
    NewcomerIsNowhere(exec, now);
    var after := Submit(exec, now).queue;
    assert after[|exec.queue|] == now;
    assert forall j :: j in after <==> j in exec.queue || j == now;
  }

  lemma SubmitOwnOthers(setup: Setup, s: State, c: Conn, request: Request, e: EntryId)
    requires Shape(s) && Lookup(s, request) == Some(e)
    requires Shutdowns(s.custody) && TableOk(s.table, s.custody)
    requires PoolJobs(s.jobs, s.stages, s.poolQueue, s.poolLive) && Drops(s.jobs, s.stages, s.conns)
    requires StopOk(s.stop, s.poolLive, s.table, s.jobs, s.stages, s.poolQueue) && Windows(s.jobs, s.custody)
    ensures var t := SubmitOwn(s, c, request, e);
      && PoolJobs(t.jobs, t.stages, t.poolQueue, t.poolLive) && Drops(t.jobs, t.stages, t.conns)
      && StopOk(t.stop, t.poolLive, t.table, t.jobs, t.stages, t.poolQueue) && Windows(t.jobs, t.custody)
  {
  }

  lemma SubmitOwnHistories(s: State, e: EntryId, j: JobId)
    requires e < |s.execs| && Histories(s.jobs, s.results, s.execs)
    requires Drained(s.jobs, s.results, s.targets, s.custody, s.execs) && e < |s.custody| && s.custody[e].mode == Live
    ensures var execs := s.execs[e := Submit(s.execs[e], j)];
      Histories(s.jobs, s.results, execs) && Drained(s.jobs, s.results, s.targets, s.custody, execs)
  {
  }

  // ---------- Tasks of the shared pool ----------

  lemma PoolTakeKeeps(s: State, stage: Stage)
    requires CanPoolTake(s) && (stage == Started || (stage == Cancelled && !s.poolLive))
    requires PoolJobs(s.jobs, s.stages, s.poolQueue, s.poolLive)
    ensures var t := DoPoolTake(s, stage); PoolJobs(t.jobs, t.stages, t.poolQueue, t.poolLive)
    ensures s.jobs[s.poolQueue[0]].lane == Shared && s.stages[s.poolQueue[0]] == Queued
  {
    var j, rest := s.poolQueue[0], s.poolQueue[1..];
    assert j in s.poolQueue;
    assert forall k :: 0 <= k < |rest| ==> rest[k] == s.poolQueue[k + 1];
    assert j !in rest;
    assert forall i :: i in rest <==> i in s.poolQueue && i != j;
  }

  lemma PoolTakeOthers(s: State, stage: Stage)
    requires CanPoolTake(s) && (stage == Started || stage == Cancelled) && s.jobs[s.poolQueue[0]].lane == Shared
    requires Places(s.jobs, s.stages, s.custody, s.execs) && Drops(s.jobs, s.stages, s.conns)
    requires StopOk(s.stop, s.poolLive, s.table, s.jobs, s.stages, s.poolQueue)
    ensures var t := DoPoolTake(s, stage);
      && Places(t.jobs, t.stages, t.custody, t.execs) && Drops(t.jobs, t.stages, t.conns)
      && StopOk(t.stop, t.poolLive, t.table, t.jobs, t.stages, t.poolQueue)
  {
  }

  // ---------- Entries in the hands of a job ----------

  /** Neither a connection's cleanup nor the stopping thread has to do with entry `e`. */
  lemma BystandersKeep(s: State, e: EntryId, c: Custody)
    requires e < |s.custody| && (s.custody[e].holder.ByJob? || s.custody[e].holder == Published)
    requires !c.holder.ByConn? && c.holder != ByStop
    requires ConnHolders(s.conns, s.custody) && StopHolders(s.stop, s.custody)
    ensures ConnHolders(s.conns, s.custody[e := c]) && StopHolders(s.stop, s.custody[e := c])
  {
  }

  /** Entry `e`, which is not in the table, is changed to `b`, which is not either. */
  lemma UnlistedKeeps(s: State, e: EntryId, b: Custody)
    requires e < |s.custody| && s.custody[e].holder != Published && b.holder != Published
    requires b.owner == s.custody[e].owner && b.born == s.custody[e].born && b.died == s.custody[e].died
    requires b.shutdowns == (if b.mode == Live then 0 else 1) && (b.holder == Released ==> b.mode != Live)
    requires Shutdowns(s.custody) && TableOk(s.table, s.custody) && Owners(s.custody, s.conns)
    ensures var custody := s.custody[e := b];
      Shutdowns(custody) && TableOk(s.table, custody) && Owners(custody, s.conns)
  {
  }

  /** Job `j` goes on to `stage` with the entry it holds, or lets go of it. */
  lemma HeldKeeps(s: State, j: JobId, stage: Stage, b: Custody)
    requires Shape(s) && j < |s.jobs| && Holds(s.stages[j]) && s.stages[j].entry < |s.custody|
    requires if Holds(stage) then stage == Joining(s.stages[j].entry) && s.stages[j].Popped? && b.holder == ByJob(j) && b.mode == Draining
      else !b.holder.ByJob?
    requires stage.Faulted? ==> s.stages[j].Unpublished?
    requires JobHolders(s.stages, s.custody) && Builders(s.jobs, s.stages, s.custody)
    ensures var stages, custody := s.stages[j := stage], s.custody[s.stages[j].entry := b];
      JobHolders(stages, custody) && Builders(s.jobs, stages, custody)
  {
  }

  lemma BuildExecutors(setup: Setup, s: State, c: Custody, instance: Value)
    requires Executors(setup, s.execs) && Complete(s.custody, s.execs) && c.holder.ByJob? && c.born == None
    ensures var custody, execs := s.custody + [c], s.execs + [NewExecutor(instance)];
      Executors(setup, execs) && Complete(custody, execs)
  {
  }

  lemma BuildCustody(s: State, c: Custody)
    requires c.holder.ByJob? && c.mode == Live && c.shutdowns == 0 && c.born == None && c.died == None
    requires c.owner < |s.conns|
    requires Shutdowns(s.custody) && TableOk(s.table, s.custody) && Owners(s.custody, s.conns)
    requires ConnHolders(s.conns, s.custody) && StopHolders(s.stop, s.custody)
    ensures var custody := s.custody + [c];
      && Shutdowns(custody) && TableOk(s.table, custody) && Owners(custody, s.conns)
      && ConnHolders(s.conns, custody) && StopHolders(s.stop, custody)
  {
  }

  lemma BuildHolders(s: State, j: JobId, instance: Value)
    requires CanConstruct(s, j) && JobHolders(s.stages, s.custody) && Builders(s.jobs, s.stages, s.custody)
    ensures var t := Build(s, j, instance); JobHolders(t.stages, t.custody) && Builders(t.jobs, t.stages, t.custody)
  {
  }

  lemma BuildExtends(s: State, c: Custody, exec: Executor)
    requires Shape(s) && c.born == None && exec.submitted == [] && exec.ran == [] && exec.history == []
    requires OwnJobs(s.jobs, s.custody, s.execs) && Places(s.jobs, s.stages, s.custody, s.execs)
    requires Histories(s.jobs, s.results, s.execs) && Windows(s.jobs, s.custody)
    requires Creations(s.jobs, s.results, s.targets, s.custody)
    requires Destructions(s.jobs, s.stages, s.results, s.targets, s.custody)
    requires Drained(s.jobs, s.results, s.targets, s.custody, s.execs)
    ensures var custody, execs := s.custody + [c], s.execs + [exec];
      && OwnJobs(s.jobs, custody, execs) && Places(s.jobs, s.stages, custody, execs)
      && Histories(s.jobs, s.results, execs) && Windows(s.jobs, custody)
      && Creations(s.jobs, s.results, s.targets, custody)
      && Destructions(s.jobs, s.stages, s.results, s.targets, custody)
      && Drained(s.jobs, s.results, s.targets, custody, execs)
  {
  }

  lemma InsertKeeps(s: State, j: JobId, e: EntryId)
    requires IsJob(s, j) && IsEntry(s, e) && s.stages[j] == Built(e)
    requires s.custody[e].actorId !in s.table && !s.conns[s.jobs[j].conn].closed
    requires Shutdowns(s.custody) && TableOk(s.table, s.custody) && Owners(s.custody, s.conns) && Flags(s.conns)
    requires JobHolders(s.stages, s.custody) && Builders(s.jobs, s.stages, s.custody)
    requires StopOk(s.stop, s.poolLive, s.table, s.jobs, s.stages, s.poolQueue)
    ensures var t := Insert(s, j, e);
      && Shutdowns(t.custody) && TableOk(t.table, t.custody) && Owners(t.custody, t.conns)
      && StopOk(t.stop, t.poolLive, t.table, t.jobs, t.stages, t.poolQueue)
  {
  }

  lemma InsertTargets(s: State, j: JobId, e: EntryId)
    requires IsJob(s, j) && IsEntry(s, e) && s.stages[j] == Built(e)
    requires s.jobs[j].request.body.CreateActor? && s.custody[e].actorId == s.jobs[j].request.body.actorId
    requires s.custody[e].owner == s.jobs[j].conn
    requires s.custody[e].born == None && s.custody[e].holder == ByJob(j) && s.custody[e].mode == Live
    requires Creations(s.jobs, s.results, s.targets, s.custody)
    requires Destructions(s.jobs, s.stages, s.results, s.targets, s.custody)
    requires Drained(s.jobs, s.results, s.targets, s.custody, s.execs)
    requires AnswerOrder(s.jobs, s.stages, s.results, s.targets)
    ensures var t := Insert(s, j, e);
      && Creations(t.jobs, t.results, t.targets, t.custody)
      && Destructions(t.jobs, t.stages, t.results, t.targets, t.custody)
      && Drained(t.jobs, t.results, t.targets, t.custody, t.execs)
      && AnswerOrder(t.jobs, t.stages, t.results, t.targets)
  {
  }

  lemma PopTable(s: State, j: JobId, e: EntryId)
    requires CanDestroy(s, j) && s.jobs[j].request.body.actorId in s.table
    requires s.table[s.jobs[j].request.body.actorId] == e
    requires Shutdowns(s.custody) && TableOk(s.table, s.custody) && Owners(s.custody, s.conns)
    ensures var t := Pop(s, j, e);
      Shutdowns(t.custody) && TableOk(t.table, t.custody) && Owners(t.custody, t.conns)
  {
  }

  lemma PopHolders(s: State, j: JobId, e: EntryId, b: Custody)
    requires InPool(s, j) && s.jobs[j].request.body.DestroyActor?
    requires e < |s.custody| && s.custody[e].holder == Published && b.holder == ByJob(j) && b.mode == Live
    requires JobHolders(s.stages, s.custody) && Builders(s.jobs, s.stages, s.custody)
    ensures var stages, custody := s.stages[j := Popped(e)], s.custody[e := b];
      JobHolders(stages, custody) && Builders(s.jobs, stages, custody)
  {
  }

  lemma PopTargets(s: State, j: JobId, e: EntryId)
    requires CanDestroy(s, j) && IsEntry(s, e) && s.custody[e].owner == s.jobs[j].conn
    requires s.custody[e].actorId == s.jobs[j].request.body.actorId && s.custody[e].born.Some?
    requires s.custody[e].mode == Live
    requires s.custody[e].died == None
    requires Creations(s.jobs, s.results, s.targets, s.custody) && Results(s.stages, s.results)
    requires Destructions(s.jobs, s.stages, s.results, s.targets, s.custody)
    requires Drained(s.jobs, s.results, s.targets, s.custody, s.execs)
    requires AnswerOrder(s.jobs, s.stages, s.results, s.targets)
    ensures var t := Pop(s, j, e);
      && Creations(t.jobs, t.results, t.targets, t.custody)
      && Destructions(t.jobs, t.stages, t.results, t.targets, t.custody)
      && Drained(t.jobs, t.results, t.targets, t.custody, t.execs)
      && AnswerOrder(t.jobs, t.stages, t.results, t.targets)
  {
  }

  lemma DestroyJoinedTargets(s: State, j: JobId)
    requires CanDestroyJoined(s, j)
    requires JobHolders(s.stages, s.custody) && Builders(s.jobs, s.stages, s.custody)
    requires Creations(s.jobs, s.results, s.targets, s.custody)
    requires Destructions(s.jobs, s.stages, s.results, s.targets, s.custody)
    requires Drained(s.jobs, s.results, s.targets, s.custody, s.execs)
    ensures var t := DoDestroyJoined(s, j);
      && Creations(t.jobs, t.results, t.targets, t.custody)
      && Destructions(t.jobs, t.stages, t.results, t.targets, t.custody)
      && Drained(t.jobs, t.results, t.targets, t.custody, t.execs)
  {
  }

  /** The stage of a job between making and letting go of an entry. */
  lemma DestroyingFrame(s: State, j: JobId, e: EntryId, stage: Stage)
    requires Shape(s) && j < |s.jobs| && s.stages[j] == Popped(e) && stage == Joining(e)
    requires Destructions(s.jobs, s.stages, s.results, s.targets, s.custody)
    ensures Destructions(s.jobs, s.stages[j := stage], s.results, s.targets, s.custody)
  {
  }

  // ---------- Entries in the hands of a connection's cleanup or of the stopping thread ----------

  /** Entries of the table go to a holder that is not a job. */
  lemma HandOverJobs(s: State, taken: set<EntryId>, holder: Holder)
    requires Shape(s) && (holder.ByConn? || holder == ByStop)
    requires forall e :: e in taken ==> e < |s.custody| && s.custody[e].holder == Published
    requires JobHolders(s.stages, s.custody) && Builders(s.jobs, s.stages, s.custody)
    ensures var custody := HandOver(s.custody, taken, holder, |s.jobs|);
      JobHolders(s.stages, custody) && Builders(s.jobs, s.stages, custody)
  {
  }

  lemma HandOverEvolves(s: State, taken: set<EntryId>, holder: Holder)
    requires Shape(s) && (holder.ByConn? || holder == ByStop) && Shutdowns(s.custody)
    requires forall e :: e in taken ==> e < |s.custody| && s.custody[e].holder == Published
    ensures var custody := HandOver(s.custody, taken, holder, |s.jobs|);
      && Shutdowns(custody) && Evolves(s.custody, custody, |s.jobs|)
      && (forall e :: 0 <= e < |custody| && custody[e].holder == Released ==> s.custody[e].holder == Released)
  {
  }

  lemma ReapTable(s: State, c: Conn)
    requires CanReap(s, c)
    requires TableOk(s.table, s.custody) && Owners(s.custody, s.conns) && StopHolders(s.stop, s.custody)
    ensures var t := DoReap(s, c);
      TableOk(t.table, t.custody) && Owners(t.custody, t.conns) && StopHolders(t.stop, t.custody)
    ensures forall e :: e in Owned(s, c) ==> e < |s.custody| && s.custody[e].holder == Published
  {
  }

  lemma ReapConns(s: State, c: Conn)
    requires CanReap(s, c) && Shutdowns(s.custody) && TableOk(s.table, s.custody)
    requires ConnHolders(s.conns, s.custody) && Flags(s.conns)
    ensures var t := DoReap(s, c); ConnHolders(t.conns, t.custody) && Flags(t.conns)
  {
  }

  lemma ReapOthers(s: State, c: Conn)
    requires CanReap(s, c)
    requires Drops(s.jobs, s.stages, s.conns) && Conns(s.jobs, s.conns, s.written)
    requires StopOk(s.stop, s.poolLive, s.table, s.jobs, s.stages, s.poolQueue)
    ensures var t := DoReap(s, c);
      && Drops(t.jobs, t.stages, t.conns) && Conns(t.jobs, t.conns, t.written)
      && StopOk(t.stop, t.poolLive, t.table, t.jobs, t.stages, t.poolQueue)
  {
  }

  /** Entry `e` of a connection's cleanup or of the stopping thread is shut down or let go. */
  ghost predicate Retires(a: Custody, b: Custody) {
    && (a.holder.ByConn? || a.holder == ByStop)
    && a.born.Some? && a.died.Some?
    && ((b == ShutDown(a, Cancelling, a.holder) && a.mode == Live) || (b == a.(holder := Released) && a.mode == Cancelling))
  }

  lemma RetireKeeps(s: State, e: EntryId, b: Custody)
    requires Shape(s) && e < |s.custody| && Retires(s.custody[e], b)
    requires JobHolders(s.stages, s.custody) && Builders(s.jobs, s.stages, s.custody)
    ensures var custody := s.custody[e := b];
      && JobHolders(s.stages, custody) && Builders(s.jobs, s.stages, custody)
      && Evolves(s.custody, custody, |s.jobs|)
  {
  }

  lemma ReapShutdownHolders(s: State, c: Conn, e: EntryId)
    requires CanReapShutdown(s, c, e) && ConnHolders(s.conns, s.custody) && StopHolders(s.stop, s.custody)
    ensures var t := DoReapShutdown(s, c, e); ConnHolders(t.conns, t.custody) && StopHolders(t.stop, t.custody)
    ensures s.custody[e].holder == ByConn(c) && s.custody[e].mode == Live && s.custody[e].born.Some?
  {
  }

  lemma ReapJoinedHolders(s: State, c: Conn)
    requires CanReapJoined(s, c) && ConnHolders(s.conns, s.custody) && StopHolders(s.stop, s.custody)
    ensures var t := DoReapJoined(s, c); ConnHolders(t.conns, t.custody) && StopHolders(t.stop, t.custody)
    ensures var a := s.custody[s.conns[c].phase.joining.value]; a.holder == ByConn(c) && a.mode == Cancelling && a.born.Some?
  {
  }

  lemma ReapingFlags(s: State, c: Conn, conn: ConnState)
    requires c < |s.conns| && s.conns[c].phase.Reaping? && conn.phase.Reaping?
    requires conn.closed == s.conns[c].closed && conn.broken == s.conns[c].broken
    requires Flags(s.conns) && Owners(s.custody, s.conns)
    requires Drops(s.jobs, s.stages, s.conns) && Conns(s.jobs, s.conns, s.written)
    ensures var conns := s.conns[c := conn];
      && Flags(conns) && Owners(s.custody, conns) && Drops(s.jobs, s.stages, conns) && Conns(s.jobs, conns, s.written)
  {
  }

  lemma StopCollectTable(s: State)
    requires CanStopCollect(s)
    requires TableOk(s.table, s.custody) && Owners(s.custody, s.conns)
    requires StopOk(s.stop, s.poolLive, s.table, s.jobs, s.stages, s.poolQueue)
    ensures var t := DoStopCollect(s);
      && TableOk(t.table, t.custody) && Owners(t.custody, t.conns)
      && StopOk(t.stop, t.poolLive, t.table, t.jobs, t.stages, t.poolQueue)
    ensures forall e :: e in s.table.Values ==> e < |s.custody| && s.custody[e].holder == Published
  {
  }

  lemma StopCollectHolders(s: State)
    requires CanStopCollect(s) && Shutdowns(s.custody) && TableOk(s.table, s.custody)
    requires ConnHolders(s.conns, s.custody) && StopHolders(s.stop, s.custody)
    ensures var t := DoStopCollect(s); ConnHolders(t.conns, t.custody) && StopHolders(t.stop, t.custody)
  {
  }

  lemma StopShutdownHolders(s: State, e: EntryId)
    requires CanStopShutdown(s, e) && ConnHolders(s.conns, s.custody) && StopHolders(s.stop, s.custody)
    ensures var t := DoStopShutdown(s, e); ConnHolders(t.conns, t.custody) && StopHolders(t.stop, t.custody)
    ensures s.custody[e].holder == ByStop && s.custody[e].mode == Live && s.custody[e].born.Some?
  {
  }

  lemma StopJoinedHolders(s: State)
    requires CanStopJoined(s) && ConnHolders(s.conns, s.custody) && StopHolders(s.stop, s.custody)
    ensures var t := DoStopJoined(s); ConnHolders(t.conns, t.custody) && StopHolders(t.stop, t.custody)
    ensures var a := s.custody[s.stop.joining.value]; a.holder == ByStop && a.mode == Cancelling && a.born.Some?
  {
  }

  // ---------- Actor executors ----------

  /** Job `j` moves within executor `e`, whose other jobs keep their places. */
  lemma ActorStartPlaces(setup: Setup, s: State, e: EntryId)
    requires CanActorStart(s, e) && Executors(setup, s.execs)
    requires OwnJobs(s.jobs, s.custody, s.execs) && Places(s.jobs, s.stages, s.custody, s.execs)
    ensures var t := DoActorStart(s, e); Places(t.jobs, t.stages, t.custody, t.execs)
  {
    HeadFacts(setup, s, e);
    var exec := s.execs[e];
    var j := exec.queue[0];
    HeadIsAlone(exec);
    assert forall i :: i != j ==> (i in exec.queue[1..] <==> i in exec.queue);
  }

  lemma HeadIsAlone(exec: Executor)
    requires InOrder(exec) && exec.queue != []
    ensures exec.queue[0] !in exec.queue[1..] && exec.queue[0] !in exec.ran && exec.queue[0] in exec.queue
  {
    var n := |exec.ran + Current(exec.worker)|;
    assert Line(exec)[n] == exec.queue[0];
    assert forall k :: 0 <= k < |exec.queue| ==> Line(exec)[n + k] == exec.queue[k];
    assert forall k :: 0 <= k < |exec.ran| ==> Line(exec)[k] == exec.ran[k];
  }

  lemma ActorCancelPlaces(setup: Setup, s: State, e: EntryId)
    requires CanActorCancel(s, e) && Executors(setup, s.execs)
    requires OwnJobs(s.jobs, s.custody, s.execs) && Places(s.jobs, s.stages, s.custody, s.execs)
    ensures var t := DoActorCancel(s, e); Places(t.jobs, t.stages, t.custody, t.execs)
  {
    HeadFacts(setup, s, e);
    var exec := s.execs[e];
    var j := exec.queue[0];
    HeadIsAlone(exec);
    assert forall i :: i != j ==> (i in exec.queue[1..] <==> i in exec.queue);
  }

  lemma InvokePlaces(setup: Setup, s: State, e: EntryId, stage: Stage, exec: Executor)
    requires CanActorInvoke(s, e) && Executors(setup, s.execs)
    requires (stage == Replying && exec.worker == Finishing(s.execs[e].worker.job)) || (stage == Silent && exec.worker == Idle)
    requires exec.queue == s.execs[e].queue
    requires exec.ran == s.execs[e].ran + [s.execs[e].worker.job] && exec.submitted == s.execs[e].submitted
    requires OwnJobs(s.jobs, s.custody, s.execs) && Places(s.jobs, s.stages, s.custody, s.execs)
    ensures var j := s.execs[e].worker.job; Places(s.jobs, s.stages[j := stage], s.custody, s.execs[e := exec])
  {
    RunningFacts(setup, s, e);
    var was, j := s.execs[e], s.execs[e].worker.job;
    assert exec.ran[|was.ran|] == j;
    assert j in exec.ran;
    assert forall i :: i != j ==> (i in exec.ran <==> i in was.ran);
  }

  lemma InvokeHistories(setup: Setup, s: State, e: EntryId, exec: Executor, outcome: Option<Outcome>)
    requires CanActorInvoke(s, e) && Executors(setup, s.execs)
    requires var was, j := s.execs[e], s.execs[e].worker.job;
      exec.ran == was.ran + [j] && exec.history == was.history + [Invocation(s.jobs[j].request.body, outcome)]
    requires OwnJobs(s.jobs, s.custody, s.execs) && Places(s.jobs, s.stages, s.custody, s.execs)
    requires Histories(s.jobs, s.results, s.execs)
    ensures var j := s.execs[e].worker.job;
      Histories(s.jobs, s.results[j := outcome], s.execs[e := exec])
  {
    RunningFacts(setup, s, e);
    RunsWereSubmitted(setup, s.execs);
    var was, j := s.execs[e], s.execs[e].worker.job;
    assert j !in was.ran by {
      assert InOrder(was);
      assert Line(was)[|was.ran|] == j;
      assert forall k :: 0 <= k < |was.ran| ==> Line(was)[k] == was.ran[k];
    }
    assert |was.ran| == |was.history| by { assert Sequential(setup, was); }
  }

  lemma RestPlaces(s: State, j: JobId, e: EntryId, stage: Stage)
    requires IsJob(s, j) && IsEntry(s, e) && s.jobs[j].lane == Own(e) && s.stages[j] == Replying
    requires stage.Answered? || stage == Dropped || stage == Silent
    requires Places(s.jobs, s.stages, s.custody, s.execs)
    ensures Places(s.jobs, s.stages[j := stage], s.custody, s.execs[e := s.execs[e].(worker := Idle)])
  {
  }

  /** An executor goes on with jobs it was given: only its own parts change. */
  ghost predicate Works(a: Executor, b: Executor) {
    b.submitted == a.submitted && (IsIdle(a) ==> IsIdle(b))
  }

  lemma WorkFrame(s: State, e: EntryId, exec: Executor)
    requires Shape(s) && e < |s.execs| && Works(s.execs[e], exec)
    requires OwnJobs(s.jobs, s.custody, s.execs) && Drained(s.jobs, s.results, s.targets, s.custody, s.execs)
    requires Complete(s.custody, s.execs) && (s.custody[e].mode != Cancelling ==> Line(exec) == exec.submitted)
    ensures OwnJobs(s.jobs, s.custody, s.execs[e := exec])
    ensures Drained(s.jobs, s.results, s.targets, s.custody, s.execs[e := exec])
    ensures Complete(s.custody, s.execs[e := exec])
  {
  }

  lemma ExecutorsUpdate(setup: Setup, execs: seq<Executor>, e: EntryId, exec: Executor)
    requires e < |execs| && Executors(setup, execs) && Sound(setup, exec)
    ensures Executors(setup, execs[e := exec])
  {
  }

  lemma WorkHistories(jobs: seq<Job>, results: seq<Option<Outcome>>, execs: seq<Executor>, e: EntryId, exec: Executor)
    requires e < |execs| && exec.ran == execs[e].ran && exec.history == execs[e].history
    requires Histories(jobs, results, execs)
    ensures Histories(jobs, results, execs[e := exec])
  {
  }

  /** The worker of an actor finishes job `j` and becomes idle. */
  lemma RestKeepsAll(setup: Setup, s: State, j: JobId, stage: Stage)
    requires CanFinish(s, j) && s.jobs[j].lane.Own? && (stage.Answered? || stage == Dropped || stage == Silent)
    requires Executors(setup, s.execs) && Complete(s.custody, s.execs) && OwnJobs(s.jobs, s.custody, s.execs)
    requires Places(s.jobs, s.stages, s.custody, s.execs) && Histories(s.jobs, s.results, s.execs)
    requires Drained(s.jobs, s.results, s.targets, s.custody, s.execs)
    ensures var e := s.jobs[j].lane.entry;
      var execs := s.execs[e := s.execs[e].(worker := Idle)];
      && Executors(setup, execs) && Complete(s.custody, execs) && OwnJobs(s.jobs, s.custody, execs)
      && Places(s.jobs, s.stages[j := stage], s.custody, execs) && Histories(s.jobs, s.results, execs)
      && Drained(s.jobs, s.results, s.targets, s.custody, execs)
  {
    var e := s.jobs[j].lane.entry;
    var exec := s.execs[e].(worker := Idle);
    ExecutorFacts(setup, s, e);
    LineFacts(s, e);
    assert s.execs[e].worker == Finishing(j);
    RestKeeps(setup, s.execs[e]);
    hide Executors, Complete, OwnJobs, Places, Histories, Drained, Sequential, InOrder;
    ExecutorsUpdate(setup, s.execs, e, exec);
    WorkFrame(s, e, exec);
    WorkHistories(s.jobs, s.results, s.execs, e, exec);
    RestPlaces(s, j, e, stage);
  }

  // ---------- Responses ----------

  lemma AnswerOutputs(setup: Setup, s: State, j: JobId, response: Response)
    requires IsJob(s, j) && s.stages[j] == Replying && s.results[j].Some?
    requires WireForm(setup, s.jobs[j], s.results[j].value) == Sends(response)
    requires Outputs(setup, s.jobs, s.stages, s.results, s.written) && Results(s.stages, s.results)
    ensures var c := s.jobs[j].conn;
      var stages := s.stages[j := Answered(|s.written[c]|)];
      && Outputs(setup, s.jobs, stages, s.results, s.written[c := s.written[c] + [Sent(j, response)]])
      && Results(stages, s.results)
  {
  }

  lemma AnswerShared(setup: Setup, s: State, j: JobId)
    requires IsJob(s, j) && s.stages[j] == Replying
    requires PoolJobs(s.jobs, s.stages, s.poolQueue, s.poolLive) && Drops(s.jobs, s.stages, s.conns)
    requires StopOk(s.stop, s.poolLive, s.table, s.jobs, s.stages, s.poolQueue)
    requires Destructions(s.jobs, s.stages, s.results, s.targets, s.custody)
    ensures var stages := s.stages[j := Answered(|s.written[s.jobs[j].conn]|)];
      && PoolJobs(s.jobs, stages, s.poolQueue, s.poolLive) && Drops(s.jobs, stages, s.conns)
      && StopOk(s.stop, s.poolLive, s.table, s.jobs, stages, s.poolQueue)
      && Destructions(s.jobs, stages, s.results, s.targets, s.custody)
  {
  }

  lemma AnswerSharedPlaces(s: State, j: JobId, stage: Stage)
    requires Shape(s) && j < |s.jobs| && s.jobs[j].lane == Shared && Places(s.jobs, s.stages, s.custody, s.execs)
    ensures Places(s.jobs, s.stages[j := stage], s.custody, s.execs)
  {
  }

  /** Everything a drained executor was given by this connection has been answered before. */
  lemma AnswerKeepsOrder(setup: Setup, s: State, j: JobId)
    requires CanReply(setup, s, j) && Executors(setup, s.execs) && Complete(s.custody, s.execs)
    requires OwnJobs(s.jobs, s.custody, s.execs) && Places(s.jobs, s.stages, s.custody, s.execs)
    requires Outputs(setup, s.jobs, s.stages, s.results, s.written) && Drops(s.jobs, s.stages, s.conns)
    requires Drained(s.jobs, s.results, s.targets, s.custody, s.execs)
    requires AnswerOrder(s.jobs, s.stages, s.results, s.targets)
    ensures AnswerOrder(s.jobs, s.stages[j := Answered(|s.written[s.jobs[j].conn]|)], s.results, s.targets)
  {
  }

  lemma WrittenFrame(s: State, written: seq<seq<Sent>>)
    requires Conns(s.jobs, s.conns, s.written) && |written| == |s.written|
    ensures Conns(s.jobs, s.conns, written)
  {
  }

  lemma DropOutputs(setup: Setup, s: State, j: JobId, stage: Stage)
    requires CanFinish(s, j) && (stage == Dropped || (stage == Silent && CanReplyEscape(setup, s, j)))
    requires Outputs(setup, s.jobs, s.stages, s.results, s.written) && Results(s.stages, s.results)
    requires AnswerOrder(s.jobs, s.stages, s.results, s.targets)
    ensures var stages := s.stages[j := stage];
      && Outputs(setup, s.jobs, stages, s.results, s.written) && Results(stages, s.results)
      && AnswerOrder(s.jobs, stages, s.results, s.targets)
  {
  }

  // ---------- Stopping ----------

  lemma StopPhaseKeeps(s: State, stop: StopPhase)
    requires s.stop.NotStopping? || s.stop.Flagged? || s.stop.ClosingConns?
    requires stop.Flagged? || stop.ClosingConns?
    requires StopHolders(s.stop, s.custody)
    requires StopOk(s.stop, s.poolLive, s.table, s.jobs, s.stages, s.poolQueue)
    ensures StopHolders(stop, s.custody) && StopOk(stop, s.poolLive, s.table, s.jobs, s.stages, s.poolQueue)
  {
  }

  lemma StopPoolKeeps(s: State)
    requires s.stop == ClosingConns({}) && StopHolders(s.stop, s.custody)
    requires PoolJobs(s.jobs, s.stages, s.poolQueue, s.poolLive)
    ensures StopHolders(PoolDown, s.custody) && PoolJobs(s.jobs, s.stages, s.poolQueue, false)
    ensures StopOk(PoolDown, false, s.table, s.jobs, s.stages, s.poolQueue)
  {
  }

  lemma StopPhaseStays(s: State, stop: StopPhase)
    requires s.stop.StoppingActors? && (stop.StoppingActors? || stop.Stopped?)
    requires StopOk(s.stop, s.poolLive, s.table, s.jobs, s.stages, s.poolQueue)
    ensures StopOk(stop, s.poolLive, s.table, s.jobs, s.stages, s.poolQueue)
  {
  }

  lemma StopEndsHolders(s: State)
    requires s.stop == StoppingActors({}, None) && StopHolders(s.stop, s.custody)
    ensures StopHolders(Stopped, s.custody)
  {
  }
}
