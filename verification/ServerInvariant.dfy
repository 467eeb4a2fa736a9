/** What every step of the runtime keeps. */
module ServerInvariant {
  import opened Base
  import opened Messages
  import opened Server

  // ---------- One actor executor ----------

  function Current(worker: Worker): seq<JobId> {
    if worker.Running? then [worker.job] else []
  }

  /** The jobs that have run, are running or wait, in the order the worker takes them. */
  function Line(exec: Executor): seq<JobId> {
    exec.ran + Current(exec.worker) + exec.queue
  }

  ghost predicate AllCalls(history: seq<Invocation>) {
    forall k :: 0 <= k < |history| ==> history[k].call.CallActor?
  }

  /** The state of an instance after a sequence of method calls: a fold of `RunMethod`. */
  ghost function StateAfter(setup: Setup, initial: Value, history: seq<Invocation>): Value
    requires AllCalls(history)
  {
    if history == [] then initial
    else
      var last := |history| - 1;
      RunMethod(setup, StateAfter(setup, initial, history[..last]), history[last].call).0
  }

  /** Every call got what a sequential execution of the calls in this order gives it. */
  ghost predicate Sequential(setup: Setup, exec: Executor) {
    && |exec.ran| == |exec.history|
    && AllCalls(exec.history)
    && exec.instance == StateAfter(setup, exec.initial, exec.history)
    && forall k :: 0 <= k < |exec.history| ==>
         exec.history[k].outcome ==
         RunMethod(setup, StateAfter(setup, exec.initial, exec.history[..k]), exec.history[k].call).1
  }

  ghost predicate InOrder(exec: Executor) {
    && Increasing(exec.submitted)
    && Increasing(Line(exec))
    && (forall j {:trigger j in Line(exec)} :: j in Line(exec) ==> j in exec.submitted)
    && (exec.worker.Finishing? ==> exec.ran != [] && exec.ran[|exec.ran| - 1] == exec.worker.job)
  }

  ghost predicate Executors(setup: Setup, execs: seq<Executor>) {
    forall e :: 0 <= e < |execs| ==> InOrder(execs[e]) && Sequential(setup, execs[e])
  }

  /** Nothing is skipped except by a cancelling shutdown, and nothing is submitted
      before the entry is in the table. */
  ghost predicate Complete(custody: seq<Custody>, execs: seq<Executor>) {
    && |execs| == |custody|
    && (forall e :: 0 <= e < |custody| && custody[e].mode != Cancelling ==> Line(execs[e]) == execs[e].submitted)
    && (forall e :: 0 <= e < |custody| && custody[e].holder == Released ==> IsIdle(execs[e]))
    && (forall e :: 0 <= e < |custody| && custody[e].born == None ==> execs[e].submitted == [])
  }

  // ---------- Who holds which entry ----------

  /** An executor is shut down once, by whoever takes its entry over last. */
  ghost predicate Shutdowns(custody: seq<Custody>) {
    && (forall e :: 0 <= e < |custody| ==> custody[e].shutdowns == (if custody[e].mode == Live then 0 else 1))
    && (forall e :: 0 <= e < |custody| && custody[e].holder == Published ==>
          custody[e].mode == Live && custody[e].born.Some? && custody[e].died == None)
    && (forall e :: 0 <= e < |custody| && custody[e].holder == Released ==> custody[e].mode != Live)
    && (forall e :: 0 <= e < |custody| && custody[e].born.Some? && custody[e].holder != Published ==>
          custody[e].died.Some?)
    && (forall e :: 0 <= e < |custody| && custody[e].born == None ==> custody[e].died == None)
  }

  ghost predicate TableOk(table: map<string, EntryId>, custody: seq<Custody>) {
    && (forall id :: id in table ==> table[id] < |custody|)
    && (forall id :: id in table ==> custody[table[id]].holder == Published && custody[table[id]].actorId == id)
    && (forall e :: 0 <= e < |custody| && custody[e].holder == Published ==>
          custody[e].actorId in table && table[custody[e].actorId] == e)
  }

  predicate Holds(stage: Stage) {
    stage.Built? || stage.Popped? || stage.Joining? || stage.Unpublished?
  }

  /** A job holds an entry exactly between making or popping it and letting it go. */
  ghost predicate JobHolders(stages: seq<Stage>, custody: seq<Custody>) {
    && (forall j :: 0 <= j < |stages| && Holds(stages[j]) ==>
          stages[j].entry < |custody| && custody[stages[j].entry].holder == ByJob(j) &&
          custody[stages[j].entry].mode == (if stages[j].Joining? then Draining else Live))
    && (forall e :: 0 <= e < |custody| && custody[e].holder.ByJob? ==>
          custody[e].holder.job < |stages| && Holds(stages[custody[e].holder.job]) &&
          stages[custody[e].holder.job].entry == e)
  }

  ghost predicate ConnHolders(conns: seq<ConnState>, custody: seq<Custody>) {
    && (forall c, e {:trigger e in conns[c].phase.todo} :: 0 <= c < |conns| && conns[c].phase.Reaping? && e in conns[c].phase.todo ==>
          e < |custody| && custody[e].holder == ByConn(c) && custody[e].mode == Live && custody[e].born.Some?)
    && (forall c :: 0 <= c < |conns| && conns[c].phase.Reaping? && conns[c].phase.joining.Some? ==>
          conns[c].phase.joining.value < |custody| && custody[conns[c].phase.joining.value].holder == ByConn(c) &&
          custody[conns[c].phase.joining.value].mode == Cancelling && custody[conns[c].phase.joining.value].born.Some?)
    && (forall e :: 0 <= e < |custody| && custody[e].holder.ByConn? ==>
          custody[e].holder.conn < |conns| && conns[custody[e].holder.conn].phase.Reaping? &&
          (e in conns[custody[e].holder.conn].phase.todo || conns[custody[e].holder.conn].phase.joining == Some(e)))
  }

  ghost predicate StopHolders(stop: StopPhase, custody: seq<Custody>) {
    && (stop.StoppingActors? ==> forall e {:trigger e in stop.todo} :: e in stop.todo ==>
          e < |custody| && custody[e].holder == ByStop && custody[e].mode == Live && custody[e].born.Some?)
    && (stop.StoppingActors? && stop.joining.Some? ==>
          stop.joining.value < |custody| && custody[stop.joining.value].holder == ByStop &&
          custody[stop.joining.value].mode == Cancelling && custody[stop.joining.value].born.Some?)
    && (forall e :: 0 <= e < |custody| && custody[e].holder == ByStop ==>
          stop.StoppingActors? && (e in stop.todo || stop.joining == Some(e)))
  }

  predicate CleaningUp(phase: Phase) {
    phase.Reaping? || phase.Ended?
  }

  /** No entry in the table belongs to a connection whose cleanup has begun. */
  ghost predicate Owners(custody: seq<Custody>, conns: seq<ConnState>) {
    && (forall e :: 0 <= e < |custody| ==> custody[e].owner < |conns|)
    && (forall e :: 0 <= e < |custody| && custody[e].holder == Published ==> !CleaningUp(conns[custody[e].owner].phase))
  }

  /** What a creation has built is for its own connection, under the requested name. */
  ghost predicate Builders(jobs: seq<Job>, stages: seq<Stage>, custody: seq<Custody>) {
    && |stages| == |jobs|
    && (forall j :: 0 <= j < |jobs| && (stages[j].Built? || stages[j].Unpublished? || stages[j].Faulted?) ==>
          jobs[j].lane == Shared && jobs[j].request.body.CreateActor?)
    && (forall j :: 0 <= j < |jobs| && (stages[j].Built? || stages[j].Unpublished?) ==>
          && stages[j].entry < |custody|
          && custody[stages[j].entry].owner == jobs[j].conn
          && custody[stages[j].entry].actorId == jobs[j].request.body.actorId
          && custody[stages[j].entry].maker == j
          && custody[stages[j].entry].born == None)
    && (forall j :: 0 <= j < |jobs| && (stages[j].Popped? || stages[j].Joining?) ==>
          jobs[j].lane == Shared && jobs[j].request.body.DestroyActor?)
  }

  // ---------- Jobs ----------

  ghost predicate PoolJobs(jobs: seq<Job>, stages: seq<Stage>, poolQueue: seq<JobId>, poolLive: bool) {
    && |stages| == |jobs|
    && Increasing(poolQueue)
    && (forall j {:trigger j in poolQueue} :: j in poolQueue ==> j < |jobs| && jobs[j].lane == Shared && stages[j] == Queued)
    && (forall j :: 0 <= j < |jobs| && jobs[j].lane == Shared && stages[j] == Queued ==> j in poolQueue)
    && (forall j :: 0 <= j < |jobs| && jobs[j].lane == Shared && stages[j] == Cancelled ==> !poolLive)
  }

  ghost predicate Results(stages: seq<Stage>, results: seq<Option<Outcome>>) {
    && |results| == |stages|
    && (forall j :: 0 <= j < |stages| && (stages[j].Answered? || stages[j] == Replying) ==> results[j].Some?)
    && (forall j :: 0 <= j < |stages| && !Finished(stages[j]) && stages[j] != Replying ==> results[j] == None)
  }

  ghost predicate OwnJobs(jobs: seq<Job>, custody: seq<Custody>, execs: seq<Executor>) {
    && |execs| == |custody|
    && (forall j {:trigger jobs[j]} :: 0 <= j < |jobs| && jobs[j].lane.Own? ==>
          && jobs[j].lane.entry < |custody|
          && jobs[j].request.body.CallActor?
          && jobs[j].request.body.actorId == custody[jobs[j].lane.entry].actorId
          && j in execs[jobs[j].lane.entry].submitted)
    && (forall e, j {:trigger j in execs[e].submitted} :: 0 <= e < |execs| && j in execs[e].submitted ==> j < |jobs| && jobs[j].lane == Own(e))
  }

  /** A job submitted to an actor is in the part of its executor that its stage says, and in no other. */
  ghost predicate Places(jobs: seq<Job>, stages: seq<Stage>, custody: seq<Custody>, execs: seq<Executor>) {
    && |stages| == |jobs| && |execs| == |custody|
    && (forall j {:trigger jobs[j]} :: 0 <= j < |jobs| && jobs[j].lane.Own? && jobs[j].lane.entry < |execs| ==>
          && (stages[j] == Queued <==> j in execs[jobs[j].lane.entry].queue)
          && (stages[j] == Started <==> execs[jobs[j].lane.entry].worker == Running(j))
          && (stages[j] == Replying <==> execs[jobs[j].lane.entry].worker == Finishing(j))
          && (stages[j] == Replying || stages[j].Answered? || stages[j] == Dropped || stages[j] == Silent <==> j in execs[jobs[j].lane.entry].ran)
          && (stages[j] == Cancelled ==> custody[jobs[j].lane.entry].mode == Cancelling)
          && (stages[j] == Queued || stages[j] == Started || stages[j] == Replying || Finished(stages[j])))
  }

  /** The history is what those jobs asked for and what they got. */
  ghost predicate Histories(jobs: seq<Job>, results: seq<Option<Outcome>>, execs: seq<Executor>) {
    && |results| == |jobs|
    && (forall e :: 0 <= e < |execs| ==> |execs[e].ran| == |execs[e].history|)
    && (forall e, k {:trigger execs[e].ran[k]} :: 0 <= e < |execs| && 0 <= k < |execs[e].ran| ==>
         && execs[e].ran[k] < |jobs|
         && jobs[execs[e].ran[k]].request.body == execs[e].history[k].call
         && results[execs[e].ran[k]] == execs[e].history[k].outcome)
  }

  // ---------- Output ----------

  ghost predicate Conns(jobs: seq<Job>, conns: seq<ConnState>, written: seq<seq<Sent>>) {
    && |written| == |conns|
    && forall j :: 0 <= j < |jobs| ==> jobs[j].conn < |conns|
  }

  /** The output of a connection is exactly the responses of its answered jobs, one each, and only jobs that have
      nothing to say end in silence. */
  ghost predicate Outputs(setup: Setup, jobs: seq<Job>, stages: seq<Stage>, results: seq<Option<Outcome>>,
                          written: seq<seq<Sent>>) {
    && |stages| == |jobs| == |results|
    && (forall c, k {:trigger written[c][k]} :: 0 <= c < |written| && 0 <= k < |written[c]| ==>
          && written[c][k].job < |jobs|
          && jobs[written[c][k].job].conn == c
          && stages[written[c][k].job] == Answered(k)
          && results[written[c][k].job].Some?
          && WireForm(setup, jobs[written[c][k].job], results[written[c][k].job].value) == Sends(written[c][k].response))
    && (forall j {:trigger stages[j]} :: 0 <= j < |jobs| && stages[j].Answered? ==>
          && jobs[j].conn < |written|
          && stages[j].at < |written[jobs[j].conn]|
          && written[jobs[j].conn][stages[j].at].job == j)
    && (forall j {:trigger stages[j]} :: 0 <= j < |jobs| && stages[j] == Silent ==> !Audible(setup, jobs[j], results[j]))
  }

  /** What `job` ran has an outcome, and the serializer says something about it or fails to in an orderly way. */
  predicate Audible(setup: Setup, job: Job, result: Option<Outcome>) {
    result.Some? && WireForm(setup, job, result.value) != Silence
  }

  // ---------- Connections and stopping ----------

  ghost predicate Flags(conns: seq<ConnState>) {
    && (forall c :: 0 <= c < |conns| && conns[c].phase != Serving ==> conns[c].closed)
    && (forall c :: 0 <= c < |conns| && conns[c].broken ==> conns[c].closed)
    && (forall c :: 0 <= c < |conns| && (conns[c].phase.SocketShut? || CleaningUp(conns[c].phase)) ==> conns[c].broken)
  }

  /** A response is dropped only for a connection that has been given up. */
  ghost predicate Drops(jobs: seq<Job>, stages: seq<Stage>, conns: seq<ConnState>) {
    && |stages| == |jobs|
    && (forall j :: 0 <= j < |jobs| && stages[j] == Dropped ==>
          jobs[j].conn < |conns| && conns[jobs[j].conn].closed)
    && (forall j :: 0 <= j < |jobs| && stages[j] == Dropped && jobs[j].lane.Own? ==> conns[jobs[j].conn].broken)
  }

  ghost predicate StopOk(stop: StopPhase, poolLive: bool, table: map<string, EntryId>, jobs: seq<Job>,
                         stages: seq<Stage>, poolQueue: seq<JobId>) {
    && (poolLive <==> stop.NotStopping? || stop.Flagged? || stop.ClosingConns?)
    && (stop.StoppingActors? || stop.Stopped? ==> table == map[] && PoolDone(jobs, stages, poolQueue))
  }

  // ---------- Time in the table ----------

  /** While an entry was in the table, every call naming its actor went to its executor. */
  ghost predicate Windows(jobs: seq<Job>, custody: seq<Custody>) {
    && (forall e :: 0 <= e < |custody| && custody[e].born.Some? ==>
          custody[e].born.value <= |jobs| && (custody[e].died.Some? ==> custody[e].died.value <= |jobs|))
    && (forall e, j :: 0 <= e < |custody| && custody[e].born.Some? && custody[e].born.value <= j < |jobs| &&
                       (custody[e].died.Some? ==> j < custody[e].died.value) &&
                       jobs[j].request.body.CallActor? && jobs[j].request.body.actorId == custody[e].actorId
          ==> jobs[j].lane == Own(e))
  }

  predicate Success(result: Option<Outcome>) {
    result.Some? && result.value.Returned?
  }

  /** A successful creation put its entry into the table, under the requested name. */
  ghost predicate Creations(jobs: seq<Job>, results: seq<Option<Outcome>>, targets: seq<Option<EntryId>>,
                            custody: seq<Custody>) {
    && |results| == |jobs| == |targets|
    && (forall j :: 0 <= j < |jobs| && jobs[j].request.body.CreateActor? && Success(results[j]) ==> targets[j].Some?)
    && (forall j :: 0 <= j < |jobs| && jobs[j].request.body.CreateActor? && targets[j].Some? ==>
          && targets[j].value < |custody|
          && custody[targets[j].value].actorId == jobs[j].request.body.actorId
          && custody[targets[j].value].owner == jobs[j].conn
          && custody[targets[j].value].born.Some?
          && j < custody[targets[j].value].born.value)
  }

  /** A destruction took its own connection's entry out of the table. */
  ghost predicate Destructions(jobs: seq<Job>, stages: seq<Stage>, results: seq<Option<Outcome>>,
                               targets: seq<Option<EntryId>>, custody: seq<Custody>) {
    && |stages| == |results| == |jobs| == |targets|
    && (forall j :: 0 <= j < |jobs| && (stages[j].Popped? || stages[j].Joining?) ==> targets[j] == Some(stages[j].entry))
    && (forall j :: 0 <= j < |jobs| && jobs[j].request.body.DestroyActor? && Success(results[j]) ==> targets[j].Some?)
    && (forall j :: 0 <= j < |jobs| && (stages[j] == Queued || stages[j] == Started) ==> targets[j] == None)
    && (forall j :: 0 <= j < |jobs| && jobs[j].request.body.DestroyActor? && targets[j].Some? ==>
          && targets[j].value < |custody|
          && custody[targets[j].value].actorId == jobs[j].request.body.actorId
          && custody[targets[j].value].owner == jobs[j].conn
          && custody[targets[j].value].born.Some?
          && custody[targets[j].value].died.Some?
          && j < custody[targets[j].value].died.value)
  }

  /** It succeeded only after its executor had drained. */
  ghost predicate Drained(jobs: seq<Job>, results: seq<Option<Outcome>>, targets: seq<Option<EntryId>>,
                          custody: seq<Custody>, execs: seq<Executor>) {
    && |results| == |jobs| == |targets| && |custody| == |execs|
    && (forall j :: 0 <= j < |jobs| && jobs[j].request.body.DestroyActor? && targets[j].Some? && Success(results[j]) ==>
          && targets[j].value < |custody|
          && custody[targets[j].value].mode == Draining
          && custody[targets[j].value].holder == Released
          && IsIdle(execs[targets[j].value]))
  }

  /** The answers to the calls an actor drained went out before the answer to its destruction. */
  ghost predicate AnswerOrder(jobs: seq<Job>, stages: seq<Stage>, results: seq<Option<Outcome>>,
                              targets: seq<Option<EntryId>>) {
    && |stages| == |results| == |jobs| == |targets|
    && forall d, j :: 0 <= d < |jobs| && 0 <= j < |jobs| && jobs[d].request.body.DestroyActor? &&
                      targets[d].Some? && Success(results[d]) && stages[d].Answered? &&
                      jobs[j].lane == Own(targets[d].value) && jobs[j].conn == jobs[d].conn
         ==> stages[j] == Silent || (stages[j].Answered? && stages[j].at < stages[d].at)
  }

  ghost predicate Inv(setup: Setup, s: State) {
    && Shape(s)
    && Executors(setup, s.execs) && Complete(s.custody, s.execs)
    && Shutdowns(s.custody) && TableOk(s.table, s.custody) && JobHolders(s.stages, s.custody)
    && ConnHolders(s.conns, s.custody) && StopHolders(s.stop, s.custody)
    && Owners(s.custody, s.conns) && Builders(s.jobs, s.stages, s.custody)
    && PoolJobs(s.jobs, s.stages, s.poolQueue, s.poolLive) && Results(s.stages, s.results)
    && OwnJobs(s.jobs, s.custody, s.execs) && Places(s.jobs, s.stages, s.custody, s.execs)
    && Histories(s.jobs, s.results, s.execs)
    && Conns(s.jobs, s.conns, s.written) && Outputs(setup, s.jobs, s.stages, s.results, s.written)
    && Flags(s.conns) && Drops(s.jobs, s.stages, s.conns)
    && StopOk(s.stop, s.poolLive, s.table, s.jobs, s.stages, s.poolQueue)
    && Windows(s.jobs, s.custody)
    && Creations(s.jobs, s.results, s.targets, s.custody)
    && Destructions(s.jobs, s.stages, s.results, s.targets, s.custody)
    && Drained(s.jobs, s.results, s.targets, s.custody, s.execs)
    && AnswerOrder(s.jobs, s.stages, s.results, s.targets)
  }

  // ---------- One executor at a time ----------

  ghost predicate Sound(setup: Setup, exec: Executor) {
    InOrder(exec) && Sequential(setup, exec)
  }

  /** A connection gets closer to its end without entries changing hands. */
  predicate Worsens(a: ConnState, b: ConnState) {
    && (a.closed ==> b.closed) && (a.broken ==> b.broken)
    && (b.phase == a.phase || a.phase == Reaping({}, None) || !CleaningUp(a.phase))
    && (b.phase == a.phase || (b.phase == Ended && a.phase == Reaping({}, None)) || !CleaningUp(b.phase))
    && (a.phase == Ended ==> b.phase == Ended)
    && (b.broken ==> b.closed) && (b.phase != Serving ==> b.closed)
    && (b.phase.SocketShut? || CleaningUp(b.phase) ==> b.broken)
  }

  lemma SubmitKeeps(setup: Setup, exec: Executor, j: JobId)
    requires Sound(setup, exec) && Line(exec) == exec.submitted
    requires forall i :: i in exec.submitted ==> i < j
    ensures Sound(setup, Submit(exec, j)) && Line(Submit(exec, j)) == Submit(exec, j).submitted
  {
    var t := Submit(exec, j);
    assert Line(t) == Line(exec) + [j];
    assert forall i :: 0 <= i < |exec.submitted| ==> exec.submitted[i] in exec.submitted;
  }

  lemma TakeKeeps(setup: Setup, exec: Executor)
    requires Sound(setup, exec) && exec.worker == Idle && exec.queue != []
    ensures Sound(setup, Take(exec)) && Line(Take(exec)) == Line(exec)
  {
    assert Line(Take(exec)) == Line(exec);
  }

  lemma InvokeKeeps(setup: Setup, exec: Executor, call: Body)
    requires Sound(setup, exec) && exec.worker.Running? && call.CallActor?
    ensures Sound(setup, Invoke(setup, exec, call)) && Line(Invoke(setup, exec, call)) == Line(exec)
  {
    hide RunMethod;
    var t := Invoke(setup, exec, call);
    assert Line(t) == Line(exec);
    var n := |exec.history|;
    assert t.history[..n] == exec.history;
    assert forall k :: 0 <= k < n ==> t.history[..k] == exec.history[..k];
  }

  lemma SkipKeeps(setup: Setup, exec: Executor)
    requires Sound(setup, exec) && exec.queue != []
    ensures Sound(setup, Skip(exec))
  {
    var n := |exec.ran + Current(exec.worker)|;
    assert Line(Skip(exec)) == Line(exec)[..n] + Line(exec)[n + 1..];
    assert forall j :: j in Line(Skip(exec)) ==> j in Line(exec);
  }

  lemma RestKeeps(setup: Setup, exec: Executor)
    requires Sound(setup, exec) && exec.worker.Finishing?
    ensures Sound(setup, exec.(worker := Idle)) && Line(exec.(worker := Idle)) == Line(exec)
  {
  }
}
