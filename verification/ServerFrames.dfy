/** Parts of the state that most steps leave alone, and what they keep by doing so. */
module ServerFrames {
  import opened Base
  import opened Messages
  import opened Server
  import opened ServerInvariant

  // ---------- Entries change hands ----------

  /** How an entry may change: its actor, owner and times are set once, an executor
      that has been shut down stays so, and what has been let go of is not taken up again. */
  ghost predicate Evolves(a: seq<Custody>, b: seq<Custody>, now: nat) {
    && |b| == |a|
    && forall e :: 0 <= e < |a| ==>
         && b[e].actorId == a[e].actorId
         && b[e].owner == a[e].owner
         && b[e].maker == a[e].maker
         && (if a[e].born.Some? then b[e].born == a[e].born
             else b[e].born == None || (b[e].born == Some(now) && b[e].died == None))
         && (if a[e].died.Some? then b[e].died == a[e].died else b[e].died == None || b[e].died == Some(now))
         && (a[e].mode != Live ==> b[e].mode == a[e].mode)
         && (a[e].holder == Released ==> b[e].holder == Released)
  }

  lemma CustodyFrame(s: State, custody: seq<Custody>)
    requires Evolves(s.custody, custody, |s.jobs|)
    requires Complete(s.custody, s.execs) && OwnJobs(s.jobs, s.custody, s.execs)
    requires forall e :: 0 <= e < |custody| && custody[e].holder == Released ==>
      s.custody[e].holder == Released || IsIdle(s.execs[e])
    ensures Complete(custody, s.execs) && OwnJobs(s.jobs, custody, s.execs)
  {
  }

  lemma CustodyPlacesFrame(s: State, custody: seq<Custody>)
    requires Evolves(s.custody, custody, |s.jobs|)
    requires Places(s.jobs, s.stages, s.custody, s.execs) && Windows(s.jobs, s.custody)
    ensures Places(s.jobs, s.stages, custody, s.execs) && Windows(s.jobs, custody)
  {
  }

  lemma CustodyTargetsFrame(s: State, custody: seq<Custody>)
    requires Evolves(s.custody, custody, |s.jobs|)
    requires Creations(s.jobs, s.results, s.targets, s.custody)
    requires Destructions(s.jobs, s.stages, s.results, s.targets, s.custody)
    requires Drained(s.jobs, s.results, s.targets, s.custody, s.execs)
    ensures Creations(s.jobs, s.results, s.targets, custody)
    ensures Destructions(s.jobs, s.stages, s.results, s.targets, custody)
    ensures Drained(s.jobs, s.results, s.targets, custody, s.execs)
  {
  }

  // ---------- A job moves without being answered ----------

  /** Job `j` goes on to `stage` with `result`, and is neither answered nor back in a queue. */
  ghost predicate Moves(s: State, j: JobId, stage: Stage, result: Option<Outcome>) {
    && Shape(s) && j < |s.jobs| && !Finished(s.stages[j])
    && stage != Queued && !stage.Answered?
    && (result == s.results[j] || s.results[j] == None)
    && (stage == Replying ==> result.Some?)
    && (!Finished(stage) && stage != Replying ==> result == None)
  }

  lemma MoveFrame(setup: Setup, s: State, j: JobId, stage: Stage, result: Option<Outcome>)
    requires Moves(s, j, stage, result) && (stage == Dropped ==> s.jobs[j].lane == Shared)
    requires stage == Silent ==> !Audible(setup, s.jobs[j], result)
    requires Outputs(setup, s.jobs, s.stages, s.results, s.written) && Results(s.stages, s.results)
    requires AnswerOrder(s.jobs, s.stages, s.results, s.targets)
    ensures var stages, results := s.stages[j := stage], s.results[j := result];
      && Outputs(setup, s.jobs, stages, results, s.written) && Results(stages, results)
      && AnswerOrder(s.jobs, stages, results, s.targets)
  {
  }

  /** A destruction or creation that succeeds without its entry being recorded would be a lie. */
  ghost predicate Honest(s: State, j: JobId, result: Option<Outcome>)
    requires Shape(s) && j < |s.jobs|
  {
    s.jobs[j].request.body.CreateActor? || s.jobs[j].request.body.DestroyActor? ==>
      result == s.results[j] || !Success(result)
  }

  lemma ResultFrame(s: State, j: JobId, stage: Stage, result: Option<Outcome>)
    requires Moves(s, j, stage, result) && Honest(s, j, result) && !stage.Popped? && !stage.Joining?
    requires stage == Started ==> s.stages[j] == Queued
    requires Creations(s.jobs, s.results, s.targets, s.custody)
    requires Destructions(s.jobs, s.stages, s.results, s.targets, s.custody)
    requires Drained(s.jobs, s.results, s.targets, s.custody, s.execs)
    ensures var stages, results := s.stages[j := stage], s.results[j := result];
      && Creations(s.jobs, results, s.targets, s.custody)
      && Destructions(s.jobs, stages, results, s.targets, s.custody)
      && Drained(s.jobs, results, s.targets, s.custody, s.execs)
  {
  }

  /** A move by which no entry changes hands. */
  lemma HolderFrame(s: State, j: JobId, stage: Stage)
    requires Shape(s) && j < |s.jobs|
    requires Holds(stage) || Holds(s.stages[j]) ==> s.stages[j].Built? && stage.Unpublished? && stage.entry == s.stages[j].entry
    requires stage.Faulted? ==> s.jobs[j].lane == Shared && s.jobs[j].request.body.CreateActor?
    requires JobHolders(s.stages, s.custody) && Builders(s.jobs, s.stages, s.custody)
    ensures JobHolders(s.stages[j := stage], s.custody) && Builders(s.jobs, s.stages[j := stage], s.custody)
  {
  }

  /** A task of the shared pool goes on. */
  lemma SharedFrame(s: State, j: JobId, stage: Stage, result: Option<Outcome>)
    requires Moves(s, j, stage, result) && s.jobs[j].lane == Shared && s.stages[j] != Queued
    requires stage != Cancelled && (stage == Dropped ==> s.jobs[j].conn < |s.conns| && s.conns[s.jobs[j].conn].closed)
    requires PoolJobs(s.jobs, s.stages, s.poolQueue, s.poolLive) && Places(s.jobs, s.stages, s.custody, s.execs)
    requires Drops(s.jobs, s.stages, s.conns)
    requires StopOk(s.stop, s.poolLive, s.table, s.jobs, s.stages, s.poolQueue)
    ensures var stages := s.stages[j := stage];
      && PoolJobs(s.jobs, stages, s.poolQueue, s.poolLive) && Places(s.jobs, stages, s.custody, s.execs)
      && Drops(s.jobs, stages, s.conns)
      && StopOk(s.stop, s.poolLive, s.table, s.jobs, stages, s.poolQueue)
  {
  }

  /** What has run was submitted. */
  ghost predicate Ranged(execs: seq<Executor>) {
    forall e, k {:trigger execs[e].ran[k]} :: 0 <= e < |execs| && 0 <= k < |execs[e].ran| ==>
      execs[e].ran[k] in execs[e].submitted
  }

  lemma RunsWereSubmitted(setup: Setup, execs: seq<Executor>)
    requires Executors(setup, execs)
    ensures Ranged(execs)
  {
    forall e, k | 0 <= e < |execs| && 0 <= k < |execs[e].ran| ensures execs[e].ran[k] in execs[e].submitted {
      assert InOrder(execs[e]);
      assert Line(execs[e])[k] == execs[e].ran[k];
      assert execs[e].ran[k] in Line(execs[e]);
    }
  }

  lemma SharedHistories(s: State, j: JobId, result: Option<Outcome>)
    requires Shape(s) && j < |s.jobs| && s.jobs[j].lane == Shared
    requires Histories(s.jobs, s.results, s.execs) && OwnJobs(s.jobs, s.custody, s.execs) && Ranged(s.execs)
    ensures Histories(s.jobs, s.results[j := result], s.execs)
  {
  }

  /** A job of an actor's executor goes on. */
  lemma OwnFrame(s: State, j: JobId, stage: Stage, result: Option<Outcome>)
    requires Moves(s, j, stage, result) && s.jobs[j].lane.Own?
    requires stage == Dropped ==> s.jobs[j].conn < |s.conns| && s.conns[s.jobs[j].conn].closed && s.conns[s.jobs[j].conn].broken
    requires PoolJobs(s.jobs, s.stages, s.poolQueue, s.poolLive) && Drops(s.jobs, s.stages, s.conns)
    requires StopOk(s.stop, s.poolLive, s.table, s.jobs, s.stages, s.poolQueue)
    ensures var stages := s.stages[j := stage];
      && PoolJobs(s.jobs, stages, s.poolQueue, s.poolLive) && Drops(s.jobs, stages, s.conns)
      && StopOk(s.stop, s.poolLive, s.table, s.jobs, stages, s.poolQueue)
  {
  }

  // ---------- A request is accepted ----------

  lemma AppendFrame(s: State, job: Job, stage: Stage)
    requires Shape(s) && (stage == Queued || stage == Dropped) && job.conn < |s.conns|
    requires JobHolders(s.stages, s.custody) && Builders(s.jobs, s.stages, s.custody)
    requires Results(s.stages, s.results) && Conns(s.jobs, s.conns, s.written)
    requires Histories(s.jobs, s.results, s.execs)
    ensures Shape(AddJob(s, job, stage))
    ensures var t := AddJob(s, job, stage);
      && JobHolders(t.stages, s.custody) && Builders(t.jobs, t.stages, s.custody)
      && Results(t.stages, t.results) && Conns(t.jobs, s.conns, s.written)
      && Histories(t.jobs, t.results, s.execs)
  {
  }

  lemma AppendOutputs(setup: Setup, s: State, job: Job, stage: Stage)
    requires Shape(s) && (stage == Queued || stage == Dropped)
    requires Outputs(setup, s.jobs, s.stages, s.results, s.written)
    ensures var t := AddJob(s, job, stage); Outputs(setup, t.jobs, t.stages, t.results, s.written)
  {
  }

  lemma AppendTargetsFrame(s: State, job: Job, stage: Stage)
    requires Shape(s) && (stage == Queued || stage == Dropped)
    requires Creations(s.jobs, s.results, s.targets, s.custody)
    requires Destructions(s.jobs, s.stages, s.results, s.targets, s.custody)
    ensures var t := AddJob(s, job, stage);
      && Creations(t.jobs, t.results, t.targets, s.custody)
      && Destructions(t.jobs, t.stages, t.results, t.targets, s.custody)
  {
  }

  lemma AppendDrainFrame(s: State, job: Job, stage: Stage)
    requires Shape(s) && (stage == Queued || stage == Dropped)
    requires job.lane.Own? ==> job.lane.entry < |s.custody| && s.custody[job.lane.entry].mode == Live
    requires Drained(s.jobs, s.results, s.targets, s.custody, s.execs)
    requires AnswerOrder(s.jobs, s.stages, s.results, s.targets)
    ensures var t := AddJob(s, job, stage);
      && Drained(t.jobs, t.results, t.targets, s.custody, s.execs)
      && AnswerOrder(t.jobs, t.stages, t.results, t.targets)
  {
  }
}
