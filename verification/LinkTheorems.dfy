/** What a client gets from the server, end to end. */
module LinkTheorems {
  import opened Base
  import opened Messages
  import opened Link
  import opened LinkInvariant
  import opened LinkRuns
  import S = Server
  import SI = ServerInvariant
  import SH = ServerHistory
  import SA = ServerAccounting
  import SL = ServerLifecycle
  import SX = ServerCauses
  import C = Client
  import CI = ClientInvariant
  import CR = ClientRuns
  import CT = ClientTheorems
  import CW = ClientWitness

  // ---------- Correlation ----------

  /** The next response names reference `r` = `wire[k]`, whose call is waiting in the pending map,
      and carries the outcome of the job made of that very request. */
  ghost predicate Matches(w: Wiring, x: System, k: nat, reading: Reading) {
    && k < |x.accepted| && |x.accepted| <= |x.client.wire|
    && S.Shape(x.server) && C.Shape(x.client)
    && var r, j := x.client.wire[k], x.accepted[k];
       && r < |x.client.calls| && j < |x.server.jobs|
       && x.server.jobs[j].conn == w.conn && x.server.jobs[j].request == x.client.calls[r].request
       && reading.Completes? && reading.callId == x.client.calls[r].request.callId
       && reading.callId in x.client.pending && x.client.pending[reading.callId] == r
       && x.client.states[r] == C.Waiting
       && x.server.results[j].Some?
       && SA.FaithfulTo(w.setup, x.server.results[j].value, Response(reading.callId, reading.outcome))
  }

  lemma WaitingInTheMap(w: Wiring, x: System, k: nat)
    requires S.Shape(x.server) && C.Shape(x.client) && x.client.closing == C.Open && x.client.reader == C.Reading
    requires x.client.orphans == {} && x.received < |Output(x.server.written, w.conn)|
    requires k < |x.accepted| && k < |x.client.wire| && x.client.wire[k] in x.client.wire
    requires x.accepted[k] == Output(x.server.written, w.conn)[x.received].job
    requires SI.Outputs(w.setup, x.server.jobs, x.server.stages, x.server.results, x.server.written)
    requires Delivered(w.conn, x.server.jobs, x.client.calls, x.client.wire, x.accepted)
    requires Received(Output(x.server.written, w.conn), x.client.calls, x.client.states, x.client.wire,
                      x.client.reader, x.client.handled, x.received)
    requires CI.Ids(x.client.calls) && CI.WireOk(x.client.sends, x.client.wire)
    requires CI.MapOk(x.client.calls, x.client.sends, x.client.states, x.client.pending)
    requires CI.ReturnsOk(x.client.sends, x.client.states, x.client.closing, x.client.handled)
    requires CI.Somewhere(x.client.calls, x.client.sends, x.client.states, x.client.pending, x.client.reader,
                          x.client.closing, x.client.orphans)
    ensures var r := x.client.wire[k];
      && r < |x.client.calls| && x.client.states[r] == C.Waiting
      && x.client.calls[r].request.callId in x.client.pending
      && x.client.pending[x.client.calls[r].request.callId] == r
  {
    var r, output := x.client.wire[k], Output(x.server.written, w.conn);
    if x.client.states[r].Done? {
      var a :| 0 <= a < |x.client.handled| && x.client.handled[a] == r;
      AnsweredBefore(w, x, k, a);
      assert false;
    }
    assert x.client.pending[x.client.calls[r].request.callId] == r;
  }

  /** The response to the request at place `k` of the wire is the one whose reference the reader popped. */
  lemma AnsweredBefore(w: Wiring, x: System, k: nat, a: nat)
    requires S.Shape(x.server) && C.Shape(x.client)
    requires k < |x.accepted| && k < |x.client.wire| && a < |x.client.handled|
    requires x.client.handled[a] == x.client.wire[k]
    requires SI.Outputs(w.setup, x.server.jobs, x.server.stages, x.server.results, x.server.written)
    requires Delivered(w.conn, x.server.jobs, x.client.calls, x.client.wire, x.accepted)
    requires Received(Output(x.server.written, w.conn), x.client.calls, x.client.states, x.client.wire,
                      x.client.reader, x.client.handled, x.received)
    requires CI.Ids(x.client.calls) && NoDuplicates(x.client.wire)
    ensures x.accepted[k] < |x.server.stages| && x.server.stages[x.accepted[k]] == S.Answered(a)
    ensures a < |Output(x.server.written, w.conn)| && Output(x.server.written, w.conn)[a].job == x.accepted[k]
  {
    assert x.client.handled[a] < |x.client.calls|;
    var m := AnswerOf(w, x, a, x.client.calls[x.client.wire[k]].request.callId);
    assert x.client.wire[m] == x.client.wire[k];
    SA.HonestFacts(w.setup, x.server, w.conn, a);
  }

  /** While the connection is open, every response the reader reads names a call that is still in
      the pending map, and carries the outcome of the request with that id, in
      whatever order the shared pool finished. */
  lemma ResponsesFindTheirCalls(w: Wiring, systems: seq<System>, steps: seq<Step>, i: nat) returns (k: nat)
    requires IsRun(w, systems, steps) && i < |steps| && steps[i].Act? && steps[i].client.Receive?
    requires systems[i].client.closing == C.Open
    ensures Matches(w, systems[i], k, steps[i].client.reading)
    ensures systems[i + 1].client.reader == C.Holding(systems[i].client.wire[k], steps[i].client.reading.outcome)
  {
    var x, reading := systems[i], steps[i].client.reading;
    assert CanAct(w, x, C.Receive(reading)) && systems[i + 1] == DoAct(w, x, C.Receive(reading)) && Wired(w) by {
      assert Can(w, systems[i], steps[i]);
    }
    RunInv(w, systems, steps, i);
    hide SI.Executors, SI.Complete, SI.Shutdowns, SI.TableOk, SI.JobHolders, SI.ConnHolders, SI.StopHolders,
      SI.Owners, SI.Builders, SI.PoolJobs, SI.Results, SI.OwnJobs, SI.Places, SI.Histories, SI.Conns, SI.Outputs,
      SI.Flags, SI.Drops, SI.StopOk, SI.Windows, SI.Creations, SI.Destructions, SI.Drained, SI.AnswerOrder,
      SH.Makers, S.Can, S.Do, C.Can, C.Do, CI.Ids, CI.MapOk, CI.Locks, CI.Unentered, CI.HandledOk, CI.ClosingOk,
      CI.OrphansOk, CI.Somewhere, CI.WireOk, CI.ReturnsOk, CI.HandlesOk, CI.ViasOk, CI.CloseIsLast, CI.OrderOk, CI.WritesOk, CI.LatestVia, CI.ViaOrder, Delivered,
      Received, Published, IsRun, ReadResponse, BuildResponse, Matches;
    ReadFacts(w, x, reading);
    k := MatchFacts(w, x, reading);
    assert systems[i + 1].client.reader == C.Holding(x.client.wire[k], reading.outcome) by { ReadingFacts(w, x, k, reading); }
  }

  lemma ReadingFacts(w: Wiring, x: System, k: nat, reading: Reading)
    requires Matches(w, x, k, reading) && CanAct(w, x, C.Receive(reading))
    ensures DoAct(w, x, C.Receive(reading)).client.reader == C.Holding(x.client.wire[k], reading.outcome)
  {
  }

  lemma AcceptedFacts(w: Wiring, x: System, k: nat)
    requires Delivered(w.conn, x.server.jobs, x.client.calls, x.client.wire, x.accepted) && k < |x.accepted|
    ensures |x.accepted| <= |x.client.wire| && x.client.wire[k] < |x.client.calls| && x.accepted[k] < |x.server.jobs|
    ensures x.server.jobs[x.accepted[k]].conn == w.conn
    ensures x.server.jobs[x.accepted[k]].request == x.client.calls[x.client.wire[k]].request
  {
  }

  lemma ReadFacts(w: Wiring, x: System, reading: Reading)
    requires CanAct(w, x, C.Receive(reading))
    ensures x.client.reader == C.Reading && x.received < |Output(x.server.written, w.conn)|
    ensures reading == ReadResponse(w.show, BuildResponse(Output(x.server.written, w.conn)[x.received].response))
  {
  }

  lemma MatchFacts(w: Wiring, x: System, reading: Reading) returns (k: nat)
    requires Wired(w) && x.client.closing == C.Open && x.client.orphans == {} && x.client.reader == C.Reading
    requires S.Shape(x.server) && C.Shape(x.client) && x.received < |Output(x.server.written, w.conn)|
    requires reading == ReadResponse(w.show, BuildResponse(Output(x.server.written, w.conn)[x.received].response))
    requires SI.Outputs(w.setup, x.server.jobs, x.server.stages, x.server.results, x.server.written)
    requires Delivered(w.conn, x.server.jobs, x.client.calls, x.client.wire, x.accepted)
    requires Received(Output(x.server.written, w.conn), x.client.calls, x.client.states, x.client.wire,
                      x.client.reader, x.client.handled, x.received)
    requires CI.Ids(x.client.calls) && CI.WireOk(x.client.sends, x.client.wire)
    requires CI.MapOk(x.client.calls, x.client.sends, x.client.states, x.client.pending)
    requires CI.ReturnsOk(x.client.sends, x.client.states, x.client.closing, x.client.handled)
    requires CI.Somewhere(x.client.calls, x.client.sends, x.client.states, x.client.pending, x.client.reader,
                          x.client.closing, x.client.orphans)
    ensures Matches(w, x, k, reading)
  {
    var response := Output(x.server.written, w.conn)[x.received].response;
    ResponseArrives(w, response);
    hide SI.Outputs, Received, CI.Ids, CI.WireOk, CI.MapOk, CI.ReturnsOk, CI.Somewhere, ReadResponse, BuildResponse;
    SA.HonestFacts(w.setup, x.server, w.conn, x.received);
    k := AnswerOf(w, x, x.received, response.callId);
    AcceptedFacts(w, x, k);
    WaitingInTheMap(w, x, k);
    hide Delivered;
  }

  /** What the reader holds is waiting, so completing it succeeds and gives it the outcome that was read. */
  lemma CompletionSucceeds(w: Wiring, systems: seq<System>, steps: seq<Step>, i: nat)
    requires IsRun(w, systems, steps) && i < |steps| && steps[i] == Act(C.Complete)
    requires systems[i].client.reader.Holding?
    ensures var r, t := systems[i].client.reader.ref, systems[i + 1].client;
      && r < |t.states| && t.states[r] == C.Done(systems[i].client.reader.outcome) && t.reader == C.Reading
  {
    var x := systems[i];
    assert CanAct(w, x, C.Complete) && systems[i + 1] == DoAct(w, x, C.Complete) by {
      assert Can(w, systems[i], steps[i]);
    }
    RunInv(w, systems, steps, i);
    hide SI.Executors, SI.Complete, SI.Shutdowns, SI.TableOk, SI.JobHolders, SI.ConnHolders, SI.StopHolders,
      SI.Owners, SI.Builders, SI.PoolJobs, SI.Results, SI.OwnJobs, SI.Places, SI.Histories, SI.Conns, SI.Outputs,
      SI.Flags, SI.Drops, SI.StopOk, SI.Windows, SI.Creations, SI.Destructions, SI.Drained, SI.AnswerOrder,
      SH.Makers, S.Can, S.Do, C.Can, C.Do, CI.Ids, CI.MapOk, CI.Locks, CI.Unentered, CI.HandledOk, CI.ClosingOk,
      CI.OrphansOk, CI.Somewhere, CI.WireOk, CI.ReturnsOk, CI.HandlesOk, CI.ViasOk, CI.CloseIsLast, CI.OrderOk, CI.WritesOk, CI.LatestVia, CI.ViaOrder, Delivered,
      Received, Published, IsRun, CanAct, DoAct;
    CanCompleteFacts(w, x);
    HeldIsWaiting(x, Output(x.server.written, w.conn));
    CompleteFacts(w, x);
  }

  lemma CanCompleteFacts(w: Wiring, x: System)
    requires CanAct(w, x, C.Complete)
    ensures C.CanComplete(x.client)
  {
  }

  lemma CompleteFacts(w: Wiring, x: System)
    requires CanAct(w, x, C.Complete) && C.CanComplete(x.client) && x.client.states[x.client.reader.ref] == C.Waiting
    ensures var r, t := x.client.reader.ref, DoAct(w, x, C.Complete).client;
      r < |t.states| && t.states[r] == C.Done(x.client.reader.outcome) && t.reader == C.Reading
  {
  }

  // ---------- A function's result gets to its caller ----------

  /** The server of a run is itself a run of the server; `at` tells where each of its steps is in the whole run. */
  lemma {:induction false} ServerOf(w: Wiring, systems: seq<System>, steps: seq<Step>, i: nat)
      returns (states: seq<S.State>, serves: seq<S.Step>, at: seq<nat>)
    requires IsRun(w, systems, steps) && i < |systems|
    ensures S.IsRun(w.setup, states, serves) && states[|serves|] == systems[i].server && |at| == |serves|
    ensures forall n {:trigger at[n]} :: 0 <= n < |at| ==> at[n] < i && steps[at[n]] == Serve(serves[n])
  {
    hide Can, Do, S.Can, S.Do;
    if i == 0 {
      states, serves, at := [S.INITIAL], [], [];
    } else {
      states, serves, at := ServerOf(w, systems, steps, i - 1);
      ServerStep(w, systems, steps, i - 1);
      if steps[i - 1].Serve? {
        hide IsRun;
        states, serves, at := states + [systems[i].server], serves + [steps[i - 1].server], at + [i - 1];
      }
    }
  }

  lemma ServerStep(w: Wiring, systems: seq<System>, steps: seq<Step>, i: nat)
    requires IsRun(w, systems, steps) && i < |steps|
    ensures steps[i].Act? ==> systems[i + 1].server == systems[i].server
    ensures steps[i].Serve? ==>
      S.Can(w.setup, systems[i].server, steps[i].server) && systems[i + 1].server == S.Do(w.setup, systems[i].server, steps[i].server)
  {
    assert Can(w, systems[i], steps[i]) && systems[i + 1] == Do(w, systems[i], steps[i]);
    hide C.Can, C.Do, S.Can, S.Do;
  }

  /** What the function came to in step `m`, or the serializer's error when it refuses to say that, is what the
      response carries. */
  predicate CarriesReturn(w: Wiring, step: Step, j: S.JobId, reading: Reading) {
    && step.Serve? && step.server.ByTask? && step.server.task.FunctionReturns? && step.server.task.j == j
    && step.server.task.outcome.Some? && reading.Completes?
    && var outcome := step.server.task.outcome.value;
       var said := w.setup.dumps(Response(reading.callId, outcome));
       reading.outcome == if said.Raises? && said.error.Some? then Raised(said.error.value) else outcome
  }

  /** A function call ends where it began: while the connection is open, a response that answers a function call names the
      waiting reference of that call and carries what the function came to in the one step in which
      it returned, or the serializer's error in its place. */
  lemma FunctionResultsArrive(w: Wiring, systems: seq<System>, steps: seq<Step>, i: nat) returns (k: nat, m: nat)
    requires IsRun(w, systems, steps) && i < |steps| && steps[i].Act? && steps[i].client.Receive?
    requires systems[i].client.closing == C.Open
    ensures Matches(w, systems[i], k, steps[i].client.reading)
    ensures systems[i].client.calls[systems[i].client.wire[k]].request.body.Call? ==>
      m < i && CarriesReturn(w, steps[m], systems[i].accepted[k], steps[i].client.reading)
  {
    k := ResponsesFindTheirCalls(w, systems, steps, i);
    m := 0;
    if systems[i].client.calls[systems[i].client.wire[k]].request.body.Call? {
      var states, serves, at := ServerOf(w, systems, steps, i);
      hide IsRun, S.IsRun;
      var n := SX.FunctionsReturnTheirResult(w.setup, states, serves, |serves|, systems[i].accepted[k]);
      m := at[n];
    }
  }

  // ---------- Closing a handle drains its actor ----------

  predicate Creates(job: S.Job, id: string) {
    job.request.body.CreateActor? && job.request.body.actorId == id
  }

  /** The actor id was used for one creation only: the model's reading of a random UUID. */
  ghost predicate CreatedOnce(jobs: seq<S.Job>, id: string) {
    forall i, j :: 0 <= i < |jobs| && 0 <= j < |jobs| && Creates(jobs[i], id) && Creates(jobs[j], id) ==> i == j
  }

  /** The request at place `k` of the wire was run by executor `e` and answered with what that run gave, and its
      reference got that answer. If the run gave nothing to say, there was no answer. */
  ghost predicate Processed(w: Wiring, x: System, e: S.EntryId, k: nat) {
    && k < |x.accepted| && k < |x.client.wire|
    && S.Shape(x.server) && C.Shape(x.client) && e < |x.server.execs|
    && var r, j, output := x.client.wire[k], x.accepted[k], Output(x.server.written, w.conn);
       && r < |x.client.calls| && j < |x.server.jobs| && x.server.jobs[j].request == x.client.calls[r].request
       && j in x.server.execs[e].ran
       && if SI.Audible(w.setup, x.server.jobs[j], x.server.results[j]) then
            && x.server.stages[j].Answered? && x.server.stages[j].at < |output| && output[x.server.stages[j].at].job == j
            && SA.FaithfulTo(w.setup, x.server.results[j].value, output[x.server.stages[j].at].response)
            && x.client.states[r] == C.Done(output[x.server.stages[j].at].response.outcome)
          else x.server.stages[j] == S.Silent
  }

  /** The destruction that handle `h` sent succeeded: its entry is the one the handle's creation published. */
  lemma DestroyedIsMade(w: Wiring, x: System, h: C.HandleId, d: nat, m: nat)
    requires S.Shape(x.server) && C.Shape(x.client) && h < |x.client.handles| && x.client.handles[h].owns
    requires d < |x.accepted| && m < |x.accepted| && |x.accepted| <= |x.client.wire|
    requires x.client.handles[h].destroyer == Some(x.client.wire[d]) && x.client.handles[h].maker == x.client.wire[m]
    requires x.accepted[d] < |x.server.jobs| && x.accepted[m] < |x.server.jobs|
    requires SI.Success(x.server.results[x.accepted[d]])
    requires CreatedOnce(x.server.jobs, x.client.handles[h].actorId)
    requires SH.Makers(SH.Books(x.server), x.server.custody)
    requires SI.Destructions(x.server.jobs, x.server.stages, x.server.results, x.server.targets, x.server.custody)
    requires Delivered(w.conn, x.server.jobs, x.client.calls, x.client.wire, x.accepted)
    requires Published(x.server.custody, x.server.targets, x.client.calls, x.client.handles, x.client.wire, x.accepted)
    requires CI.HandlesOk(x.client.calls, x.client.sends, x.client.states, x.client.handles)
    ensures x.server.targets[x.accepted[d]].Some? && x.server.targets[x.accepted[m]] == x.server.targets[x.accepted[d]]
    ensures x.server.jobs[x.accepted[d]].request.body == DestroyActor(x.client.handles[h].actorId)
    ensures InTable(x.server.custody, x.server.targets[x.accepted[d]])
  {
  }

  lemma DrainedCall(w: Wiring, x: System, h: C.HandleId, d: nat, m: nat, a: nat, k: nat)
    requires S.Shape(x.server) && C.Shape(x.client) && h < |x.client.handles| && x.client.handles[h].owns
    requires k < d < |x.accepted| && m < |x.accepted| && |x.accepted| <= |x.client.wire|
    requires x.client.wire[k] < |x.client.calls| && x.client.calls[x.client.wire[k]].via == Some(h)
    requires x.client.handles[h].maker == x.client.wire[m]
    requires x.accepted[d] < |x.server.jobs| && x.accepted[m] < |x.server.jobs| && x.accepted[k] < |x.server.jobs|
    requires x.server.jobs[x.accepted[d]].request.body == DestroyActor(x.client.handles[h].actorId)
    requires SI.Success(x.server.results[x.accepted[d]]) && x.server.stages[x.accepted[d]] == S.Answered(a)
    requires a < |x.client.handled| && x.client.handled[a] == x.client.wire[d]
    requires x.server.targets[x.accepted[m]] == x.server.targets[x.accepted[d]]
    requires InTable(x.server.custody, x.server.targets[x.accepted[d]])
    requires SI.Destructions(x.server.jobs, x.server.stages, x.server.results, x.server.targets, x.server.custody)
    requires SI.Windows(x.server.jobs, x.server.custody)
    requires SI.Places(x.server.jobs, x.server.stages, x.server.custody, x.server.execs)
    requires SI.OwnJobs(x.server.jobs, x.server.custody, x.server.execs)
    requires SI.AnswerOrder(x.server.jobs, x.server.stages, x.server.results, x.server.targets)
    requires SI.Outputs(w.setup, x.server.jobs, x.server.stages, x.server.results, x.server.written)
    requires Delivered(w.conn, x.server.jobs, x.client.calls, x.client.wire, x.accepted)
    requires Received(Output(x.server.written, w.conn), x.client.calls, x.client.states, x.client.wire,
                      x.client.reader, x.client.handled, x.received)
    requires Published(x.server.custody, x.server.targets, x.client.calls, x.client.handles, x.client.wire, x.accepted)
    requires CI.Ids(x.client.calls) && CI.ViasOk(x.client.calls, x.client.sends, x.client.handles)
    requires NoDuplicates(x.client.handled)
    ensures Processed(w, x, x.server.targets[x.accepted[d]].value, k)
  {
    var r, j, jd, output := x.client.wire[k], x.accepted[k], x.accepted[d], Output(x.server.written, w.conn);
    assert Through(x.client.calls, x.client.handles, r, x.client.wire[m]);
    DrainCallFacts(w, x, h, d, k);
    assert x.server.custody[x.server.targets[x.accepted[m]].value].born.value <= j;
    hide Published;
    SL.DrainFacts(w.setup, x.server, jd, j);
    hide SI.Destructions, SI.Windows, SI.Places, SI.OwnJobs, SI.AnswerOrder;
    if SI.Audible(w.setup, x.server.jobs[j], x.server.results[j]) {
      var b := x.server.stages[j].at;
      assert output[b].job == j;
      SA.HonestFacts(w.setup, x.server, w.conn, b);
      hide SI.Outputs, Delivered;
      assert x.client.calls[x.client.handled[b]].request.callId == x.client.calls[r].request.callId;
      assert x.client.handled[b] == r;
    }
  }

  lemma DrainCallFacts(w: Wiring, x: System, h: C.HandleId, d: nat, k: nat)
    requires C.Shape(x.client) && h < |x.client.handles| && k < d < |x.accepted| && |x.accepted| <= |x.client.wire|
    requires x.client.wire[k] < |x.client.calls| && x.client.calls[x.client.wire[k]].via == Some(h)
    requires Delivered(w.conn, x.server.jobs, x.client.calls, x.client.wire, x.accepted)
    requires CI.ViasOk(x.client.calls, x.client.sends, x.client.handles)
    ensures x.accepted[k] < x.accepted[d] < |x.server.jobs|
    ensures x.server.jobs[x.accepted[k]].conn == x.server.jobs[x.accepted[d]].conn == w.conn
    ensures x.server.jobs[x.accepted[k]].request == x.client.calls[x.client.wire[k]].request
    ensures x.server.jobs[x.accepted[k]].request.body.CallActor?
    ensures x.server.jobs[x.accepted[k]].request.body.actorId == x.client.handles[h].actorId
  {
  }

  /** The response that completed the destruction: a success, at the place the reader popped it from. */
  lemma DestructionAnswered(w: Wiring, x: System, d: C.RefId) returns (l: nat, a: nat)
    requires S.Shape(x.server) && C.Shape(x.client) && d < |x.client.calls|
    requires x.client.states[d].Done? && x.client.states[d].outcome.Returned?
    requires SI.Outputs(w.setup, x.server.jobs, x.server.stages, x.server.results, x.server.written)
    requires Delivered(w.conn, x.server.jobs, x.client.calls, x.client.wire, x.accepted)
    requires Received(Output(x.server.written, w.conn), x.client.calls, x.client.states, x.client.wire,
                      x.client.reader, x.client.handled, x.received)
    requires CI.Ids(x.client.calls) && CI.WireOk(x.client.sends, x.client.wire)
    requires CI.ReturnsOk(x.client.sends, x.client.states, x.client.closing, x.client.handled)
    requires CI.HandledOk(x.client.calls, x.client.sends, x.client.states, x.client.pending, x.client.reader, x.client.handled)
    ensures l < |x.accepted| <= |x.client.wire| && x.client.wire[l] == d && a < |x.client.handled|
    ensures x.client.handled[a] == d
    ensures x.accepted[l] < |x.server.jobs| && x.server.stages[x.accepted[l]] == S.Answered(a)
    ensures SI.Success(x.server.results[x.accepted[l]])
  {
    var output := Output(x.server.written, w.conn);
    assert d in x.client.handled;
    a :| 0 <= a < |x.client.handled| && x.client.handled[a] == d;
    l := AnswerOf(w, x, a, x.client.calls[d].request.callId);
    AnsweredBefore(w, x, l, a);
    SA.HonestFacts(w.setup, x.server, w.conn, a);
    assert x.client.states[d] == C.Done(output[a].response.outcome);
  }

  lemma MakerPlace(x: System, h: C.HandleId) returns (m: nat)
    requires h < |x.client.handles| && x.client.handles[h].owns && |x.accepted| <= |x.client.wire|
    requires Published(x.server.custody, x.server.targets, x.client.calls, x.client.handles, x.client.wire, x.accepted)
    ensures m < |x.accepted| && x.client.wire[m] == x.client.handles[h].maker
  {
    m :| 0 <= m < |x.accepted| && x.client.wire[..|x.accepted|][m] == x.client.handles[h].maker;
  }

  /** `close` on owning handle `h` has received the successful response to its destruction. */
  predicate ClosedWell(s: C.State, h: C.HandleId) {
    && C.Shape(s) && h < |s.handles| && s.handles[h].owns && s.handles[h].destroyer.Some?
    && var d := s.handles[h].destroyer.value;
       d < |s.calls| && s.states[d].Done? && s.states[d].outcome.Returned?
  }

  /** Every call ever written through handle `h` was processed by executor `e`, once, and they ran in the order in which
      the client made them. */
  ghost predicate AllProcessed(w: Wiring, x: System, h: C.HandleId, e: S.EntryId) {
    && e < |x.server.execs| && NoDuplicates(x.server.execs[e].ran)
    && (forall k {:trigger x.client.wire[k]} :: 0 <= k < |x.client.wire| && IsCallVia(x.client, x.client.wire[k], h) ==>
          Processed(w, x, e, k))
    && (forall k, l {:trigger x.client.wire[k], x.client.wire[l]} ::
          0 <= k < |x.client.wire| && 0 <= l < |x.client.wire| && IsCallVia(x.client, x.client.wire[k], h) &&
          IsCallVia(x.client, x.client.wire[l], h) && x.client.wire[k] < x.client.wire[l] ==>
          RanBefore(x, e, k, l))
  }

  /** The request at place `k` of the wire ran before the one at place `l`. */
  ghost predicate RanBefore(x: System, e: S.EntryId, k: nat, l: nat) {
    && e < |x.server.execs| && k < |x.accepted| && l < |x.accepted|
    && exists a, b :: 0 <= a < b < |x.server.execs[e].ran| && x.server.execs[e].ran[a] == x.accepted[k] && x.server.execs[e].ran[b] == x.accepted[l]
  }

  /** Executor `e` has run the request at place `k` of the wire. */
  predicate Ran(x: System, e: S.EntryId, k: nat) {
    e < |x.server.execs| && k < |x.accepted| && x.accepted[k] in x.server.execs[e].ran
  }

  lemma ProcessedRan(w: Wiring, x: System, e: S.EntryId, k: nat)
    requires Processed(w, x, e, k)
    ensures Ran(x, e, k)
  {
  }

  lemma IssueOrder(x: System, h: C.HandleId, e: S.EntryId, k: nat, l: nat)
    requires CI.ViaOrder(x.client.calls, x.client.wire) && e < |x.server.execs|
    requires Increasing(x.accepted) && Increasing(x.server.execs[e].ran)
    requires k < |x.client.wire| && IsCallVia(x.client, x.client.wire[k], h) && Ran(x, e, k)
    requires l < |x.client.wire| && IsCallVia(x.client, x.client.wire[l], h) && Ran(x, e, l)
    requires x.client.wire[k] < x.client.wire[l]
    ensures RanBefore(x, e, k, l)
  {
    assert k < l;
    assert x.accepted[k] < x.accepted[l];
    var ran := x.server.execs[e].ran;
    var a :| 0 <= a < |ran| && ran[a] == x.accepted[k];
    var b :| 0 <= b < |ran| && ran[b] == x.accepted[l];
    assert a < b;
  }

  predicate IsCallVia(s: C.State, r: C.RefId, h: C.HandleId) {
    r < |s.calls| && s.calls[r].via == Some(h)
  }

  lemma ClosedIsDrained(w: Wiring, x: System, h: C.HandleId) returns (e: S.EntryId)
    requires Inv(w, x) && ClosedWell(x.client, h) && CreatedOnce(x.server.jobs, x.client.handles[h].actorId)
    ensures AllProcessed(w, x, h, e)
  {
    hide SI.Executors, SI.Complete, SI.Shutdowns, SI.TableOk, SI.JobHolders, SI.ConnHolders, SI.StopHolders,
      SI.Owners, SI.Builders, SI.PoolJobs, SI.Results, SI.OwnJobs, SI.Places, SI.Histories, SI.Conns, SI.Outputs,
      SI.Flags, SI.Drops, SI.StopOk, SI.Windows, SI.Creations, SI.Destructions, SI.Drained, SI.AnswerOrder,
      SH.Makers, S.Can, S.Do, C.Can, C.Do, CI.Ids, CI.MapOk, CI.Locks, CI.Unentered, CI.HandledOk, CI.ClosingOk,
      CI.OrphansOk, CI.Somewhere, CI.WireOk, CI.ReturnsOk, CI.HandlesOk, CI.ViasOk, CI.CloseIsLast, CI.OrderOk, CI.WritesOk, CI.LatestVia, CI.ViaOrder, Delivered,
      Received, Published, IsRun, CanAct, DoAct;
    hide Processed, CreatedOnce, RanBefore, Ran;
    var d, a := DestructionAnswered(w, x, x.client.handles[h].destroyer.value);
    var m := MakerPlace(x, h);
    AcceptedFacts(w, x, m);
    DestroyedIsMade(w, x, h, d, m);
    e := x.server.targets[x.accepted[d]].value;
    DrainOrder(w, x, e);
    HandledOnce(x);
    forall k | 0 <= k < |x.client.wire| && IsCallVia(x.client, x.client.wire[k], h) ensures Processed(w, x, e, k) {
      CloseAfter(x, h, d, k);
      AcceptedFacts(w, x, k);
      DrainedCall(w, x, h, d, m, a, k);
    }
    forall k, l | 0 <= k < |x.client.wire| && 0 <= l < |x.client.wire| && IsCallVia(x.client, x.client.wire[k], h) &&
      IsCallVia(x.client, x.client.wire[l], h) && x.client.wire[k] < x.client.wire[l]
      ensures RanBefore(x, e, k, l)
    {
      ProcessedRan(w, x, e, k);
      ProcessedRan(w, x, e, l);
      IssueOrder(x, h, e, k, l);
    }
  }

  /** Closing a handle drains its actor, end to end: once the destruction that `close` sent has come back as
      a success, every call ever written through the handle has been run by that
      actor's executor, exactly once and in the order in which the client made the
      calls, has been answered, and its reference is complete with that answer. Only
      a call whose method ended without an outcome, or whose outcome the serializer could not
      say in an orderly way, was run without being answered. */
  lemma CloseDrains(w: Wiring, systems: seq<System>, steps: seq<Step>, i: nat, h: C.HandleId) returns (e: S.EntryId)
    requires IsRun(w, systems, steps) && i < |systems| && ClosedWell(systems[i].client, h)
    requires CreatedOnce(systems[i].server.jobs, systems[i].client.handles[h].actorId)
    ensures AllProcessed(w, systems[i], h, e)
  {
    hide Inv, IsRun, AllProcessed, CreatedOnce, Can, Do;
    RunInv(w, systems, steps, i);
    e := ClosedIsDrained(w, systems[i], h);
  }

  /** Calls made through one handle, owning or attached, reach the actor in the order in which the client made them: of
      two that the same executor has run, the one made first ran first. */
  lemma CallsRunInIssueOrder(w: Wiring, systems: seq<System>, steps: seq<Step>, i: nat, h: C.HandleId, e: S.EntryId,
                             k: nat, l: nat)
    requires IsRun(w, systems, steps) && i < |systems| && Ran(systems[i], e, k) && Ran(systems[i], e, l)
    requires k < |systems[i].client.wire| && IsCallVia(systems[i].client, systems[i].client.wire[k], h)
    requires l < |systems[i].client.wire| && IsCallVia(systems[i].client, systems[i].client.wire[l], h)
    requires systems[i].client.wire[k] < systems[i].client.wire[l]
    ensures RanBefore(systems[i], e, k, l)
  {
    hide Inv, IsRun, Can, Do, RanBefore, Ran;
    RunInv(w, systems, steps, i);
    RanInIssueOrder(w, systems[i], h, e, k, l);
  }

  lemma RanInIssueOrder(w: Wiring, x: System, h: C.HandleId, e: S.EntryId, k: nat, l: nat)
    requires Inv(w, x) && Ran(x, e, k) && Ran(x, e, l) && k < |x.client.wire| && l < |x.client.wire|
    requires IsCallVia(x.client, x.client.wire[k], h) && IsCallVia(x.client, x.client.wire[l], h)
    requires x.client.wire[k] < x.client.wire[l]
    ensures RanBefore(x, e, k, l)
  {
    hide SI.Executors, SI.Complete, SI.Shutdowns, SI.TableOk, SI.JobHolders, SI.ConnHolders, SI.StopHolders,
      SI.Owners, SI.Builders, SI.PoolJobs, SI.Results, SI.OwnJobs, SI.Places, SI.Histories, SI.Conns, SI.Outputs,
      SI.Flags, SI.Drops, SI.StopOk, SI.Windows, SI.Creations, SI.Destructions, SI.Drained, SI.AnswerOrder,
      SH.Makers, CI.Ids, CI.MapOk, CI.Locks, CI.Unentered, CI.HandledOk, CI.ClosingOk, CI.OrphansOk, CI.Somewhere,
      CI.WireOk, CI.ReturnsOk, CI.HandlesOk, CI.ViasOk, CI.CloseIsLast, CI.OrderOk, CI.WritesOk, CI.LatestVia,
      CI.ViaOrder, Delivered, Received, Published, RanBefore;
    DrainOrder(w, x, e);
    IssueOrder(x, h, e, k, l);
  }

  lemma CloseAfter(x: System, h: C.HandleId, d: nat, k: nat)
    requires CI.CloseIsLast(x.client.calls, x.client.handles, x.client.wire) && h < |x.client.handles|
    requires d < |x.client.wire| && x.client.handles[h].destroyer == Some(x.client.wire[d])
    requires k < |x.client.wire| && x.client.wire[k] < |x.client.calls|
    requires x.client.calls[x.client.wire[k]].via == Some(h)
    ensures k < d
  {
  }

  lemma HandledOnce(x: System)
    requires CI.HandledOk(x.client.calls, x.client.sends, x.client.states, x.client.pending, x.client.reader, x.client.handled)
    ensures NoDuplicates(x.client.handled)
  {
  }

  lemma DrainOrder(w: Wiring, x: System, e: S.EntryId)
    requires S.Shape(x.server) && e < |x.server.custody| && SI.Executors(w.setup, x.server.execs)
    requires Delivered(w.conn, x.server.jobs, x.client.calls, x.client.wire, x.accepted)
    ensures Increasing(x.accepted) && Increasing(x.server.execs[e].ran)
  {
    var exec := x.server.execs[e];
    assert SI.InOrder(exec);
    assert forall k :: 0 <= k < |exec.ran| ==> SI.Line(exec)[k] == exec.ran[k];
  }

  // ---------- No call is lost ----------

  /** The client of a run is itself a run of the client, in which every `ok` is a boolean. */
  lemma {:induction false} ClientOf(w: Wiring, systems: seq<System>, steps: seq<Step>, i: nat)
      returns (states: seq<C.State>, acts: seq<C.Step>)
    requires IsRun(w, systems, steps) && i < |systems|
    ensures C.IsRun(states, acts) && states[|acts|] == systems[i].client && CT.NoBadFlag(acts)
    ensures states[0].maxFrame == w.maxFrame
  {
    hide Can, Do, C.Can, C.Do;
    if i == 0 {
      states, acts := [C.Initial(w.maxFrame)], [];
    } else {
      states, acts := ClientOf(w, systems, steps, i - 1);
      ClientStep(w, systems, steps, i - 1);
      if steps[i - 1].Act? {
        hide C.IsRun, IsRun;
        states, acts := CW.Next(states, acts, steps[i - 1].client, systems[i].client);
      }
    }
  }

  lemma ClientStep(w: Wiring, systems: seq<System>, steps: seq<Step>, i: nat)
    requires IsRun(w, systems, steps) && i < |steps|
    ensures steps[i].Serve? ==> systems[i + 1].client == systems[i].client
    ensures steps[i].Act? ==>
      && C.Can(systems[i].client, steps[i].client) && systems[i + 1].client == C.Do(systems[i].client, steps[i].client)
      && !CT.IsBadFlag(steps[i].client)
  {
    assert Can(w, systems[i], steps[i]) && systems[i + 1] == Do(w, systems[i], steps[i]);
    hide C.Can, C.Do, S.Can, S.Do;
    if steps[i].Act? { NoBadFlag(w, systems[i], steps[i].client); }
  }

  /** A client of the server whose requests fit a frame loses no call: when a close is over and the reader is not just
      completing a reference, the map is empty and every reference that ever entered it is complete, or its
      own sender, whose write failed, is just completing it. */
  lemma NoCallIsLost(w: Wiring, systems: seq<System>, steps: seq<Step>, i: nat, r: C.RefId)
    requires IsRun(w, systems, steps) && i < |systems| && CT.SizesUpTo(systems[i].client.calls, C.Limit(w.maxFrame))
    requires systems[i].client.closing == C.Closed || systems[i].client.closing == C.Crashed
    requires !systems[i].client.reader.Holding?
    requires C.Shape(systems[i].client) && r < |systems[i].client.calls| && CI.Entered(systems[i].client.sends[r])
    ensures systems[i].client.pending == map[]
    ensures systems[i].client.states[r].Done? || CT.Unwinding(systems[i].client.sends[r])
  {
    var states, acts := ClientOf(w, systems, steps, i);
    hide Can, Do, C.Can, C.Do, CT.Follows;
    assert acts[..|acts|] == acts;
    CT.NothingIsUndone(states, acts, 0, |acts|);
    CW.SameLimit(states[0], states[|acts|]);
    CT.CloseCompletesEverything(states, acts, |acts|, r);
  }

  /** Some run with requests no longer than `longest` loses a call of the client for ever. */
  ghost predicate CanLose(w: Wiring, longest: nat) {
    exists systems: seq<System>, steps: seq<Step>, r: C.RefId ::
      && IsRun(w, systems, steps) && CT.SizesUpTo(systems[|steps|].client.calls, longest)
      && CT.Lost(systems[|steps|].client, r)
  }

  /** Together with the server, a client can lose a call it has sent if and only if one of its requests may exceed its
      frame limit. */
  lemma OnlyOversizedRequestsLoseCalls(w: Wiring, longest: nat)
    requires Wired(w)
    ensures CanLose(w, longest) <==> longest > C.Limit(w.maxFrame)
  {
    hide Can, Do, C.Can, C.Do, CT.Lost, Wired;
    if longest > C.Limit(w.maxFrame) {
      var states, acts := CW.OversizedRequestLosesAnotherCall(w.maxFrame, longest);
      var systems, steps := Alone(w, states, acts);
      assert CT.Lost(systems[|steps|].client, 1);
    }
    if longest <= C.Limit(w.maxFrame) && CanLose(w, longest) {
      var systems: seq<System>, steps: seq<Step>, r: C.RefId :|
        && IsRun(w, systems, steps) && CT.SizesUpTo(systems[|steps|].client.calls, longest)
        && CT.Lost(systems[|steps|].client, r);
      var states, acts := ClientOf(w, systems, steps, |steps|);
      CW.NothingLost(states, acts, r);
      assert false;
    }
  }

  /** A client that receives nothing can take its steps beside a server that takes none. */
  lemma Alone(w: Wiring, states: seq<C.State>, acts: seq<C.Step>) returns (systems: seq<System>, steps: seq<Step>)
    requires Wired(w) && C.IsRun(states, acts) && states[0].maxFrame == w.maxFrame
    requires forall k :: 0 <= k < |acts| ==> !acts[k].Receive?
    ensures IsRun(w, systems, steps) && |steps| == |acts| && systems[|steps|].client == states[|acts|]
  {
    hide C.Can, C.Do;
    systems := seq(|states|, i requires 0 <= i < |states| => System(S.INITIAL, states[i], [], 0));
    steps := seq(|acts|, i requires 0 <= i < |acts| => Act(acts[i]));
  }
}
