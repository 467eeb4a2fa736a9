/** The two ends stay in step: the invariant of a client joined to the server holds in every run. */
module LinkRuns {
  import opened Base
  import opened Messages
  import opened Link
  import opened LinkInvariant
  import S = Server
  import SI = ServerInvariant
  import SS = ServerSteps
  import SH = ServerHistory
  import SA = ServerAccounting
  import SR = ServerRuns
  import C = Client
  import CI = ClientInvariant
  import CR = ClientRuns
  import CT = ClientTheorems

  // ---------- What a message becomes on its way ----------

  lemma RequestArrives(r: Request, q: Request)
    requires ParseRequest(BuildRequest(r)) == Ok(q)
    ensures q == r
  {
  }

  lemma ResponseArrives(w: Wiring, r: Response)
    requires Wired(w)
    ensures ReadResponse(w.show, BuildResponse(r)) == Completes(r.callId, r.outcome)
  {
  }

  // ---------- The server takes a step ----------

  lemma OthersDelivered(c: S.Conn, jobs: seq<S.Job>, job: S.Job, calls: seq<C.Issued>, wire: seq<C.RefId>,
                        accepted: seq<S.JobId>)
    requires Delivered(c, jobs, calls, wire, accepted) && job.conn != c
    ensures Delivered(c, jobs + [job], calls, wire, accepted)
  {
  }

  lemma OneMoreDelivered(c: S.Conn, jobs: seq<S.Job>, job: S.Job, calls: seq<C.Issued>, wire: seq<C.RefId>,
                         accepted: seq<S.JobId>)
    requires Delivered(c, jobs, calls, wire, accepted) && job.conn == c
    requires |accepted| < |wire| && wire[|accepted|] < |calls| && job.request == calls[wire[|accepted|]].request
    ensures Delivered(c, jobs + [job], calls, wire, accepted + [|jobs|])
  {
  }

  lemma ServeDelivered(w: Wiring, x: System, step: S.Step)
    requires CanServe(w, x, step) && SH.Arrives(x.server, step, DoServe(w, x, step).server)
    requires Delivered(w.conn, x.server.jobs, x.client.calls, x.client.wire, x.accepted)
    ensures var y := DoServe(w, x, step); Delivered(w.conn, y.server.jobs, y.client.calls, y.client.wire, y.accepted)
  {
    hide Delivered, S.Can, S.Do;
    var jobs := DoServe(w, x, step).server.jobs;
    if SH.Arrival(step).Some? {
      assert jobs == x.server.jobs + [jobs[|x.server.jobs|]];
      if SH.Arrival(step).value.0 == w.conn {
        RequestArrives(x.client.calls[x.client.wire[|x.accepted|]].request, SH.Arrival(step).value.1);
        OneMoreDelivered(w.conn, x.server.jobs, jobs[|x.server.jobs|], x.client.calls, x.client.wire, x.accepted);
      } else {
        OthersDelivered(w.conn, x.server.jobs, jobs[|x.server.jobs|], x.client.calls, x.client.wire, x.accepted);
      }
    }
  }

  lemma ServeReceived(c: S.Conn, a: seq<seq<S.Sent>>, b: seq<seq<S.Sent>>, x: System)
    requires SH.OutputFollows(a, b)
    requires Received(Output(a, c), x.client.calls, x.client.states, x.client.wire, x.client.reader, x.client.handled, x.received)
    ensures Received(Output(b, c), x.client.calls, x.client.states, x.client.wire, x.client.reader, x.client.handled, x.received)
  {
  }

  /** The past of the server only grows, and what was in the table keeps its time of entry. */
  ghost predicate TargetsGrow(a: seq<S.Custody>, b: seq<S.Custody>, targets: seq<Option<S.EntryId>>,
                              more: seq<Option<S.EntryId>>) {
    && |a| <= |b| && |targets| <= |more|
    && (forall e {:trigger b[e]} :: 0 <= e < |a| && a[e].born.Some? ==> b[e].born == a[e].born)
    && (forall j {:trigger more[j]} :: 0 <= j < |targets| && targets[j].Some? ==> more[j] == targets[j])
  }

  lemma ServerPublished(x: System, custody: seq<S.Custody>, targets: seq<Option<S.EntryId>>)
    requires TargetsGrow(x.server.custody, custody, x.server.targets, targets)
    requires Published(x.server.custody, x.server.targets, x.client.calls, x.client.handles, x.client.wire, x.accepted)
    ensures Published(custody, targets, x.client.calls, x.client.handles, x.client.wire, x.accepted)
  {
  }

  /** One more of the client's requests is accepted, as job `j`. */
  lemma AcceptedPublished(custody: seq<S.Custody>, targets: seq<Option<S.EntryId>>, client: C.State,
                          accepted: seq<S.JobId>, j: S.JobId)
    requires |accepted| < |client.wire| && NoDuplicates(client.wire) && client.wire[|accepted|] < |client.calls|
    requires j < |targets|
    requires forall e :: 0 <= e < |custody| && custody[e].born.Some? ==> custody[e].born.value <= j
    requires Published(custody, targets, client.calls, client.handles, client.wire, accepted)
    ensures Published(custody, targets, client.calls, client.handles, client.wire, accepted + [j])
  {
  }

  lemma ArrivalKeepsEntries(setup: S.Setup, s: S.State, step: S.Step)
    requires S.Can(setup, s, step) && SH.Arrival(step).Some?
    ensures S.Do(setup, s, step).custody == s.custody
  {
  }

  lemma BornBefore(s: S.State)
    requires SI.Windows(s.jobs, s.custody)
    ensures forall e :: 0 <= e < |s.custody| && s.custody[e].born.Some? ==> s.custody[e].born.value <= |s.jobs|
  {
  }

  lemma ServePublished(w: Wiring, x: System, step: S.Step)
    requires CanServe(w, x, step) && SH.Tracks(x.server, step, S.Do(w.setup, x.server, step))
    requires SI.Windows(x.server.jobs, x.server.custody) && CI.WireOk(x.client.sends, x.client.wire)
    requires Published(x.server.custody, x.server.targets, x.client.calls, x.client.handles, x.client.wire, x.accepted)
    ensures var y := DoServe(w, x, step);
      Published(y.server.custody, y.server.targets, y.client.calls, y.client.handles, y.client.wire, y.accepted)
  {
    hide Published, S.Can, S.Do, SI.Windows;
    var y := DoServe(w, x, step);
    ServerPublished(x, y.server.custody, y.server.targets);
    if SH.Arrival(step).Some? && SH.Arrival(step).value.0 == w.conn {
      ArrivalKeepsEntries(w.setup, x.server, step);
      BornBefore(x.server);
      AcceptedPublished(y.server.custody, y.server.targets, x.client, x.accepted, |x.server.jobs|);
    }
  }

  lemma ServeKeeps(w: Wiring, x: System, step: S.Step)
    requires Inv(w, x) && CanServe(w, x, step)
    ensures Inv(w, DoServe(w, x, step))
  {
    hide SI.Executors, SI.Complete, SI.Shutdowns, SI.TableOk, SI.JobHolders, SI.ConnHolders, SI.StopHolders,
      SI.Owners, SI.Builders, SI.PoolJobs, SI.Results, SI.OwnJobs, SI.Places, SI.Histories, SI.Conns, SI.Outputs,
      SI.Flags, SI.Drops, SI.StopOk, SI.Windows, SI.Creations, SI.Destructions, SI.Drained, SI.AnswerOrder,
      SH.Makers, S.Can, S.Do, CI.Ids, CI.MapOk, CI.Locks, CI.Unentered, CI.HandledOk, CI.ClosingOk, CI.OrphansOk,
      CI.Somewhere, CI.WireOk, CI.ReturnsOk, CI.HandlesOk, CI.ViasOk, CI.CloseIsLast, CI.OrderOk, CI.WritesOk, CI.LatestVia, CI.ViaOrder, Delivered, Received,
      Published;
    SR.StepKeeps(w.setup, x.server, step);
    SH.StepFollows(w.setup, x.server, step);
    ServeDelivered(w, x, step);
    ServeReceived(w.conn, x.server.written, S.Do(w.setup, x.server, step).written, x);
    ServePublished(w, x, step);
  }

  // ---------- The client takes a step ----------

  lemma ActDelivered(c: S.Conn, jobs: seq<S.Job>, a: C.State, b: C.State, accepted: seq<S.JobId>)
    requires Delivered(c, jobs, a.calls, a.wire, accepted) && a.calls <= b.calls && a.wire <= b.wire
    ensures Delivered(c, jobs, b.calls, b.wire, accepted)
  {
  }

  /** A response with the id of a reference that is on the wire answers the request of that reference. */
  lemma AnswerOf(w: Wiring, x: System, a: nat, id: string) returns (k: nat)
    requires S.Shape(x.server) && C.Shape(x.client)
    requires a < |Output(x.server.written, w.conn)| && Output(x.server.written, w.conn)[a].response.callId == id
    requires SI.Outputs(w.setup, x.server.jobs, x.server.stages, x.server.results, x.server.written)
    requires Delivered(w.conn, x.server.jobs, x.client.calls, x.client.wire, x.accepted) && CI.Ids(x.client.calls)
    ensures k < |x.accepted| && x.accepted[k] == Output(x.server.written, w.conn)[a].job
    ensures k < |x.client.wire| && x.client.wire[k] in x.client.wire
    ensures x.client.wire[k] < |x.client.calls| && x.client.calls[x.client.wire[k]].request.callId == id
    ensures forall r :: 0 <= r < |x.client.calls| && x.client.calls[r].request.callId == id ==> r == x.client.wire[k]
  {
    SA.HonestFacts(w.setup, x.server, w.conn, a);
    var j := x.server.written[w.conn][a].job;
    assert j in x.accepted;
    k :| 0 <= k < |x.accepted| && x.accepted[k] == j;
    assert x.client.wire[k] in x.client.wire;
  }

  lemma ReceiveReceived(w: Wiring, x: System, response: Response, reader: C.Reader, handled: seq<C.RefId>)
    requires C.Shape(x.client) && C.MapInBounds(x.client) && x.client.reader == C.Reading
    requires x.received < |Output(x.server.written, w.conn)|
    requires response == Output(x.server.written, w.conn)[x.received].response
    requires if response.callId in x.client.pending then
        && reader == C.Holding(x.client.pending[response.callId], response.outcome)
        && handled == x.client.handled + [x.client.pending[response.callId]]
        && x.client.pending[response.callId] in x.client.wire
      else reader == C.GivingUp && handled == x.client.handled
    requires CI.MapOk(x.client.calls, x.client.sends, x.client.states, x.client.pending)
    requires Received(Output(x.server.written, w.conn), x.client.calls, x.client.states, x.client.wire,
                      x.client.reader, x.client.handled, x.received)
    ensures Received(Output(x.server.written, w.conn), x.client.calls, x.client.states, x.client.wire,
                     reader, handled, x.received + 1)
  {
  }

  lemma CompleteReceived(output: seq<S.Sent>, s: C.State, received: nat)
    requires C.CanComplete(s) && s.states[s.reader.ref] == C.Waiting
    requires Received(output, s.calls, s.states, s.wire, s.reader, s.handled, received)
    ensures var t := C.DoComplete(s); Received(output, t.calls, t.states, t.wire, t.reader, t.handled, received)
  {
  }

  /** The client goes on without its reader getting a message or completing a reference. */
  lemma OthersReceived(output: seq<S.Sent>, a: C.State, b: C.State, received: nat)
    requires CT.Follows(a, b) && b.handled == a.handled
    requires b.reader == a.reader || (!a.reader.Holding? && !b.reader.Holding? && !b.reader.Reading?)
    requires Received(output, a.calls, a.states, a.wire, a.reader, a.handled, received)
    ensures Received(output, b.calls, b.states, b.wire, b.reader, b.handled, received)
  {
  }

  /** What the reader holds came off the wire, so it is still waiting. */
  lemma HeldIsWaiting(x: System, output: seq<S.Sent>)
    requires C.CanComplete(x.client) && CI.WireOk(x.client.sends, x.client.wire)
    requires CI.HandledOk(x.client.calls, x.client.sends, x.client.states, x.client.pending, x.client.reader, x.client.handled)
    requires Received(output, x.client.calls, x.client.states, x.client.wire, x.client.reader, x.client.handled, x.received)
    ensures x.client.states[x.client.reader.ref] == C.Waiting
  {
  }

  lemma ReaderSteps(s: C.State, step: C.Step)
    requires C.Can(s, step) && !step.Receive? && !step.Complete?
    ensures var t := C.Do(s, step);
      t.handled == s.handled && (t.reader == s.reader || (!s.reader.Holding? && !t.reader.Holding? && !t.reader.Reading?))
  {
  }

  lemma MapLeadsHome(s: C.State, id: string)
    requires id in s.pending && CI.MapOk(s.calls, s.sends, s.states, s.pending)
    ensures s.pending[id] < |s.calls| && s.calls[s.pending[id]].request.callId == id
  {
  }

  lemma MessageReceived(w: Wiring, x: System, reading: Reading)
    requires Wired(w) && C.Shape(x.client) && C.CanReceive(x.client) && S.Shape(x.server)
    requires x.received < |Output(x.server.written, w.conn)|
    requires reading == ReadResponse(w.show, BuildResponse(Output(x.server.written, w.conn)[x.received].response))
    requires SI.Outputs(w.setup, x.server.jobs, x.server.stages, x.server.results, x.server.written)
    requires Delivered(w.conn, x.server.jobs, x.client.calls, x.client.wire, x.accepted) && CI.Ids(x.client.calls)
    requires CI.MapOk(x.client.calls, x.client.sends, x.client.states, x.client.pending)
    requires Received(Output(x.server.written, w.conn), x.client.calls, x.client.states, x.client.wire,
                      x.client.reader, x.client.handled, x.received)
    ensures var t := C.DoReceive(x.client, reading);
      Received(Output(x.server.written, w.conn), t.calls, t.states, t.wire, t.reader, t.handled, x.received + 1)
  {
    hide SI.Outputs, Delivered, CI.Ids, CI.MapOk, Received;
    var response := Output(x.server.written, w.conn)[x.received].response;
    ResponseArrives(w, response);
    var k := AnswerOf(w, x, x.received, response.callId);
    if response.callId in x.client.pending { MapLeadsHome(x.client, response.callId); }
    var t := C.DoReceive(x.client, reading);
    ReceiveReceived(w, x, response, t.reader, t.handled);
  }

  lemma ActReceived(w: Wiring, x: System, step: C.Step)
    requires CanAct(w, x, step) && Wired(w) && Inv(w, x)
    ensures var y := DoAct(w, x, step);
      Received(Output(y.server.written, w.conn), y.client.calls, y.client.states, y.client.wire, y.client.reader, y.client.handled, y.received)
  {
    hide SI.Executors, SI.Complete, SI.Shutdowns, SI.TableOk, SI.JobHolders, SI.ConnHolders, SI.StopHolders,
      SI.Owners, SI.Builders, SI.PoolJobs, SI.Results, SI.OwnJobs, SI.Places, SI.Histories, SI.Conns, SI.Outputs,
      SI.Flags, SI.Drops, SI.StopOk, SI.Windows, SI.Creations, SI.Destructions, SI.Drained, SI.AnswerOrder,
      SH.Makers, CI.Ids, CI.MapOk, CI.Locks, CI.Unentered, CI.HandledOk, CI.ClosingOk, CI.OrphansOk, CI.Somewhere,
      CI.WireOk, CI.ReturnsOk, CI.HandlesOk, CI.ViasOk, CI.CloseIsLast, CI.OrderOk, CI.WritesOk, CI.LatestVia, CI.ViaOrder, Delivered, Received, Published, CT.Follows;
    var output := Output(x.server.written, w.conn);
    hide C.DoReceive, C.DoComplete, ReadResponse, BuildResponse;
    if step.Receive? {
      MessageReceived(w, x, step.reading);
    } else if step.Complete? {
      HeldIsWaiting(x, output);
      CompleteReceived(output, x.client, x.received);
    } else {
      hide C.Can, C.Do;
      CT.StepFollows(x.client, step);
      ReaderSteps(x.client, step);
      OthersReceived(output, x.client, C.Do(x.client, step), x.received);
    }
  }

  /** The reader popped what finished with a value, so the server answered it with a value. */
  lemma MakerAnswered(w: Wiring, x: System, r: C.RefId) returns (m: nat)
    requires S.Shape(x.server) && C.CanMakeHandle(x.client, r)
    requires SI.Outputs(w.setup, x.server.jobs, x.server.stages, x.server.results, x.server.written)
    requires SI.Creations(x.server.jobs, x.server.results, x.server.targets, x.server.custody)
    requires CI.Ids(x.client.calls) && CI.ReturnsOk(x.client.sends, x.client.states, x.client.closing, x.client.handled)
    requires CI.HandledOk(x.client.calls, x.client.sends, x.client.states, x.client.pending, x.client.reader, x.client.handled)
    requires Delivered(w.conn, x.server.jobs, x.client.calls, x.client.wire, x.accepted)
    requires Received(Output(x.server.written, w.conn), x.client.calls, x.client.states, x.client.wire,
                      x.client.reader, x.client.handled, x.received)
    ensures m < |x.accepted| && x.client.wire[m] == r && x.accepted[m] < |x.server.targets|
    ensures x.client.calls[r].request.body.CreateActor? ==> InTable(x.server.custody, x.server.targets[x.accepted[m]])
  {
    var output := Output(x.server.written, w.conn);
    var a :| 0 <= a < |x.client.handled| && x.client.handled[a] == r;
    m := AnswerOf(w, x, a, x.client.calls[r].request.callId);
    SA.HonestFacts(w.setup, x.server, w.conn, a);
    var j := output[a].job;
    assert x.client.states[r] == C.Done(output[a].response.outcome);
    assert SI.Success(x.server.results[j]);
    assert x.accepted[m] == j;
  }

  lemma OthersPublished(custody: seq<S.Custody>, targets: seq<Option<S.EntryId>>, a: C.State, b: C.State,
                        accepted: seq<S.JobId>)
    requires CT.Follows(a, b) && |b.handles| == |a.handles|
    requires Published(custody, targets, a.calls, a.handles, a.wire, accepted)
    ensures Published(custody, targets, b.calls, b.handles, b.wire, accepted)
  {
  }

  lemma MakeHandlePublished(x: System, r: C.RefId, m: nat)
    requires C.CanMakeHandle(x.client, r) && m < |x.accepted| && |x.accepted| <= |x.client.wire|
    requires x.client.wire[m] == r
    requires x.accepted[m] < |x.server.targets|
    requires x.client.calls[r].request.body.CreateActor? ==> InTable(x.server.custody, x.server.targets[x.accepted[m]])
    requires CI.WireOk(x.client.sends, x.client.wire) && CI.ViasOk(x.client.calls, x.client.sends, x.client.handles)
    requires Published(x.server.custody, x.server.targets, x.client.calls, x.client.handles, x.client.wire, x.accepted)
    ensures Published(x.server.custody, x.server.targets, x.client.calls, C.DoMakeHandle(x.client, r).handles, x.client.wire, x.accepted)
  {
  }

  lemma HandleSteps(s: C.State, step: C.Step)
    requires C.Can(s, step) && !step.MakeHandle?
    ensures |C.Do(s, step).handles| == |s.handles|
  {
  }

  lemma OrphanSteps(s: C.State, step: C.Step)
    requires C.Can(s, step) && !CT.IsBadFlag(step) && (s.closing != C.Crashed ==> s.orphans == {})
    ensures var t := C.Do(s, step); t.closing != C.Crashed ==> t.orphans == {}
  {
  }

  lemma NoBadFlag(w: Wiring, x: System, step: C.Step)
    requires Wired(w) && CanAct(w, x, step)
    ensures !CT.IsBadFlag(step)
  {
  }

  lemma AcceptedBounds(w: Wiring, x: System)
    requires Delivered(w.conn, x.server.jobs, x.client.calls, x.client.wire, x.accepted)
    ensures |x.accepted| <= |x.client.wire|
  {
  }

  lemma ActKeeps(w: Wiring, x: System, step: C.Step)
    requires Wired(w) && Inv(w, x) && CanAct(w, x, step)
    ensures Inv(w, DoAct(w, x, step))
  {
    hide SI.Executors, SI.Complete, SI.Shutdowns, SI.TableOk, SI.JobHolders, SI.ConnHolders, SI.StopHolders,
      SI.Owners, SI.Builders, SI.PoolJobs, SI.Results, SI.OwnJobs, SI.Places, SI.Histories, SI.Conns, SI.Outputs,
      SI.Flags, SI.Drops, SI.StopOk, SI.Windows, SI.Creations, SI.Destructions, SI.Drained, SI.AnswerOrder,
      SH.Makers, S.Can, S.Do, CI.Ids, CI.MapOk, CI.Locks, CI.Unentered, CI.HandledOk, CI.ClosingOk, CI.OrphansOk,
      CI.Somewhere, CI.WireOk, CI.ReturnsOk, CI.HandlesOk, CI.ViasOk, CI.CloseIsLast, CI.OrderOk, CI.WritesOk, CI.LatestVia, CI.ViaOrder, Delivered, Received,
      Published, C.Can, C.Do, CT.Follows, C.CanMakeHandle, ReadResponse, BuildResponse;
    NoBadFlag(w, x, step);
    CR.StepKeeps(x.client, step);
    CT.StepFollows(x.client, step);
    ActReceived(w, x, step);
    OrphanSteps(x.client, step);
    AcceptedBounds(w, x);
    ActGrows(w, x, step);
  }

  lemma ActGrows(w: Wiring, x: System, step: C.Step)
    requires Inv(w, x) && CanAct(w, x, step)
    ensures var y := DoAct(w, x, step);
      && Delivered(w.conn, y.server.jobs, y.client.calls, y.client.wire, y.accepted)
      && Published(y.server.custody, y.server.targets, y.client.calls, y.client.handles, y.client.wire, y.accepted)
  {
    hide SI.Executors, SI.Complete, SI.Shutdowns, SI.TableOk, SI.JobHolders, SI.ConnHolders, SI.StopHolders,
      SI.Owners, SI.Builders, SI.PoolJobs, SI.Results, SI.OwnJobs, SI.Places, SI.Histories, SI.Conns, SI.Outputs,
      SI.Flags, SI.Drops, SI.StopOk, SI.Windows, SI.Creations, SI.Destructions, SI.Drained, SI.AnswerOrder,
      SH.Makers, S.Can, S.Do, CI.Ids, CI.MapOk, CI.Locks, CI.Unentered, CI.HandledOk, CI.ClosingOk, CI.OrphansOk,
      CI.Somewhere, CI.WireOk, CI.ReturnsOk, CI.HandlesOk, CI.ViasOk, CI.CloseIsLast, CI.OrderOk, CI.WritesOk, CI.LatestVia, CI.ViaOrder, Delivered, Received,
      Published, C.CanMakeHandle, CT.Follows, ReadResponse, BuildResponse;
    CT.StepFollows(x.client, step);
    FollowsGrows(x.client, C.Do(x.client, step));
    ActDelivered(w.conn, x.server.jobs, x.client, C.Do(x.client, step), x.accepted);
    AcceptedBounds(w, x);
    if step.MakeHandle? {
      var m := MakerAnswered(w, x, step.r);
      MakeHandlePublished(x, step.r, m);
    } else {
      hide C.Can, C.Do;
      HandleSteps(x.client, step);
      OthersPublished(x.server.custody, x.server.targets, x.client, C.Do(x.client, step), x.accepted);
    }
  }

  lemma FollowsGrows(a: C.State, b: C.State)
    requires CT.Follows(a, b)
    ensures a.calls <= b.calls && a.wire <= b.wire
  {
  }

  // ---------- All steps, all runs ----------

  lemma InitialLink(w: Wiring)
    ensures Inv(w, Initial(w))
  {
    SR.InitialInv(w.setup);
    SH.InitialMakers();
    CR.InitialInv(w.maxFrame);
    hide SI.Inv, CI.Inv, SH.Makers;
  }

  lemma StepKeeps(w: Wiring, x: System, step: Step)
    requires Wired(w) && Inv(w, x) && Can(w, x, step)
    ensures Inv(w, Do(w, x, step))
  {
    hide Inv, CanServe, DoServe, CanAct, DoAct;
    match step
    case Serve(s) => ServeKeeps(w, x, s);
    case Act(c) => ActKeeps(w, x, c);
  }

  lemma {:induction false} RunInv(w: Wiring, systems: seq<System>, steps: seq<Step>, i: nat)
    requires IsRun(w, systems, steps) && i < |systems|
    ensures Inv(w, systems[i])
  {
    hide Inv, Can, Do;
    if i == 0 {
      InitialLink(w);
    } else {
      RunInv(w, systems, steps, i - 1);
      StepKeeps(w, systems[i - 1], steps[i - 1]);
    }
  }
}
