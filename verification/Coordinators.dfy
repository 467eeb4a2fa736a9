/** Coordinators that claim, branch and submit concurrently at one frontier. Each call on the frontier is one
    step, since an actor runs its calls one at a time; a schedule is any order of steps. */
module Coordinators {
  import opened Base
  import opened Frontier
  import opened Heap
  import opened Branching
  import opened FrontierObject

  datatype Plan = Plan(coordinators: nat, rounds: nat, batchSize: nat, factor: nat, queryEvery: nat, initial: nat)

  /** What the benchmark checks before it starts. */
  predicate Valid(plan: Plan) {
    plan.coordinators >= 1 && plan.rounds >= 1 && plan.batchSize >= 1 && plan.factor >= 1 && plan.initial >= 1
  }

  datatype Point =
    | Claiming
    | Submitting(children: seq<Domain>)
    | Querying
    | Underflowed
    | Done

  datatype Worker = Worker(round: nat, at: Point)

  datatype State = State(queue: Queue, workers: seq<Worker>)

  datatype Step = StepClaim(c: nat) | StepSubmit(c: nat) | StepQuery(c: nat)

  function StartOf(plan: Plan, round: nat): Worker {
    Worker(round, if round < plan.rounds then Claiming else Done)
  }

  function Start(plan: Plan): State {
    State(Initial(plan.initial), seq(plan.coordinators, _ => StartOf(plan, 0)))
  }

  predicate Can(s: State, step: Step) {
    step.c < |s.workers| &&
    match step
    case StepClaim(c) => s.workers[c].at == Claiming
    case StepSubmit(c) => s.workers[c].at.Submitting?
    case StepQuery(c) => s.workers[c].at == Querying
  }

  /** What coordinator `c` does with the batch it has claimed. */
  function AfterClaim(plan: Plan, w: Worker, c: nat, batch: seq<Domain>): Worker {
    if |batch| != plan.batchSize then w.(at := Underflowed)
    else w.(at := Submitting(Children(batch, c, w.round, plan.factor)))
  }

  function AfterSubmit(plan: Plan, w: Worker): Worker {
    if plan.queryEvery > 0 && (w.round + 1) % plan.queryEvery == 0 then w.(at := Querying) else StartOf(plan, w.round + 1)
  }

  function Do(plan: Plan, s: State, step: Step): State
    requires Can(s, step)
  {
    var w := s.workers[step.c];
    match step
    case StepClaim(c) =>
      State(Claim(s.queue, plan.batchSize), s.workers[c := AfterClaim(plan, w, c, Claimed(s.queue, plan.batchSize))])
    case StepSubmit(c) => State(Submit(s.queue, w.at.children), s.workers[c := AfterSubmit(plan, w)])
    case StepQuery(c) => State(Size(s.queue), s.workers[c := StartOf(plan, w.round + 1)])
  }

  ghost predicate IsRun(plan: Plan, states: seq<State>, steps: seq<Step>) {
    && Valid(plan)
    && |states| == |steps| + 1
    && states[0] == Start(plan)
    && forall i :: 0 <= i < |steps| ==> Can(states[i], steps[i]) && states[i + 1] == Do(plan, states[i], steps[i])
  }

  // ---------- Sums over the coordinators ----------

  function Total(f: Worker -> nat, workers: seq<Worker>): nat {
    if workers == [] then 0 else Total(f, workers[..|workers| - 1]) + f(workers[|workers| - 1])
  }

  lemma {:induction false} TotalUpdate(f: Worker -> nat, workers: seq<Worker>, c: nat, w: Worker)
    requires c < |workers|
    ensures Total(f, workers[c := w]) + f(workers[c]) == Total(f, workers) + f(w)
  {
    var n := |workers| - 1;
    assert workers[c := w][..n] == if c < n then workers[..n][c := w] else workers[..n];
    if c < n { TotalUpdate(f, workers[..n], c, w); }
  }

  lemma {:induction false} TotalOfEqual(f: Worker -> nat, workers: seq<Worker>, n: nat)
    requires forall c :: 0 <= c < |workers| ==> f(workers[c]) == n
    ensures Total(f, workers) == |workers| * n
  {
    if workers != [] {
      TotalOfEqual(f, workers[..|workers| - 1], n);
    }
  }

  lemma {:induction false} TotalBelow(f: Worker -> nat, workers: seq<Worker>, c: nat)
    requires c < |workers| && f(workers[c]) == 0 && forall d :: 0 <= d < |workers| ==> f(workers[d]) <= 1
    ensures Total(f, workers) <= |workers| - 1
  {
    var n := |workers| - 1;
    if c < n {
      TotalBelow(f, workers[..n], c);
    } else {
      TotalAtMost(f, workers[..n]);
    }
  }

  lemma {:induction false} TotalAtMost(f: Worker -> nat, workers: seq<Worker>)
    requires forall d :: 0 <= d < |workers| ==> f(workers[d]) <= 1
    ensures Total(f, workers) <= |workers|
  {
    if workers != [] { TotalAtMost(f, workers[..|workers| - 1]); }
  }

  // ---------- Counting calls ----------

  /** The full batches a coordinator has claimed, its submissions and its queries so far. */
  function Claims(w: Worker): nat {
    w.round + if w.at.Submitting? || w.at == Querying then 1 else 0
  }

  function Submits(w: Worker): nat {
    w.round + if w.at == Querying then 1 else 0
  }

  function Queries(queryEvery: nat): Worker -> nat {
    (w: Worker) => if queryEvery > 0 then w.round / queryEvery else 0
  }

  function Holding(w: Worker): nat {
    if w.at.Submitting? then 1 else 0
  }

  function Times(a: nat, b: nat): nat {
    a * b
  }

  ghost predicate Calm(s: State) {
    forall c :: 0 <= c < |s.workers| ==> s.workers[c].at != Underflowed
  }

  /** The frontier's counters are the sums of what the coordinators have done. */
  ghost predicate Tally(plan: Plan, s: State) {
    && Sound(s.queue) && |s.workers| == plan.coordinators
    && |s.queue.pushed| == plan.initial + s.queue.added
    && |s.queue.taken| == Times(plan.batchSize, Total(Claims, s.workers))
    && s.queue.added == Times(Times(plan.batchSize, plan.factor), Total(Submits, s.workers))
    && s.queue.claimCalls == Total(Claims, s.workers)
    && s.queue.submitCalls == Total(Submits, s.workers)
    && s.queue.sizeCalls == Total(Queries(plan.queryEvery), s.workers)
  }

  predicate WorkerOk(plan: Plan, w: Worker) {
    && (w.at.Submitting? ==> |w.at.children| == Times(plan.batchSize, plan.factor))
    && (w.at == Querying ==> plan.queryEvery > 0 && (w.round + 1) % plan.queryEvery == 0)
    && (w.at == Done ==> w.round == plan.rounds)
    && (w.at != Done ==> w.round < plan.rounds)
  }

  ghost predicate WorkersOk(plan: Plan, workers: seq<Worker>) {
    forall c :: 0 <= c < |workers| ==> WorkerOk(plan, workers[c])
  }

  /** What one step adds to a coordinator's counts. */
  predicate Adds(plan: Plan, v: Worker, w: Worker, claims: nat, submits: nat, queries: nat) {
    && Claims(w) == Claims(v) + claims && Submits(w) == Submits(v) + submits
    && Queries(plan.queryEvery)(w) == Queries(plan.queryEvery)(v) + queries
    && WorkerOk(plan, w) && w.at != Underflowed
  }

  lemma NextRound(round: nat, every: nat)
    requires every > 0
    ensures (round + 1) % every == 0 ==> (round + 1) / every == round / every + 1
    ensures (round + 1) % every != 0 ==> (round + 1) / every == round / every
  {
    var q, r := round / every, round % every;
    assert round == q * every + r;
    if r + 1 == every {
      assert round + 1 == (q + 1) * every + 0;
      DivideRow(round + 1, q + 1, every);
    } else {
      DivideRow(round + 1, q, every);
    }
  }

  /** One coordinator goes on: the sums grow by what it adds. */
  lemma TotalsAdd(plan: Plan, s: State, c: nat, w: Worker, claims: nat, submits: nat, queries: nat)
    requires c < |s.workers| && Adds(plan, s.workers[c], w, claims, submits, queries) && WorkersOk(plan, s.workers)
    ensures var workers := s.workers[c := w];
      && Total(Claims, workers) == Total(Claims, s.workers) + claims
      && Total(Submits, workers) == Total(Submits, s.workers) + submits
      && Total(Queries(plan.queryEvery), workers) == Total(Queries(plan.queryEvery), s.workers) + queries
      && WorkersOk(plan, workers)
    ensures Calm(s) ==> Calm(s.(workers := s.workers[c := w]))
  {
    TotalUpdate(Claims, s.workers, c, w);
    TotalUpdate(Submits, s.workers, c, w);
    TotalUpdate(Queries(plan.queryEvery), s.workers, c, w);
    hide Claims, Submits, Queries, Total, WorkerOk;
  }

  lemma ClaimTally(plan: Plan, s: State, c: nat)
    requires Tally(plan, s) && WorkersOk(plan, s.workers) && Can(s, StepClaim(c))
    requires |s.queue.waiting| >= plan.batchSize
    ensures var t := Do(plan, s, StepClaim(c)); Tally(plan, t) && WorkersOk(plan, t.workers) && (Calm(s) ==> Calm(t))
  {
    var w := AfterClaim(plan, s.workers[c], c, Claimed(s.queue, plan.batchSize));
    ClaimKeeps(s.queue, plan.batchSize);
    BatchSizes(s.queue, plan.batchSize);
    ChildCount(plan, s, c);
    assert WorkerOk(plan, s.workers[c]);
    TotalsAdd(plan, s, c, w, 1, 0, 0);
    Distribute(plan.batchSize, Total(Claims, s.workers));
    hide Sound, Children, Domains, Times, Total, Claims, Submits, Queries, WorkersOk, Calm, AfterClaim;
  }

  lemma ChildCount(plan: Plan, s: State, c: nat)
    requires c < |s.workers| && |s.queue.waiting| >= plan.batchSize
    ensures |Children(Claimed(s.queue, plan.batchSize), c, s.workers[c].round, plan.factor)| == Times(plan.batchSize, plan.factor)
  {
  }

  lemma BatchSizes(q: Queue, n: nat)
    ensures |Claimed(q, n)| == Least(n, |q.waiting|)
  {
  }

  lemma Distribute(a: nat, n: nat)
    ensures Times(a, n + 1) == Times(a, n) + a
  {
  }

  lemma SubmitTally(plan: Plan, s: State, c: nat)
    requires Tally(plan, s) && WorkersOk(plan, s.workers) && Can(s, StepSubmit(c))
    ensures var t := Do(plan, s, StepSubmit(c)); Tally(plan, t) && WorkersOk(plan, t.workers) && (Calm(s) ==> Calm(t))
  {
    var v := s.workers[c];
    assert WorkerOk(plan, v);
    if plan.queryEvery > 0 { NextRound(v.round, plan.queryEvery); }
    SubmitCounts(s.queue, v.at.children);
    assert Adds(plan, v, AfterSubmit(plan, v), 0, 1, 0) by { hide Times; }
    TotalsAdd(plan, s, c, AfterSubmit(plan, v), 0, 1, 0);
    Distribute(Times(plan.batchSize, plan.factor), Total(Submits, s.workers));
    hide Sound, Submit, Times, Total, Claims, Submits, Queries, WorkersOk, Calm, AfterSubmit;
  }

  lemma SubmitCounts(q: Queue, domains: seq<Domain>)
    requires Sound(q)
    ensures var r := Submit(q, domains);
      && Sound(r) && |r.pushed| == |q.pushed| + |domains| && r.taken == q.taken && r.added == q.added + |domains|
      && r.claimCalls == q.claimCalls && r.submitCalls == q.submitCalls + 1 && r.sizeCalls == q.sizeCalls
  {
    PushAllKeeps(q.(submitCalls := q.submitCalls + 1, added := q.added + |domains|), domains);
  }

  lemma QueryTally(plan: Plan, s: State, c: nat)
    requires Tally(plan, s) && WorkersOk(plan, s.workers) && Can(s, StepQuery(c))
    ensures var t := Do(plan, s, StepQuery(c)); Tally(plan, t) && WorkersOk(plan, t.workers) && (Calm(s) ==> Calm(t))
  {
    var v := s.workers[c];
    assert WorkerOk(plan, v);
    NextRound(v.round, plan.queryEvery);
    SizeKeeps(s.queue);
    TotalsAdd(plan, s, c, StartOf(plan, v.round + 1), 0, 0, 1);
    hide Sound, Times, Total, Claims, Submits, Queries, WorkersOk, Calm, StartOf;
  }

  lemma StartTally(plan: Plan)
    requires Valid(plan)
    ensures Tally(plan, Start(plan)) && WorkersOk(plan, Start(plan).workers) && Calm(Start(plan))
  {
    InitialSound(plan.initial);
    hide Sound, InitialDomains;
    InitialCounts(plan.initial);
    var workers := Start(plan).workers;
    if plan.queryEvery > 0 { assert 0 / plan.queryEvery == 0; }
    TotalOfEqual(Claims, workers, 0);
    TotalOfEqual(Submits, workers, 0);
    TotalOfEqual(Queries(plan.queryEvery), workers, 0);
  }

  lemma InitialCounts(n: nat)
    ensures var q := Initial(n); q.claimCalls == q.submitCalls == q.sizeCalls == 0
  {
    PushAllKeeps(EMPTY, InitialDomains(n));
  }

  // ---------- No underflow ----------

  lemma {:induction false} TotalSplit(workers: seq<Worker>)
    ensures Total(Claims, workers) == Total(Submits, workers) + Total(Holding, workers)
  {
    if workers != [] { TotalSplit(workers[..|workers| - 1]); }
  }

  /** However the others have got on, a coordinator about to claim finds a full batch. */
  lemma EnoughWaiting(plan: Plan, s: State, c: nat)
    requires Tally(plan, s) && Valid(plan) && Can(s, StepClaim(c))
    requires plan.initial >= plan.coordinators * plan.batchSize
    ensures |s.queue.waiting| >= plan.batchSize
  {
    SizesAddUp(s.queue);
    TotalSplit(s.workers);
    TotalBelow(Holding, s.workers, c);
    hide Sound;
    EnoughLeft(plan, Total(Submits, s.workers), Total(Holding, s.workers));
    hide Times;
  }

  lemma EnoughLeft(plan: Plan, submits: nat, holding: nat)
    requires Valid(plan) && plan.initial >= plan.coordinators * plan.batchSize && holding < plan.coordinators
    ensures plan.initial + Times(Times(plan.batchSize, plan.factor), submits) >= Times(plan.batchSize, submits + holding) + plan.batchSize
  {
    var b := plan.batchSize;
    assert b * (submits + holding) == b * submits + b * holding;
    assert b * plan.factor * submits == b * submits * plan.factor;
    Scales(b * submits, plan.factor);
    Monotone(b, holding, plan.coordinators - 1);
    assert plan.coordinators * b == b * (plan.coordinators - 1) + b;
  }

  lemma Scales(a: nat, factor: nat)
    requires factor >= 1
    ensures a * factor >= a
  {
  }

  lemma Monotone(a: nat, m: nat, n: nat)
    requires m <= n
    ensures a * m <= a * n
  {
  }

  lemma SizesAddUp(q: Queue)
    requires Sound(q)
    ensures |q.waiting| + |q.taken| == |q.pushed|
  {
    SplitDomains(q);
  }

  /** With at least a batch for every coordinator to begin with, every claim of every schedule returns a full
      batch, and the frontier's counters are at all times the sums of what was asked of it. */
  lemma {:induction false} NeverUnderflows(plan: Plan, states: seq<State>, steps: seq<Step>, i: nat)
    requires IsRun(plan, states, steps) && i < |states|
    requires plan.initial >= plan.coordinators * plan.batchSize
    ensures Calm(states[i]) && Tally(plan, states[i]) && WorkersOk(plan, states[i].workers)
  {
    hide Tally, Calm, WorkersOk, Do;
    if i == 0 {
      StartTally(plan);
    } else {
      NeverUnderflows(plan, states, steps, i - 1);
      var s := states[i - 1];
      match steps[i - 1] {
        case StepClaim(c) =>
          EnoughWaiting(plan, s, c);
          ClaimTally(plan, s, c);
        case StepSubmit(c) => SubmitTally(plan, s, c);
        case StepQuery(c) => QueryTally(plan, s, c);
      }
    }
  }

  // ---------- Tightness ----------

  /** The first `k` coordinators have claimed, nobody else has moved. */
  ghost predicate FirstClaimed(plan: Plan, s: State, k: nat) {
    && |s.workers| == plan.coordinators && k <= plan.coordinators
    && |s.queue.waiting| == plan.initial - k * plan.batchSize
    && (forall c :: 0 <= c < k ==> s.workers[c].at.Submitting?)
    && (forall c :: k <= c < plan.coordinators ==> s.workers[c] == Worker(0, Claiming))
  }

  lemma {:induction false} FirstClaims(plan: Plan, k: nat) returns (states: seq<State>, steps: seq<Step>)
    requires Valid(plan) && k <= plan.coordinators && k * plan.batchSize <= plan.initial
    ensures IsRun(plan, states, steps) && FirstClaimed(plan, states[|steps|], k)
  {
    if k == 0 {
      states, steps := [Start(plan)], [];
      InitialSound(plan.initial);
      SizesAddUp(Initial(plan.initial));
    } else {
      Distribute(plan.batchSize, k - 1);
      assert (k - 1) * plan.batchSize == Times(plan.batchSize, k - 1) && k * plan.batchSize == Times(plan.batchSize, k);
      states, steps := FirstClaims(plan, k - 1);
      var s := states[|steps|];
      BatchSizes(s.queue, plan.batchSize);
      states, steps := states + [Do(plan, s, StepClaim(k - 1))], steps + [StepClaim(k - 1)];
    }
  }

  /** With fewer domains than that, letting the coordinators claim one after the other makes one of them fail. */
  lemma SomeScheduleUnderflows(plan: Plan) returns (states: seq<State>, steps: seq<Step>)
    requires Valid(plan) && plan.initial < plan.coordinators * plan.batchSize
    ensures IsRun(plan, states, steps) && !Calm(states[|steps|])
  {
    var k := plan.initial / plan.batchSize;
    Quotient(plan.initial, plan.batchSize, plan.coordinators);
    states, steps := FirstClaims(plan, k);
    var s := states[|steps|];
    BatchSizes(s.queue, plan.batchSize);
    var t := Do(plan, s, StepClaim(k));
    assert t.workers[k].at == Underflowed;
    states, steps := states + [t], steps + [StepClaim(k)];
  }

  lemma Quotient(n: nat, b: nat, c: nat)
    requires b >= 1 && n < c * b
    ensures n / b < c && (n / b) * b <= n < (n / b) * b + b
  {
  }

  /** The bound is tight: no schedule underflows exactly when there is a batch for every coordinator to begin with. */
  lemma UnderflowIsDecidedByTheStart(plan: Plan)
    requires Valid(plan)
    ensures (exists states, steps :: IsRun(plan, states, steps) && !Calm(states[|steps|])) <==>
            plan.initial < plan.coordinators * plan.batchSize
  {
    if plan.initial < plan.coordinators * plan.batchSize {
      var states, steps := SomeScheduleUnderflows(plan);
    } else {
      forall states, steps | IsRun(plan, states, steps) ensures Calm(states[|steps|]) {
        NeverUnderflows(plan, states, steps, |steps|);
      }
    }
  }

  /** The size the benchmark chooses when none is given. */
  function DefaultSize(coordinators: nat, batchSize: nat): nat {
    var n := coordinators * batchSize * 2;
    if n < batchSize then batchSize else n
  }

  lemma DefaultSizeSuffices(plan: Plan, states: seq<State>, steps: seq<Step>, i: nat)
    requires IsRun(plan, states, steps) && i < |states|
    requires plan.initial == DefaultSize(plan.coordinators, plan.batchSize)
    ensures Calm(states[i])
    ensures plan.initial == if plan.coordinators > 0 then 2 * (plan.coordinators * plan.batchSize) else plan.batchSize
  {
    Monotone(plan.coordinators * plan.batchSize, 1, 2);
    if plan.coordinators > 0 { Monotone(plan.batchSize, 1, plan.coordinators); }
    NeverUnderflows(plan, states, steps, i);
  }

  // ---------- Reconciliation ----------

  /** The check at the end of the benchmark. */
  method ValidateSnapshot(plan: Plan, snapshot: Snapshot) returns (r: Result<(), Error>)
    ensures r.Ok? <==> snapshot == Expected(plan)
    ensures r.Ok? <==>
      var calls := plan.coordinators * plan.rounds;
      && snapshot.claimCalls == calls && snapshot.submitCalls == calls
      && snapshot.claimed == calls * plan.batchSize && snapshot.added == calls * plan.batchSize * plan.factor
      && snapshot.frontierSize == plan.initial - snapshot.claimed + snapshot.added
      && snapshot.sizeCalls == if plan.queryEvery > 0 then plan.coordinators * (plan.rounds / plan.queryEvery) else 0
  {
    var claimCalls := plan.coordinators * plan.rounds;
    var claimed := claimCalls * plan.batchSize;
    var added := claimed * plan.factor;
    var sizeCalls := if plan.queryEvery > 0 then plan.coordinators * (plan.rounds / plan.queryEvery) else 0;
    var expected := Snapshot(plan.initial - claimed + added, claimed, added, claimCalls, claimCalls, sizeCalls);
    r := if snapshot == expected then Ok(()) else Err(Error("RuntimeError", "backend produced an invalid frontier snapshot"));
  }

  function Expected(plan: Plan): Snapshot {
    var calls := plan.coordinators * plan.rounds;
    var claimed := calls * plan.batchSize;
    Snapshot(plan.initial - claimed + claimed * plan.factor, claimed, claimed * plan.factor, calls, calls,
             if plan.queryEvery > 0 then plan.coordinators * (plan.rounds / plan.queryEvery) else 0)
  }

  /** A run in which no claim falls short keeps the tally. */
  lemma {:induction false} CalmTally(plan: Plan, states: seq<State>, steps: seq<Step>, i: nat)
    requires IsRun(plan, states, steps) && i < |states| && Calm(states[i])
    ensures Tally(plan, states[i]) && WorkersOk(plan, states[i].workers)
  {
    if i == 0 {
      StartTally(plan);
    } else {
      var s, step := states[i - 1], steps[i - 1];
      CalmBefore(plan, s, step);
      CalmTally(plan, states, steps, i - 1);
      hide Tally, Calm, WorkersOk, Do, IsRun;
      match step {
        case StepClaim(c) => ClaimTally(plan, s, c);
        case StepSubmit(c) => SubmitTally(plan, s, c);
        case StepQuery(c) => QueryTally(plan, s, c);
      }
    }
  }

  lemma CalmBefore(plan: Plan, s: State, step: Step)
    requires Can(s, step) && Calm(Do(plan, s, step))
    ensures Calm(s) && (step.StepClaim? ==> |s.queue.waiting| >= plan.batchSize)
  {
    var t := Do(plan, s, step);
    BatchSizes(s.queue, plan.batchSize);
    forall c | 0 <= c < |s.workers| ensures s.workers[c].at != Underflowed {
      assert c != step.c ==> t.workers[c] == s.workers[c];
    }
    assert t.workers[step.c].at != Underflowed;
  }

  /** Whatever the schedule, a complete run without underflow ends with exactly the snapshot that the benchmark expects. */
  lemma EveryScheduleReconciles(plan: Plan, states: seq<State>, steps: seq<Step>)
    requires IsRun(plan, states, steps)
    requires forall c :: 0 <= c < |states[|steps|].workers| ==> states[|steps|].workers[c].at == Done
    ensures Report(states[|steps|].queue) == Expected(plan)
  {
    var s := states[|steps|];
    CalmTally(plan, states, steps, |steps|);
    var perWorker := if plan.queryEvery > 0 then plan.rounds / plan.queryEvery else 0;
    forall c | 0 <= c < |s.workers| ensures Claims(s.workers[c]) == plan.rounds && Submits(s.workers[c]) == plan.rounds
      ensures Queries(plan.queryEvery)(s.workers[c]) == perWorker
    {
      assert WorkerOk(plan, s.workers[c]);
    }
    TotalOfEqual(Claims, s.workers, plan.rounds);
    TotalOfEqual(Submits, s.workers, plan.rounds);
    TotalOfEqual(Queries(plan.queryEvery), s.workers, perWorker);
    SizesAddUp(s.queue);
  }

  // ---------- One coordinator's loop ----------

  /** What `rounds` undisturbed rounds of one coordinator do to the frontier. */
  ghost predicate Advanced(plan: Plan, a: Queue, b: Queue, rounds: nat)
    requires plan.factor >= 1
  {
    && Sound(b)
    && |b.taken| == |a.taken| + Times(rounds, plan.batchSize)
    && b.added == a.added + Times(rounds, Times(plan.batchSize, plan.factor))
    && |b.waiting| == |a.waiting| + Times(rounds, Times(plan.batchSize, plan.factor - 1))
    && b.claimCalls == a.claimCalls + rounds && b.submitCalls == a.submitCalls + rounds
    && b.sizeCalls == a.sizeCalls + QueriesAfter(plan, rounds)
  }

  function QueriesAfter(plan: Plan, rounds: nat): nat {
    if plan.queryEvery > 0 then rounds / plan.queryEvery else 0
  }

  predicate QueriesIn(plan: Plan, round: nat) {
    plan.queryEvery > 0 && (round + 1) % plan.queryEvery == 0
  }

  lemma NothingYet(plan: Plan, q: Queue)
    requires plan.factor >= 1 && Sound(q)
    ensures Advanced(plan, q, q, 0)
  {
    if plan.queryEvery > 0 { assert 0 / plan.queryEvery == 0; }
  }

  lemma RoundCounts(plan: Plan, round: nat)
    requires plan.factor >= 1
    ensures Times(round + 1, plan.batchSize) == Times(round, plan.batchSize) + plan.batchSize
    ensures var more := Times(plan.batchSize, plan.factor);
      Times(round + 1, more) == Times(round, more) + more
    ensures var more := Times(plan.batchSize, plan.factor - 1);
      Times(round + 1, more) == Times(round, more) + more
    ensures Times(plan.batchSize, plan.factor) == Times(plan.batchSize, plan.factor - 1) + plan.batchSize
    ensures QueriesAfter(plan, round + 1) == QueriesAfter(plan, round) + if QueriesIn(plan, round) then 1 else 0
  {
    Commutes(round, plan.batchSize);
    Commutes(round, Times(plan.batchSize, plan.factor));
    Commutes(round, Times(plan.batchSize, plan.factor - 1));
    Distribute(plan.batchSize, plan.factor - 1);
    if plan.queryEvery > 0 { NextRound(round, plan.queryEvery); }
  }

  lemma Commutes(n: nat, a: nat)
    ensures Times(n + 1, a) == Times(n, a) + a
  {
  }

  /** One round: a full claim, a submission of as many children as there are, and maybe a query. */
  lemma RoundAdvances(plan: Plan, a: Queue, q: Queue, children: seq<Domain>, round: nat)
    requires plan.factor >= 1 && Advanced(plan, a, q, round) && |q.waiting| >= plan.batchSize
    requires |children| == Times(plan.batchSize, plan.factor)
    ensures var t := Submit(Claim(q, plan.batchSize), children);
      Advanced(plan, a, if QueriesIn(plan, round) then Size(t) else t, round + 1)
  {
    var c := Claim(q, plan.batchSize);
    var t := Submit(c, children);
    ClaimKeeps(q, plan.batchSize);
    ClaimFacts(q, plan.batchSize, plan.batchSize);
    SubmitCounts(c, children);
    SizeKeeps(t);
    SizesAddUp(c);
    SizesAddUp(t);
    RoundCounts(plan, round);
    hide Sound, Submit, Claim, Times, QueriesAfter, QueriesIn;
  }

  /** One round of a coordinator: the queue and the checksum after it. */
  function Round(plan: Plan, coordinator: int, round: nat, q: Queue, checksum: nat): (Queue, nat) {
    var children := Children(Claimed(q, plan.batchSize), coordinator, round, plan.factor);
    var after := Submit(Claim(q, plan.batchSize), children);
    var sum := Xor(checksum, Checksum(children));
    if QueriesIn(plan, round) then (Frontier.Size(after), Xor(sum, |after.waiting|)) else (after, sum)
  }

  /** The first `rounds` rounds of a coordinator that has the queue for itself. */
  function Rounds(plan: Plan, coordinator: int, q: Queue, rounds: nat): (Queue, nat) {
    if rounds == 0 then (q, 0)
    else
      var before := Rounds(plan, coordinator, q, rounds - 1);
      Round(plan, coordinator, rounds - 1, before.0, before.1)
  }

  lemma OneRoundAdvances(plan: Plan, coordinator: int, a: Queue, q: Queue, sum: nat, round: nat)
    requires plan.factor >= 1 && |a.waiting| >= plan.batchSize && Advanced(plan, a, q, round)
    ensures Advanced(plan, a, Round(plan, coordinator, round, q, sum).0, round + 1)
  {
    hide Advanced, Children, Claimed, Claim, Submit, Times, Xor, Checksum;
    AdvancedFacts(plan, a, q, round);
    BatchSizes(q, plan.batchSize);
    BatchChildren(Claimed(q, plan.batchSize), coordinator, round, plan.factor);
    RoundAdvances(plan, a, q, Children(Claimed(q, plan.batchSize), coordinator, round, plan.factor), round);
  }

  lemma {:induction false} RoundsAdvance(plan: Plan, coordinator: int, q: Queue, k: nat)
    requires plan.factor >= 1 && Sound(q) && |q.waiting| >= plan.batchSize
    ensures Advanced(plan, q, Rounds(plan, coordinator, q, k).0, k)
  {
    hide Advanced, Round;
    if k == 0 {
      NothingYet(plan, q);
    } else {
      var before := Rounds(plan, coordinator, q, k - 1);
      RoundsAdvance(plan, coordinator, q, k - 1);
      OneRoundAdvances(plan, coordinator, q, before.0, before.1, k - 1);
    }
  }

  /** Record `x` that is submitted out of queue `q`, in which it leads to queue `r`, is child number x mod factor of the
      waiting entry x / factor. */
  ghost predicate SubmitsChild(plan: Plan, q: Queue, r: Queue, from: nat, coordinator: int, round: int, x: nat) {
    && plan.factor > 0 && x / plan.factor < |q.waiting| && from + x < |r.pushed|
    && IsChild(Record(r.pushed[from + x]), Record(q.waiting[x / plan.factor]), coordinator, round, x % plan.factor)
  }

  function Record(e: Entry): Domain {
    Domain(e.priority, e.depth, e.token)
  }

  /** The children of a full batch, as many as its size times the factor. */
  lemma BatchHasChildren(plan: Plan, q: Queue, coordinator: int, round: int, x: nat)
    requires |q.waiting| >= plan.batchSize && plan.factor > 0 && x < plan.batchSize * plan.factor
    ensures var children := Children(Claimed(q, plan.batchSize), coordinator, round, plan.factor);
      && |children| == plan.batchSize * plan.factor && x / plan.factor < plan.batchSize
      && IsChild(children[x], Record(q.waiting[x / plan.factor]), coordinator, round, x % plan.factor)
  {
    BatchIs(q, plan.batchSize);
    hide Children, Claimed, IsChild;
    ChildrenAreRecords(Claimed(q, plan.batchSize), coordinator, round, plan.factor, x);
  }

  /** Submitting the children of a full batch that was claimed from `q` pushes them one by one, in order. */
  lemma ChildrenAreSubmitted(plan: Plan, q: Queue, r: Queue, coordinator: int, round: int, x: nat)
    requires Sound(q) && |q.waiting| >= plan.batchSize && plan.factor > 0 && x < plan.batchSize * plan.factor
    requires Sound(r)
    ensures var t := Submit(r, Children(Claimed(q, plan.batchSize), coordinator, round, plan.factor));
      |t.pushed| == |r.pushed| + plan.batchSize * plan.factor && SubmitsChild(plan, q, t, |r.pushed|, coordinator, round, x)
  {
    var children := Children(Claimed(q, plan.batchSize), coordinator, round, plan.factor);
    hide Children, Claimed, IsChild, Submit, Sound, Domains;
    BatchHasChildren(plan, q, coordinator, round, x);
    SubmitKeeps(r, children);
    RecordsAreAppended(r.pushed, Submit(r, children).pushed, children, x);
  }

  lemma RecordsAreAppended(before: seq<Entry>, after: seq<Entry>, children: seq<Domain>, x: nat)
    requires Domains(after) == Domains(before) + children && x < |children|
    ensures |after| == |before| + |children| && Record(after[|before| + x]) == children[x]
  {
    assert |Domains(after)| == |after| && |Domains(before)| == |before|;
    assert Domains(after)[|before| + x] == children[x];
  }

  lemma BatchIs(q: Queue, batchSize: nat)
    requires |q.waiting| >= batchSize
    ensures |Claimed(q, batchSize)| == batchSize
    ensures forall i :: 0 <= i < batchSize ==> Claimed(q, batchSize)[i] == Record(q.waiting[i])
  {
  }

  lemma ClaimPushesNothing(q: Queue, batchSize: nat)
    ensures Claim(q, batchSize).pushed == q.pushed
  {
  }

  /** Round `k` of a coordinator that has the queue for itself submits the children of the entries that wait first, for this
      coordinator and this round, one by one and in order. */
  lemma RoundsSubmitChildren(plan: Plan, coordinator: int, q: Queue, k: nat, x: nat)
    requires plan.factor > 0 && Sound(q) && |q.waiting| >= plan.batchSize && x < plan.batchSize * plan.factor
    ensures var before, after := Rounds(plan, coordinator, q, k).0, Rounds(plan, coordinator, q, k + 1).0;
      && |after.pushed| == |before.pushed| + plan.batchSize * plan.factor
      && SubmitsChild(plan, before, after, |before.pushed|, coordinator, k, x)
  {
    NextIsRound(plan, coordinator, q, k);
    RoundsAdvance(plan, coordinator, q, k);
    hide Rounds, Round, SubmitsChild;
    var before := Rounds(plan, coordinator, q, k);
    AdvancedFacts(plan, q, before.0, k);
    AdvancedSound(plan, q, before.0, k);
    hide Sound, Advanced;
    RoundSubmits(plan, coordinator, k, before.0, before.1, x);
  }

  /** A bit of its checksum changes in round `k` exactly when an odd number of the children's tokens, and of the size if
      the plan asks for it in this round, have it. */
  lemma RoundsSumChildren(plan: Plan, coordinator: int, q: Queue, k: nat, bit: nat)
    ensures var before, after := Rounds(plan, coordinator, q, k), Rounds(plan, coordinator, q, k + 1);
      Bit(after.1, bit) ==
      (Bit(before.1, bit) + Having(Children(Claimed(before.0, plan.batchSize), coordinator, k, plan.factor), bit) +
       (if plan.queryEvery > 0 && (k + 1) % plan.queryEvery == 0 then Bit(|after.0.waiting|, bit) else 0)) % 2
  {
    NextIsRound(plan, coordinator, q, k);
    hide Rounds, Round, Children, Claimed, Having, Bit;
    RoundSums(plan, coordinator, k, Rounds(plan, coordinator, q, k).0, Rounds(plan, coordinator, q, k).1, bit);
  }

  lemma NextIsRound(plan: Plan, coordinator: int, q: Queue, k: nat)
    ensures Rounds(plan, coordinator, q, k + 1) ==
      Round(plan, coordinator, k, Rounds(plan, coordinator, q, k).0, Rounds(plan, coordinator, q, k).1)
  {
    hide Round;
  }

  lemma RoundSubmits(plan: Plan, coordinator: int, round: nat, q: Queue, sum: nat, x: nat)
    requires plan.factor > 0 && Sound(q) && |q.waiting| >= plan.batchSize && x < plan.batchSize * plan.factor
    ensures var r := Round(plan, coordinator, round, q, sum).0;
      && |r.pushed| == |q.pushed| + plan.batchSize * plan.factor
      && SubmitsChild(plan, q, r, |q.pushed|, coordinator, round, x)
  {
    ClaimKeeps(q, plan.batchSize);
    ClaimPushesNothing(q, plan.batchSize);
    hide Sound, Children, Claimed, Claim, Submit, Xor, Checksum, IsChild;
    ChildrenAreSubmitted(plan, q, Claim(q, plan.batchSize), coordinator, round, x);
  }

  lemma RoundSums(plan: Plan, coordinator: int, round: nat, q: Queue, sum: nat, bit: nat)
    ensures var r := Round(plan, coordinator, round, q, sum);
      Bit(r.1, bit) ==
      (Bit(sum, bit) + Having(Children(Claimed(q, plan.batchSize), coordinator, round, plan.factor), bit) +
       (if plan.queryEvery > 0 && (round + 1) % plan.queryEvery == 0 then Bit(|r.0.waiting|, bit) else 0)) % 2
  {
    var children := Children(Claimed(q, plan.batchSize), coordinator, round, plan.factor);
    var t := Submit(Claim(q, plan.batchSize), children);
    hide Children, Claimed, Claim, Submit, Xor, Checksum, Having, Bit;
    ChecksumIsParity(children, bit);
    XorBits(sum, Checksum(children), bit);
    XorBits(Xor(sum, Checksum(children)), |t.waiting|, bit);
  }

  lemma AdvancedSound(plan: Plan, a: Queue, q: Queue, round: nat)
    requires plan.factor >= 1 && Advanced(plan, a, q, round)
    ensures Sound(q)
  {
  }

  // ---------- Every submission of every schedule ----------

  /** How many submissions coordinator `c` has made. */
  function SubmitsBy(steps: seq<Step>, c: nat): nat {
    if steps == [] then 0 else SubmitsBy(steps[..|steps| - 1], c) + if steps[|steps| - 1] == StepSubmit(c) then 1 else 0
  }

  /** A coordinator's round is the number of submissions it has made. */
  lemma {:induction false} RoundsAreSubmissions(plan: Plan, states: seq<State>, steps: seq<Step>, i: nat, c: nat)
    requires IsRun(plan, states, steps) && i < |states| && c < |states[i].workers|
    ensures SubmitsBy(steps[..i], c) == states[i].workers[c].round + if states[i].workers[c].at == Querying then 1 else 0
  {
    if i > 0 {
      var s, step := states[i - 1], steps[i - 1];
      assert Can(s, step) && states[i] == Do(plan, s, step);
      assert steps[..i][..i - 1] == steps[..i - 1] && steps[..i][i - 1] == step;
      hide Claimed, Claim, Submit, Children;
      RoundsAreSubmissions(plan, states, steps, i - 1, c);
    }
  }

  /** A coordinator that is about to submit has claimed a full batch before, in the same round, and holds its children. */
  lemma {:induction false} FindClaim(plan: Plan, states: seq<State>, steps: seq<Step>, i: nat, c: nat) returns (k: nat)
    requires IsRun(plan, states, steps) && i < |states| && c < |states[i].workers| && states[i].workers[c].at.Submitting?
    ensures k < i && steps[k] == StepClaim(c) && |states[k].queue.waiting| >= plan.batchSize
    ensures var w := states[i].workers[c];
      w.at.children == Children(Claimed(states[k].queue, plan.batchSize), c, w.round, plan.factor)
  {
    k := 0;
    if i == 0 {
      assert false;
    } else {
      var s, step := states[i - 1], steps[i - 1];
      assert Can(s, step) && states[i] == Do(plan, s, step);
      hide IsRun, Claimed, Claim, Submit, Children;
      if step == StepClaim(c) {
        k := i - 1;
        BatchSizes(s.queue, plan.batchSize);
      } else {
        k := FindClaim(plan, states, steps, i - 1, c);
      }
    }
  }

  lemma {:induction false} AlwaysSound(plan: Plan, states: seq<State>, steps: seq<Step>, i: nat)
    requires IsRun(plan, states, steps) && i < |states|
    ensures Sound(states[i].queue)
  {
    if i == 0 {
      InitialSound(plan.initial);
    } else {
      AlwaysSound(plan, states, steps, i - 1);
      var s, step := states[i - 1], steps[i - 1];
      assert Can(s, step) && states[i] == Do(plan, s, step);
      match step {
        case StepClaim(_) => ClaimKeeps(s.queue, plan.batchSize);
        case StepSubmit(c) => SubmitCounts(s.queue, s.workers[c].at.children);
        case StepQuery(_) => SizeKeeps(s.queue);
      }
    }
  }

  lemma SubmissionIs(plan: Plan, states: seq<State>, steps: seq<Step>, i: nat)
    requires IsRun(plan, states, steps) && i < |steps| && steps[i].StepSubmit?
    ensures steps[i].c < |states[i].workers| && states[i].workers[steps[i].c].at.Submitting?
    ensures states[i + 1].queue == Submit(states[i].queue, states[i].workers[steps[i].c].at.children)
  {
    assert Can(states[i], steps[i]) && states[i + 1] == Do(plan, states[i], steps[i]);
    hide IsRun, Submit;
  }

  /** Whatever the schedule, what a coordinator submits in a round are the children of a full batch that it claimed before,
      for this coordinator and this round, one by one and in order. */
  lemma SubmissionsAreChildren(plan: Plan, states: seq<State>, steps: seq<Step>, i: nat, x: nat) returns (k: nat)
    requires IsRun(plan, states, steps) && i < |steps| && steps[i].StepSubmit? && x < plan.batchSize * plan.factor
    ensures k < i && steps[k] == StepClaim(steps[i].c)
    ensures |states[i + 1].queue.pushed| == |states[i].queue.pushed| + plan.batchSize * plan.factor
    ensures SubmitsChild(plan, states[k].queue, states[i + 1].queue, |states[i].queue.pushed|, steps[i].c,
                         SubmitsBy(steps[..i], steps[i].c), x)
  {
    var c := steps[i].c;
    SubmissionIs(plan, states, steps, i);
    hide Sound, Claimed, Submit, Children, SubmitsChild, SubmitsBy, Can, Do;
    k := FindClaim(plan, states, steps, i, c);
    RoundsAreSubmissions(plan, states, steps, i, c);
    AlwaysSound(plan, states, steps, k);
    AlwaysSound(plan, states, steps, i);
    hide IsRun;
    ChildrenAreSubmitted(plan, states[k].queue, states[i].queue, c, states[i].workers[c].round, x);
  }

  /** The loop of one coordinator that has the frontier to itself: with a full batch to begin with no claim falls
      short and every count advances by what the plan says; with less, the first claim fails. */
  method Coordinate(frontier: FrontierCore, plan: Plan, coordinator: int) returns (r: Result<nat, Error>)
    requires frontier.Valid() && Valid(plan)
    modifies frontier
    ensures frontier.Valid()
    ensures r.Ok? <==> |old(frontier.queue).waiting| >= plan.batchSize
    ensures r.Ok? ==> Advanced(plan, old(frontier.queue), frontier.queue, plan.rounds)
    ensures r.Ok? ==> (frontier.queue, r.value) == Rounds(plan, coordinator, old(frontier.queue), plan.rounds)
  {
    hide Sound, Advanced, Children, Claimed, Claim, Submit, Times, QueriesAfter, Xor, Checksum;
    var checksum := 0;
    ghost var start := frontier.queue;
    ValidSound(frontier);
    NothingYet(plan, start);
    for round := 0 to plan.rounds
      invariant frontier.Valid() && Advanced(plan, start, frontier.queue, round)
      invariant round > 0 ==> |start.waiting| >= plan.batchSize
      invariant (frontier.queue, checksum) == Rounds(plan, coordinator, start, round)
    {
      ghost var q := frontier.queue;
      assert Rounds(plan, coordinator, start, round + 1) == Round(plan, coordinator, round, q, checksum);
      AdvancedFacts(plan, start, q, round);
      BatchSizes(q, plan.batchSize);
      var domains := frontier.ClaimBatch(plan.batchSize);
      if |domains.value| != plan.batchSize {
        return Err(Error("RuntimeError", "frontier underflow"));
      }
      BatchChildren(domains.value, coordinator, round, plan.factor);
      var children, roundChecksum := BranchDomains(domains.value, coordinator, round, plan.factor);
      RoundAdvances(plan, start, q, children, round);
      var size := frontier.SubmitChildren(children);
      checksum := Xor(checksum, roundChecksum);
      if plan.queryEvery > 0 && (round + 1) % plan.queryEvery == 0 {
        size := frontier.Size();
        checksum := Xor(checksum, size);
      }
    }
    r := Ok(checksum);
  }

  lemma ValidSound(frontier: FrontierCore)
    requires frontier.Valid()
    ensures Sound(frontier.queue)
  {
  }

  lemma AdvancedFacts(plan: Plan, a: Queue, q: Queue, round: nat)
    requires plan.factor >= 1 && Advanced(plan, a, q, round)
    ensures |q.waiting| >= |a.waiting| && (round == 0 ==> |q.waiting| == |a.waiting|)
  {
  }

  lemma BatchChildren(batch: seq<Domain>, coordinator: int, round: int, factor: nat)
    ensures |Children(batch, coordinator, round, factor)| == Times(|batch|, factor)
  {
  }
}
