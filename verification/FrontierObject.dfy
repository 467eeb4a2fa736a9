/** The frontier object itself: a heap list and counters changed in place, behaving as the sorted queue. */
module FrontierObject {
  import opened Base
  import opened Heap
  import opened Frontier

  /** The root of the heap is the head of the queue. */
  lemma RootIsHead(heap: seq<Entry>, waiting: seq<Entry>, least: Entry)
    requires multiset(heap) == multiset(waiting) && Sorted(waiting) && waiting != []
    requires least in heap && forall x :: x in heap ==> AtMost(least, x)
    ensures least == waiting[0]
  {
    assert waiting[0] in multiset(heap);
    assert least in multiset(waiting);
    var i :| 0 <= i < |waiting| && waiting[i] == least;
    AtMostIsOrder(least, waiting[0], least);
  }

  lemma RestOfQueue(waiting: seq<Entry>, rest: multiset<Entry>)
    requires waiting != [] && multiset(waiting) == rest + multiset{waiting[0]}
    ensures multiset(waiting[1..]) == rest
  {
    WithoutOne(waiting, 0);
    assert Without(waiting, 0) == waiting[1..];
    assert multiset(waiting) - multiset{waiting[0]} == rest;
  }

  /** One more of the batch: the root is the next waiting entry. */
  lemma NextOfBatch(waiting: seq<Entry>, i: nat, heap: seq<Entry>, least: Entry, rest: seq<Entry>)
    requires Sorted(waiting) && i < |waiting| && multiset(heap) == multiset(waiting[i..])
    requires least in heap && (forall x :: x in heap ==> AtMost(least, x)) && multiset(heap) == multiset(rest) + multiset{least}
    ensures least == waiting[i] && multiset(rest) == multiset(waiting[i + 1..])
    ensures Domains(waiting[..i + 1]) == Domains(waiting[..i]) + [Domain(least.priority, least.depth, least.token)]
  {
    RootIsHead(heap, waiting[i..], least);
    RestOfQueue(waiting[i..], multiset(rest));
    assert waiting[i..][1..] == waiting[i + 1..];
  }

  /** The loop of a claim: `count` pops off a heap that holds `waiting`. */
  method PopBatch(heap: seq<Entry>, count: nat, ghost waiting: seq<Entry>) returns (rest: seq<Entry>, batch: seq<Domain>)
    requires IsHeap(heap) && Sorted(waiting) && multiset(heap) == multiset(waiting) && count <= |waiting|
    ensures IsHeap(rest) && multiset(rest) == multiset(waiting[count..]) && batch == Domains(waiting[..count])
  {
    hide IsHeap, Sorted, Domains, AtMost;
    rest, batch := heap, [];
    EmptyBatch(waiting);
    for i := 0 to count
      invariant IsHeap(rest) && multiset(rest) == multiset(waiting[i..]) && batch == Domains(waiting[..i])
    {
      SizeOf(rest, waiting[i..]);
      var least, others := Heap.Pop(rest);
      NextOfBatch(waiting, i, rest, least, others);
      rest := others;
      batch := batch + [Domain(least.priority, least.depth, least.token)];
    }
  }

  lemma EmptyBatch(waiting: seq<Entry>)
    ensures Domains(waiting[..0]) == [] && waiting[0..] == waiting
  {
  }

  class FrontierCore {
    var heap: seq<Entry>
    var nextSequence: nat
    var claimed: nat
    var added: nat
    var claimCalls: nat
    var submitCalls: nat
    var sizeCalls: nat
    ghost var queue: Queue

    ghost predicate Valid()
      reads this
    {
      && Sound(queue)
      && IsHeap(heap) && multiset(heap) == multiset(queue.waiting)
      && nextSequence == |queue.pushed| && claimed == |queue.taken| && added == queue.added
      && claimCalls == queue.claimCalls && submitCalls == queue.submitCalls && sizeCalls == queue.sizeCalls
    }

    constructor Empty()
      ensures Valid() && queue == EMPTY
    {
      heap, nextSequence, claimed, added, claimCalls, submitCalls, sizeCalls := [], 0, 0, 0, 0, 0, 0;
      queue := EMPTY;
    }

    static method Create(initialDomains: int) returns (r: Result<FrontierCore, Error>)
      ensures r.Err? <==> initialDomains < 1
      ensures r.Ok? ==> fresh(r.value) && r.value.Valid() && r.value.queue == Initial(initialDomains)
    {
      if initialDomains < 1 {
        return Err(Error("ValueError", "initial_domains must be at least 1"));
      }
      var core := new FrontierCore.Empty();
      var initial: seq<Domain> := [];
      for token := 0 to initialDomains
        invariant initial == InitialDomains(token)
        invariant fresh(core) && core.Valid() && core.queue == EMPTY
      {
        NextInitial(token);
        initial := initial + [Domain(token * 104_729 % TWO_TO_63, 0, token)];
      }
      core.PushDomains(initial);
      r := Ok(core);
    }

    method PushDomains(domains: seq<Domain>)
      requires Valid()
      modifies this`heap, this`nextSequence, this`queue
      ensures Valid() && queue == PushAll(old(queue), domains)
    {
      hide Sound, IsHeap, Frontier.Push;
      var i := 0;
      while i < |domains|
        invariant 0 <= i <= |domains| && Valid()
        invariant queue == PushAll(old(queue), domains[..i])
      {
        assert domains[..i + 1][..i] == domains[..i];
        PushKeeps(queue, domains[i]);
        WaitingNext(queue, domains[i]);
        var d := domains[i];
        heap := Heap.Push(heap, Entry(d.priority, nextSequence, d.depth, d.token));
        nextSequence := nextSequence + 1;
        PushCounts(queue, d);
        queue := Frontier.Push(queue, d);
        i := i + 1;
      }
      assert domains[..i] == domains;
    }

    /** Removes and returns the highest-priority batch: as many of the least entries as asked for, or all. */
    method ClaimBatch(batchSize: int) returns (r: Result<seq<Domain>, Error>)
      requires Valid()
      modifies this`heap, this`claimed, this`claimCalls, this`queue
      ensures Valid()
      ensures batchSize < 1 ==> r.Err? && queue == old(queue) && heap == old(heap)
      ensures batchSize >= 1 ==> r == Ok(Claimed(old(queue), batchSize)) && queue == Claim(old(queue), batchSize)
    {
      if batchSize < 1 {
        return Err(Error("ValueError", "batch_size must be at least 1"));
      }
      var batch := TakeBatch(batchSize);
      r := Ok(batch);
    }

    method TakeBatch(batchSize: nat) returns (batch: seq<Domain>)
      requires Valid()
      modifies this`heap, this`claimed, this`claimCalls, this`queue
      ensures Valid() && batch == Claimed(old(queue), batchSize) && queue == Claim(old(queue), batchSize)
    {
      hide Sound, IsHeap, Sorted, Domains, Claim, Claimed;
      SoundFacts(queue);
      SizeOf(heap, queue.waiting);
      var count := if batchSize < |heap| then batchSize else |heap|;
      ClaimFacts(queue, batchSize, count);
      ClaimKeeps(queue, batchSize);
      claimCalls := claimCalls + 1;
      heap, batch := PopBatch(heap, count, queue.waiting);
      claimed := claimed + |batch|;
      queue := Claim(queue, batchSize);
    }

    /** Adds records and returns the new size. */
    method SubmitChildren(domains: seq<Domain>) returns (size: nat)
      requires Valid()
      modifies this
      ensures Valid() && queue == Submit(old(queue), domains) && size == |queue.waiting|
    {
      submitCalls := submitCalls + 1;
      added := added + |domains|;
      queue := queue.(submitCalls := queue.submitCalls + 1, added := queue.added + |domains|);
      PushAllKeeps(queue, domains);
      PushDomains(domains);
      SizeOf(heap, queue.waiting);
      size := |heap|;
    }

    method Size() returns (size: nat)
      requires Valid()
      modifies this`sizeCalls, this`queue
      ensures Valid() && queue == Frontier.Size(old(queue)) && size == |queue.waiting|
    {
      sizeCalls := sizeCalls + 1;
      queue := Frontier.Size(queue);
      SizeOf(heap, queue.waiting);
      size := |heap|;
    }

    method TakeSnapshot() returns (s: Snapshot)
      requires Valid()
      ensures s == Report(queue)
      ensures s.frontierSize == |queue.waiting| && s.claimed == |queue.taken| && s.added == queue.added
      ensures s.claimCalls == queue.claimCalls && s.submitCalls == queue.submitCalls && s.sizeCalls == queue.sizeCalls
    {
      SizeOf(heap, queue.waiting);
      s := Snapshot(|heap|, claimed, added, claimCalls, submitCalls, sizeCalls);
    }
  }

  lemma SizeOf(heap: seq<Entry>, waiting: seq<Entry>)
    requires multiset(heap) == multiset(waiting)
    ensures |heap| == |waiting|
  {
    assert |multiset(heap)| == |multiset(waiting)|;
  }

  lemma WaitingNext(q: Queue, d: Domain)
    requires Sound(q)
    ensures multiset(Frontier.Push(q, d).waiting) == multiset(q.waiting) + multiset{Waiting(d, |q.pushed|)}
  {
    forall x | x in q.waiting ensures x.sequence != |q.pushed| {
      WaitingWasPushed(q, x);
    }
    InsertSorts(q.waiting, Waiting(d, |q.pushed|));
  }

  lemma SoundFacts(q: Queue)
    requires Sound(q)
    ensures Sorted(q.waiting)
  {
  }

  lemma PushCounts(q: Queue, d: Domain)
    ensures var r := Frontier.Push(q, d);
      |r.pushed| == |q.pushed| + 1 && r == q.(waiting := r.waiting, pushed := r.pushed)
  {
  }

  lemma ClaimFacts(q: Queue, batchSize: nat, count: nat)
    requires count == Least(batchSize, |q.waiting|)
    ensures Claimed(q, batchSize) == Domains(q.waiting[..count]) && |Domains(q.waiting[..count])| == count
    ensures var r := Claim(q, batchSize);
      && r.waiting == q.waiting[count..] && |r.taken| == |q.taken| + count && r.pushed == q.pushed && r.added == q.added
      && r.claimCalls == q.claimCalls + 1 && r.submitCalls == q.submitCalls && r.sizeCalls == q.sizeCalls
  {
  }

  lemma NextInitial(token: nat)
    ensures InitialDomains(token + 1) == InitialDomains(token) + [Domain(token * 104_729 % TWO_TO_63, 0, token)]
  {
  }
}
