/** The shared priority frontier: a heap of tuples that behaves as a sorted queue. */
module Frontier {
  import opened Base
  import opened Heap

  datatype Domain = Domain(priority: int, depth: int, token: int)

  datatype Snapshot = Snapshot(frontierSize: int, claimed: int, added: int, claimCalls: int, submitCalls: int, sizeCalls: int)

  const TWO_TO_63 := 0x8000_0000_0000_0000

  // ---------- The sorted queue ----------

  /** The frontier as its users see it: a queue sorted by priority and, within a priority, by insertion;
      with everything ever pushed into it and claimed from it. */
  datatype Queue = Queue(
    waiting: seq<Entry>, pushed: seq<Entry>, taken: seq<Entry>,
    added: nat, claimCalls: nat, submitCalls: nat, sizeCalls: nat)

  function Waiting(d: Domain, sequence: nat): Entry {
    Entry(d.priority, sequence, d.depth, d.token)
  }

  function Domains(entries: seq<Entry>): seq<Domain> {
    seq(|entries|, i requires 0 <= i < |entries| => Domain(entries[i].priority, entries[i].depth, entries[i].token))
  }

  function Insert(waiting: seq<Entry>, e: Entry): seq<Entry> {
    if waiting == [] || Less(e, waiting[0]) then [e] + waiting else [waiting[0]] + Insert(waiting[1..], e)
  }

  function Push(q: Queue, d: Domain): Queue {
    var e := Waiting(d, |q.pushed|);
    q.(waiting := Insert(q.waiting, e), pushed := q.pushed + [e])
  }

  function PushAll(q: Queue, domains: seq<Domain>): Queue {
    if domains == [] then q else Push(PushAll(q, domains[..|domains| - 1]), domains[|domains| - 1])
  }

  function Least(a: nat, b: nat): nat {
    if a < b then a else b
  }

  function Claim(q: Queue, batchSize: nat): Queue {
    var n := Least(batchSize, |q.waiting|);
    q.(waiting := q.waiting[n..], taken := q.taken + q.waiting[..n], claimCalls := q.claimCalls + 1)
  }

  function Claimed(q: Queue, batchSize: nat): seq<Domain> {
    Domains(q.waiting[..Least(batchSize, |q.waiting|)])
  }

  function Submit(q: Queue, domains: seq<Domain>): Queue {
    PushAll(q.(submitCalls := q.submitCalls + 1, added := q.added + |domains|), domains)
  }

  function Size(q: Queue): Queue {
    q.(sizeCalls := q.sizeCalls + 1)
  }

  const EMPTY := Queue([], [], [], 0, 0, 0, 0)

  function InitialDomain(token: nat): Domain {
    Domain(token * 104_729 % TWO_TO_63, 0, token)
  }

  function InitialDomains(n: nat): seq<Domain> {
    seq(n, token requires 0 <= token < n => InitialDomain(token))
  }

  function Initial(n: nat): Queue {
    PushAll(EMPTY, InitialDomains(n))
  }

  function Report(q: Queue): Snapshot {
    Snapshot(|q.waiting|, |q.taken|, q.added, q.claimCalls, q.submitCalls, q.sizeCalls)
  }

  // ---------- What the queue promises ----------

  ghost predicate Sorted(waiting: seq<Entry>) {
    forall i, j :: 0 <= i < j < |waiting| ==> Less(waiting[i], waiting[j])
  }

  /** Every entry has its own sequence number, and is either waiting, in order, or was taken, once. */
  ghost predicate Sound(q: Queue) {
    && Sorted(q.waiting)
    && (forall i :: 0 <= i < |q.pushed| ==> q.pushed[i].sequence == i)
    && multiset(q.waiting) + multiset(q.taken) == multiset(q.pushed)
  }

  lemma {:induction false} InsertSorts(waiting: seq<Entry>, e: Entry)
    requires Sorted(waiting) && forall x :: x in waiting ==> x.sequence != e.sequence
    ensures Sorted(Insert(waiting, e)) && multiset(Insert(waiting, e)) == multiset(waiting) + multiset{e}
  {
    if waiting == [] || Less(e, waiting[0]) {
      assert multiset([e] + waiting) == multiset{e} + multiset(waiting);
    } else {
      var rest := Insert(waiting[1..], e);
      InsertSorts(waiting[1..], e);
      assert waiting == [waiting[0]] + waiting[1..];
      assert waiting[0] in waiting;
      forall j | 0 <= j < |rest| ensures Less(waiting[0], rest[j]) {
        assert rest[j] in multiset(rest);
        assert rest[j] in waiting[1..] || rest[j] == e;
      }
    }
  }

  lemma WaitingWasPushed(q: Queue, e: Entry)
    requires Sound(q) && (e in q.waiting || e in q.taken)
    ensures e in q.pushed && 0 <= e.sequence < |q.pushed| && q.pushed[e.sequence] == e
  {
    assert e in multiset(q.pushed);
  }

  lemma PushKeeps(q: Queue, d: Domain)
    requires Sound(q)
    ensures Sound(Push(q, d))
  {
    forall x | x in q.waiting ensures x.sequence != |q.pushed| {
      WaitingWasPushed(q, x);
    }
    InsertSorts(q.waiting, Waiting(d, |q.pushed|));
  }

  lemma {:induction false} PushAllKeeps(q: Queue, domains: seq<Domain>)
    requires Sound(q)
    ensures Sound(PushAll(q, domains))
    ensures |PushAll(q, domains).pushed| == |q.pushed| + |domains|
    ensures PushAll(q, domains) == q.(waiting := PushAll(q, domains).waiting, pushed := PushAll(q, domains).pushed)
  {
    if domains != [] {
      PushAllKeeps(q, domains[..|domains| - 1]);
      PushKeeps(PushAll(q, domains[..|domains| - 1]), domains[|domains| - 1]);
    }
  }

  lemma ClaimKeeps(q: Queue, batchSize: nat)
    requires Sound(q)
    ensures Sound(Claim(q, batchSize))
  {
    var n := Least(batchSize, |q.waiting|);
    assert q.waiting == q.waiting[..n] + q.waiting[n..];
    assert multiset(q.waiting) == multiset(q.waiting[..n]) + multiset(q.waiting[n..]);
  }

  // ---------- Over any sequence of operations ----------

  datatype Operation = ClaimBatch(batchSize: nat) | SubmitChildren(domains: seq<Domain>) | AskSize | TakeSnapshot

  function Apply(q: Queue, op: Operation): Queue {
    match op
    case ClaimBatch(batchSize) => Claim(q, batchSize)
    case SubmitChildren(domains) => Submit(q, domains)
    case AskSize => Size(q)
    case TakeSnapshot => q
  }

  function Play(n: nat, ops: seq<Operation>): Queue {
    if ops == [] then Initial(n) else Apply(Play(n, ops[..|ops| - 1]), ops[|ops| - 1])
  }

  function In(op: Operation): seq<Domain> {
    if op.SubmitChildren? then op.domains else []
  }

  function Out(q: Queue, op: Operation): seq<Domain> {
    if op.ClaimBatch? then Claimed(q, op.batchSize) else []
  }

  /** The domains handed out by the claims, in order, and those handed in. */
  function HandedOut(n: nat, ops: seq<Operation>): seq<Domain> {
    if ops == [] then []
    else HandedOut(n, ops[..|ops| - 1]) + Out(Play(n, ops[..|ops| - 1]), ops[|ops| - 1])
  }

  function HandedIn(ops: seq<Operation>): seq<Domain> {
    if ops == [] then [] else HandedIn(ops[..|ops| - 1]) + In(ops[|ops| - 1])
  }

  lemma InitialSound(n: nat)
    ensures Sound(Initial(n)) && |Initial(n).pushed| == n && Initial(n).taken == [] && Initial(n).added == 0
    ensures Domains(Initial(n).pushed) == InitialDomains(n)
  {
    PushAllKeeps(EMPTY, InitialDomains(n));
    PushedDomains(EMPTY, InitialDomains(n));
    assert Domains(EMPTY.pushed) + InitialDomains(n) == InitialDomains(n);
  }

  lemma {:induction false} PushedDomains(q: Queue, domains: seq<Domain>)
    ensures Domains(PushAll(q, domains).pushed) == Domains(q.pushed) + domains
  {
    if domains != [] {
      var rest := domains[..|domains| - 1];
      PushedDomains(q, rest);
      var r, d := PushAll(q, rest), domains[|domains| - 1];
      assert Domains(Push(r, d).pushed) == Domains(r.pushed) + [d];
      assert domains == rest + [d];
    }
  }

  lemma ClaimHandsOut(q: Queue, batchSize: nat)
    ensures Domains(Claim(q, batchSize).taken) == Domains(q.taken) + Claimed(q, batchSize)
  {
  }

  lemma SubmitKeeps(q: Queue, domains: seq<Domain>)
    requires Sound(q)
    ensures var r := Submit(q, domains);
      && Sound(r) && r.taken == q.taken && r.added == q.added + |domains|
      && Domains(r.pushed) == Domains(q.pushed) + domains
  {
    var r := q.(submitCalls := q.submitCalls + 1, added := q.added + |domains|);
    PushAllKeeps(r, domains);
    PushedDomains(r, domains);
  }

  lemma ApplySound(q: Queue, op: Operation)
    requires Sound(q)
    ensures var r := Apply(q, op);
      && Sound(r) && Domains(r.pushed) == Domains(q.pushed) + In(op) && Domains(r.taken) == Domains(q.taken) + Out(q, op)
      && r.added == q.added + |In(op)|
  {
    hide Sound, Domains, Claimed;
    match op {
      case ClaimBatch(batchSize) =>
        ClaimKeeps(q, batchSize);
        ClaimHandsOut(q, batchSize);
        hide Claim;
      case SubmitChildren(domains) =>
        hide Submit;
        SubmitKeeps(q, domains);
      case AskSize => SizeKeeps(q);
      case TakeSnapshot =>
    }
  }

  lemma SizeKeeps(q: Queue)
    requires Sound(q)
    ensures Sound(Size(q))
  {
  }

  lemma Associates<T>(a: seq<T>, b: seq<T>, c: seq<T>)
    ensures a + b + c == a + (b + c)
  {
  }

  lemma {:induction false} PlaySound(n: nat, ops: seq<Operation>)
    ensures var q := Play(n, ops);
      && Sound(q) && Domains(q.pushed) == InitialDomains(n) + HandedIn(ops) && Domains(q.taken) == HandedOut(n, ops)
      && q.added == |HandedIn(ops)|
  {
    if ops == [] {
      InitialSound(n);
    } else {
      hide Sound, Apply, Domains, Initial, InitialDomains, In, Out;
      var rest, op := ops[..|ops| - 1], ops[|ops| - 1];
      PlaySound(n, rest);
      ApplySound(Play(n, rest), op);
      Associates(InitialDomains(n), HandedIn(rest), In(op));
    }
  }

  function Without<T>(s: seq<T>, i: nat): seq<T>
    requires i < |s|
  {
    s[..i] + s[i + 1..]
  }

  lemma WithoutOne<T>(s: seq<T>, i: nat)
    requires i < |s|
    ensures multiset(Without(s, i)) == multiset(s) - multiset{s[i]}
  {
    assert s == s[..i] + [s[i]] + s[i + 1..];
  }

  lemma DomainsWithout(s: seq<Entry>, i: nat)
    requires i < |s|
    ensures Domains(Without(s, i)) == Without(Domains(s), i)
  {
  }

  lemma {:induction false} SameDomains(a: seq<Entry>, b: seq<Entry>)
    requires multiset(a) == multiset(b)
    ensures multiset(Domains(a)) == multiset(Domains(b))
  {
    if a == [] {
      assert |multiset(b)| == 0;
    } else {
      assert a[0] in multiset(b);
      var i :| 0 <= i < |b| && b[i] == a[0];
      WithoutOne(a, 0);
      WithoutOne(b, i);
      SameDomains(Without(a, 0), Without(b, i));
      DomainsWithout(a, 0);
      DomainsWithout(b, i);
      WithoutOne(Domains(a), 0);
      WithoutOne(Domains(b), i);
      assert Domains(a)[0] == Domains(b)[i];
      assert Domains(a)[0] in multiset(Domains(a)) && Domains(b)[i] in multiset(Domains(b));
      hide Domains, Without;
      assert multiset(Domains(a)) == (multiset(Domains(a)) - multiset{Domains(a)[0]}) + multiset{Domains(a)[0]};
    }
  }

  /** Domains are conserved: after any operations, the initial domains and those handed in are those handed out and
      those waiting; no pushed entry is handed out twice or handed out and still waiting; and the
      sizes add up as the frontier's own counters say. */
  lemma Conservation(n: nat, ops: seq<Operation>)
    ensures var q := Play(n, ops);
      && multiset(InitialDomains(n) + HandedIn(ops)) == multiset(HandedOut(n, ops)) + multiset(Domains(q.waiting))
      && NoDuplicates(q.taken) && (forall e :: e in q.taken ==> e !in q.waiting)
      && Report(q).frontierSize == n + Report(q).added - Report(q).claimed
      && Report(q).claimed == |HandedOut(n, ops)|
  {
    PlaySound(n, ops);
    var q := Play(n, ops);
    hide Play, HandedIn, HandedOut, InitialDomain;
    PushedOnce(q);
    SplitDomains(q);
    hide Sound, Domains;
  }

  lemma SplitDomains(q: Queue)
    requires Sound(q)
    ensures multiset(Domains(q.pushed)) == multiset(Domains(q.taken)) + multiset(Domains(q.waiting))
    ensures |Domains(q.pushed)| == |q.pushed| == |q.waiting| + |q.taken| && |Domains(q.taken)| == |q.taken|
  {
    var all := q.waiting + q.taken;
    assert multiset(all) == multiset(q.pushed);
    SameDomains(all, q.pushed);
    assert Domains(all) == Domains(q.waiting) + Domains(q.taken);
    assert |all| == |multiset(all)| == |multiset(q.pushed)| == |q.pushed|;
  }

  lemma PushedOnce(q: Queue)
    requires Sound(q)
    ensures NoDuplicates(q.taken) && forall e :: e in q.taken ==> e !in q.waiting
  {
    forall e | e in q.pushed ensures multiset(q.pushed)[e] == 1 {
      OneOf(q.pushed, e);
    }
    forall e | e in q.taken ensures e !in q.waiting {
      assert e in multiset(q.pushed);
      assert multiset(q.pushed)[e] == 1;
    }
    forall i, j | 0 <= i < j < |q.taken| ensures q.taken[i] != q.taken[j] {
      assert q.taken[i] in multiset(q.pushed);
      if q.taken[i] == q.taken[j] {
        TwoOf(q.taken, i, j);
        assert false;
      }
    }
  }

  lemma TwoOf(s: seq<Entry>, i: nat, j: nat)
    requires i < j < |s| && s[i] == s[j]
    ensures multiset(s)[s[i]] >= 2
  {
    assert s == s[..i] + [s[i]] + s[i + 1..j] + [s[j]] + s[j + 1..];
  }

  lemma OneOf(s: seq<Entry>, e: Entry)
    requires e in s && forall i :: 0 <= i < |s| ==> s[i].sequence == i
    ensures multiset(s)[e] == 1
  {
    var i := e.sequence;
    assert s == s[..i] + [e] + s[i + 1..];
    assert e !in s[..i] && e !in s[i + 1..];
  }

  // ---------- What a frontier begins with ----------

  /** A new frontier of `n` domains holds exactly the tokens below `n`, each at the top level and with the priority that a
      multiplication by 104729 modulo 2^63 gives it. */
  lemma InitialRecords(n: nat, token: nat)
    requires token < n
    ensures var q := Initial(n);
      && |q.pushed| == n && multiset(q.waiting) == multiset(q.pushed)
      && q.pushed[token] == Entry(token * 104_729 % 0x8000_0000_0000_0000, token, 0, token)
      && q.claimCalls == q.submitCalls == q.sizeCalls == q.added == 0
  {
    InitialSound(n);
    PushAllKeeps(EMPTY, InitialDomains(n));
    assert Domains(Initial(n).pushed)[token] == InitialDomains(n)[token];
  }

  // ---------- What a claim takes ----------

  /** Before, by priority and then by insertion. */
  predicate Precedes(a: Entry, b: Entry) {
    a.priority < b.priority || (a.priority == b.priority && a.sequence < b.sequence)
  }

  /** A claim takes the least entries by priority and insertion, in that order and as many as asked for if there
      are; among equal priorities the first in is the first out. Depth and
      token never decide: tuples with the same sequence number are the same entry. */
  lemma ClaimTakesTheLeast(n: nat, ops: seq<Operation>, batchSize: nat)
    ensures var q := Play(n, ops); var batch, after := Claimed(q, batchSize), Claim(q, batchSize);
      && (if batchSize <= |q.waiting| then |batch| == batchSize else |batch| == |q.waiting|)
      && (forall i :: 0 <= i < |batch| ==>
            && batch[i].priority == q.waiting[i].priority
            && batch[i].depth == q.waiting[i].depth && batch[i].token == q.waiting[i].token)
      && after.waiting == q.waiting[|batch|..] && after.taken == q.taken + q.waiting[..|batch|]
      && after.claimCalls == q.claimCalls + 1
      && (forall i, j :: 0 <= i < |batch| && i < j < |q.waiting| ==> Precedes(q.waiting[i], q.waiting[j]))
      && (forall x, y :: x in q.waiting && y in q.waiting ==> (Less(x, y) <==> Precedes(x, y)))
  {
    PlaySound(n, ops);
    var q := Play(n, ops);
    forall x, y | x in q.waiting && y in q.waiting ensures Less(x, y) <==> Precedes(x, y) {
      WaitingWasPushed(q, x);
      WaitingWasPushed(q, y);
    }
  }
}
