/** The coordinators' branch step: deterministic child records out of claimed ones. */
module Branching {
  import opened Base
  import opened Frontier

  const MULTIPLIER := 6_364_136_223_846_793_005
  const COORDINATOR_STEP := 1_442_695_040_888_963_407
  const ROUND_STEP := 104_729
  const DEPTH_STEP := 257

  /** The low 63 bits: Python's `& MASK_63`, for negative numbers too. */
  function Mask63(n: int): (r: nat)
    ensures r < TWO_TO_63
  {
    n % TWO_TO_63
  }

  function ChildToken(token: int, coordinator: int, round: int, branch: int): (r: nat)
    ensures r < TWO_TO_63
  {
    Mask63(token * MULTIPLIER + coordinator * COORDINATOR_STEP + round * ROUND_STEP + branch + 1)
  }

  function Child(d: Domain, coordinator: int, round: int, branch: int): (r: Domain)
    ensures 0 <= r.token < TWO_TO_63 && 0 <= r.priority < TWO_TO_63
  {
    var token := ChildToken(d.token, coordinator, round, branch);
    Domain(Mask63(d.priority + token % 0x1_0000 + (d.depth + 1) * DEPTH_STEP + branch), d.depth + 1, token)
  }

  predicate Natural(domains: seq<Domain>) {
    forall i :: 0 <= i < |domains| ==> domains[i].token >= 0
  }

  /** The children of one domain, and of a batch, in the order in which the loops make them. */
  function ChildrenOf(d: Domain, coordinator: int, round: int, factor: nat): seq<Domain> {
    seq(factor, branch => Child(d, coordinator, round, branch))
  }

  function Children(batch: seq<Domain>, coordinator: int, round: int, factor: nat): (r: seq<Domain>)
    ensures |r| == |batch| * factor && Natural(r)
  {
    if batch == [] then []
    else Children(batch[..|batch| - 1], coordinator, round, factor) + ChildrenOf(batch[|batch| - 1], coordinator, round, factor)
  }

  // ---------- The exclusive-or checksum ----------

  /** Bitwise exclusive or of two numbers. */
  function Xor(a: nat, b: nat): nat {
    if a == 0 && b == 0 then 0 else (a % 2 + b % 2) % 2 + 2 * Xor(a / 2, b / 2)
  }

  function Checksum(domains: seq<Domain>): nat
    requires Natural(domains)
  {
    if domains == [] then 0
    else Xor(Checksum(domains[..|domains| - 1]), domains[|domains| - 1].token)
  }

  /** Bit `i` of a number. */
  function Bit(n: nat, i: nat): (r: nat)
    ensures r < 2
  {
    n / Power(i) % 2
  }

  lemma LowestBit(n: nat)
    ensures Bit(n, 0) == n % 2
  {
  }

  lemma XorHalves(a: nat, b: nat)
    ensures Xor(a, b) % 2 == (a % 2 + b % 2) % 2 && Xor(a, b) / 2 == Xor(a / 2, b / 2)
  {
  }

  /** A bit of the half is the next bit of the whole. */
  lemma HalfBit(n: nat, i: nat)
    ensures Bit(n, i + 1) == Bit(n / 2, i)
  {
    Halves(n, Power(i));
  }

  lemma Halves(n: nat, p: nat)
    requires p >= 1
    ensures n / (2 * p) == n / 2 / p
  {
    var q, r := n / (2 * p), n % (2 * p);
    assert n == 2 * (p * q) + r;
    assert n / 2 == p * q + r / 2;
    assert 0 <= r / 2 < p;
    UniqueQuotient(n / 2, p, q, r / 2);
  }

  lemma UniqueQuotient(n: nat, p: nat, q: nat, r: nat)
    requires p >= 1 && n == p * q + r && r < p
    ensures n / p == q
  {
    var q1, r1 := n / p, n % p;
    assert p * (q - q1) == r1 - r && p * (q1 - q) == r - r1;
    if q1 < q { AtLeastFactor(q - q1, p); } else if q < q1 { AtLeastFactor(q1 - q, p); }
  }

  /** A bit of the exclusive or is set exactly where the two numbers' bits differ. */
  lemma {:induction false} XorBits(a: nat, b: nat, i: nat)
    ensures Bit(Xor(a, b), i) == 1 <==> Bit(a, i) != Bit(b, i)
    decreases i
  {
    hide Xor, Bit;
    XorHalves(a, b);
    if i == 0 {
      LowestBit(a);
      LowestBit(b);
      LowestBit(Xor(a, b));
    } else {
      HalfBit(a, i - 1);
      HalfBit(b, i - 1);
      HalfBit(Xor(a, b), i - 1);
      XorBits(a / 2, b / 2, i - 1);
    }
  }

  /** How many of the records have bit `i` set in their token. */
  function Having(domains: seq<Domain>, i: nat): nat
    requires Natural(domains)
  {
    if domains == [] then 0
    else Having(domains[..|domains| - 1], i) + Bit(domains[|domains| - 1].token, i)
  }

  lemma NoBits(i: nat)
    ensures Bit(0, i) == 0
  {
    hide Power;
  }

  /** A bit of the checksum is set exactly when an odd number of tokens have it. */
  lemma {:induction false} ChecksumIsParity(domains: seq<Domain>, i: nat)
    requires Natural(domains)
    ensures Bit(Checksum(domains), i) == Having(domains, i) % 2
  {
    hide Xor, Bit;
    if domains == [] {
      NoBits(i);
    } else {
      var rest, token := domains[..|domains| - 1], domains[|domains| - 1].token;
      ChecksumIsParity(rest, i);
      XorBits(Checksum(rest), token, i);
    }
  }

  lemma {:induction false} XorFits(a: nat, b: nat, bits: nat)
    requires a < Power(bits) && b < Power(bits)
    ensures Xor(a, b) < Power(bits)
    decreases bits
  {
    if bits > 0 {
      XorFits(a / 2, b / 2, bits - 1);
    }
  }

  function Power(bits: nat): (r: nat)
    ensures r >= 1
  {
    if bits == 0 then 1 else 2 * Power(bits - 1)
  }

  lemma {:induction false} PowerAdds(m: nat, n: nat)
    ensures Power(m + n) == Power(m) * Power(n)
  {
    if m > 0 { PowerAdds(m - 1, n); }
  }

  lemma PowerOf63()
    ensures Power(63) == TWO_TO_63
  {
    assert Power(7) == 0x80 by { PowerAdds(3, 4); PowerAdds(2, 2); PowerAdds(1, 2); }
    PowerAdds(7, 7);
    PowerAdds(14, 7);
    PowerAdds(21, 21);
    PowerAdds(42, 21);
  }

  lemma {:induction false} ChecksumBits(domains: seq<Domain>, bits: nat)
    requires Natural(domains) && forall i :: 0 <= i < |domains| ==> domains[i].token < Power(bits)
    ensures Checksum(domains) < Power(bits)
  {
    if domains != [] {
      ChecksumBits(domains[..|domains| - 1], bits);
      XorFits(Checksum(domains[..|domains| - 1]), domains[|domains| - 1].token, bits);
    }
  }

  /** The checksum of a branch step is a 63-bit number like the tokens it is made of. */
  lemma ChecksumFits(domains: seq<Domain>)
    requires Natural(domains) && forall i :: 0 <= i < |domains| ==> domains[i].token < TWO_TO_63
    ensures Checksum(domains) < TWO_TO_63
  {
    PowerOf63();
    ChecksumBits(domains, 63);
  }

  // ---------- The loops ----------

  lemma OneMoreChild(before: seq<Domain>, d: Domain, coordinator: int, round: int, branch: nat, children: seq<Domain>)
    requires Natural(children) && children == before + ChildrenOf(d, coordinator, round, branch)
    ensures var c := Child(d, coordinator, round, branch); var more := children + [c];
      c.token >= 0 && Natural(more) && more == before + ChildrenOf(d, coordinator, round, branch + 1) &&
      Checksum(more) == Xor(Checksum(children), c.token)
  {
  }

  lemma OneMoreParent(batch: seq<Domain>, i: nat, coordinator: int, round: int, factor: nat)
    requires i < |batch|
    ensures Children(batch[..i + 1], coordinator, round, factor) ==
      Children(batch[..i], coordinator, round, factor) + ChildrenOf(batch[i], coordinator, round, factor)
  {
    assert batch[..i + 1][..i] == batch[..i];
  }

  lemma ChildIs(d: Domain, coordinator: int, round: int, branch: int, token: int, priority: int)
    requires token == (d.token * 6_364_136_223_846_793_005 + coordinator * 1_442_695_040_888_963_407 +
                       round * 104_729 + branch + 1) % TWO_TO_63
    requires priority == (d.priority + token % 0x1_0000 + (d.depth + 1) * 257 + branch) % TWO_TO_63
    ensures Child(d, coordinator, round, branch) == Domain(priority, d.depth + 1, token)
  {
  }

  /** Makes the children of the batch, as `ChildrenAreRecords` says one by one, and their checksum, whose bits are the
      parities of the children's tokens. */
  method BranchDomains(batch: seq<Domain>, coordinator: int, round: int, factor: nat)
    returns (children: seq<Domain>, checksum: nat)
    ensures children == Children(batch, coordinator, round, factor)
    ensures checksum == Checksum(children)
    ensures forall i: nat :: Bit(checksum, i) == Having(children, i) % 2
  {
    hide Child, ChildrenOf, Xor, Children, Checksum, Natural;
    children, checksum := [], 0;
    NoChildren(coordinator, round, factor);
    assert batch[..0] == [];
    for i := 0 to |batch|
      invariant children == Children(batch[..i], coordinator, round, factor) && checksum == Checksum(children)
    {
      ghost var before := children;
      NoBranches(before, batch[i], coordinator, round);
      for branch := 0 to factor
        invariant children == before + ChildrenOf(batch[i], coordinator, round, branch)
        invariant Natural(children) && checksum == Checksum(children)
      {
        OneMoreChild(before, batch[i], coordinator, round, branch, children);
        var d := batch[i];
        var childToken :=
          (d.token * 6_364_136_223_846_793_005 + coordinator * 1_442_695_040_888_963_407 + round * 104_729 + branch + 1) % TWO_TO_63;
        var childPriority := (d.priority + childToken % 0x1_0000 + (d.depth + 1) * 257 + branch) % TWO_TO_63;
        ChildIs(d, coordinator, round, branch, childToken, childPriority);
        children := children + [Domain(childPriority, d.depth + 1, childToken)];
        checksum := Xor(checksum, childToken);
      }
      OneMoreParent(batch, i, coordinator, round, factor);
    }
    assert batch[..|batch|] == batch;
    forall i: nat ensures Bit(checksum, i) == Having(children, i) % 2 {
      ChecksumIsParity(children, i);
    }
  }

  lemma NoChildren(coordinator: int, round: int, factor: nat)
    ensures Children([], coordinator, round, factor) == [] && Natural([]) && Checksum([]) == 0
  {
  }

  lemma NoBranches(before: seq<Domain>, d: Domain, coordinator: int, round: int)
    ensures before + ChildrenOf(d, coordinator, round, 0) == before
  {
  }

  // ---------- The arithmetic ----------

  /** The inverse of the odd multiplier modulo 2^63. */
  const INVERSE := 4_654_452_103_859_546_277

  lemma InverseOfMultiplier()
    ensures MULTIPLIER * INVERSE == 1 + TWO_TO_63 * QUOTIENT
  {
  }

  const QUOTIENT := 3_211_576_755_005_708_623

  /** For a fixed coordinator, round and branch, a child's token determines its parent's. */
  lemma ChildDeterminesParent(t: nat, u: nat, coordinator: int, round: int, branch: int)
    requires t < TWO_TO_63 && u < TWO_TO_63
    requires ChildToken(t, coordinator, round, branch) == ChildToken(u, coordinator, round, branch)
    ensures t == u
  {
    var k := coordinator * COORDINATOR_STEP + round * ROUND_STEP + branch + 1;
    var a, b := t * MULTIPLIER + k, u * MULTIPLIER + k;
    var q := a / TWO_TO_63 - b / TWO_TO_63;
    assert (t - u) * MULTIPLIER == TWO_TO_63 * q;
    InverseOfMultiplier();
    assert (t - u) * (MULTIPLIER * INVERSE) == TWO_TO_63 * (q * INVERSE);
    assert (t - u) * (1 + TWO_TO_63 * QUOTIENT) == TWO_TO_63 * (q * INVERSE);
    assert t - u == TWO_TO_63 * (q * INVERSE - (t - u) * QUOTIENT);
  }

  /** Siblings have different tokens, for every branch factor up to 2^63. */
  lemma SiblingsDiffer(d: Domain, coordinator: int, round: int, factor: nat, i: nat, j: nat)
    requires i < j < factor <= TWO_TO_63
    ensures ChildrenOf(d, coordinator, round, factor)[i].token != ChildrenOf(d, coordinator, round, factor)[j].token
  {
    ResiduesDiffer(d.token * MULTIPLIER + coordinator * COORDINATOR_STEP + round * ROUND_STEP + i + 1, j - i);
    hide Mask63;
    assert ChildToken(d.token, coordinator, round, i) != ChildToken(d.token, coordinator, round, j);
    hide ChildToken;
  }

  lemma ResiduesDiffer(a: int, step: nat)
    requires 0 < step < TWO_TO_63
    ensures Mask63(a) != Mask63(a + step)
  {
  }

  /** Record `c` is child number `branch` of record `d`: a linear congruential step of its token, and a priority that
      grows with the token's low 16 bits, the depth and the branch, both within 63 bits. */
  predicate IsChild(c: Domain, d: Domain, coordinator: int, round: int, branch: int) {
    && c.depth == d.depth + 1
    && c.token == (d.token * 6_364_136_223_846_793_005 + coordinator * 1_442_695_040_888_963_407 + round * 104_729 + branch + 1)
                  % 0x8000_0000_0000_0000
    && c.priority == (d.priority + c.token % 0x1_0000 + (d.depth + 1) * 257 + branch) % 0x8000_0000_0000_0000
  }

  lemma ChildIsChild(d: Domain, coordinator: int, round: int, branch: int)
    ensures IsChild(Child(d, coordinator, round, branch), d, coordinator, round, branch)
  {
    ChildIs(d, coordinator, round, branch, Child(d, coordinator, round, branch).token, Child(d, coordinator, round, branch).priority);
  }

  /** Every record a branch step makes has its token and priority within 63 bits, and the i-th of a batch's
      children is child number i mod factor of record i / factor. */
  lemma {:induction false} ChildrenAreRecords(batch: seq<Domain>, coordinator: int, round: int, factor: nat, i: nat)
    requires i < |batch| * factor && factor > 0
    ensures i / factor < |batch|
    ensures var c := Children(batch, coordinator, round, factor)[i];
      && c == Child(batch[i / factor], coordinator, round, i % factor)
      && IsChild(c, batch[i / factor], coordinator, round, i % factor)
      && 0 <= c.token < TWO_TO_63 && 0 <= c.priority < TWO_TO_63
  {
    hide Child, Mask63, IsChild;
    var n := |batch| - 1;
    assert |batch| * factor == n * factor + factor;
    if i < n * factor {
      ChildrenAreRecords(batch[..n], coordinator, round, factor, i);
      assert i / factor < n;
    } else {
      DivideRow(i, n, factor);
      assert Children(batch, coordinator, round, factor)[i] == ChildrenOf(batch[n], coordinator, round, factor)[i - n * factor];
      ChildIsChild(batch[n], coordinator, round, i % factor);
    }
  }

  lemma DivideRow(i: nat, n: nat, factor: nat)
    requires factor > 0 && n * factor <= i < n * factor + factor
    ensures i / factor == n && i % factor == i - n * factor
  {
    var q, r, s := i / factor, i % factor, i - n * factor;
    assert q * factor + r == n * factor + s;
    assert (q - n) * factor == s - r && (n - q) * factor == r - s;
    if q - n >= 1 {
      AtLeastFactor(q - n, factor);
    } else if n - q >= 1 {
      AtLeastFactor(n - q, factor);
    }
  }

  lemma AtLeastFactor(k: nat, factor: nat)
    requires k >= 1
    ensures k * factor >= factor
  {
  }
}
