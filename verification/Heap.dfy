/** The binary heap behind the frontier's priority queue: a list of tuples kept in heap order by moving
    one element at a time, as Python's `heapq` does. */
module Heap {
  import opened Base

  /** A queued domain: tuples compare field by field, in this order. */
  datatype Entry = Entry(priority: int, sequence: int, depth: int, token: int)

  predicate Less(a: Entry, b: Entry) {
    || a.priority < b.priority
    || (a.priority == b.priority && (
          || a.sequence < b.sequence
          || (a.sequence == b.sequence && (
                || a.depth < b.depth
                || (a.depth == b.depth && a.token < b.token)))))
  }

  predicate AtMost(a: Entry, b: Entry) {
    !Less(b, a)
  }

  function Parent(i: nat): nat
    requires i > 0
  {
    (i - 1) / 2
  }

  ghost predicate IsHeap(h: seq<Entry>) {
    forall i :: 0 < i < |h| ==> AtMost(h[Parent(i)], h[i])
  }

  lemma {:induction false} RootIsLeast(h: seq<Entry>, i: nat)
    requires IsHeap(h) && i < |h|
    ensures AtMost(h[0], h[i])
  {
    if i > 0 {
      RootIsLeast(h, Parent(i));
    }
  }

  /** Heap order everywhere except on the way into and out of position `hole`, around which it still holds. */
  ghost predicate AlmostHeap(h: seq<Entry>, hole: nat) {
    && hole < |h|
    && (forall i :: 0 < i < |h| && i != hole && Parent(i) != hole ==> AtMost(h[Parent(i)], h[i]))
    && (forall i :: 0 < i < |h| && Parent(i) == hole && hole > 0 ==> AtMost(h[Parent(hole)], h[i]))
  }

  ghost predicate AboveChildren(h: seq<Entry>, hole: nat, item: Entry) {
    forall i :: 0 < i < |h| && Parent(i) == hole ==> AtMost(item, h[i])
  }

  lemma AtMostIsOrder(a: Entry, b: Entry, c: Entry)
    ensures AtMost(a, b) && AtMost(b, c) ==> AtMost(a, c)
    ensures AtMost(a, b) || AtMost(b, a)
    ensures AtMost(a, b) && AtMost(b, a) ==> a == b
  {
  }

  /** The parent moves down into the hole. */
  lemma HoleRises(h: seq<Entry>, hole: nat, item: Entry)
    requires 0 < hole && AlmostHeap(h, hole) && AboveChildren(h, hole, item) && Less(item, h[Parent(hole)])
    ensures AlmostHeap(h[hole := h[Parent(hole)]], Parent(hole))
    ensures AboveChildren(h[hole := h[Parent(hole)]], Parent(hole), item)
  {
  }

  /** The smaller child moves up into the hole. */
  lemma HoleSinks(h: seq<Entry>, hole: nat, child: nat)
    requires AlmostHeap(h, hole) && 0 < child < |h| && Parent(child) == hole
    requires forall i :: 0 < i < |h| && Parent(i) == hole ==> AtMost(h[child], h[i])
    ensures AlmostHeap(h[hole := h[child]], child)
  {
  }

  /** The hole is filled where `item` belongs. */
  lemma HoleFilled(h: seq<Entry>, hole: nat, item: Entry)
    requires AlmostHeap(h, hole) && AboveChildren(h, hole, item)
    requires hole > 0 ==> AtMost(h[Parent(hole)], item)
    ensures IsHeap(h[hole := item])
  {
  }

  /** Moves `item` from position `hole` towards the root until its parent is not greater. */
  method SiftDown(h: seq<Entry>, hole: nat) returns (r: seq<Entry>)
    requires hole < |h| && AlmostHeap(h, hole) && AboveChildren(h, hole, h[hole])
    ensures IsHeap(r) && multiset(r) == multiset(h) && |r| == |h|
  {
    hide AlmostHeap, AboveChildren, IsHeap, Less;
    var pos: nat := hole;
    var item := h[hole];
    r := h;
    while pos > 0
      invariant pos < |r| == |h| && AlmostHeap(r, pos) && AboveChildren(r, pos, item)
      invariant multiset(r[pos := item]) == multiset(h)
    {
      var parent := Parent(pos);
      if !Less(item, r[parent]) {
        break;
      }
      HoleRises(r, pos, item);
      MoveKeeps(r, pos, parent, item);
      r := r[pos := r[parent]];
      pos := parent;
    }
    HoleFilled(r, pos, item);
    r := r[pos := item];
  }

  lemma MoveKeeps(r: seq<Entry>, pos: nat, other: nat, item: Entry)
    requires pos < |r| && other < |r| && pos != other
    ensures multiset(r[pos := r[other]][other := item]) == multiset(r[pos := item])
  {
  }

  /** Moves the hole from the root to a leaf, smaller child by smaller child, puts `item` there and lets it
      find its place from below. */
  method SiftUp(h: seq<Entry>) returns (r: seq<Entry>)
    requires h != [] && AlmostHeap(h, 0)
    ensures IsHeap(r) && multiset(r) == multiset(h) && |r| == |h|
  {
    hide AlmostHeap, IsHeap, Less;
    var item := h[0];
    var pos: nat := 0;
    var child: nat := 1;
    r := h;
    while child < |h|
      invariant child == 2 * pos + 1 && pos < |r| == |h| && AlmostHeap(r, pos)
      invariant multiset(r[pos := item]) == multiset(h)
      decreases |h| - pos
    {
      var right := child + 1;
      if right < |h| && !Less(r[child], r[right]) {
        child := right;
      }
      SmallerChild(r, pos, child);
      HoleSinks(r, pos, child);
      MoveKeeps(r, pos, child, item);
      r := r[pos := r[child]];
      pos := child;
      child := 2 * pos + 1;
    }
    ItemInLeaf(r, pos, item);
    r := SiftDown(r[pos := item], pos);
  }

  lemma SmallerChild(h: seq<Entry>, pos: nat, child: nat)
    requires 2 * pos + 1 <= child <= 2 * pos + 2 && child < |h|
    requires if child == 2 * pos + 1 then child + 1 < |h| ==> Less(h[child], h[child + 1]) else !Less(h[child - 1], h[child])
    ensures Parent(child) == pos && forall i :: 0 < i < |h| && Parent(i) == pos ==> AtMost(h[child], h[i])
  {
  }

  lemma ItemInLeaf(h: seq<Entry>, pos: nat, item: Entry)
    requires AlmostHeap(h, pos) && |h| <= 2 * pos + 1
    ensures AlmostHeap(h[pos := item], pos) && AboveChildren(h[pos := item], pos, item)
  {
  }

  method Push(h: seq<Entry>, item: Entry) returns (r: seq<Entry>)
    requires IsHeap(h)
    ensures IsHeap(r) && multiset(r) == multiset(h) + multiset{item}
  {
    r := SiftDown(h + [item], |h|);
  }

  method Pop(h: seq<Entry>) returns (least: Entry, r: seq<Entry>)
    requires IsHeap(h) && h != []
    ensures IsHeap(r) && multiset(h) == multiset(r) + multiset{least} && |r| == |h| - 1
    ensures least in h && forall x :: x in h ==> AtMost(least, x)
  {
    forall i | 0 <= i < |h| ensures AtMost(h[0], h[i]) {
      RootIsLeast(h, i);
    }
    var last := h[|h| - 1];
    r := h[..|h| - 1];
    assert h == r + [last];
    if r == [] {
      least := last;
    } else {
      least := r[0];
      r := SiftUp(r[0 := last]);
    }
  }
}
