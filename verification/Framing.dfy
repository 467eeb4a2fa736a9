/** Length-prefixed frames: what is written, and what a reader makes of any byte stream. */
module Framing {
  import opened Base

  const HEADER_SIZE := 4
  const MAX_UINT32 := 0xFFFF_FFFF

  type Bytes = seq<Byte>

  // ---------- The header ----------

  /** `n` as four bytes, most significant first. */
  function Header(n: nat): (h: Bytes)
    requires n <= MAX_UINT32
    ensures |h| == HEADER_SIZE
  {
    [n / 0x100_0000, n / 0x1_0000 % 0x100, n / 0x100 % 0x100, n % 0x100]
  }

  function Length(h: Bytes): (n: nat)
    requires |h| == HEADER_SIZE
    ensures n <= MAX_UINT32
  {
    (((h[0] as int) * 0x100 + h[1]) * 0x100 + h[2]) * 0x100 + h[3]
  }

  lemma HeaderIsExact(n: nat, h: Bytes)
    requires n <= MAX_UINT32 && |h| == HEADER_SIZE
    ensures Length(Header(n)) == n
    ensures Length(h) == n <==> h == Header(n)
    ensures h == Header(n) <==> n == h[0] as int * 0x100_0000 + h[1] as int * 0x1_0000 + h[2] as int * 0x100 + h[3]
  {
    var a, b, c := n / 0x100, n / 0x1_0000, n / 0x100_0000;
    assert a / 0x100 == b && b / 0x100 == c;
    if Length(h) == n {
      var y: int := (h[0] as int) * 0x100 + h[1];
      var x: int := y * 0x100 + h[2];
      assert n == x * 0x100 + h[3];
      assert a == x;
      assert b == y;
      assert c == h[0];
      assert h == Header(n);
    }
  }

  // ---------- Frames ----------

  function Frame(payload: Bytes): Bytes
    requires |payload| <= MAX_UINT32
  {
    Header(|payload|) + payload
  }

  /** The payload can be written, and read back by a peer with the same limit. */
  predicate Fits(payload: Bytes, maxFrame: nat) {
    |payload| <= maxFrame && |payload| <= MAX_UINT32
  }

  datatype Failure = Closed(wanted: nat) | TooLong(length: nat)

  /** What reading one frame off `stream` gives, and how many bytes it takes. */
  function Read(stream: Bytes, maxFrame: nat): (r: (Result<Bytes, Failure>, nat))
    ensures r.1 <= |stream| && (r.0.Ok? ==> r.1 >= HEADER_SIZE)
  {
    if |stream| < HEADER_SIZE then (Err(Closed(HEADER_SIZE)), |stream|)
    else
      var n := Length(stream[..HEADER_SIZE]);
      if n > maxFrame then (Err(TooLong(n)), HEADER_SIZE)
      else if |stream| < HEADER_SIZE + n then (Err(Closed(n)), |stream|)
      else (Ok(stream[HEADER_SIZE..HEADER_SIZE + n]), HEADER_SIZE + n)
  }

  /** A frame is read back whole and nothing after it is touched. Reading succeeds exactly on
      streams that begin with a frame within the limit; it fails with "connection
      closed" exactly when the header or a frame within the limit is cut short. */
  lemma ReadIsExact(stream: Bytes, maxFrame: nat, payload: Bytes)
    ensures Read(stream, maxFrame).0 == Ok(payload) <==> Fits(payload, maxFrame) && Frame(payload) <= stream
    ensures Read(stream, maxFrame).0 == Ok(payload) ==> Read(stream, maxFrame).1 == |Frame(payload)|
    ensures (Read(stream, maxFrame).0.Err? && Read(stream, maxFrame).0.error.Closed?) <==>
            (|stream| < HEADER_SIZE ||
             (Length(stream[..HEADER_SIZE]) <= maxFrame && |stream| < HEADER_SIZE + Length(stream[..HEADER_SIZE])))
  {
    if |stream| >= HEADER_SIZE {
      var h := stream[..HEADER_SIZE];
      if |payload| <= MAX_UINT32 {
        HeaderIsExact(|payload|, h);
        if Frame(payload) <= stream {
          assert Frame(payload)[..HEADER_SIZE] == Header(|payload|);
          assert stream[..HEADER_SIZE] == Frame(payload)[..HEADER_SIZE];
          assert stream[HEADER_SIZE..HEADER_SIZE + |payload|] == Frame(payload)[HEADER_SIZE..];
        }
        if Read(stream, maxFrame).0 == Ok(payload) {
          assert stream[..HEADER_SIZE + |payload|] == h + payload;
        }
      }
    }
  }

  // ---------- Streams of frames ----------

  predicate AllFit(payloads: seq<Bytes>, maxFrame: nat) {
    forall k :: 0 <= k < |payloads| ==> Fits(payloads[k], maxFrame)
  }

  function Frames(payloads: seq<Bytes>, maxFrame: nat): Bytes
    requires AllFit(payloads, maxFrame)
  {
    if payloads == [] then [] else Frame(payloads[0]) + Frames(payloads[1..], maxFrame)
  }

  /** All payloads a reader gets out of a stream before it fails. */
  function ReadAll(stream: Bytes, maxFrame: nat): seq<Bytes> {
    var (r, used) := Read(stream, maxFrame);
    if r.Err? then [] else [r.value] + ReadAll(stream[used..], maxFrame)
  }

  /** Too short for the frame that it begins, or empty. */
  ghost predicate Unfinished(rest: Bytes, maxFrame: nat) {
    rest == [] || exists p :: Fits(p, maxFrame) && rest < Frame(p)
  }

  lemma UnfinishedReadsNothing(rest: Bytes, maxFrame: nat)
    requires Unfinished(rest, maxFrame)
    ensures ReadAll(rest, maxFrame) == []
  {
    if rest != [] {
      var p :| Fits(p, maxFrame) && rest < Frame(p);
      if |rest| >= HEADER_SIZE {
        HeaderIsExact(|p|, rest[..HEADER_SIZE]);
        assert rest[..HEADER_SIZE] == Frame(p)[..HEADER_SIZE] == Header(|p|);
      }
    }
  }

  /** Reading a stream of frames gives their payloads in order, whatever unfinished frame comes last. */
  lemma {:induction false} ReadBack(payloads: seq<Bytes>, rest: Bytes, maxFrame: nat)
    requires AllFit(payloads, maxFrame) && Unfinished(rest, maxFrame)
    ensures ReadAll(Frames(payloads, maxFrame) + rest, maxFrame) == payloads
  {
    var stream := Frames(payloads, maxFrame) + rest;
    if payloads == [] {
      assert stream == rest;
      UnfinishedReadsNothing(rest, maxFrame);
    } else {
      var first, others := payloads[0], payloads[1..];
      assert stream == Frame(first) + (Frames(others, maxFrame) + rest);
      assert Frame(first) <= stream;
      ReadIsExact(stream, maxFrame, first);
      assert stream[|Frame(first)|..] == Frames(others, maxFrame) + rest;
      ReadBack(others, rest, maxFrame);
    }
  }

  lemma {:induction false} FramesAppend(payloads: seq<Bytes>, p: Bytes, maxFrame: nat)
    requires AllFit(payloads + [p], maxFrame)
    ensures AllFit(payloads, maxFrame) && Fits(p, maxFrame)
    ensures Frames(payloads + [p], maxFrame) == Frames(payloads, maxFrame) + Frame(p)
  {
    assert (payloads + [p])[|payloads|] == p;
    assert forall k :: 0 <= k < |payloads| ==> (payloads + [p])[k] == payloads[k];
    if payloads == [] {
      assert payloads + [p] == [p];
      assert [p][1..] == [];
    } else {
      assert (payloads + [p])[1..] == payloads[1..] + [p];
      FramesAppend(payloads[1..], p, maxFrame);
    }
  }

  /** What has arrived so far of a stream of frames is some of the frames and an unfinished one. */
  lemma {:induction false} PrefixOfFrames(payloads: seq<Bytes>, rest: Bytes, seen: Bytes,
                                          maxFrame: nat) returns (n: nat)
    requires AllFit(payloads, maxFrame) && Unfinished(rest, maxFrame) && seen <= Frames(payloads, maxFrame) + rest
    ensures n <= |payloads| && ReadAll(seen, maxFrame) == payloads[..n]
  {
    var stream := Frames(payloads, maxFrame) + rest;
    if payloads == [] {
      assert stream == rest;
      assert Unfinished(seen, maxFrame) by {
        if seen != [] {
          var p :| Fits(p, maxFrame) && rest < Frame(p);
          assert seen < Frame(p);
        }
      }
      UnfinishedReadsNothing(seen, maxFrame);
      n := 0;
    } else {
      var first, others := payloads[0], payloads[1..];
      assert stream == Frame(first) + (Frames(others, maxFrame) + rest);
      if |seen| < |Frame(first)| {
        assert seen < Frame(first);
        UnfinishedReadsNothing(seen, maxFrame);
        n := 0;
      } else {
        assert Frame(first) <= seen;
        ReadIsExact(seen, maxFrame, first);
        var m := PrefixOfFrames(others, rest, seen[|Frame(first)|..], maxFrame);
        n := m + 1;
        assert payloads[..n] == [first] + others[..m];
      }
    }
  }

  /** More bytes never change what was read. */
  lemma {:induction false} ReadingGrows(some: Bytes, more: Bytes, maxFrame: nat)
    requires some <= more
    ensures ReadAll(some, maxFrame) <= ReadAll(more, maxFrame)
  {
    var (r, used) := Read(some, maxFrame);
    if r.Ok? {
      ReadIsExact(some, maxFrame, r.value);
      assert Frame(r.value) <= more;
      ReadIsExact(more, maxFrame, r.value);
      ReadingGrows(some[used..], more[used..], maxFrame);
    }
  }

  // ---------- Values ----------

  function Loaded<T>(loads: Bytes -> T, payloads: seq<Bytes>): seq<T> {
    seq(|payloads|, k requires 0 <= k < |payloads| => loads(payloads[k]))
  }

  /** With an injective serializer, whose loading undoes its dumping, the values written are the values
      read: whole messages in order are all that the two ends see of the stream. */
  lemma ValuesArrive<T(!new)>(dumps: T -> Result<Bytes, Error>, loads: Bytes -> T, values: seq<T>, payloads: seq<Bytes>,
                        rest: Bytes, maxFrame: nat)
    requires forall v, p :: dumps(v) == Ok(p) ==> loads(p) == v
    requires |payloads| == |values| && AllFit(payloads, maxFrame) && Unfinished(rest, maxFrame)
    requires forall k :: 0 <= k < |values| ==> dumps(values[k]) == Ok(payloads[k])
    ensures Loaded(loads, ReadAll(Frames(payloads, maxFrame) + rest, maxFrame)) == values
  {
    ReadBack(payloads, rest, maxFrame);
  }
}
