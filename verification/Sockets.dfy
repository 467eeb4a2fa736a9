/** The framing helpers over a mutable byte stream that hands out arbitrary chunks. */
module Sockets {
  import opened Base
  import opened Framing

  function Join(chunks: seq<Bytes>): Bytes {
    if chunks == [] then [] else Join(chunks[..|chunks| - 1]) + chunks[|chunks| - 1]
  }

  lemma JoinAppend(chunks: seq<Bytes>, chunk: Bytes)
    ensures Join(chunks + [chunk]) == Join(chunks) + chunk
  {
  }

  /** The receiving end: what the peer sends before the connection ends, and how far it has been read. */
  class Inbound {
    const data: Bytes
    var at: nat

    constructor (data: Bytes)
      ensures this.data == data && at == 0
    {
      this.data := data;
      at := 0;
    }

    predicate Valid()
      reads this
    {
      at <= |data|
    }

    function Rest(): Bytes
      requires Valid()
      reads this
    {
      data[at..]
    }

    /** At most `limit` bytes and at least one, as many as the network likes; none at the end of the stream. */
    method Recv(limit: nat) returns (chunk: Bytes)
      requires Valid() && limit > 0
      modifies this`at
      ensures Valid() && |chunk| <= limit && old(at) + |chunk| == at
      ensures chunk == data[old(at)..at]
      ensures chunk == [] <==> old(at) == |data|
    {
      if at == |data| {
        chunk := [];
      } else {
        var n :| 1 <= n <= limit && at + n <= |data|;
        chunk := data[at..at + n];
        at := at + n;
      }
    }

    /** Reads exactly `size` bytes, however they are chunked, or all that is left when the stream ends first. */
    method ReadExact(size: nat) returns (r: Result<Bytes, Failure>)
      requires Valid()
      modifies this`at
      ensures Valid()
      ensures if size <= |old(Rest())| then r == Ok(old(Rest())[..size]) && Rest() == old(Rest())[size..]
        else r == Err(Closed(size)) && Rest() == []
    {
      var chunks: seq<Bytes> := [];
      var remaining: int := size;
      ghost var start := at;
      while remaining != 0
        invariant Valid() && start <= at && 0 <= remaining <= size
        invariant at - start == size - remaining
        invariant Join(chunks) == data[start..at]
        decreases remaining
      {
        var chunk := Recv(remaining);
        if chunk == [] {
          return Err(Closed(size));
        }
        JoinAppend(chunks, chunk);
        chunks := chunks + [chunk];
        remaining := remaining - |chunk|;
      }
      assert data[start..at] == data[start..][..size] && data[at..] == data[start..][size..];
      r := Ok(Join(chunks));
    }

    /** Reads one frame: for every chunking, what the specification reads off the rest of the stream, and
        not a byte more. */
    method ReadFrame(maxFrame: nat) returns (r: Result<Bytes, Failure>)
      requires Valid()
      modifies this`at
      ensures Valid() && r == Read(old(Rest()), maxFrame).0
      ensures Rest() == old(Rest())[Read(old(Rest()), maxFrame).1..]
    {
      ghost var stream := Rest();
      var header := ReadExact(HEADER_SIZE);
      if header.Err? {
        return header;
      }
      var length := Length(header.value);
      if length > maxFrame {
        return Err(TooLong(length));
      }
      r := ReadExact(length);
      assert |stream| >= HEADER_SIZE + length ==>
        stream[HEADER_SIZE..][..length] == stream[HEADER_SIZE..HEADER_SIZE + length] &&
        stream[HEADER_SIZE..][length..] == stream[HEADER_SIZE + length..];
    }

    /** The reading loop of either side: frame after frame until reading one fails. */
    method ReadFrames(maxFrame: nat) returns (payloads: seq<Bytes>, failure: Failure)
      requires Valid()
      modifies this`at
      ensures Valid() && payloads == ReadAll(old(Rest()), maxFrame)
    {
      payloads := [];
      ghost var stream := Rest();
      while true
        invariant Valid()
        invariant payloads + ReadAll(Rest(), maxFrame) == ReadAll(stream, maxFrame)
        decreases |data| - at
      {
        ghost var before := Rest();
        var r := ReadFrame(maxFrame);
        if r.Err? {
          return payloads, r.error;
        }
        assert ReadAll(before, maxFrame) == [r.value] + ReadAll(Rest(), maxFrame);
        payloads := payloads + [r.value];
      }
    }
  }

  /** The sending end. A failure is permanent: the peer has got what was sent before it. */
  class Outbound {
    var sent: Bytes
    var broken: bool

    constructor ()
      ensures sent == [] && !broken
    {
      sent := [];
      broken := false;
    }

    /** Shuts and closes the socket: no later send succeeds. */
    method Close()
      modifies this`broken
      ensures broken
    {
      broken := true;
    }

    /** Sends everything, or breaks on the way. */
    method SendAll(data: Bytes) returns (ok: bool)
      modifies this
      ensures ok == !broken && (old(broken) ==> broken && sent == old(sent))
      ensures ok ==> sent == old(sent) + data
      ensures !ok ==> exists n :: 0 <= n <= |data| && sent == old(sent) + data[..n]
    {
      if broken {
        assert sent == old(sent) + data[..0];
        return false;
      }
      var n :| 0 <= n <= |data|;
      sent := sent + data[..n];
      ok := n == |data|;
      broken := !ok;
    }

    /** Writes one frame: nothing at all when it is too long, else the frame or a proper part of it. */
    method WriteFrame(payload: Bytes, maxFrame: nat) returns (ok: bool)
      modifies this
      ensures ok ==> Fits(payload, maxFrame) && sent == old(sent) + Frame(payload) && !broken
      ensures !ok && !Fits(payload, maxFrame) ==> sent == old(sent) && broken == old(broken)
      ensures !ok && Fits(payload, maxFrame) ==> broken && exists part :: part <= Frame(payload) && sent == old(sent) + part
      ensures old(broken) ==> !ok && sent == old(sent)
    {
      if |payload| > maxFrame || |payload| > MAX_UINT32 {
        return false;
      }
      var header := Header(|payload|);
      ok := SendAll(header);
      if !ok {
        ghost var n :| 0 <= n <= |header| && sent == old(sent) + header[..n];
        assert header[..n] <= Frame(payload);
        return;
      }
      assert sent == old(sent) + header;
      ok := SendAll(payload);
      if ok {
        assert sent == old(sent) + Frame(payload);
      } else {
        ghost var n :| 0 <= n <= |payload| && sent == old(sent) + header + payload[..n];
        assert header + payload[..n] <= Frame(payload);
        assert sent == old(sent) + (header + payload[..n]);
      }
    }
  }
}
