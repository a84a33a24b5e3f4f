/** What the daemon's buffers hold: packets as bytes, on their way in and on their way out. */
module Buffers {
  import opened Words
  import opened Packets
  import opened Rings
  import opened Memory
  import opened Handlers
  import opened PacketBuffer
  import opened Receive

  /** The fields of a packet, where the handlers look for them in the receive buffer. */
  lemma FieldsOf(b: seq<byte>, p: Pkt)
    requires Holds(b, 0, HDR_LEN + |p.ext|, p)
    ensures FromBe16(b[8..10]) == p.cmd && FromBe16(b[10..12]) == |p.ext|
    ensures FromBe32(b[12..16]) == p.p1 && FromBe32(b[16..20]) == p.p2 && b[HDR_LEN..HDR_LEN + |p.ext|] == p.ext
  {
    hide Be16, Be32, FromBe16, FromBe32;
    EncodeFields(p, b[HDR_LEN + |p.ext|..]);
    assert b == Encode(p) + b[HDR_LEN + |p.ext|..];
    Be16RoundTrip(p.cmd, [0, 0]);
    Be16RoundTrip(|p.ext|, [0, 0]);
    Be32RoundTrip(p.p1, [0, 0, 0, 0]);
    Be32RoundTrip(p.p2, [0, 0, 0, 0]);
  }

  lemma WordBehind(b: seq<byte>, p: Pkt)
    requires Holds(b, 0, HDR_LEN + |p.ext|, p)
    ensures |p.ext| >= 4 ==> |b| >= 24 && b[20..24] == p.ext[..4]
  {
    hide FromBe16, FromBe32, Encode;
    FieldsOf(b, p);
    if |p.ext| >= 4 {
      assert b[20..24] == b[HDR_LEN..HDR_LEN + |p.ext|][..4];
    }
  }

  lemma DecodeHeld(b: seq<byte>, p: Pkt)
    requires Holds(b, 0, HDR_LEN + |p.ext|, p)
    ensures |b| >= HDR_LEN && |b| >= HDR_LEN + LenField(b) && Decode(b) == p
  {
    hide Encode, LenField, Decode;
    DecodeEncode(p, b[HDR_LEN + |p.ext|..]);
    assert b == Encode(p) + b[HDR_LEN + |p.ext|..];
  }

  /** The tests look at the packet and at nothing behind it. */
  lemma CheckParamAt(b: seq<byte>, p: Pkt, cmd: u16, p1: u32, p2: u32)
    requires Holds(b, 0, HDR_LEN + |p.ext|, p)
    ensures CheckParam(b, cmd, p1, p2) <==> p == Pkt(MAGIC, p.tid, cmd, p1, p2, [])
  {
    hide Be16, Be32;
    CheckParamMeans(p, cmd, p1, p2);
    SameFields(b, p);
  }

  lemma CheckRecvAt(b: seq<byte>, p: Pkt)
    requires Holds(b, 0, HDR_LEN + |p.ext|, p)
    ensures CheckRecv(b) <==> p.p1 == STATUS_SUCCESS && p.p2 == |p.ext|
  {
    hide FromBe16, FromBe32;
    CheckRecvMeans(p);
    SameFields(b, p);
  }

  lemma SameFields(b: seq<byte>, p: Pkt)
    requires Holds(b, 0, HDR_LEN + |p.ext|, p)
    ensures var e := Encode(p);
            && |b| >= HDR_LEN && b[..4] == e[..4] && b[8..10] == e[8..10] && b[10..12] == e[10..12]
            && b[12..16] == e[12..16] && b[16..20] == e[16..20]
  {
    hide Encode;
    assert Encode(p) == b[..HDR_LEN + |p.ext|];
  }

  lemma NoSplice(b: seq<byte>)
    ensures Splice(b, 0, []) == b
  {
  }

  // ----- reading a packet

  /** How reading the rest of a packet of `n` bytes goes; one that does not fit is not read. */
  function RestRead(i: Input, n: nat, c: Counts): (r: Reading)
    requires |i.buf| == RBUF_SIZE
    ensures r == Whole || r == ShortPayload
  {
    if n <= RBUF_SIZE - HDR_LEN then Payload(i, n, c).1 else Whole
  }

  function HowRead(i: Input, c: Counts): Reading
    requires |i.buf| == RBUF_SIZE
  {
    var (j, how) := Header(i, c);
    if how == Whole then RestRead(j, LenField(j.buf), c) else how
  }

  lemma HeaderOfQueue(i: Input, down: seq<Pkt>, c: Counts)
    requires |i.buf| == RBUF_SIZE && i.stream == EncodeAll(down)
    ensures var (j, how) := Header(i, c);
            && (down == [] ==> how == Closed) && (how != Whole ==> HowRead(i, c) == how)
            && (how == Whole ==> HowRead(i, c) == RestRead(j, |down[0].ext|, c))
            && (how == Whole ==> && j.buf[..HDR_LEN] == Encode(down[0])[..HDR_LEN] && FromBe16(j.buf[8..10]) == down[0].cmd
                                 && LenField(j.buf) == |down[0].ext| && j.stream == down[0].ext + EncodeAll(down[1..]))
  {
    hide Header, Encode, RestRead, FromBe16, LenField;
    if down == [] {
      NoHeader(i, c);
    } else if Header(i, c).1 == Whole {
      HeaderAligned(i, down[0], EncodeAll(down[1..]), c);
      HeaderFields(Header(i, c).0.buf, down[0]);
    }
  }

  lemma HeaderFields(b: seq<byte>, p: Pkt)
    requires |b| >= HDR_LEN && b[..HDR_LEN] == Encode(p)[..HDR_LEN]
    ensures FromBe16(b[8..10]) == p.cmd && LenField(b) == |p.ext|
  {
    hide Encode;
    LenOfHeader(p, b);
    EncodeFields(p, []);
    assert Encode(p) + [] == Encode(p);
    assert b[8..10] == b[..HDR_LEN][8..10] == Encode(p)[..HDR_LEN][8..10];
    Be16RoundTrip(p.cmd, [0, 0]);
  }

  lemma NoHeader(i: Input, c: Counts)
    requires |i.buf| == RBUF_SIZE && i.stream == []
    ensures Header(i, c).1 == Closed
  {
  }

  lemma ShortOnlyIfSome(i: Input, c: Counts)
    requires |i.buf| == RBUF_SIZE
    ensures Payload(i, 0, c).1 == Whole
  {
  }

  lemma HeldAgain(b: seq<byte>, before: seq<byte>, p: Pkt)
    requires |before| >= HDR_LEN && before[..HDR_LEN] == Encode(p)[..HDR_LEN]
    requires |b| >= HDR_LEN + |p.ext| && b[..HDR_LEN + |p.ext|] == before[..HDR_LEN] + p.ext
    ensures Holds(b, 0, HDR_LEN + |p.ext|, p)
  {
    EncodeFields(p, []);
    assert Encode(p) + [] == Encode(p) == Encode(p)[..HDR_LEN] + p.ext;
    assert b[0..HDR_LEN + |p.ext|] == b[..HDR_LEN + |p.ext|];
  }

  /** What has to be copied to read `len` bytes from a ring: up to the end of the buffer, and from its start. */
  lemma TwoCopies(buf: seq<byte>, head: nat, tail: nat, len: nat)
    requires head < |buf| && tail < |buf| && len <= Length(head, tail, |buf|)
    ensures var llen := Min(LLength(head, tail, |buf|), len);
            && llen <= len && head + llen <= |buf| && len - llen <= |buf|
            && Span(buf, head, tail)[..len] == buf[head..head + llen] + buf[..len - llen]
  {
    var (s, llen) := (Span(buf, head, tail), Min(LLength(head, tail, |buf|), len));
    forall i | 0 <= i < len ensures s[i] == (buf[head..head + llen] + buf[..len - llen])[i] {
      assert s[i] == buf[Wrap(head + i, |buf|)];
    }
  }

  /** The first `plen` bytes are the packets. */
  ghost predicate Holding(b: seq<byte>, plen: nat, ps: seq<Pkt>) { plen <= |b| && b[..plen] == EncodeAll(ps) }

  lemma NothingHeld(b: seq<byte>)
    ensures Holding(b, 0, [])
  {
  }

  /** A packet built behind the packets held is held too. */
  lemma HoldingMore(before: seq<byte>, after: seq<byte>, at: nat, ps: seq<Pkt>, p: Pkt, plen: nat)
    requires Holding(before, at, ps) && plen == HDR_LEN + |p.ext| && Built(before, after, at, |before| - at, p, plen)
    ensures Holding(after, at + plen, ps + [p])
  {
    hide Encode, EncodeAll;
    EncodeAllAppend(ps, [p]);
    EncodeOne(p);
    assert after[..at] == before[..at];
    assert after[..at + plen] == after[..at] + after[at..at + plen];
  }

  lemma HoldingOne(b: seq<byte>, plen: nat, p: Pkt)
    requires Holds(b, 0, plen, p)
    ensures Holding(b, plen, [p])
  {
    hide Encode, EncodeAll;
    EncodeOne(p);
    assert b[0..plen] == b[..plen];
  }

  /** The two copies of `vc_common_xmit` into its packet. */
  method TwoPieces(pbuf: array<byte>, first: seq<byte>, second: seq<byte>)
    requires HDR_LEN + |first| + |second| <= pbuf.Length
    modifies pbuf
    ensures pbuf[..][0 + HDR_LEN..0 + HDR_LEN + (|first| + |second|)] == first + second
  {
    Memcpy(pbuf, HDR_LEN, first);
    Memcpy(pbuf, HDR_LEN + |first|, second);
  }

  /** The first part of `vc_common_xmit`: as much as a packet takes, copied from the ring in one piece or in two. */
  method PackRing(pbuf: array<byte>, ring: seq<byte>, head: nat, tail: nat, t: u32) returns (plen: nat, len: nat)
    requires pbuf.Length == XMIT_LEN + HDR_LEN && head < |ring| && tail < |ring|
    modifies pbuf
    ensures len == Min(XMIT_LEN, Length(head, tail, |ring|))
    ensures Holds(pbuf[..], 0, plen, WritePkt(t, Span(ring, head, tail)[..len]))
  {
    hide Encode, Splice, Span, Built, Holds;
    var llen := LLength(head, tail, |ring|);
    len := Length(head, tail, |ring|);
    if llen > XMIT_LEN {
      llen := XMIT_LEN;
    }
    if len > XMIT_LEN {
      len := XMIT_LEN;
    }
    TwoCopies(ring, head, tail, len);
    ghost var (before, data) := (pbuf[..], Span(ring, head, tail)[..len]);
    var first := ring[head..head + llen];
    if llen == len {
      assert first + [] == first == data;
      plen := PackXmit(pbuf, 0, t, llen, From(first), XMIT_LEN + HDR_LEN);
    } else {
      TwoPieces(pbuf, first, ring[..len - llen]);
      before := pbuf[..];
      assert before[0 + HDR_LEN..0 + HDR_LEN + len] == data;
      plen := PackXmit(pbuf, 0, t, len, InPlace, XMIT_LEN + HDR_LEN);
    }
    BuiltHolds(before, pbuf[..], 0, XMIT_LEN + HDR_LEN, WritePkt(t, data), plen);
  }

  lemma BuiltHolds(before: seq<byte>, after: seq<byte>, at: nat, buflen: int, p: Pkt, plen: nat)
    requires Built(before, after, at, buflen, p, plen) && HDR_LEN + |p.ext| <= buflen
    ensures Holds(after, at, plen, p)
  {
  }
}
