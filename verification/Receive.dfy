/**
 How `vc_recv_desp` cuts packets out of the byte stream of a socket. Each part of a packet is read with one `recv`, and
 with a second one if the first came short; what is still short after that ends the connection.
 */
module Receive {
  import opened Words
  import opened Packets
  import opened Rings
  import opened Memory
  import opened Handlers
  import opened PacketBuffer

  /** What the calls of `recv` for one packet would return if the stream held enough: -1, or a count. */
  datatype Counts = Counts(h1: int, h2: int, b1: int, b2: int)

  /** The static receive buffer, and the bytes that have not been read yet. */
  datatype Input = Input(buf: seq<byte>, stream: seq<byte>)

  /** One `recv` of at most `want` bytes to `at`: -1, or as many bytes as asked for and there. */
  function Received(i: Input, at: nat, want: nat, count: int): (r: (Input, int))
    requires at + want <= |i.buf|
    ensures |r.0.buf| == |i.buf| && -1 <= r.1 <= want
  {
    if count < 0 then (i, -1)
    else
      var len := Min(count, Min(want, |i.stream|));
      (Input(Splice(i.buf, at, i.stream[..len]), i.stream[len..]), len)
  }

  /** The fixed part of a packet. */
  function Header(i: Input, c: Counts): (r: (Input, Reading))
    requires |i.buf| == RBUF_SIZE
    ensures |r.0.buf| == RBUF_SIZE && r.1 != ShortPayload
  {
    var (i1, len) := Received(i, 0, HDR_LEN, c.h1);
    if len <= 0 then (i1, Closed)
    else if len == HDR_LEN then (i1, Whole)
    else
      var (i2, more) := Received(i1, len, HDR_LEN - len, c.h2);
      (i2, if len + more == HDR_LEN then Whole else ShortHeader)
  }

  /** The rest of a packet, `n` bytes. */
  function Payload(i: Input, n: nat, c: Counts): (r: (Input, Reading))
    requires |i.buf| == RBUF_SIZE && n <= RBUF_SIZE - HDR_LEN
    ensures |r.0.buf| == RBUF_SIZE && (r.1 == Whole || r.1 == ShortPayload)
  {
    if n == 0 then (i, Whole)
    else
      var (i1, len) := Received(i, HDR_LEN, n, c.b1);
      if len == n then (i1, Whole)
      else
        var (i2, more) := Received(i1, HDR_LEN + len, n - len, c.b2);
        (i2, if len + more == n then Whole else ShortPayload)
  }

  /** A socket, as the bytes that its peer sent. */
  class Sock {
    var stream: seq<byte>

    constructor (stream: seq<byte>)
      ensures this.stream == stream
    {
      this.stream := stream;
    }

    method Recv(buf: array<byte>, at: nat, want: nat, count: int) returns (len: int)
      requires at + want <= buf.Length
      modifies this, buf
      ensures (Input(buf[..], stream), len) == Received(Input(old(buf[..]), old(stream)), at, want, count)
    {
      if count < 0 {
        return -1;
      }
      len := Min(count, Min(want, |stream|));
      Memcpy(buf, at, stream[..len]);
      stream := stream[len..];
    }

    /** Lines 76 to 91 of `vc_recv_desp`. */
    method RecvHeader(buf: array<byte>, c: Counts) returns (how: Reading)
      requires buf.Length == RBUF_SIZE
      modifies this, buf
      ensures (Input(buf[..], stream), how) == Header(Input(old(buf[..]), old(stream)), c)
    {
      var len := Recv(buf, 0, HDR_LEN, c.h1);
      if len <= 0 {
        return Closed;
      }
      if len != HDR_LEN {
        var more := Recv(buf, len, HDR_LEN - len, c.h2);
        len := len + more;
        if len != HDR_LEN {
          return ShortHeader;
        }
      }
      return Whole;
    }

    /** Lines 104 to 119 of `vc_recv_desp`. */
    method RecvPayload(buf: array<byte>, packetLen: nat, c: Counts) returns (how: Reading)
      requires buf.Length == RBUF_SIZE && packetLen <= RBUF_SIZE - HDR_LEN
      modifies this, buf
      ensures (Input(buf[..], stream), how) == Payload(Input(old(buf[..]), old(stream)), packetLen, c)
    {
      if packetLen > 0 {
        var len := Recv(buf, HDR_LEN, packetLen, c.b1);
        if len != packetLen {
          var more := Recv(buf, HDR_LEN + len, packetLen - len, c.b2);
          len := len + more;
          if len != packetLen {
            return ShortPayload;
          }
        }
      }
      return Whole;
    }
  }

  // ----- what the counts come to

  /** The fixed part is read by one `recv`, or by two that come to it together; a first one without a byte ends it. */
  lemma HeaderMeans(i: Input, c: Counts)
    requires |i.buf| == 4096
    ensures var how := Header(i, c).1;
            && (how == Closed <==> c.h1 <= 0 || i.stream == [])
            && (|i.stream| >= 20 ==> (how == Whole <==> c.h1 >= 20 || (c.h1 > 0 && c.h2 >= 20 - c.h1)))
            && (|i.stream| < 20 ==> how != Whole)
  {
  }

  /** The rest of `n` bytes likewise; a first `recv` that fails counts as -1, so that the second has to bring one byte more. */
  lemma PayloadMeans(i: Input, n: nat, c: Counts)
    requires |i.buf| == 4096 && n <= 4076
    ensures var how := Payload(i, n, c).1;
            && (n == 0 ==> how == Whole)
            && (n > 0 && |i.stream| > n ==> (how == Whole <==> c.b1 >= n || c.b2 >= n - (if c.b1 < 0 then -1 else c.b1)))
            && (|i.stream| < n ==> how == ShortPayload)
  {
  }

  // ----- alignment

  /** What is left of a packet behind its fixed part. */
  lemma HeaderAligned(i: Input, p: Pkt, rest: seq<byte>, c: Counts)
    requires |i.buf| == RBUF_SIZE && i.stream == Encode(p) + rest
    ensures var (j, how) := Header(i, c);
            how == Whole ==> j.buf[..HDR_LEN] == Encode(p)[..HDR_LEN] && j.stream == p.ext + rest
  {
    hide Be16, Be32;
    EncodeFields(p, rest);
    var e := Encode(p);
    assert i.stream[..HDR_LEN] == e[..HDR_LEN] && i.stream[HDR_LEN..] == p.ext + rest;
    var (i1, len) := Received(i, 0, HDR_LEN, c.h1);
    if 0 < len < HDR_LEN {
      var (i2, more) := Received(i1, len, HDR_LEN - len, c.h2);
      if len + more == HDR_LEN {
        assert i1.stream[..more] == i.stream[len..HDR_LEN];
        assert i2.buf[..HDR_LEN] == i.stream[..len] + i.stream[len..HDR_LEN];
        assert i2.stream == i.stream[HDR_LEN..];
      }
    }
  }

  /**
   A payload read to its end leaves the stream at the next packet if and only if the first `recv` did not fail. One that
   fails and is made up for by the second swallows a byte of the next packet and shifts the payload by one byte.
   */
  lemma PayloadAligned(i: Input, ext: Ext, rest: seq<byte>, c: Counts)
    requires |i.buf| == RBUF_SIZE && |ext| <= RBUF_SIZE - HDR_LEN && i.stream == ext + rest
    requires Payload(i, |ext|, c).1 == Whole
    ensures var j := Payload(i, |ext|, c).0;
            && (j.stream == rest <==> ext == [] || c.b1 >= 0)
            && (ext == [] || c.b1 >= 0 ==> j.buf[..HDR_LEN + |ext|] == i.buf[..HDR_LEN] + ext)
            && (ext != [] && c.b1 < 0 ==> |rest| > 0 && j.stream == rest[1..]
                                          && j.buf[HDR_LEN - 1..HDR_LEN + |ext|] == ext + rest[..1])
  {
    hide Received;
    if ext == [] {
      assert i.stream == rest;
    } else if c.b1 >= 0 {
      ReadInTwo(i, ext, rest, c.b1, c.b2);
    } else {
      ReadShifted(i, ext, rest, c.b1, c.b2);
    }
  }

  /** One read of a payload, or two that together read all of it. */
  lemma ReadInTwo(i: Input, ext: Ext, rest: seq<byte>, b1: int, b2: int)
    requires |i.buf| == RBUF_SIZE && |ext| <= RBUF_SIZE - HDR_LEN && i.stream == ext + rest && b1 >= 0
    ensures var (i1, len) := Received(i, HDR_LEN, |ext|, b1);
            len == |ext| ==> i1.stream == rest && i1.buf[..HDR_LEN + |ext|] == i.buf[..HDR_LEN] + ext
    ensures var (i1, len) := Received(i, HDR_LEN, |ext|, b1);
            var (i2, more) := Received(i1, HDR_LEN + len, |ext| - len, b2);
            len + more == |ext| ==> i2.stream == rest && i2.buf[..HDR_LEN + |ext|] == i.buf[..HDR_LEN] + ext
  {
    hide Splice;
    var (i1, len) := Received(i, HDR_LEN, |ext|, b1);
    var (i2, more) := Received(i1, HDR_LEN + len, |ext| - len, b2);
    CopyBehind(i.buf, HDR_LEN, ext);
    if len == |ext| {
      assert i.stream[..len] == ext && i.stream[len..] == rest;
    }
    if len + more == |ext| {
      assert i.stream[..len] == ext[..len] && i1.stream[..more] == ext[len..];
      assert i2.stream == i.stream[|ext|..] == rest;
      assert ext == ext[..len] + ext[len..];
      SpliceTwice(i.buf, HDR_LEN, ext[..len], ext[len..]);
    }
  }

  /** A failed read and one that makes up for it: the payload starts a byte early, and takes a byte too many. */
  lemma ReadShifted(i: Input, ext: Ext, rest: seq<byte>, b1: int, b2: int)
    requires |i.buf| == RBUF_SIZE && |ext| <= RBUF_SIZE - HDR_LEN && i.stream == ext + rest && b1 < 0
    ensures Received(i, HDR_LEN, |ext|, b1) == (i, -1)
    ensures var (i2, more) := Received(i, HDR_LEN - 1, |ext| + 1, b2);
            more == |ext| + 1 ==> |rest| > 0 && i2.stream == rest[1..] && i2.stream != rest
                                  && i2.buf[HDR_LEN - 1..HDR_LEN + |ext|] == ext + rest[..1]
  {
    hide Splice;
    var (i2, more) := Received(i, HDR_LEN - 1, |ext| + 1, b2);
    if more == |ext| + 1 {
      assert i.stream[..more] == ext + rest[..1];
      assert i2.stream == i.stream[|ext| + 1..] == rest[1..];
      SplicePart(i.buf, HDR_LEN - 1, ext + rest[..1], |ext| + 1);
      assert (ext + rest[..1])[..|ext| + 1] == ext + rest[..1];
    }
  }

  lemma CopyBehind(buf: seq<byte>, at: nat, data: seq<byte>)
    requires at + |data| <= |buf|
    ensures Splice(buf, at, data)[..at + |data|] == buf[..at] + data
  {
  }

  /** One call of `vc_recv_desp`: the packet found and the state after it, or the end of the connection. */
  datatype Fetched = Lost(how: Reading) | Got(packet: seq<byte>, after: Input)

  function Fetch(i: Input, c: Counts): (r: Fetched)
    requires |i.buf| == RBUF_SIZE
    ensures r.Got? ==> |r.after.buf| == RBUF_SIZE
  {
    var (i1, how) := Header(i, c);
    if how != Whole then Lost(how)
    else
      var n := LenField(i1.buf);
      if n > RBUF_SIZE - HDR_LEN then Lost(Whole)
      else
        var (i2, how2) := Payload(i1, n, c);
        if how2 != Whole then Lost(how2) else Got(i2.buf[..HDR_LEN + n], i2)
  }

  /** A packet found is the packet sent, and the stream is at the next one, unless the first payload `recv` failed. */
  lemma FetchAligned(i: Input, p: Pkt, rest: seq<byte>, c: Counts)
    requires |i.buf| == RBUF_SIZE && i.stream == Encode(p) + rest && Fetch(i, c).Got?
    ensures |p.ext| <= RBUF_SIZE - HDR_LEN
    ensures var r := Fetch(i, c);
            && (r.after.stream == rest <==> p.ext == [] || c.b1 >= 0)
            && (p.ext == [] || c.b1 >= 0 ==> r.packet == Encode(p))
  {
    hide Received, Be16, Be32;
    HeaderAligned(i, p, rest, c);
    var i1 := Header(i, c).0;
    LenOfHeader(p, i1.buf);
    PayloadAligned(i1, p.ext, rest, c);
    EncodeFields(p, []);
    assert Encode(p) + [] == Encode(p) == Encode(p)[..HDR_LEN] + p.ext;
    DecodeEncode(p, []);
  }

  /**
   Such a failure on two packets of a device: the daemon finds a packet that passes every test it makes and that was never
   sent. The one byte of its payload is the first byte of the next packet, which is not found any more.
   */
  lemma FailedRecvShifts(i: Input, p: Pkt, q: Pkt)
    requires p == Pkt(MAGIC, 0, CMD_DATAREADY, STATUS_SUCCESS, 1, [1]) && q.pid == MAGIC
    requires |i.buf| == RBUF_SIZE && i.stream == EncodeAll([p, q])
    ensures var r := Fetch(i, Counts(20, 0, -1, 2));
            && r.Got? && r.packet == Encode(p.(ext := [0x4d])) && CheckRecv(r.packet)
            && r.after.stream == Encode(q)[1..]
  {
    hide Be16, Be32, WellFormed, Encode, FromBe16, FlowExt;
    var (c, rest) := (Counts(20, 0, -1, 2), Encode(q));
    assert i.stream == Encode(p) + rest by {
      EncodeOne(q);
      assert [p, q][1..] == [q];
    }
    HeaderAligned(i, p, rest, c);
    var i1 := Header(i, c).0;
    LenOfHeader(p, i1.buf);
    PayloadAligned(i1, p.ext, rest, c);
    FirstByte(q);
    var (packet, found) := (Fetch(i, c).packet, p.(ext := [0x4d]));
    FixedPart(p, found);
    LastOfFixedPart(p);
    assert packet[..19] == i1.buf[..HDR_LEN][..19];
    assert packet == packet[..19] + packet[19..];
    CheckRecvMeans(found);
  }

  lemma FirstByte(q: Pkt)
    requires q.pid == MAGIC
    ensures Encode(q)[..1] == [0x4d]
  {
    EncodeFields(q, []);
    assert Encode(q) + [] == Encode(q);
    assert Encode(q)[..1] == Encode(q)[..4][..1];
  }

  /** Packets that differ only in a payload of the same length have the same fixed part. */
  lemma FixedPart(p: Pkt, q: Pkt)
    requires q == p.(ext := q.ext) && |q.ext| == |p.ext|
    ensures Encode(q) == Encode(p)[..HDR_LEN] + q.ext
  {
    hide Be16, Be32;
    EncodeFields(p, []);
  }

  lemma LastOfFixedPart(p: Pkt)
    requires p.p2 == 1
    ensures Encode(p)[..HDR_LEN] == Encode(p)[..19] + [1]
  {
    EncodeFields(p, []);
    assert Encode(p) + [] == Encode(p);
    assert Encode(p)[..HDR_LEN][19] == Encode(p)[16..20][3];
  }

  lemma LenOfHeader(p: Pkt, b: seq<byte>)
    requires |b| >= HDR_LEN && b[..HDR_LEN] == Encode(p)[..HDR_LEN]
    ensures LenField(b) == |p.ext|
  {
    DecodeEncode(p, []);
    assert Encode(p) + [] == Encode(p);
    assert b[10..12] == b[..HDR_LEN][10..12] == Encode(p)[..HDR_LEN][10..12];
  }

  /** The packets that successive calls find, until one of them ends the connection. */
  function FetchAll(i: Input, cs: seq<Counts>): seq<seq<byte>>
    requires |i.buf| == RBUF_SIZE
    decreases |cs|
  {
    if cs == [] then []
    else
      var r := Fetch(i, cs[0]);
      if r.Lost? then [] else [r.packet] + FetchAll(r.after, cs[1..])
  }

  function Encoded(ps: seq<Pkt>): (bs: seq<seq<byte>>)
    ensures |bs| == |ps|
  {
    seq(|ps|, k requires 0 <= k < |ps| => Encode(ps[k]))
  }

  /**
   However the stream of a device is cut by `recv`, successive calls find a prefix of the packets the device sent, each
   complete and unchanged; no misaligned byte is ever taken for a packet. Only a payload `recv` must not fail outright.
   */
  lemma {:induction false} StreamStaysAligned(i: Input, ps: seq<Pkt>, cs: seq<Counts>)
    requires |i.buf| == RBUF_SIZE && i.stream == EncodeAll(ps)
    requires forall k :: 0 <= k < |cs| ==> cs[k].b1 >= 0
    ensures FetchAll(i, cs) <= Encoded(ps)
    decreases |cs|
  {
    hide Fetch, Encode;
    if cs != [] && Fetch(i, cs[0]).Got? {
      if ps == [] {
        NothingToFetch(i, cs[0]);
      } else {
        var r := Fetch(i, cs[0]);
        FetchAligned(i, ps[0], EncodeAll(ps[1..]), cs[0]);
        StreamStaysAligned(r.after, ps[1..], cs[1..]);
        assert Encoded(ps) == [Encode(ps[0])] + Encoded(ps[1..]);
      }
    }
  }

  lemma NothingToFetch(i: Input, c: Counts)
    requires |i.buf| == RBUF_SIZE && i.stream == []
    ensures Fetch(i, c) == Lost(Closed)
  {
  }

  /** A patient stream loses nothing: when every `recv` gives all it is asked for, all packets that fit arrive. */
  lemma {:induction false} PatientStreamDelivers(i: Input, ps: seq<Pkt>, cs: seq<Counts>)
    requires |i.buf| == RBUF_SIZE && i.stream == EncodeAll(ps) && |cs| == |ps|
    requires forall k :: 0 <= k < |cs| ==> cs[k].h1 >= HDR_LEN && cs[k].b1 >= |ps[k].ext|
    requires forall k :: 0 <= k < |ps| ==> |ps[k].ext| <= RBUF_SIZE - HDR_LEN
    ensures FetchAll(i, cs) == Encoded(ps)
    decreases |cs|
  {
    hide Fetch, Encode;
    if cs != [] {
      PatientFetch(i, ps[0], EncodeAll(ps[1..]), cs[0]);
      FetchAligned(i, ps[0], EncodeAll(ps[1..]), cs[0]);
      PatientStreamDelivers(Fetch(i, cs[0]).after, ps[1..], cs[1..]);
      assert Encoded(ps) == [Encode(ps[0])] + Encoded(ps[1..]);
    } else {
      assert Encoded(ps) == [];
    }
  }

  lemma PatientFetch(i: Input, p: Pkt, rest: seq<byte>, c: Counts)
    requires |i.buf| == RBUF_SIZE && i.stream == Encode(p) + rest
    requires c.h1 >= HDR_LEN && c.b1 >= |p.ext| && |p.ext| <= RBUF_SIZE - HDR_LEN
    ensures Fetch(i, c).Got?
  {
    hide Be16, Be32;
    HeaderAligned(i, p, rest, c);
    LenOfHeader(p, Header(i, c).0.buf);
  }
}
