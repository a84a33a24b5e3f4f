/**
 The packet layout of `vcom_proto.h`, the packets built by the `vc_pack_*` functions, and the framing
 rule of `vc_recv_desp`: a packet is 20 bytes long plus the length announced in its header.
 */
module Packets {
  import opened Words

  const MAGIC: u32 := 0x4d414441

  const STATUS_SUCCESS: u32 := 0x00000000
  const STATUS_DEVICE_BUSY: u32 := 0x80000011

  const CMD_CREATE: u16 := 0x0000
  const CMD_CLOSE: u16 := 0x0002
  const CMD_WRITE: u16 := 0x0004
  const CMD_IOCTL: u16 := 0x000e
  const CMD_DATAREADY: u16 := 0x0800
  const CMD_QUEUEFREE: u16 := 0x0900

  const IOCTL_SET_BAUD_RATE: u32 := 0x01
  const IOCTL_SET_LINE_CONTROL: u32 := 0x03
  const IOCTL_SET_DTR: u32 := 0x09
  const IOCTL_CLR_DTR: u32 := 0x0a
  const IOCTL_SET_RTS: u32 := 0x0c
  const IOCTL_CLR_RTS: u32 := 0x0d
  const IOCTL_GET_WAIT_MASK: u32 := 0x10
  const IOCTL_SET_WAIT_MASK: u32 := 0x11
  const IOCTL_WAIT_ON_MASK: u32 := 0x12
  const IOCTL_PURGE: u32 := 0x13
  const IOCTL_SET_HANDFLOW: u32 := 0x19
  const IOCTL_GET_MODEMSTATUS: u32 := 0x1a

  /** `sizeof(struct vc_proto_hdr) + sizeof(struct vc_attach_param)`. */
  const HDR_LEN := 20

  /** The most data bytes that the daemon puts into a WRITE. */
  const XMIT_LEN := 1024

  /** What follows the fixed part of a packet; its length must fit the 16-bit `len` field. */
  type Ext = s: seq<byte> | |s| < 0x1_0000
  type Quad = s: seq<byte> | |s| == 4 witness [0, 0, 0, 0]

  datatype Pkt = Pkt(pid: u32, tid: u32, cmd: u16, p1: u32, p2: u32, ext: Ext)

  function Encode(p: Pkt): (b: seq<byte>)
    ensures |b| == HDR_LEN + |p.ext|
  {
    Be32(p.pid) + Be32(p.tid) + Be16(p.cmd) + Be16(|p.ext|) + Be32(p.p1) + Be32(p.p2) + p.ext
  }

  /** The `len` field of the packet that starts `b`. */
  function LenField(b: seq<byte>): u16
    requires |b| >= HDR_LEN
  {
    FromBe16(b[10..12])
  }

  /** The first packet of a stream that holds the whole of it. */
  function Decode(b: seq<byte>): Pkt
    requires |b| >= HDR_LEN && |b| >= HDR_LEN + LenField(b)
  {
    Pkt(FromBe32(b[..4]), FromBe32(b[4..8]), FromBe16(b[8..10]), FromBe32(b[12..16]), FromBe32(b[16..20]),
        b[20..20 + LenField(b)])
  }

  function EncodeAll(ps: seq<Pkt>): seq<byte> {
    if ps == [] then [] else Encode(ps[0]) + EncodeAll(ps[1..])
  }

  /** The packets the framing rule finds in a stream; an incomplete packet at the end is dropped. */
  function Split(b: seq<byte>): seq<Pkt> {
    if |b| < HDR_LEN || |b| < HDR_LEN + LenField(b) then []
    else [Decode(b)] + Split(b[HDR_LEN + LenField(b)..])
  }

  // ----- the packets of vcom_proto_cmd.h and vcom_proto_ioctl.h

  function OpenPkt(tid: u32, dev: u16, port: u32): Pkt {
    Pkt(MAGIC, tid, CMD_CREATE, dev * 0x1_0000, port, [])
  }

  function ClosePkt(tid: u32): Pkt {
    Pkt(MAGIC, tid, CMD_CLOSE, 0, 0, [])
  }

  function WritePkt(tid: u32, data: Ext): Pkt {
    Pkt(MAGIC, tid, CMD_WRITE, |data|, 0, data)
  }

  function QueueFreePkt(tid: u32, size: u32): Pkt {
    Pkt(MAGIC, tid, CMD_QUEUEFREE, 0, size, [])
  }

  function IoctlPkt(tid: u32, subcmd: u32, ext: Ext): Pkt {
    Pkt(MAGIC, tid, CMD_IOCTL, subcmd, 0, ext)
  }

  /** The extension of SET_LINE_CONTROL, in the memory order of `struct vc_attach_lctrl`. */
  function LineExt(pair: byte, dbit: byte, sbit: byte): Ext { [sbit, pair, dbit] }

  /** The extension of SET_HANDFLOW; `xonlimit` ends as 512 and `xofflimit` is never written. */
  function FlowExt(chflow: u32, flowrep: u32, unwritten: Quad): Ext {
    Be32(chflow) + Be32(flowrep) + Be32(512) + unwritten
  }

  // ----- round trips

  lemma EncodeFields(p: Pkt, rest: seq<byte>)
    ensures var b := Encode(p) + rest;
            && b[..4] == Be32(p.pid) && b[4..8] == Be32(p.tid) && b[8..10] == Be16(p.cmd)
            && b[10..12] == Be16(|p.ext|) && b[12..16] == Be32(p.p1) && b[16..20] == Be32(p.p2)
            && b[20..20 + |p.ext|] == p.ext && b[20 + |p.ext|..] == rest
  {
  }

  /** Decoding inverts encoding, whatever follows the packet in the stream. */
  lemma DecodeEncode(p: Pkt, rest: seq<byte>)
    ensures var b := Encode(p) + rest;
            LenField(b) == |p.ext| && Decode(b) == p
  {
    EncodeFields(p, rest);
    Be16RoundTrip(p.cmd, [0, 0]);
    Be16RoundTrip(|p.ext|, [0, 0]);
    forall n: u32 ensures FromBe32(Be32(n)) == n {
      Be32RoundTrip(n, [0, 0, 0, 0]);
    }
  }

  /** Any byte string that the framing rule accepts as one whole packet is the encoding of the packet read. */
  lemma EncodeDecode(b: seq<byte>)
    requires |b| >= HDR_LEN && |b| == HDR_LEN + LenField(b)
    ensures Encode(Decode(b)) == b
  {
    forall q: Quad ensures Be32(FromBe32(q)) == q {
      Be32RoundTrip(0, q);
    }
    Be16RoundTrip(0, b[8..10]);
    Be16RoundTrip(0, b[10..12]);
    assert b == b[..4] + b[4..8] + b[8..10] + b[10..12] + b[12..16] + b[16..20] + b[20..];
  }

  lemma {:induction false} EncodeAllAppend(ps: seq<Pkt>, qs: seq<Pkt>)
    ensures EncodeAll(ps + qs) == EncodeAll(ps) + EncodeAll(qs)
  {
    hide Encode;
    if ps == [] {
      assert ps + qs == qs;
    } else {
      EncodeAllAppend(ps[1..], qs);
      HeadAndTail(ps, qs);
      Assoc(Encode(ps[0]), EncodeAll(ps[1..]), EncodeAll(qs));
    }
  }

  lemma HeadAndTail(ps: seq<Pkt>, qs: seq<Pkt>)
    requires ps != []
    ensures ps + qs != [] && (ps + qs)[0] == ps[0] && (ps + qs)[1..] == ps[1..] + qs
  {
  }

  lemma EncodeOne(p: Pkt)
    ensures EncodeAll([p]) == Encode(p)
  {
    assert EncodeAll([p][1..]) == [];
  }

  lemma Assoc<T>(a: seq<T>, b: seq<T>, c: seq<T>)
    ensures a + b + c == a + (b + c)
  {
  }

  lemma SplitFirst(p: Pkt, rest: seq<byte>)
    ensures Split(Encode(p) + rest) == [p] + Split(rest)
  {
    DecodeEncode(p, rest);
    EncodeFields(p, rest);
  }

  lemma SplitHead(b: seq<byte>)
    requires Split(b) != []
    ensures |b| >= HDR_LEN && |b| >= HDR_LEN + LenField(b) && Split(b)[0] == Decode(b)
  {
    hide LenField, Decode;
  }

  /** The framing rule cuts a concatenation of packets into exactly those packets. */
  lemma {:induction false} SplitEncodeAll(ps: seq<Pkt>, rest: seq<byte>)
    ensures Split(EncodeAll(ps) + rest) == ps + Split(rest)
  {
    if ps == [] {
      assert EncodeAll(ps) + rest == rest;
      assert ps + Split(rest) == Split(rest);
    } else {
      calc {
        Split(EncodeAll(ps) + rest);
        { Assoc(Encode(ps[0]), EncodeAll(ps[1..]), rest); }
        Split(Encode(ps[0]) + (EncodeAll(ps[1..]) + rest));
        { SplitFirst(ps[0], EncodeAll(ps[1..]) + rest); }
        [ps[0]] + Split(EncodeAll(ps[1..]) + rest);
        { SplitEncodeAll(ps[1..], rest); }
        [ps[0]] + (ps[1..] + Split(rest));
        { Assoc([ps[0]], ps[1..], Split(rest)); assert [ps[0]] + ps[1..] == ps; }
        ps + Split(rest);
      }
    }
  }

  lemma SplitExact(ps: seq<Pkt>)
    ensures Split(EncodeAll(ps)) == ps
  {
    SplitEncodeAll(ps, []);
    assert EncodeAll(ps) + [] == EncodeAll(ps);
  }

  /** A stream cut short anywhere yields a proper prefix of the packets sent, never a packet that was not sent. */
  lemma {:induction false} SplitTorn(ps: seq<Pkt>, k: nat)
    requires k < |EncodeAll(ps)|
    ensures Split(EncodeAll(ps)[..k]) < ps
  {
    hide Encode, Decode;
    var first, others := Encode(ps[0]), EncodeAll(ps[1..]);
    var torn := EncodeAll(ps)[..k];
    if k < |first| {
      assert torn == first[..k];
      if k >= HDR_LEN {
        EncodeFields(ps[0], []);
        Be16RoundTrip(|ps[0].ext|, [0, 0]);
        assert torn[10..12] == (first + [])[10..12];
      }
    } else {
      var more := others[..k - |first|];
      assert torn == first + more;
      SplitFirst(ps[0], more);
      SplitTorn(ps[1..], k - |first|);
    }
  }
}
