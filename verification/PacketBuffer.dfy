/**
 The packet builders and tests of `vcom_proto.h`, `vcom_proto_cmd.h` and `vcom_proto_ioctl.h`, in place on a byte buffer.
 Every builder leaves at `at` the encoding of one packet, exactly as long as it says, and touches no other byte; or it
 finds the buffer too small, returns 0, and touches none.
 */
module PacketBuffer {
  import opened Words
  import opened Packets
  import opened Memory

  /** Bytes that nobody writes are the buffer's own. */
  lemma SpliceOwn(b: seq<byte>, at: nat, x: seq<byte>, n: nat)
    requires at + |x| + n <= |b|
    ensures Splice(b, at, x) == Splice(b, at, x + b[at + |x|..at + |x| + n])
  {
  }

  /** `plen` bytes at `at` are the packet. */
  ghost predicate Holds(b: seq<byte>, at: nat, plen: nat, p: Pkt) {
    at + plen <= |b| && b[at..at + plen] == Encode(p)
  }

  lemma SpliceHolds(b: seq<byte>, at: nat, p: Pkt)
    requires at + HDR_LEN + |p.ext| <= |b|
    ensures Holds(Splice(b, at, Encode(p)), at, HDR_LEN + |p.ext|, p)
  {
  }

  /** What a builder leaves: the packet, or nothing when the buffer is too small. */
  ghost predicate Built(before: seq<byte>, after: seq<byte>, at: nat, buflen: int, p: Pkt, plen: nat) {
    && plen == (if HDR_LEN + |p.ext| > buflen then 0 else HDR_LEN + |p.ext|)
    && at + plen <= |before|
    && after == Splice(before, at, if plen == 0 then [] else Encode(p))
    && (plen > 0 ==> Holds(after, at, plen, p))
  }

  /** `vc_init_hdr`, and `p1` and `p2` behind the header. */
  method PackParam(pbuf: array<byte>, at: nat, tid: u32, cmd: u16, len: u16, p1: u32, p2: u32)
    requires at + HDR_LEN <= pbuf.Length
    modifies pbuf
    ensures pbuf[..] == Splice(old(pbuf[..]), at, Be32(MAGIC) + Be32(tid) + Be16(cmd) + Be16(len) + Be32(p1) + Be32(p2))
  {
    hide Be16, Be32;
    ghost var b := pbuf[..];
    Memcpy(pbuf, at, Be32(MAGIC));
    Memcpy(pbuf, at + 4, Be32(tid));
    Memcpy(pbuf, at + 8, Be16(cmd));
    Memcpy(pbuf, at + 10, Be16(len));
    Memcpy(pbuf, at + 12, Be32(p1));
    Memcpy(pbuf, at + 16, Be32(p2));
    SpliceTwice(b, at, Be32(MAGIC), Be32(tid));
    SpliceTwice(b, at, Be32(MAGIC) + Be32(tid), Be16(cmd));
    SpliceTwice(b, at, Be32(MAGIC) + Be32(tid) + Be16(cmd), Be16(len));
    SpliceTwice(b, at, Be32(MAGIC) + Be32(tid) + Be16(cmd) + Be16(len), Be32(p1));
    SpliceTwice(b, at, Be32(MAGIC) + Be32(tid) + Be16(cmd) + Be16(len) + Be32(p1), Be32(p2));
  }

  /** A packet with an extension: the fixed part, then `ext` behind it. */
  method PackExt(pbuf: array<byte>, at: nat, tid: u32, cmd: u16, p1: u32, p2: u32, ext: Ext)
    requires at + HDR_LEN + |ext| <= pbuf.Length
    modifies pbuf
    ensures pbuf[..] == Splice(old(pbuf[..]), at, Encode(Pkt(MAGIC, tid, cmd, p1, p2, ext)))
  {
    hide Be16, Be32;
    ghost var b := pbuf[..];
    PackParam(pbuf, at, tid, cmd, |ext|, p1, p2);
    Memcpy(pbuf, at + HDR_LEN, ext);
    SpliceTwice(b, at, Be32(MAGIC) + Be32(tid) + Be16(cmd) + Be16(|ext|) + Be32(p1) + Be32(p2), ext);
  }

  // ----- vcom_proto_cmd.h

  method PackQfsize(pbuf: array<byte>, at: nat, tid: u32, fsize: int, buflen: int) returns (plen: nat)
    requires at + buflen <= pbuf.Length && at <= pbuf.Length
    modifies pbuf
    ensures Built(old(pbuf[..]), pbuf[..], at, buflen, QueueFreePkt(tid, ToU32(fsize)), plen)
  {
    plen := HDR_LEN;
    if plen > buflen {
      return 0;
    }
    PackExt(pbuf, at, tid, CMD_QUEUEFREE, 0, ToU32(fsize), []);
  }

  method PackClose(pbuf: array<byte>, at: nat, tid: u32, buflen: int) returns (plen: nat)
    requires at + buflen <= pbuf.Length && at <= pbuf.Length
    modifies pbuf
    ensures Built(old(pbuf[..]), pbuf[..], at, buflen, ClosePkt(tid), plen)
  {
    plen := HDR_LEN;
    if plen > buflen {
      return 0;
    }
    PackExt(pbuf, at, tid, CMD_CLOSE, 0, 0, []);
  }

  method PackOpen(pbuf: array<byte>, at: nat, tid: u32, dev: u16, port: u32, buflen: int) returns (plen: nat)
    requires at + buflen <= pbuf.Length && at <= pbuf.Length
    modifies pbuf
    ensures Built(old(pbuf[..]), pbuf[..], at, buflen, OpenPkt(tid, dev, port), plen)
  {
    plen := HDR_LEN;
    if plen > buflen {
      return 0;
    }
    PackExt(pbuf, at, tid, CMD_CREATE, dev * 0x1_0000, port, []);
  }

  datatype Source = InPlace | From(data: seq<byte>)

  /** `vc_pack_xmit`: the data is copied in, or, without a source, has been put behind the header already. */
  method PackXmit(pbuf: array<byte>, at: nat, tid: u32, datalen: u16, source: Source, buflen: int) returns (plen: nat)
    requires at + buflen <= pbuf.Length && at <= pbuf.Length
    requires source.From? ==> |source.data| == datalen
    modifies pbuf
    ensures HDR_LEN + datalen <= buflen ==>
              var data := if source.From? then source.data else old(pbuf[..])[at + HDR_LEN..at + HDR_LEN + datalen];
              Built(old(pbuf[..]), pbuf[..], at, buflen, WritePkt(tid, data), plen)
    ensures HDR_LEN + datalen > buflen ==> plen == 0 && pbuf[..] == old(pbuf[..])
  {
    hide Be16, Be32;
    ghost var b := pbuf[..];
    plen := HDR_LEN + datalen;
    if plen > buflen {
      return 0;
    }
    PackParam(pbuf, at, tid, CMD_WRITE, datalen, datalen, 0);
    ghost var fixed := Be32(MAGIC) + Be32(tid) + Be16(CMD_WRITE) + Be16(datalen) + Be32(datalen) + Be32(0);
    if source.From? {
      Memcpy(pbuf, at + HDR_LEN, source.data);
      SpliceTwice(b, at, fixed, source.data);
    } else {
      SpliceOwn(b, at, fixed, datalen);
    }
  }

  // ----- vcom_proto_ioctl.h

  /** `_pack_ioctl_param`, behind WAIT_ON_MASK, GET_MODEMSTATUS, GET_WAIT_MASK and the RTS and DTR commands. */
  method PackIoctlParam(pbuf: array<byte>, at: nat, tid: u32, subcmd: u32, buflen: int) returns (plen: nat)
    requires at + buflen <= pbuf.Length && at <= pbuf.Length
    modifies pbuf
    ensures Built(old(pbuf[..]), pbuf[..], at, buflen, IoctlPkt(tid, subcmd, []), plen)
  {
    plen := HDR_LEN;
    if plen > buflen {
      return 0;
    }
    PackExt(pbuf, at, tid, CMD_IOCTL, subcmd, 0, []);
  }

  method PackPurge(pbuf: array<byte>, at: nat, tid: u32, pflags: u32, buflen: int) returns (plen: nat)
    requires at + buflen <= pbuf.Length && at <= pbuf.Length
    modifies pbuf
    ensures Built(old(pbuf[..]), pbuf[..], at, buflen, IoctlPkt(tid, IOCTL_PURGE, Le32(pflags)), plen)
  {
    plen := HDR_LEN + 4;
    if plen > buflen {
      return 0;
    }
    PackExt(pbuf, at, tid, CMD_IOCTL, IOCTL_PURGE, 0, Le32(pflags));
  }

  method PackSbaud(pbuf: array<byte>, at: nat, tid: u32, baud: u32, buflen: int) returns (plen: nat)
    requires at + buflen <= pbuf.Length && at <= pbuf.Length
    modifies pbuf
    ensures Built(old(pbuf[..]), pbuf[..], at, buflen, IoctlPkt(tid, IOCTL_SET_BAUD_RATE, Le32(baud)), plen)
  {
    plen := HDR_LEN + 4;
    if plen > buflen {
      return 0;
    }
    PackExt(pbuf, at, tid, CMD_IOCTL, IOCTL_SET_BAUD_RATE, 0, Le32(baud));
  }

  method PackSetwmask(pbuf: array<byte>, at: nat, tid: u32, mask: u32, buflen: int) returns (plen: nat)
    requires at + buflen <= pbuf.Length && at <= pbuf.Length
    modifies pbuf
    ensures Built(old(pbuf[..]), pbuf[..], at, buflen, IoctlPkt(tid, IOCTL_SET_WAIT_MASK, Be32(mask)), plen)
  {
    plen := HDR_LEN + 4;
    if plen > buflen {
      return 0;
    }
    PackExt(pbuf, at, tid, CMD_IOCTL, IOCTL_SET_WAIT_MASK, 0, Be32(mask));
  }

  method PackSetlctl(pbuf: array<byte>, at: nat, tid: u32, pair: byte, dbit: byte, sbit: byte, buflen: int) returns (plen: nat)
    requires at + buflen <= pbuf.Length && at <= pbuf.Length
    modifies pbuf
    ensures Built(old(pbuf[..]), pbuf[..], at, buflen, IoctlPkt(tid, IOCTL_SET_LINE_CONTROL, LineExt(pair, dbit, sbit)), plen)
  {
    plen := HDR_LEN + 3;
    if plen > buflen {
      return 0;
    }
    PackExt(pbuf, at, tid, CMD_IOCTL, IOCTL_SET_LINE_CONTROL, 0, [sbit, pair, dbit]);
  }

  /** The words behind the fixed part of SET_HANDFLOW: `xonlimit` is written twice. */
  method PackFlowWords(pbuf: array<byte>, at: nat, chflow: u32, flowrep: u32)
    requires at + 12 <= pbuf.Length
    modifies pbuf
    ensures pbuf[..] == Splice(old(pbuf[..]), at, Be32(chflow) + Be32(flowrep) + Be32(512))
  {
    hide Be16, Be32;
    ghost var b := pbuf[..];
    Memcpy(pbuf, at, Be32(chflow));
    Memcpy(pbuf, at + 4, Be32(flowrep));
    SpliceTwice(b, at, Be32(chflow), Be32(flowrep));
    ghost var b1 := pbuf[..];
    Memcpy(pbuf, at + 8, Be32(1024));
    Memcpy(pbuf, at + 8, Be32(512));
    assert pbuf[..] == Splice(b1, at + 8, Be32(512));
    SpliceTwice(b, at, Be32(chflow) + Be32(flowrep), Be32(512));
  }

  /** `vc_pack_hflow`: the four bytes of `xofflimit` stay what they were in the buffer. */
  method PackHflow(pbuf: array<byte>, at: nat, tid: u32, chflow: u32, flowrep: u32, buflen: int) returns (plen: nat)
    requires at + buflen <= pbuf.Length && at <= pbuf.Length
    modifies pbuf
    ensures HDR_LEN + 16 <= buflen ==>
              var ext := FlowExt(chflow, flowrep, old(pbuf[..])[at + 32..at + 36]);
              Built(old(pbuf[..]), pbuf[..], at, buflen, IoctlPkt(tid, IOCTL_SET_HANDFLOW, ext), plen)
    ensures HDR_LEN + 16 > buflen ==> plen == 0 && pbuf[..] == old(pbuf[..])
  {
    hide Be16, Be32, Splice;
    ghost var b := pbuf[..];
    plen := HDR_LEN + 16;
    if plen > buflen {
      return 0;
    }
    PackParam(pbuf, at, tid, CMD_IOCTL, 16, IOCTL_SET_HANDFLOW, 0);
    PackFlowWords(pbuf, at + HDR_LEN, chflow, flowrep);
    ghost var fixed := Be32(MAGIC) + Be32(tid) + Be16(CMD_IOCTL) + Be16(16) + Be32(IOCTL_SET_HANDFLOW) + Be32(0);
    ghost var words := Be32(chflow) + Be32(flowrep) + Be32(512);
    SpliceTwice(b, at, fixed, words);
    SpliceOwn(b, at, fixed + words, 4);
    SpliceHolds(b, at, IoctlPkt(tid, IOCTL_SET_HANDFLOW, FlowExt(chflow, flowrep, b[at + 32..at + 36])));
    Assoc(fixed, words, b[at + 32..at + 36]);
  }

  // ----- tests on a received packet

  /** `vc_check_hdr`: the comparison is made on the bytes as they came. */
  predicate CheckHdr(b: seq<byte>, cmd: u16, len: u16)
    requires |b| >= HDR_LEN
  {
    b[..4] == Be32(MAGIC) && b[8..10] == Be16(cmd) && b[10..12] == Be16(len)
  }

  /** `vc_check_xmit` and, with CREATE, `vc_check_open`: a packet of just the fixed part with these parameters. */
  predicate CheckParam(b: seq<byte>, cmd: u16, p1: u32, p2: u32) {
    |b| >= HDR_LEN && CheckHdr(b, cmd, 0) && b[12..16] == Be32(p1) && b[16..20] == Be32(p2)
  }

  /** The test passes on the packet it describes and on no other. */
  lemma CheckParamMeans(p: Pkt, cmd: u16, p1: u32, p2: u32)
    ensures CheckParam(Encode(p), cmd, p1, p2) <==> p == Pkt(MAGIC, p.tid, cmd, p1, p2, [])
  {
    hide Be16, Be32;
    EncodeFields(p, []);
    assert Encode(p) + [] == Encode(p);
    forall m: u32, n: u32 ensures Be32(m) == Be32(n) ==> m == n {
      Be32RoundTrip(m, [0, 0, 0, 0]);
      Be32RoundTrip(n, [0, 0, 0, 0]);
    }
    forall m: u16, n: u16 ensures Be16(m) == Be16(n) ==> m == n {
      Be16RoundTrip(m, [0, 0]);
      Be16RoundTrip(n, [0, 0]);
    }
  }

  /** `vc_check_recv`: success, and `p2` repeats the length of the payload. */
  predicate CheckRecv(b: seq<byte>)
    requires |b| >= HDR_LEN
  {
    FromBe32(b[12..16]) == STATUS_SUCCESS && FromBe16(b[10..12]) == FromBe32(b[16..20])
  }

  lemma CheckRecvMeans(p: Pkt)
    ensures CheckRecv(Encode(p)) <==> p.p1 == STATUS_SUCCESS && p.p2 == |p.ext|
  {
    hide Be16, Be32, FromBe16, FromBe32;
    EncodeFields(p, []);
    assert Encode(p) + [] == Encode(p);
    Be32RoundTrip(p.p1, [0, 0, 0, 0]);
    Be32RoundTrip(p.p2, [0, 0, 0, 0]);
    Be16RoundTrip(|p.ext|, [0, 0]);
  }
}
