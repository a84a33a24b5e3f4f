/**
 Framing at the end of a connection. `vc_common_purge` ignores a failing send and CLOSE is sent all the same, so that the
 bytes of a connection need not be the packets sent on it, one behind the other.
 */
module CloseFraming {
  import opened Words
  import opened Packets
  import opened Worlds
  import opened Handlers
  import opened Control

  function PurgePkt(tid: u32): Pkt { IoctlPkt(tid, IOCTL_PURGE, Le32(0x0000000f)) }

  /** `k` bytes of PURGE, and CLOSE behind them. */
  function TornTail(tid: u32, k: nat): seq<byte>
    requires k <= |Encode(PurgePkt(tid))|
  {
    Encode(PurgePkt(tid))[..k] + Encode(ClosePkt(tid))
  }

  /** If `b` is itself shifted by `k` behind its own first bytes, then it repeats them every `k` bytes. */
  lemma {:induction false} Repeats(b: seq<byte>, k: nat, m: nat)
    requires 0 < k && m * k < |b|
    requires forall i :: k <= i < |b| ==> b[i] == b[i - k]
    ensures b[m * k] == b[0]
  {
    if m > 0 {
      assert m * k - k == (m - 1) * k;
      Repeats(b, k, m - 1);
    }
  }

  lemma CloseBytes(tid: u32)
    ensures var c := Encode(ClosePkt(tid));
            c[0] == 0x4d && c[9] == 2 && forall i :: 12 <= i < 20 ==> c[i] == 0
  {
    EncodeFields(ClosePkt(tid), []);
    var c := Encode(ClosePkt(tid));
    assert c + [] == c;
    assert c[0] == c[..4][0] && c[9] == c[8..10][1];
    forall i | 12 <= i < 20 ensures c[i] == 0 {
      assert c[i] == if i < 16 then c[12..16][i - 12] else c[16..20][i - 16];
    }
  }

  lemma PurgeBytes(tid: u32)
    ensures Encode(PurgePkt(tid))[9] == 0x0e && |Encode(PurgePkt(tid))| == 24
  {
    EncodeFields(PurgePkt(tid), []);
    var b := Encode(PurgePkt(tid));
    assert b + [] == b;
    assert b[9] == b[8..10][1];
  }

  /** No part of PURGE can stand in front of CLOSE unnoticed. */
  lemma TornIsNotClose(tid: u32, k: nat)
    requires 0 < k <= 24
    ensures |TornTail(tid, k)| >= 20 && TornTail(tid, k)[..20] != Encode(ClosePkt(tid))
  {
    hide Encode;
    PurgeBytes(tid);
    CloseBytes(tid);
    var (c, tail) := (Encode(ClosePkt(tid)), TornTail(tid, k));
    if k >= 10 {
      assert tail[..20][9] == 0x0e;
    } else if tail[..20] == c {
      forall i | k <= i < 20 ensures c[i] == c[i - k] {
        assert c[i] == tail[..20][i] == tail[i];
      }
      var m := if k == 9 then 2 else (12 + k - 1) / k;
      assert 12 <= m * k < 20;
      Repeats(c, k, m);
    }
  }

  lemma SplitTail(tid: u32, k: nat)
    requires k <= 24
    ensures |Encode(PurgePkt(tid))| == 24
    ensures Split(TornTail(tid, k)) == [ClosePkt(tid)] <==> k == 0
  {
    hide Encode, Decode, Split;
    PurgeBytes(tid);
    var (close, tail) := (ClosePkt(tid), TornTail(tid, k));
    if k == 0 {
      SplitEncodeAll([close], []);
      EncodeOne(close);
      assert tail == Encode(close) + [] && Split([]) == [] by {
        NothingToSplit();
      }
    } else {
      TornIsNotClose(tid, k);
      if Split(tail) == [close] {
        SplitHead(tail);
        var head := tail[..20];
        ExtIsLen(tail);
        HeadDecodes(tail);
        EncodeDecode(head);
      }
    }
  }

  lemma NothingToSplit()
    ensures Split([]) == []
  {
  }

  lemma ExtIsLen(b: seq<byte>)
    requires |b| >= HDR_LEN && |b| >= HDR_LEN + LenField(b)
    ensures |Decode(b).ext| == LenField(b)
  {
  }

  /** A packet without extension is read from the first twenty bytes. */
  lemma HeadDecodes(b: seq<byte>)
    requires |b| >= 20 && LenField(b) == 0
    ensures LenField(b[..20]) == 0 && Decode(b[..20]) == Decode(b)
  {
    var h := b[..20];
    assert h[..4] == b[..4] && h[4..8] == b[4..8] && h[8..10] == b[8..10] && h[10..12] == b[10..12];
    assert h[12..16] == b[12..16] && h[16..20] == b[16..20] && h[20..20] == b[20..20];
  }

  /** The packets PURGE and CLOSE of a closing connection, and what each send made of the world. */
  function AfterPurge(w: World): (World, bool) { Emit(BufClear(w), CMD_IOCTL, IOCTL_PURGE, 0, Le32(0x0000000f)) }
  function AfterClose(w: World): (World, bool) { Emit(AfterPurge(w).0, CMD_CLOSE, 0, 0, []) }

  /** What a send leaves on the wire and in the list of packets sent. */
  lemma EmitWire(w: World, cmd: u16, p1: u32, p2: u32, ext: Ext) returns (p: Pkt, k: nat)
    ensures p == Pkt(MAGIC, w.port.tid % TID_MOD, cmd, p1, p2, ext) && k <= |Encode(p)|
    ensures var ((v, ok), b) := (Emit(w, cmd, p1, p2, ext), Encode(p));
            && v.env.net.wire == w.env.net.wire + (if ok then b else b[..k])
            && Packed(v.env.net.sent) == Packed(w.env.net.sent) + (if ok then [p] else [])
            && v.port.tid == w.port.tid + (if ok then 1 else 0)
  {
    hide Encode, Await;
    p := Pkt(MAGIC, w.port.tid % TID_MOD, cmd, p1, p2, ext);
    EncodeOne(p);
    assert Packed([Sent(w.port.tid, p)]) == [p];
    k := Cut(Await(w.env).1.cut, |Encode(p)|);
  }

  lemma ClearKeepsLink(w: World)
    ensures var v := BufClear(w);
            v.env.net.wire == w.env.net.wire && v.env.net.sent == w.env.net.sent
  {
  }

  /** Two packet streams that agree up to a point are split alike if and only if their ends are. */
  lemma SameStart(ps: seq<Pkt>, tail: seq<byte>, qs: seq<Pkt>)
    ensures Split(EncodeAll(ps) + tail) == ps + qs <==> Split(tail) == qs
  {
    SplitEncodeAll(ps, tail);
    assert (ps + Split(tail))[|ps|..] == Split(tail) && (ps + qs)[|ps|..] == qs;
  }

  /**
   On a connection that is closed with a complete CLOSE, the bytes sent are split into the packets sent if and only if
   PURGE went out whole or not at all.
   */
  lemma ClosedFraming(w: World)
    requires Up(w)
    ensures Close(w).env == AfterClose(w).0.env
    ensures var n := Close(w).env.net;
            AfterClose(w).1 ==>
              (Split(n.wire) == Packed(n.sent) <==> (AfterPurge(w).1 || AfterPurge(w).0.env.net.wire == w.env.net.wire))
  {
    hide Encode, EncodeAll, Split, BufClear, Emit, Le32;
    ClearKeepsLink(w);
    var w0 := BufClear(w);
    var (ps, wire) := (Packed(w.env.net.sent), w.env.net.wire);
    var purge, k := EmitWire(w0, CMD_IOCTL, IOCTL_PURGE, 0, Le32(0x0000000f));
    var close, j := EmitWire(AfterPurge(w).0, CMD_CLOSE, 0, 0, []);
    if AfterPurge(w).1 {
      EncodeAllAppend(ps, [purge]);
      EncodeAllAppend(ps + [purge], [close]);
      EncodeOne(purge);
      EncodeOne(close);
      SplitExact(ps + [purge] + [close]);
    } else {
      Assoc(wire, Encode(purge)[..k], Encode(close));
      SplitTail(w0.port.tid % TID_MOD, k);
      SameStart(ps, TornTail(w0.port.tid % TID_MOD, k), [close]);
      assert |wire + Encode(purge)[..k]| == |wire| + k;
      assert k == 0 ==> wire + Encode(purge)[..k] == wire;
    }
  }
}
