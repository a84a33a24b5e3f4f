/**
 The byte pipes of the kernel driver (`adv_uart.c`), in place on arrays: the ring buffers shared with the daemon
 and the circular buffer of the serial core.
 */
module UartDriver {
  import opened Words
  import opened Rings
  import opened Memory
  import opened Attributes

  /** `struct ring_buf`, kernel side. */
  class RingBuf {
    const data: array<byte>
    var head: nat
    var tail: nat
    var enabled: bool
    var clean: bool

    ghost predicate Valid()
      reads this
    {
      head < data.Length && tail < data.Length
    }

    ghost function View(): (r: Ring)
      reads this, data
      requires Valid()
      ensures r.Ok()
    {
      Ring(data[..], head, tail, enabled, clean)
    }

    /** The state `adv_main_init` gives a ring. */
    constructor (size: nat)
      requires size > 0
      ensures Valid() && fresh(data) && data.Length == size
      ensures head == tail == 0 && !enabled && !clean
    {
      data := new byte[size];
      head, tail, enabled, clean := 0, 0, false, false;
    }

    /** `move_rb_head`. */
    method MoveHead(length: nat)
      requires Valid()
      modifies this`head, this`clean
      ensures Valid() && View() == old(View()).MoveHead(length)
    {
      if clean {
        clean := false;
        head := tail;
      } else {
        head := head + length;
        head := head % data.Length;
      }
    }

    /** `move_rb_tail`. */
    method MoveTail(length: nat)
      requires Valid()
      modifies this`tail
      ensures Valid() && View() == old(View()).MoveTail(length)
    {
      tail := tail + length;
      tail := tail % data.Length;
    }

    /** The `ADV_CLR_TX` case of `adv_main_clear`: the request and the head move happen under one lock. */
    method ClearNow()
      requires Valid()
      modifies this`head, this`clean
      ensures Valid() && View().Contents() == [] && !clean && tail == old(tail)
    {
      clean := true;
      MoveHead(0);
    }
  }

  /** `struct circ_buf` of the serial core: the application fills it at `head`, the driver empties it at `tail`. */
  class CircBuf {
    const buf: array<byte>
    var head: nat
    var tail: nat

    ghost predicate Valid()
      reads this
    {
      head < buf.Length && tail < buf.Length
    }

    ghost function Contents(): seq<byte>
      reads this, buf
      requires Valid()
    {
      Span(buf[..], tail, head)
    }

    constructor (size: nat)
      requires size > 0
      ensures Valid() && fresh(buf) && buf.Length == size && Contents() == []
    {
      buf := new byte[size];
      head, tail := 0, 0;
    }

    /** `uart_circ_chars_pending`. */
    function Pending(): nat
      reads this
      requires Valid()
    {
      Length(tail, head, buf.Length)
    }
  }

  /** The passes still needed to move `count` bytes: one, plus one for each buffer end that lies strictly inside. */
  ghost function Passes(count: nat, ringTail: nat, ringSize: nat, circTail: nat, circSize: nat): nat {
    if count == 0 then 0
    else 1 + (if ringTail + count > ringSize then 1 else 0) + (if circTail + count > circSize then 1 else 0)
  }

  /** A copy that does not reach past the end of the ring is a push. */
  lemma SpliceIsPush(r: Ring, data: seq<byte>)
    requires r.Ok() && |data| <= LRoom(r.head, r.tail, |r.buf|)
    ensures Ring(Splice(r.buf, r.tail, data), r.head, r.tail, r.enabled, r.clean).MoveTail(|data|) == r.Push(data)
  {
    assert data[..|data|] == data;
    SplicesFill(r.buf, r.tail, data, |data|);
    var s := Splice(r.buf, r.tail, data);
    assert Splice(s, 0, data[|data|..]) == s;
  }

  /** Advancing the tail of a circular buffer pops a prefix of what is left in it. */
  lemma PopCirc(buf: seq<byte>, tail: nat, head: nat, n: nat)
    requires tail < |buf| && head < |buf| && n <= Length(tail, head, |buf|)
    ensures Span(buf, Wrap(tail + n, |buf|), head) == Span(buf, tail, head)[n..]
  {
    PopContents(Ring(buf, tail, head, true, false), n);
    ModOnce(tail + n, |buf|);
  }

  lemma LeadingBytes(buf: seq<byte>, head: nat, tail: nat, n: nat)
    requires head < |buf| && tail < |buf| && n <= LLength(head, tail, |buf|)
    ensures buf[head..head + n] == Span(buf, head, tail)[..n]
  {
    var s := Span(buf, head, tail);
    forall i | 0 <= i < n ensures buf[head..head + n][i] == s[..n][i] {
      assert s[i] == buf[Wrap(head + i, |buf|)];
    }
  }

  /** The length of one copy: no further than the room before the ring's end, nor than the circular buffer's end. */
  function CopyLen(count: nat, lsize: nat, circTail: nat, circSize: nat): nat {
    var m := Min(count, lsize);
    if circTail + m >= circSize > circTail then circSize - circTail else m
  }

  lemma PassesBounds(count: nat, ringTail: nat, ringSize: nat, circTail: nat, circSize: nat)
    ensures Passes(count, ringTail, ringSize, circTail, circSize) <= 3
    ensures count > 0 ==> Passes(count, ringTail, ringSize, circTail, circSize) > 0
  {
  }

  lemma PassesDrop(count: nat, h: nat, t: nat, size: nat, circTail: nat, circSize: nat)
    requires h < size && t < size && circTail < circSize && 0 < count <= Room(h, t, size) && count < circSize
    ensures var m := CopyLen(count, LRoom(h, t, size), circTail, circSize);
            && 0 < m <= count && m <= LRoom(h, t, size) && circTail + m <= circSize
            && Passes(count - m, Wrap(t + m, size), size, Wrap(circTail + m, circSize), circSize)
             < Passes(count, t, size, circTail, circSize)
  {
  }

  /** The mask test of the source (on a power of two, masking is the remainder) detects a copy past the circular buffer's end. */
  lemma MaskTest(circTail: nat, m: nat, circSize: nat)
    requires circTail < circSize && m < circSize
    ensures (circTail + m) % circSize < circTail <==> circTail + m >= circSize
  {
    ModOnce(circTail + m, circSize);
  }

  /** The copy of one pass and the two tail moves: the chunk is popped from one buffer and pushed on the other. */
  method CopyPass(xmit: CircBuf, tx: RingBuf, mcplen: nat)
    requires xmit.Valid() && tx.Valid() && xmit.buf != tx.data
    requires mcplen <= xmit.Pending() && xmit.tail + mcplen <= xmit.buf.Length
    requires mcplen <= LRoom(tx.head, tx.tail, tx.data.Length)
    modifies xmit`tail, tx`tail, tx.data
    ensures xmit.Valid() && tx.Valid() && xmit.buf[..] == old(xmit.buf[..])
    ensures xmit.tail == Wrap(old(xmit.tail) + mcplen, xmit.buf.Length)
    ensures tx.tail == Wrap(old(tx.tail) + mcplen, tx.data.Length)
    ensures xmit.Contents() == old(xmit.Contents())[mcplen..]
    ensures tx.View() == old(tx.View()).Push(old(xmit.Contents())[..mcplen])
  {
    hide Span, Fill, Room, Length, Splice;
    ghost var ring, chunk := tx.View(), xmit.Contents()[..mcplen];
    LeadingBytes(xmit.buf[..], xmit.tail, xmit.head, mcplen);
    SpliceIsPush(ring, chunk);
    PopCirc(xmit.buf[..], xmit.tail, xmit.head, mcplen);
    ModOnce(xmit.tail + mcplen, xmit.buf.Length);
    ModOnce(tx.tail + mcplen, tx.data.Length);
    Memcpy(tx.data, tx.tail, xmit.buf[xmit.tail..xmit.tail + mcplen]);
    tx.MoveTail(mcplen);
    xmit.tail := xmit.tail + mcplen;
    xmit.tail := xmit.tail % xmit.buf.Length;
  }

  /** One turn of the copy loop: some bytes move, and one of the three passes is used up. */
  method XmitPass(xmit: CircBuf, tx: RingBuf, count: nat) returns (mcplen: nat)
    requires xmit.Valid() && tx.Valid() && xmit.buf != tx.data
    requires 0 < count <= xmit.Pending() && count <= Room(tx.head, tx.tail, tx.data.Length)
    modifies xmit`tail, tx`tail, tx.data
    ensures xmit.Valid() && tx.Valid() && xmit.buf[..] == old(xmit.buf[..])
    ensures 0 < mcplen <= count
    ensures xmit.Contents() == old(xmit.Contents())[mcplen..]
    ensures tx.View() == old(tx.View()).Push(old(xmit.Contents())[..mcplen])
    ensures Passes(count - mcplen, tx.tail, tx.data.Length, xmit.tail, xmit.buf.Length)
          < Passes(count, old(tx.tail), tx.data.Length, old(xmit.tail), xmit.buf.Length)
  {
    var txLsize := LRoom(tx.head, tx.tail, tx.data.Length);
    mcplen := if count > txLsize then txLsize else count;
    MaskTest(xmit.tail, mcplen, xmit.buf.Length);
    if (xmit.tail + mcplen) % xmit.buf.Length < xmit.tail {
      mcplen := xmit.buf.Length - xmit.tail;
    }
    PassesDrop(count, tx.head, tx.tail, tx.data.Length, xmit.tail, xmit.buf.Length);
    CopyPass(xmit, tx, mcplen);
  }

  /** The copy loop has moved `done` of the bytes `all` to the ring it found as `ring0`, and `left` remain. */
  ghost predicate Moved(ring0: Ring, all: seq<byte>, done: nat, ring: Ring, left: seq<byte>) {
    && ring0.Ok() && done <= |all| && done <= ring0.Free()
    && ring == ring0.Push(all[..done]) && left == all[done..]
  }

  lemma MovedNothing(ring0: Ring, all: seq<byte>)
    requires ring0.Ok()
    ensures Moved(ring0, all, 0, ring0, all)
  {
    PushNothing(ring0);
    assert all[..0] == [];
  }

  lemma MovedMeans(ring0: Ring, all: seq<byte>, done: nat, ring: Ring, left: seq<byte>)
    requires Moved(ring0, all, done, ring, left)
    ensures ring0.Ok() && done <= |all| && done <= ring0.Free() && ring == ring0.Push(all[..done]) && left == all[done..]
  {
  }

  lemma MovedMore(ring0: Ring, all: seq<byte>, done: nat, ring: Ring, left: seq<byte>, n: nat)
    requires Moved(ring0, all, done, ring, left) && n <= |left| && done + n <= ring0.Free()
    ensures Moved(ring0, all, done + n, ring.Push(left[..n]), left[n..])
    ensures ring.Push(left[..n]).Free() == ring0.Free() - (done + n)
  {
    PushPush(ring0, all[..done], left[..n]);
    assert all[..done] + left[..n] == all[..done + n];
    PushContents(ring0, all[..done + n]);
    assert |ring0.Push(all[..done + n]).Contents()| == ring0.Len() + done + n;
  }

  /**
   `adv_uart_xmit`: exactly min(pending, room) bytes leave the circular buffer, in order, and arrive in the ring.
   Three passes are enough whatever the phases of the two buffers.
   */
  method AdvUartXmit(xmit: CircBuf, tx: RingBuf)
    requires xmit.Valid() && tx.Valid() && xmit.buf != tx.data
    modifies xmit`tail, tx`tail, tx.data
    ensures xmit.Valid() && tx.Valid()
    ensures var pending, room := |old(xmit.Contents())|, old(tx.View()).Free();
            var moved := Min(pending, room);
            && tx.View() == old(tx.View()).Push(old(xmit.Contents())[..moved])
            && xmit.Contents() == old(xmit.Contents())[moved..]
            && xmit.buf[..] == old(xmit.buf[..])
  {
    hide Passes, Span, Room, Moved;
    ghost var ring0, all := tx.View(), xmit.Contents();
    MovedNothing(ring0, all);
    MovedMeans(ring0, all, 0, ring0, all);
    if xmit.head == xmit.tail || Room(tx.head, tx.tail, tx.data.Length) == 0 {
      return;
    }

    var pending := xmit.Pending();
    var txSize := Room(tx.head, tx.tail, tx.data.Length);
    var count := if pending < txSize then pending else txSize;
    var maxRetry := 3;
    ghost var total := count;
    PassesBounds(count, tx.tail, tx.data.Length, xmit.tail, xmit.buf.Length);

    while count > 0 && maxRetry > 0
      invariant 0 <= count <= total && xmit.Valid() && tx.Valid()
      invariant Moved(ring0, all, total - count, tx.View(), xmit.Contents())
      invariant tx.View().Free() == ring0.Free() - (total - count)
      invariant xmit.buf[..] == old(xmit.buf[..])
      invariant Passes(count, tx.tail, tx.data.Length, xmit.tail, xmit.buf.Length) <= maxRetry
      decreases maxRetry
    {
      ghost var ring, left := tx.View(), xmit.Contents();
      MovedMeans(ring0, all, total - count, ring, left);
      var mcplen := XmitPass(xmit, tx, count);
      MovedMore(ring0, all, total - count, ring, left, mcplen);
      count := count - mcplen;
      maxRetry := maxRetry - 1;
    }
    PassesBounds(count, tx.tail, tx.data.Length, xmit.tail, xmit.buf.Length);
    MovedMeans(ring0, all, total, tx.View(), xmit.Contents());
  }

  /** One offer to the tty: `tty_insert_flip_string` on the contiguous part of the ring, then the head move. */
  method Offer(rx: RingBuf, take: nat) returns (got: seq<byte>)
    requires rx.Valid() && !rx.clean
    modifies rx`head, rx`clean
    ensures rx.Valid() && rx.View() == old(rx.View()).MoveHead(|got|)
    ensures |got| == Min(take, LLength(old(rx.head), rx.tail, rx.data.Length))
    ensures got == old(rx.View()).Contents()[..|got|]
  {
    var rxLl := LLength(rx.head, rx.tail, rx.data.Length);
    var rxHd := rx.head;
    var ret := Min(take, rxLl);
    LeadingBytes(rx.data[..], rxHd, rx.tail, ret);
    ModOnce(rx.head, rx.data.Length);
    got := rx.data[rxHd..rxHd + ret];
    if ret > 0 {
      rx.MoveHead(ret);
    }
  }

  /** `n` bytes have been drained from the ring `r`: it is `ring` now, and they are `out`. */
  ghost predicate Drained(r: Ring, n: nat, ring: Ring, out: seq<byte>) {
    r.Ok() && !r.clean && n <= r.Len() && ring == r.MoveHead(n) && out == r.Contents()[..n]
  }

  lemma DrainedNothing(r: Ring)
    requires r.Ok() && !r.clean
    ensures Drained(r, 0, r, [])
  {
    ModOnce(r.head, |r.buf|);
  }

  lemma DrainedMore(r: Ring, n: nat, ring: Ring, out: seq<byte>, k: nat)
    requires Drained(r, n, ring, out) && k <= ring.Len()
    ensures Drained(r, n + k, ring.MoveHead(k), out + ring.Contents()[..k])
    ensures !ring.clean && ring.MoveHead(k).Len() == ring.Len() - k
  {
    hide Span;
    PopContents(r, n);
    PopContents(ring, k);
    MoveHeadTwice(r, n, k);
    assert r.Contents()[..n] + r.Contents()[n..][..k] == r.Contents()[..n + k];
  }

  /** What one offer leaves for the others. */
  lemma TakenStep(ring: Ring, takes: seq<nat>, tries: nat)
    requires ring.Ok() && !ring.clean && tries > 0
    ensures var t := if takes == [] then 0 else Min(takes[0], LLength(ring.head, ring.tail, |ring.buf|));
            Taken(ring, takes, tries) == if t == 0 then 0 else t + Taken(ring.MoveHead(t), takes[1..], tries - 1)
  {
  }

  /**
   `adv_uart_recv_chars`: a prefix of the ring is delivered to the tty and removed, nothing else changes.
   `takes` is what the tty is willing to take at each offer.
   */
  method AdvUartRecvChars(rx: RingBuf, throttled: bool, takes: seq<nat>) returns (delivered: seq<byte>)
    requires rx.Valid() && !rx.clean
    modifies rx`head, rx`clean
    ensures rx.Valid()
    ensures var r := old(rx.View());
            var n := if throttled || !r.enabled then 0 else Taken(r, takes, 3);
            rx.View() == r.MoveHead(n) && delivered == r.Contents()[..n]
  {
    hide Span, Taken, Length;
    delivered := [];
    ghost var r := rx.View();
    DrainedNothing(r);
    if throttled {
      return;
    }
    if !rx.enabled {
      return;
    }
    var count := Length(rx.head, rx.tail, rx.data.Length);
    var maxRetry := 3;
    var offers := takes;
    ghost var n: nat, total := 0, Taken(r, takes, 3);
    while count > 0 && maxRetry > 0
      invariant rx.Valid() && !rx.clean && 0 <= maxRetry && count == rx.View().Len()
      invariant Drained(r, n, rx.View(), delivered)
      invariant n + Taken(rx.View(), offers, maxRetry) == total
      decreases maxRetry
    {
      ghost var ring := rx.View();
      TakenStep(ring, offers, maxRetry);
      var got := Offer(rx, if offers == [] then 0 else offers[0]);
      if |got| == 0 {
        DrainedNothing(ring);
        break;
      }
      DrainedMore(r, n, ring, delivered, |got|);
      delivered := delivered + got;
      count := count - |got|;
      offers := offers[1..];
      n := n + |got|;
      maxRetry := maxRetry - 1;
    }
    DrainDone(rx.View(), offers, maxRetry);
  }

  /** Out of bytes or out of tries, nothing more is taken. */
  lemma DrainDone(ring: Ring, takes: seq<nat>, tries: nat)
    requires ring.Ok() && !ring.clean
    ensures tries == 0 || ring.Len() == 0 ==> Taken(ring, takes, tries) == 0
  {
  }

  // ----- settings

  /** The three switches of `adv_uart_set_termios`. */
  method ReadSize(csize: int) returns (byte: int)
    ensures byte == SizeOf(csize)
  {
    match csize {
      case 5 => byte := 5;
      case 6 => byte := 6;
      case 7 => byte := 7;
      case _ => byte := 8;
    }
  }

  method ReadFlow(t: Termios) returns (flowctl: int)
    ensures flowctl == FlowOf(t)
  {
    if t.crtscts {
      flowctl := FLOW_RTSCTS;
    } else if t.ixoff {
      flowctl := FLOW_XONXOFF;
    } else {
      flowctl := FLOW_NONE;
    }
  }

  method ReadParity(t: Termios) returns (pair: int)
    ensures pair == PairOf(t)
  {
    match (t.parodd, t.cmspar, t.parenb) {
      case (false, false, true) => pair := 2;
      case (true, false, true) => pair := 1;
      case (false, true, true) => pair := 4;
      case (true, true, true) => pair := 3;
      case _ => pair := 0;
    }
  }

  /** `adv_uart_set_termios`, on the settings it finds: what each of them means in terms of the flags. */
  method ReadTermios(attr: PortInfo, t: Termios) returns (info: PortInfo)
    ensures info == TermiosInfo(attr, t)
    ensures 5 <= info.byte <= 8 && info.baud == t.baud && info.isOpen == attr.isOpen && info.ms == attr.ms
    ensures info.flowctl == FLOW_RTSCTS <==> t.crtscts
    ensures info.pair == 0 <==> !t.parenb
    ensures (info.pair == 1 || info.pair == 3) <==> t.parenb && t.parodd
    ensures (info.pair == 3 || info.pair == 4) <==> t.parenb && t.cmspar
  {
    var byte := ReadSize(t.csize);
    var flowctl := ReadFlow(t);
    var pair := ReadParity(t);
    info := Info(attr.isOpen, t.baud, flowctl, byte, pair, if t.cstopb then 2 else 0, attr.ms);
  }
}
