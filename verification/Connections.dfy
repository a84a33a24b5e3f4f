/**
 What each handler does to a connection beyond the invariants: what it flushes, how the bytes of a connection that it ends
 are framed, and what the device, obeying what it is sent, then has of the settings in the daemon's mirror.
 */
module Connections {
  import opened Words
  import opened Packets
  import opened Rings
  import opened Attributes
  import opened Worlds
  import opened Handlers
  import opened Control
  import opened Pipes
  import opened PipeRuns
  import opened Settings
  import opened CloseFraming
  import opened Reopening

  // ----- flushing

  /** The bytes that left a ring by being flushed. */
  function Discarded(gone: seq<Fate>): seq<byte> {
    if gone == [] then []
    else
      var (earlier, last) := (gone[..|gone| - 1], gone[|gone| - 1]);
      Discarded(earlier) + if last.Flushed? then [last.b] else []
  }

  lemma {:induction false} DiscardedMark(gone: seq<Fate>, bs: seq<byte>, passed: bool)
    ensures Discarded(gone + Mark(bs, passed)) == Discarded(gone) + if passed then [] else bs
  {
    if bs == [] {
      assert gone + Mark(bs, passed) == gone && Discarded(gone) + [] == Discarded(gone);
    } else {
      var (n, fs) := (|bs| - 1, Mark(bs, passed));
      DiscardedMark(gone, bs[..n], passed);
      assert fs[..n] == Mark(bs[..n], passed);
      assert (gone + fs)[..|gone| + n] == gone + fs[..n] && (gone + fs)[|gone| + n] == fs[n];
      Assoc(Discarded(gone), bs[..n], [bs[n]]);
      assert bs == bs[..n] + [bs[n]];
    }
  }

  /** Nothing is flushed between `e` and `f`. */
  predicate Spares(e: Env, f: Env) {
    && f.rx.clean == e.rx.clean && Discarded(f.hist.upGone) == Discarded(e.hist.upGone)
    && Discarded(f.hist.downGone) == Discarded(e.hist.downGone)
  }

  lemma CopiesSpare(e: Env, takes: seq<nat>)
    ensures Spares(e, XmitCopy(e)) && Spares(e, RecvChars(e, takes))
  {
    hide Span, Mark, Taken, Discarded;
    var n := if e.throttled || !e.tx.enabled then 0 else Taken(e.tx, takes, 3);
    DiscardedMark(e.hist.downGone, e.tx.Contents()[..n], true);
    assert Discarded(e.hist.downGone) + [] == Discarded(e.hist.downGone);
  }

  lemma StepSpares(e: Env, s: EnvStep)
    ensures Spares(e, Step(e, s))
  {
    hide XmitCopy, RecvChars, Discarded;
    StepFrame(e, s);
    match s
    case StartTx => CopiesSpare(e.(rx := e.rx.(enabled := true)), []);
    case Unthrottle(takes) => CopiesSpare(e.(throttled := false), takes);
    case _ =>
  }

  lemma StepsSpare(e: Env, ss: seq<EnvStep>)
    ensures Spares(e, Steps(e, ss))
    decreases |ss|
  {
    hide Step, Discarded;
    if ss != [] {
      StepSpares(e, ss[0]);
      StepsSpare(Step(e, ss[0]), ss[1..]);
    }
  }

  lemma AwaitSpares(e: Env)
    ensures Spares(e, Await(e).0)
  {
    hide Steps, Discarded;
    if e.io != [] {
      StepsSpare(e.(io := e.io[1..]), e.io[0].env);
    }
  }

  lemma CallsSpare(e: Env, ps: seq<Sent>, n: nat)
    ensures Spares(e, Send(e, ps).0) && Spares(e, IocInter(e)) && Spares(e, Connect(e).0)
    ensures !e.rx.clean ==> Spares(e, IocRxHead(e, n))
  {
    hide Await, XmitCopy, RecvChars, Discarded, EncodeAll, Span, Mark;
    AwaitSpares(e);
    var (e1, io) := Await(e);
    CopiesSpare(e1, io.takes);
    CopiesSpare(XmitCopy(e1), io.takes);
    DiscardedMark(e1.hist.upGone, e1.rx.Contents()[..Min(n, e1.rx.Len())], true);
    assert Discarded(e1.hist.upGone) + [] == Discarded(e1.hist.upGone);
  }

  // ----- what a handler that sends no settings keeps

  /** What was sent on the connection can be cut into the packets sent. */
  predicate Framed(n: Net) { Split(n.wire) == Packed(n.sent) }

  /**
   From `w` nothing is flushed; a connection that ends is framed, and on one that goes on the mirror and what the device
   makes of the packets sent stay as they are, if the device had `c` at first.
   */
  predicate Goes(w: World, v: World, c: Config) {
    && Spares(w.env, v.env)
    && if v.port.stk == [NetDown] then Framed(v.env.net)
       else v.port.eki == w.port.eki && ObeyAll(c, v.env.net.sent) == ObeyAll(c, w.env.net.sent)
  }

  lemma ExcpGoes(w: World, v: World, c: Config)
    requires Spares(w.env, v.env) && Framed(v.env.net)
    ensures Goes(w, Excp(v), c)
  {
    hide Discarded, Split;
  }

  lemma LinkedIsFramed(w: World)
    requires Linked(w)
    ensures Framed(w.env.net)
  {
    hide Split, EncodeAll, Numbered;
    SplitExact(Packed(w.env.net.sent));
  }

  /** A send of one packet that is cut leaves nothing that looks like a packet. */
  lemma CutIsFramed(e: Env, s: Sent)
    requires e.net.wire == EncodeAll(Packed(e.net.sent))
    ensures !Send(e, [s]).1 ==> Framed(Send(e, [s]).0.net)
  {
    hide Await, Encode, Split;
    var (e1, io) := Await(e);
    var ps := Packed(e.net.sent);
    assert Packed([s]) == [s.pkt];
    var k := Cut(io.cut, |EncodeAll([s.pkt])|);
    var torn := EncodeAll([s.pkt])[..k];
    EncodeOne(s.pkt);
    EncodeLength(s.pkt);
    SplitTorn([s.pkt], k);
    SameStart(ps, torn, []);
    assert ps + [] == ps;
  }

  lemma EncodeLength(p: Pkt)
    ensures |Encode(p)| > 0
  {
  }

  lemma EmitEnds(w: World, cmd: u16, p1: u32, p2: u32, ext: Ext)
    requires Linked(w)
    ensures var (v, ok) := Emit(w, cmd, p1, p2, ext);
            Spares(w.env, v.env) && (!ok ==> Framed(v.env.net))
  {
    hide Send, Discarded, Numbered, EncodeAll, Split;
    var s := Sent(w.port.tid, Pkt(MAGIC, w.port.tid % TID_MOD, cmd, p1, p2, ext));
    CallsSpare(w.env, [s], 0);
    CutIsFramed(w.env, s);
  }

  /** Commands that the device's settings do not depend on. */
  predicate Neutral(cmd: u16, p1: u32) {
    cmd == CMD_IOCTL ==>
      p1 == IOCTL_SET_WAIT_MASK || p1 == IOCTL_WAIT_ON_MASK || p1 == IOCTL_GET_WAIT_MASK || p1 == IOCTL_GET_MODEMSTATUS
  }

  lemma EmitGoes(w: World, cmd: u16, p1: u32, p2: u32, ext: Ext, c: Config)
    requires Linked(w) && cmd != CMD_CREATE && Neutral(cmd, p1)
    ensures var (v, ok) := Emit(w, cmd, p1, p2, ext);
            && Spares(w.env, v.env) && (!ok ==> Framed(v.env.net))
            && (ok ==> Linked(v) && ObeyAll(c, v.env.net.sent) == ObeyAll(c, w.env.net.sent))
  {
    hide Emit, Discarded, Logged, LastCredit, ObeyAll, Split;
    EmitEnds(w, cmd, p1, p2, ext);
    LogOne(w, cmd, p1, p2, ext);
    var ps := EmitObeyed(w, cmd, p1, p2, ext, ObeyAll(c, w.env.net.sent));
    ObeyMore(c, w.env.net.sent, ps);
  }

  // ----- refreshing and waiting

  /** Nothing is flushed, and the connection is not touched. */
  predicate Rests(w: World, v: World) { SameLink(w, v) && Spares(w.env, v.env) }

  lemma UpdateRests(w: World)
    ensures Rests(w, UpdateRx(w)) && Rests(w, UpdateTx(w)) && Rests(w, Sleep(w)) && Rests(w, UpdateAttr(w))
  {
    hide Await, Discarded;
    UpdateLink(w);
    AwaitSpares(w.env);
    AwaitSpares(Await(w.env).0);
  }

  lemma SettleRests(w: World)
    ensures Rests(w, Settle(w))
  {
    hide UpdateRx, UpdateTx, Discarded;
    UpdateRests(w);
    UpdateRests(UpdateRx(w));
  }

  lemma InterruptRests(w: World)
    ensures Rests(w, Interrupt(w))
  {
    hide IocInter, Discarded;
    InterruptLink(w);
    CallsSpare(w.env, [], 0);
  }

  lemma RestGoes(w: World, v: World, c: Config)
    requires Rests(w, v) && Linked(w)
    ensures Goes(w, v, c) && Linked(v)
  {
    hide Discarded, ObeyAll, Logged;
  }

  lemma PopGoes(w: World, v: World, c: Config)
    requires Top(v) == Sync || Top(v) == Idle
    requires Spares(w.env, v.env) && v.port.eki == w.port.eki && ObeyAll(c, v.env.net.sent) == ObeyAll(c, w.env.net.sent)
    ensures Goes(w, Settle(Pop(v)), c)
  {
    hide Settle, Discarded, ObeyAll;
    SettleRests(Pop(v));
  }

  // ----- handlers

  lemma SyncEventGoes(w: World, c: Config)
    requires Linked(w)
    ensures var (v, ok) := SyncEvent(w);
            && Spares(w.env, v.env) && v.port.eki == w.port.eki && (!ok ==> Framed(v.env.net))
            && (ok ==> Linked(v) && ObeyAll(c, v.env.net.sent) == ObeyAll(c, w.env.net.sent))
  {
    hide Emit, Discarded, Linked, ObeyAll, Framed, Be32;
    EmitGoes(w, CMD_IOCTL, IOCTL_SET_WAIT_MASK, 0, Be32(0x38010000), c);
    var (w1, ok1) := Emit(w, CMD_IOCTL, IOCTL_SET_WAIT_MASK, 0, Be32(0x38010000));
    if ok1 {
      EmitGoes(w1, CMD_IOCTL, IOCTL_GET_MODEMSTATUS, 0, [], c);
    }
  }

  lemma SyncRecvGoes(w: World, p: Pkt, c: Config)
    requires Linked(w) && Top(w) == Sync
    ensures Goes(w, SyncRecv(w, p), c)
  {
    hide Emit, SyncEvent, Settle, Await, Excp, Goes, Linked, ObeyAll, Framed, Discarded;
    if p.p2 == IOCTL_WAIT_ON_MASK {
      SyncEventGoes(w, c);
      var (w1, ok) := SyncEvent(w);
      if ok { PopGoes(w, w1, c); } else { ExcpGoes(w, w1, c); }
    } else if p.p2 == IOCTL_SET_WAIT_MASK {
      EmitGoes(w, CMD_IOCTL, IOCTL_WAIT_ON_MASK, 0, [], c);
      var (w1, ok) := RegSyncEvent(w);
      if ok { PopGoes(w, w1, c); } else { ExcpGoes(w, w1, c); }
    } else if p.p2 == IOCTL_GET_MODEMSTATUS {
      UpdateRests(w);
      RestIsFramed(w, Sleep(w));
      PopGoes(w, Sleep(w), c);
      ExcpGoes(w, Sleep(w), c);
    } else {
      PopGoes(w, w, c);
    }
  }

  lemma RestIsFramed(w: World, v: World)
    requires Linked(w) && Rests(w, v)
    ensures Framed(v.env.net)
  {
    hide Logged, Discarded, Split;
    LinkedIsFramed(w);
  }

  lemma DataReadyGoes(w: World, p: Pkt, c: Config)
    requires Linked(w)
    ensures Goes(w, DataReady(w, p), c)
  {
    hide Await, RecvChars, Excp, Fill, Logged, ObeyAll, Discarded, Framed;
    LinkedIsFramed(w);
    ExcpGoes(w, w, c);
    if p.p1 == STATUS_SUCCESS && p.p2 == |p.ext| && Room(w.port.tx.head, w.port.tx.tail, |w.env.tx.buf|) >= |p.ext| {
      var e := w.env.(tx := w.env.tx.(buf := Fill(w.env.tx.buf, w.port.tx.tail, p.ext)));
      AwaitSpares(e);
      var (e1, io) := Await(e);
      var e2 := e1.(tx := e1.tx.MoveTail(|p.ext|), hist := e1.hist.(accepted := e1.hist.accepted + p.ext));
      CopiesSpare(e2, io.takes);
      CopyFrame(e2, io.takes);
    }
  }

  lemma StayGoes(w: World, v: World, c: Config)
    requires Linked(w) && v.env.net.sent == w.env.net.sent && v.port.eki == w.port.eki && v.port.stk == w.port.stk
    requires Spares(w.env, v.env)
    ensures Goes(w, v, c)
  {
    hide Logged, ObeyAll, Discarded, Framed;
  }

  lemma RetireGoes(w: World, c: Config)
    requires Linked(w) && !w.env.rx.clean
    ensures Goes(w, UpdateRx(w.(env := IocRxHead(w.env, w.port.pending), port := w.port.(pending := 0))), c)
  {
    hide IocRxHead, UpdateRx, Logged, Goes, Discarded;
    CallsSpare(w.env, [], w.port.pending);
    RetireSpares(w.env, w.port.pending);
    var w1 := w.(env := IocRxHead(w.env, w.port.pending), port := w.port.(pending := 0));
    UpdateRests(w1);
    StayGoes(w, UpdateRx(w1), c);
  }

  lemma WriteReplyGoes(w: World, p: Pkt, c: Config)
    requires Linked(w) && !w.env.rx.clean
    ensures Goes(w, WriteReply(w, p), c)
  {
    hide IocRxHead, UpdateRx, Excp, Logged, Goes, Discarded, Framed;
    LinkedIsFramed(w);
    ExcpGoes(w, w, c);
    RetireGoes(w, c);
    StayGoes(w, w.(port := w.port.(pending := 0)), c);
  }

  lemma RecvGoes(w: World, p: Pkt, c: Config)
    requires Linked(w) && Top(w) != Sync && !w.env.rx.clean
    ensures Goes(w, Recv(w, p), c)
  {
    hide SyncRecv, DataReady, WriteReply, Settle, Excp, Logged, ObeyAll, Discarded, Framed;
    LinkedIsFramed(w);
    ExcpGoes(w, w, c);
    if Top(w) == Idle {
      PopGoes(w, w.(env := w.env.(net := Discard(w.env.net, p))), c);
    } else if p.cmd == CMD_IOCTL {
      SyncRecvGoes(Push(w, Sync), p, c);
    } else if p.cmd == CMD_DATAREADY {
      DataReadyGoes(w, p, c);
    } else if p.cmd == CMD_WRITE {
      WriteReplyGoes(w, p, c);
    }
  }

  lemma GoesVia(w: World, u: World, v: World, c: Config)
    requires Spares(w.env, u.env) && u.port.eki == w.port.eki && u.env.net.sent == w.env.net.sent && Goes(u, v, c)
    ensures Goes(w, v, c)
  {
    hide Discarded, ObeyAll, Framed;
  }

  lemma RecvPayloadGoes(w: World, p: Pkt, r: Reading, c: Config)
    requires Linked(w) && Top(w) != Sync && !w.env.rx.clean
    ensures Goes(w, RecvPayload(w, p, r), c)
  {
    hide Recv, Sleep, Excp, Goes, Logged, Discarded, Framed;
    LinkedIsFramed(w);
    ExcpGoes(w, w, c);
    UpdateRests(w);
    RestIsFramed(w, Sleep(w));
    ExcpGoes(w, Sleep(w), c);
    RecvGoes(Sleep(w), p, c);
    GoesVia(w, Sleep(w), Recv(Sleep(w), p), c);
  }

  lemma ReadGoes(w: World, v: World, p: Pkt, r: Reading, c: Config)
    requires Linked(w) && Top(w) != Sync && !w.env.rx.clean && Rests(w, v)
    ensures Goes(w, RecvPayload(v, p, r), c)
  {
    hide RecvPayload, Goes, Logged, Discarded;
    RecvPayloadGoes(v, p, r, c);
    GoesVia(w, v, RecvPayload(v, p, r), c);
  }

  lemma RecvDespGoes(w: World, r: Reading, c: Config)
    requires Linked(w) && Top(w) != Sync && !w.env.rx.clean
    ensures Goes(w, RecvDesp(w, r), c)
  {
    hide RecvPayload, UpdateTx, Excp, Goes, Logged, Discarded, Framed;
    LinkedIsFramed(w);
    ExcpGoes(w, w, c);
    if r != Closed && r != ShortHeader && w.env.net.down != [] {
      var p := w.env.net.down[0];
      var w1 := w.(env := w.env.(net := w.env.net.(down := w.env.net.down[1..])));
      UpdateRests(w1);
      ReadGoes(w, if p.cmd == CMD_DATAREADY then UpdateTx(w1) else w1, p, r, c);
    }
  }

  lemma HearGoes(w: World, wake: Wake, c: Config)
    requires Linked(w) && Top(w) != Sync && !w.env.rx.clean && wake.Ready?
    ensures Goes(w, Hear(w, wake), c)
  {
    hide RecvDesp, Logged, ObeyAll, Discarded, Split;
    LinkedIsFramed(w);
    if wake.sk {
      RecvDespGoes(w.(lrecv := 0), wake.reading, c);
    }
  }

  lemma XmitGoes(w: World, c: Config)
    requires Linked(w)
    ensures Goes(w, CommonXmit(w), c)
  {
    hide Emit, Excp, SnapContents, Logged, ObeyAll, Discarded, Framed;
    var len := Min(XMIT_LEN, |SnapContents(w)|);
    EmitGoes(w, CMD_WRITE, len, 0, SnapContents(w)[..len], c);
    var (v, ok) := Emit(w, CMD_WRITE, len, 0, SnapContents(w)[..len]);
    if !ok {
      ExcpGoes(w, v, c);
    }
  }

  lemma SwapGoes(w: World, credit: u32, s: St, c: Config)
    requires Linked(w) && |w.port.stk| == 2 && Works(s)
    ensures var (v, ok) := Emit(w, CMD_QUEUEFREE, 0, credit, []);
            Goes(w, if ok then Settle(Rpls(v, s)) else Excp(v), c)
  {
    hide Emit, Settle, Excp, Logged, ObeyAll, Discarded, Framed;
    EmitGoes(w, CMD_QUEUEFREE, 0, credit, [], c);
    var v := Emit(w, CMD_QUEUEFREE, 0, credit, []).0;
    SettleRests(Rpls(v, s));
    if !Emit(w, CMD_QUEUEFREE, 0, credit, []).1 {
      ExcpGoes(w, v, c);
    }
  }

  lemma PauseGoes(w: World, c: Config)
    requires Linked(w)
    ensures Goes(w, PauseOp(w), c)
  {
    hide Emit, Settle, Excp, Goes, Logged, Discarded;
    StayGoes(w, w, c);
    if Top(w) == NetUp {
      SwapGoes(w, 0, Pause, c);
    }
  }

  lemma EventGoes(w: World, c: Config)
    requires Linked(w)
    ensures Goes(w, Event(w).0, c) && Goes(w, Sleep(w), c) && Goes(w, Excp(Sleep(w)), c)
  {
    hide Await, Excp, Goes, Logged, Discarded, Framed;
    StayGoes(w, w, c);
    UpdateRests(w);
    RestGoes(w, Sleep(w), c);
    RestIsFramed(w, Sleep(w));
    ExcpGoes(w, Sleep(w), c);
  }

  lemma ResumeGoes(w: World, c: Config)
    requires Linked(w)
    ensures Goes(w, Resume(w), c)
  {
    hide Emit, Await, Settle, Excp, Goes, Logged, Discarded, Framed;
    StayGoes(w, w, c);
    if Top(w) == Pause {
      EventGoes(w, c);
      UpdateRests(w);
      SwapGoes(Sleep(w), 1024, NetUp, c);
      var (v, ok) := Emit(Sleep(w), CMD_QUEUEFREE, 0, 1024, []);
      GoesVia(w, Sleep(w), if ok then Settle(Rpls(v, NetUp)) else Excp(v), c);
    }
  }

  lemma PollGoes(w: World, c: Config)
    requires Linked(w)
    ensures Goes(w, Poll(w), c)
  {
    hide Emit, Excp, Logged, ObeyAll, Discarded, Framed;
    LinkedIsFramed(w);
    ExcpGoes(w, w, c);
    if Works(Top(w)) {
      EmitGoes(Push(w, Idle), CMD_IOCTL, IOCTL_GET_WAIT_MASK, 0, [], c);
      var (v, ok) := Emit(Push(w, Idle), CMD_IOCTL, IOCTL_GET_WAIT_MASK, 0, []);
      if !ok {
        ExcpGoes(w, v, c);
      }
    }
  }

  // ----- reconciliation

  /**
   The device, with `c` at first, has the settings of the mirror, but for those the mirror leaves undefined, and but for the
   baud rate of a mirror in which it is 0: the device may then be without a baud rate from the daemon.
   */
  predicate Mirrored(w: World, c: Config) {
    var (d, eki) := (ObeyAll(c, w.env.net.sent), w.port.eki);
    && (d.baud == ToU32(eki.baud) || (eki.baud == 0 && d.baud == c.baud))
    && (eki.pair != PAIR_UNDEF ==> d.line == Line(eki))
    && (eki.flowctl != FLOW_UNDEF ==> d.flow == FlowWords(eki.flowctl))
    && d.rts == Rts(eki.ms) && d.dtr == Dtr(eki.ms)
  }

  predicate Defined(eki: Info) { eki.pair != PAIR_UNDEF && eki.flowctl != FLOW_UNDEF }

  lemma ReconcileMirrors(w: World, c: Config)
    requires Linked(w) && Mirrored(w, c) && CommonIoctl(w).port.sk >= 0
    ensures var v := CommonIoctl(w); Mirrored(v, c) && Defined(v.port.eki)
  {
    hide CommonIoctl, ObeyAll, Rts, Dtr, ToU32, Line, FlowWords, Logged, Matches, MirrorIsTrue;
    var ps := ReconciliationConverges(w, ObeyAll(c, w.env.net.sent));
    ObeyMore(c, w.env.net.sent, ps);
    SameSettings(w.port.eki, Attr(w));
  }

  /** Settings that agree are told to the device in the same way. */
  lemma SameSettings(eki: Info, a: PortInfo)
    ensures SameLine(eki, a) ==> Line(eki) == Line(a) && eki.pair != PAIR_UNDEF
    ensures Defined(a) && Line(a.(isOpen := eki.isOpen)) == Line(a)
  {
  }

  predicate IsRts(p: Pkt) { p.p1 == IOCTL_SET_RTS || p.p1 == IOCTL_CLR_RTS }

  /** The packets sent, or these and the first of the two that set the modem lines, whose send was cut. */
  predicate FramedButOne(n: Net) {
    var s := Split(n.wire);
    || Framed(n)
    || (|s| == |n.sent| + 1 && s[..|n.sent|] == Packed(n.sent) && IsRts(s[|n.sent|]))
  }

  lemma LinesAreFramed(w: World)
    requires Linked(w)
    ensures var (v, ok) := IoctlMs(w);
            Spares(w.env, v.env) && (!ok ==> FramedButOne(v.env.net))
  {
    hide Await, Encode, EncodeAll, Split, Numbered, Rts, Dtr, Discarded, MsPkts;
    var ps := MsPkts(w.port.tid, w.port.eki.ms, Attr(w).ms);
    CallsSpare(w.env, ps, 0);
    if ps != [] && !IoctlMs(w).1 {
      var (sent, qs) := (Packed(w.env.net.sent), Packed(ps));
      SomethingEncoded(qs);
      var k := Cut(Await(w.env).1.cut, |EncodeAll(qs)|);
      SplitTorn(qs, k);
      var torn := EncodeAll(qs)[..k];
      SplitEncodeAll(sent, torn);
      LinesSent(w.port.tid, w.port.eki.ms, Attr(w).ms, Split(torn));
      assert sent + [] == sent;
    }
  }

  lemma SomethingEncoded(qs: seq<Pkt>)
    requires qs != []
    ensures |EncodeAll(qs)| > 0
  {
  }

  lemma LinesSent(tid: nat, from: u32, to: u32, qs: seq<Pkt>)
    requires qs < Packed(MsPkts(tid, from, to))
    ensures qs == [] || (|qs| == 1 && IsRts(qs[0]))
  {
    hide Rts, Dtr;
  }

  lemma StagesEnd(w: World)
    requires Linked(w)
    ensures Spares(w.env, IoctlBaud(w).0.env) && (!IoctlBaud(w).1 ==> Framed(IoctlBaud(w).0.env.net))
    ensures Spares(w.env, IoctlLine(w).0.env) && (!IoctlLine(w).1 ==> Framed(IoctlLine(w).0.env.net))
    ensures Spares(w.env, IoctlFlow(w).0.env) && (!IoctlFlow(w).1 ==> Framed(IoctlFlow(w).0.env.net))
  {
    hide Emit, Logged, Discarded, Framed, Le32, ToU32, FlowWords, FlowExt, LineExt, ToByte, Junk;
    var (a, e) := (Attr(w), w.port.eki);
    EmitEnds(w.(port := w.port.(eki := e.(baud := a.baud))), CMD_IOCTL, IOCTL_SET_BAUD_RATE, 0, Le32(ToU32(a.baud)));
    EmitEnds(w.(port := w.port.(eki := e.(pair := a.pair, stop := a.stop, byte := a.byte))),
             CMD_IOCTL, IOCTL_SET_LINE_CONTROL, 0, LineExt(ToByte(a.pair), ToByte(a.byte), ToByte(a.stop)));
    EmitEnds(w.(port := w.port.(eki := e.(flowctl := a.flowctl))), CMD_IOCTL, IOCTL_SET_HANDFLOW, 0,
             FlowExt(FlowWords(a.flowctl).0, FlowWords(a.flowctl).1, Junk(w.env)));
  }

  lemma IoctlEnds(w: World)
    requires Up(w)
    ensures var v := CommonIoctl(w);
            && Spares(w.env, v.env) && (v.port.stk == [NetDown] ==> FramedButOne(v.env.net))
            && (v.port.stk == [NetDown] || v.port.sk >= 0)
  {
    hide IoctlBaud, IoctlLine, IoctlFlow, IoctlMs, Logged, LastCredit, WellFormed, Discarded, Split;
    IoctlStages(w);
    StagesEnd(w);
    var (w1, ok1) := IoctlBaud(w);
    if ok1 {
      IoctlStages(w1);
      StagesEnd(w1);
      var (w2, ok2) := IoctlLine(w1);
      if ok2 {
        IoctlStages(w2);
        StagesEnd(w2);
        var (w3, ok3) := IoctlFlow(w2);
        if ok3 {
          IoctlMsStage(w3);
          LinesAreFramed(w3);
        }
      }
    }
  }

  // ----- opening

  /** An attempt to connect fails, and its bytes are framed or there was no connection, or it leaves one. */
  predicate Opens(w: World, v: World) {
    && Spares(w.env, v.env)
    && (v.port.stk == [NetDown] ==>
          Framed(v.env.net) || (v.env.net.wire == w.env.net.wire && v.env.net.sent == w.env.net.sent))
  }

  lemma ExcpOpens(w: World, v: World)
    requires Spares(w.env, v.env) && Framed(v.env.net)
    ensures Opens(w, Excp(v))
  {
    hide Discarded, Split;
  }

  lemma OpensVia(w: World, u: World, v: World)
    requires Spares(w.env, u.env) && Linked(u) && Opens(u, v)
    ensures Opens(w, v)
  {
    hide Discarded, Split, Numbered, EncodeAll;
    LinkedIsFramed(u);
  }

  lemma SyncRestOpens(w: World)
    requires Linked(w) && Top(w) == Sync
    ensures Opens(w, SyncRest(w))
  {
    hide Emit, SyncEvent, Settle, Excp, Logged, ObeyAll, Discarded, Framed, Fits, InRange;
    var c := Config(0, [], (0, 0), false, false);
    SyncEventGoes(w, c);
    var (w1, ok1) := SyncEvent(w);
    if ok1 {
      var credit := if w1.port.tx.head == w1.port.tx.tail then 1024 else 0;
      EmitGoes(w1, CMD_QUEUEFREE, 0, credit, [], c);
      var (w2, ok2) := Emit(w1, CMD_QUEUEFREE, 0, credit, []);
      if ok2 {
        SettleRests(Pop(w2));
        SettlePopStack(w2);
      } else {
        ExcpOpens(w, w2);
      }
    } else {
      ExcpOpens(w, w1);
    }
  }

  lemma SyncInitOpens(w: World)
    requires Linked(w) && Top(w) == Sync
    ensures Opens(w, SyncInit(w))
  {
    hide Emit, SyncRest, Excp, Logged, LastCredit, Rts, Dtr, Discarded, Framed, Shaped;
    var ms := Attr(w).ms;
    var rts := if Rts(ms) then IOCTL_SET_RTS else IOCTL_CLR_RTS;
    var dtr := if Dtr(ms) then IOCTL_SET_DTR else IOCTL_CLR_DTR;
    EmitEnds(w, CMD_IOCTL, rts, 0, []);
    LogOne(w, CMD_IOCTL, rts, 0, []);
    var (w1, ok1) := Emit(w, CMD_IOCTL, rts, 0, []);
    if ok1 {
      EmitEnds(w1, CMD_IOCTL, dtr, 0, []);
      LogOne(w1, CMD_IOCTL, dtr, 0, []);
      var (w2, ok2) := Emit(w1, CMD_IOCTL, dtr, 0, []);
      if ok2 {
        var w3 := w2.(port := w2.port.(eki := w2.port.eki.(ms := ms)));
        SyncRestOpens(w3);
        OpensVia(w, w3, SyncRest(w3));
      } else {
        ExcpOpens(w, w2);
      }
    } else {
      ExcpOpens(w, w1);
    }
  }

  /** CREATE has gone out, the first packet of its connection. */
  lemma CreateLinks(w: World, v: World)
    requires v.env.net.sent == [Sent(0, CreatePkt(w))] && v.env.net.wire == EncodeAll(Packed(v.env.net.sent))
    requires v.port.tid == 1 && v.port.sk >= 0 && |v.port.stk| >= 2 && v.port.eki.isOpen && CreatePkt(v) == CreatePkt(w)
    ensures Linked(v)
  {
    hide EncodeAll;
  }

  lemma CreateEnds(e: Env, create: Sent)
    requires e.net.sent == [] && e.net.wire == []
    ensures var (f, ok) := Send(e, [create]);
            && Spares(e, f) && (!ok ==> Framed(f.net))
            && (ok ==> f.net.sent == [create] && f.net.wire == EncodeAll(Packed(f.net.sent)))
  {
    hide Await, EncodeAll, Discarded, Split;
    CallsSpare(e, [create], 0);
    NothingEncoded();
    CutIsFramed(e, create);
    assert [] + [create] == [create];
  }

  lemma CommonOpenOpens(w: World)
    requires |w.port.stk| == 2 && w.port.sk >= 0 && w.port.tid == 0 && w.env.net.sent == [] && w.env.net.wire == []
    ensures Opens(w, CommonOpen(w))
  {
    hide SyncInit, Send, EncodeAll, Excp, Discarded, Framed, Linked, Opens;
    var create := Sent(0, CreatePkt(w));
    CreateEnds(w.env, create);
    var (e, ok) := Send(w.env, [create]);
    if ok {
      var w1 := Push(w.(env := e, port := w.port.(tid := 1, eki := w.port.eki.(isOpen := true))), Sync);
      CreateLinks(w, w1);
      SyncInitOpens(w1);
      OpensVia(w, w1, SyncInit(w1));
    } else {
      ExcpOpens(w, w.(env := e));
    }
  }

  lemma NothingEncoded()
    ensures EncodeAll(Packed([])) == []
  {
  }

  lemma NetDownOpenOpens(w: World)
    requires Down(w)
    ensures Opens(w, NetDownOpen(w))
  {
    hide CommonOpen, Await, Discarded, Split;
    CallsSpare(w.env, [], 0);
    var (e, sk) := Connect(w.env);
    if sk >= 0 {
      var w1 := w.(env := e, port := w.port.(sk := sk));
      var w2 := Push(w1, if w1.port.tx.head == w1.port.tx.tail then NetUp else Pause);
      NothingEncoded();
      NothingToSplit();
      assert Framed(w2.env.net);
      CommonOpenOpens(w2);
    }
  }

  /** What a new connection knows of the settings. */
  lemma NewIsMirrored(w: World, c: Config)
    requires Down(w) && |NetDownOpen(w).port.stk| >= 2
    ensures var v := NetDownOpen(w); Mirrored(v, c) && Works(Top(v))
  {
    hide NetDownOpen, ObeyAll, Rts, Dtr, ToU32, Line, FlowWords, Logged, LastCredit;
    OpenObeyed(w, c);
    NetDownOpenGood(w);
    NetDownOpenFollows(w);
  }

  // ----- closing

  /** A close flushes all that either ring holds at that moment. */
  lemma CloseDiscards(w: World) returns (up: seq<byte>, down: seq<byte>)
    requires Up(w) && Conserved(w.env)
    ensures var v := Close(w);
            && Discarded(v.env.hist.upGone) == Discarded(w.env.hist.upGone) + up && w.env.rx.Contents() <= up
            && Discarded(v.env.hist.downGone) == Discarded(w.env.hist.downGone) + down && |down| <= w.env.tx.Len()
            && down == w.env.tx.Contents()[w.env.tx.Len() - |down|..] && Drained(v.env)
  {
    hide BufClear, Emit, Excp, Logged, LastCredit, Discarded, Conserved, Span, Le32;
    up, down := ClearDiscards(w);
    CloseLeavesStale(w);
    var w1 := BufClear(w);
    EmitSpares(w1, CMD_IOCTL, IOCTL_PURGE, 0, Le32(0x0000000f));
    EmitSpares(Purge(w1), CMD_CLOSE, 0, 0, []);
    ExcpIsDown(Emit(Purge(w1), CMD_CLOSE, 0, 0, []).0);
  }

  /** Closing without a connection, which the main loop never asks for, would flush the rings all the same, and send nothing. */
  lemma CloseDownDiscards(w: World) returns (up: seq<byte>, down: seq<byte>)
    requires Down(w) && Conserved(w.env)
    ensures var v := Close(w);
            && v.port.stk == [NetDown] && v.env.net.sent == w.env.net.sent
            && Discarded(v.env.hist.upGone) == Discarded(w.env.hist.upGone) + up && w.env.rx.Contents() <= up
            && Discarded(v.env.hist.downGone) == Discarded(w.env.hist.downGone) + down && |down| <= w.env.tx.Len()
            && down == w.env.tx.Contents()[w.env.tx.Len() - |down|..]
  {
    hide BufClear, Discarded, Conserved, Span;
    up, down := ClearDiscards(w);
    ClearKeepsLink(w);
    ClearSparesPort(w);
  }

  lemma EmitSpares(w: World, cmd: u16, p1: u32, p2: u32, ext: Ext)
    ensures Spares(w.env, Emit(w, cmd, p1, p2, ext).0.env)
  {
    hide Send, Discarded;
    CallsSpare(w.env, [Sent(w.port.tid, Pkt(MAGIC, w.port.tid % TID_MOD, cmd, p1, p2, ext))], 0);
  }

  lemma ClearDiscards(w: World) returns (up: seq<byte>, down: seq<byte>)
    requires Conserved(w.env)
    ensures var e := BufClear(w).env;
            && Discarded(e.hist.upGone) == Discarded(w.env.hist.upGone) + up && w.env.rx.Contents() <= up
            && Discarded(e.hist.downGone) == Discarded(w.env.hist.downGone) + down && |down| <= w.env.tx.Len()
            && down == w.env.tx.Contents()[w.env.tx.Len() - |down|..]
  {
    hide Await, Discarded, Conserved, Span, Mark, UpdateRx, Accounted, Bounded;
    AwaitBase(w.env, false);
    AwaitSpares(w.env);
    var ea := Await(w.env).0;
    down := ea.tx.Contents();
    DiscardedMark(ea.hist.downGone, down, false);
    MarkedBase(w.env, false);
    var e1 := IocClear(w.env);
    AwaitBase(e1, false);
    AwaitSpares(e1);
    var eb := Await(e1).0;
    up := eb.rx.Contents();
    DiscardedMark(eb.hist.upGone, up, false);
    var w2 := w.(env := IocRxHead(e1, 0));
    UpdateRests(w2);
    UpdateRests(UpdateRx(w2));
    assert e1.rx.Contents() == ea.rx.Contents();
    assert w.env.rx.Contents() <= ea.rx.Contents() <= up;
  }

  lemma ClearIsLinked(w: World)
    requires Linked(w)
    ensures Linked(BufClear(w)) && BufClear(w).env.net.wire == w.env.net.wire
  {
    hide Logged, BufClear;
    ClearKeepsLink(w);
    ClearSparesPort(w);
  }

  lemma ClearSparesPort(w: World)
    ensures BufClear(w).port == w.port.(rx := BufClear(w).port.rx)
  {
  }

  /** PURGE, sent by a close in `w`, goes out whole or not at all. */
  predicate PurgeIsClean(w: World) { AfterPurge(w).1 || AfterPurge(w).0.env.net.wire == w.env.net.wire }

  /** Too few bytes for the packet that they begin. */
  predicate Short(b: seq<byte>) { |b| < HDR_LEN || |b| < HDR_LEN + LenField(b) }

  /**
   How `n`, which a close in `w` leaves, is framed. With a complete CLOSE: if and only if PURGE went out whole or not at all.
   With both cut: if and only if their parts together are too short for a packet.
   */
  predicate CloseFrames(w: World, n: Net) {
    && (PurgeIsClean(w) || n.wire == AfterPurge(w).0.env.net.wire ==> Framed(n))
    && (AfterClose(w).1 ==> (Framed(n) <==> PurgeIsClean(w)))
    && (!AfterPurge(w).1 && !AfterClose(w).1 ==> w.env.net.wire <= n.wire && (Framed(n) <==> Short(n.wire[|w.env.net.wire|..])))
  }

  lemma ShortSplits(b: seq<byte>)
    ensures Split(b) == [] <==> Short(b)
  {
    hide Decode, LenField;
  }

  lemma TailFrames(w: World, n: Net, tail: seq<byte>)
    requires Linked(w) && n.sent == w.env.net.sent && n.wire == w.env.net.wire + tail
    ensures Framed(n) <==> Short(tail)
  {
    hide Split, EncodeAll, Short, Numbered;
    SameStart(Packed(n.sent), tail, []);
    ShortSplits(tail);
    assert Packed(n.sent) + [] == Packed(n.sent);
  }

  /** Both sends of a close are cut: what they leave behind the last whole packet. */
  lemma BothCut(w: World)
    requires Up(w) && !AfterPurge(w).1 && !AfterClose(w).1
    ensures var n := Close(w).env.net;
            w.env.net.wire <= n.wire && (Framed(n) <==> Short(n.wire[|w.env.net.wire|..]))
  {
    hide BufClear, Emit, Encode, EncodeAll, Logged, LastCredit, Split, Short, Le32;
    ClosedFraming(w);
    ClearKeepsLink(w);
    var purge, k := EmitWire(BufClear(w), CMD_IOCTL, IOCTL_PURGE, 0, Le32(0x0000000f));
    var close, j := EmitWire(AfterPurge(w).0, CMD_CLOSE, 0, 0, []);
    CutIsSame(BufClear(w), CMD_IOCTL, IOCTL_PURGE, 0, Le32(0x0000000f));
    CutIsSame(AfterPurge(w).0, CMD_CLOSE, 0, 0, []);
    var tail := Encode(purge)[..k] + Encode(close)[..j];
    Assoc(w.env.net.wire, Encode(purge)[..k], Encode(close)[..j]);
    TailFrames(w, Close(w).env.net, tail);
    assert (w.env.net.wire + tail)[|w.env.net.wire|..] == tail;
  }

  lemma CloseEnds(w: World)
    requires Up(w)
    ensures CloseFrames(w, Close(w).env.net)
  {
    hide BufClear, Emit, Encode, EncodeAll, Logged, LastCredit, Split, Short, Le32, Discarded;
    ClosedFraming(w);
    var w0 := BufClear(w);
    ClearIsLinked(w);
    EmitEnds(w0, CMD_IOCTL, IOCTL_PURGE, 0, Le32(0x0000000f));
    LogOne(w0, CMD_IOCTL, IOCTL_PURGE, 0, Le32(0x0000000f));
    CutIsSame(w0, CMD_IOCTL, IOCTL_PURGE, 0, Le32(0x0000000f));
    var (w1, ok) := AfterPurge(w);
    if ok || w1.env.net.wire == w.env.net.wire {
      CloseIsFramed(w1);
    } else {
      CutIsSame(w1, CMD_CLOSE, 0, 0, []);
    }
    if !ok && !AfterClose(w).1 {
      BothCut(w);
    }
  }

  lemma CloseIsFramed(w: World)
    requires Linked(w)
    ensures Framed(Emit(w, CMD_CLOSE, 0, 0, []).0.env.net)
  {
    hide Emit, Logged, Split, Discarded;
    EmitEnds(w, CMD_CLOSE, 0, 0, []);
    LogOne(w, CMD_CLOSE, 0, 0, []);
    if Emit(w, CMD_CLOSE, 0, 0, []).1 {
      LinkedIsFramed(Emit(w, CMD_CLOSE, 0, 0, []).0);
    }
  }

  /** A send of which nothing goes out fails, and leaves the connection as it was. */
  lemma CutIsSame(w: World, cmd: u16, p1: u32, p2: u32, ext: Ext)
    ensures var (v, ok) := Emit(w, cmd, p1, p2, ext);
            && (!ok ==> v.env.net.sent == w.env.net.sent && v.port == w.port)
            && (v.env.net.wire == w.env.net.wire ==> !ok && (Linked(w) ==> Linked(v)))
  {
    hide Encode, Emit, Numbered, EncodeAll;
    var p, k := EmitWire(w, cmd, p1, p2, ext);
    EncodeLength(p);
    EmitFrame(w, cmd, p1, p2, ext);
  }

  lemma EmitFrame(w: World, cmd: u16, p1: u32, p2: u32, ext: Ext)
    ensures var (v, ok) := Emit(w, cmd, p1, p2, ext);
            !ok ==> v.env.net.sent == w.env.net.sent && v.port == w.port
  {
  }
}
