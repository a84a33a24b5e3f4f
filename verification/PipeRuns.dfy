/**
 The byte pipes in every run of the daemon. `honest` says whether the device answers each request at most once and sends
 no other answers; conservation does not need it, agreement with the device does.
 */
module PipeRuns {
  import opened Words
  import opened Packets
  import opened Rings
  import opened Attributes
  import opened Worlds
  import opened Handlers
  import opened Pipes
  import opened Control

  /** The daemon's uplink snapshot is a prefix of the ring, and no flush is pending. */
  predicate SnapOk(w: World) {
    && w.port.rx.head == w.env.rx.head && !w.env.rx.clean
    && Length(w.port.rx.head, w.port.rx.tail, |w.env.rx.buf|) <= w.env.rx.Len()
  }

  /** The daemon's downlink snapshot never overstates the room: its tail is right, its head may lag. */
  predicate TxFresh(w: World) {
    && w.port.tx.tail == w.env.tx.tail
    && w.env.tx.Len() <= Length(w.port.tx.head, w.port.tx.tail, |w.env.tx.buf|)
  }

  predicate Solid(w: World, honest: bool) { Base(w.env, honest) && SnapOk(w) }

  predicate Live(w: World, k: nat, c: nat, honest: bool) { Flow(w.env, k, c, honest) && SnapOk(w) }

  /** What holds whenever the main loop could be here. */
  predicate Sound(w: World, honest: bool) {
    Solid(w, honest) && (w.port.sk >= 0 ==> Live(w, w.port.pending, 1, honest)) && (w.port.sk < 0 ==> w.port.pending == 0)
  }

  lemma AwaitSnap(w: World, honest: bool)
    requires Solid(w, honest)
    ensures Solid(Sleep(w), honest) && w.env.rx.Len() <= Sleep(w).env.rx.Len()
    ensures TxFresh(w) ==> TxFresh(Sleep(w))
  {
    hide Await, Conserved, Span;
    AwaitBase(w.env, honest);
    var e := Await(w.env).0;
    assert |w.env.rx.Contents()| <= |e.rx.Contents()|;
  }

  lemma SleepLive(w: World, k: nat, c: nat, honest: bool)
    requires Live(w, k, c, honest)
    ensures Live(Sleep(w), k, c, honest)
  {
    hide Await, Conserved, Span, StopAndWait, Registrations, Length;
    AwaitSnap(w, honest);
    AwaitFlow(w.env, k, c, honest);
  }

  /** Refreshing the uplink snapshot: sound whatever the driver adds between the two reads. */
  lemma UpdateRxLive(w: World, k: nat, c: nat, honest: bool)
    requires Flow(w.env, k, c, honest) && !w.env.rx.clean
    ensures Live(UpdateRx(w), k, c, honest)
  {
    hide Await, Conserved, Span, StopAndWait, Registrations;
    AwaitFlow(w.env, k, c, honest);
    AwaitFlow(Await(w.env).0, k, c, honest);
  }

  lemma UpdateRxSolid(w: World, honest: bool)
    requires Base(w.env, honest) && !w.env.rx.clean
    ensures Solid(UpdateRx(w), honest)
  {
    hide Await, Conserved, Span;
    AwaitBase(w.env, honest);
    AwaitBase(Await(w.env).0, honest);
  }

  lemma UpdateTxSolid(w: World, honest: bool)
    requires Solid(w, honest)
    ensures Solid(UpdateTx(w), honest) && TxFresh(UpdateTx(w))
  {
    hide Await, Conserved, Span;
    AwaitSnap(w, honest);
    AwaitSnap(Sleep(w), honest);
    var e1 := Await(w.env).0;
    AwaitBase(w.env, honest);
    AwaitBase(e1, honest);
  }

  lemma UpdateTxLive(w: World, k: nat, c: nat, honest: bool)
    requires Live(w, k, c, honest)
    ensures Live(UpdateTx(w), k, c, honest)
  {
    hide Await, Conserved, Span, StopAndWait, Registrations, Length;
    SleepLive(w, k, c, honest);
    SleepLive(Sleep(w), k, c, honest);
  }

  lemma SettleLive(w: World, k: nat, c: nat, honest: bool)
    requires Live(w, k, c, honest)
    ensures Live(Settle(w), k, c, honest)
  {
    hide UpdateRx, UpdateTx, Conserved, Span, StopAndWait, Registrations, Length;
    UpdateRxLive(w, k, c, honest);
    UpdateTxLive(UpdateRx(w), k, c, honest);
  }

  lemma UpdateAttrSound(w: World, honest: bool)
    requires Sound(w, honest)
    ensures Sound(UpdateAttr(w), honest)
  {
    hide Await, Conserved, Span, StopAndWait, Registrations, Length;
    AwaitSnap(w, honest);
    if w.port.sk >= 0 {
      SleepLive(w, w.port.pending, 1, honest);
    }
    AttrIsIrrelevant(Await(w.env).0, w.port.pending);
  }

  lemma AttrIsIrrelevant(e: Env, k: nat)
    ensures var f := e.(att := e.att.Flush()); Conserved(f) == Conserved(e) && StopAndWait(f, k) == StopAndWait(e, k)
  {
  }

  lemma EmitSolid(w: World, cmd: u16, p1: u32, p2: u32, ext: Ext, honest: bool)
    requires Solid(w, honest) && cmd != CMD_WRITE
    ensures Solid(Emit(w, cmd, p1, p2, ext).0, honest)
  {
    hide Await, Conserved, Span, EncodeAll, Length, Accounted, Bounded, Filter;
    AwaitSnap(w, honest);
    var up := Await(w.env).0.net.up;
    GhostIsIrrelevant(Await(w.env).0, Emit(w, cmd, p1, p2, ext).0.env.net);
    var p := Pkt(MAGIC, w.port.tid % TID_MOD, cmd, p1, p2, ext);
    assert Packed([Sent(w.port.tid, p)]) == [p];
    FilterAdd(up, p, IsWrite);
    assert Filter(up, IsWrite) + [] == Filter(up, IsWrite);
  }

  lemma SendSnap(w: World, ps: seq<Sent>, honest: bool)
    requires Solid(w, honest)
    ensures var e := Send(w.env, ps).0;
            e.rx.head == w.env.rx.head && e.rx.clean == w.env.rx.clean && w.env.rx.Len() <= e.rx.Len()
  {
    hide Await, Conserved, Span, EncodeAll, Length;
    AwaitSnap(w, honest);
  }

  lemma EmitLive(w: World, cmd: u16, p1: u32, p2: u32, ext: Ext, k: nat, c: nat, honest: bool)
    requires Live(w, k, c, honest) && cmd != CMD_WRITE
    requires cmd == CMD_IOCTL ==> p1 != IOCTL_SET_WAIT_MASK && p1 != IOCTL_WAIT_ON_MASK
    ensures Live(Emit(w, cmd, p1, p2, ext).0, k, c, honest)
  {
    hide Send, Conserved, Span, StopAndWait, Registrations, Length;
    var ps := [Sent(w.port.tid, Pkt(MAGIC, w.port.tid % TID_MOD, cmd, p1, p2, ext))];
    SendFlow(w.env, ps, k, c, honest);
    SendSnap(w, ps, honest);
  }

  lemma EmitRegistration(w: World, p1: u32, ext: Ext, k: nat, c: nat, honest: bool)
    requires Live(w, k, c, honest) && (p1 == IOCTL_SET_WAIT_MASK || p1 == IOCTL_WAIT_ON_MASK)
    ensures var (w1, ok) := Emit(w, CMD_IOCTL, p1, 0, ext);
            Live(w1, k, if ok then c + 1 else c, honest)
  {
    hide Send, Conserved, Span, StopAndWait, Registrations, Length;
    var p := Sent(w.port.tid, Pkt(MAGIC, w.port.tid % TID_MOD, CMD_IOCTL, p1, 0, ext));
    SendRegistration(w.env, p, k, c, honest);
    SendSnap(w, [p], honest);
  }

  lemma ExcpSound(w: World, honest: bool)
    requires Solid(w, honest)
    ensures Sound(Excp(w), honest)
  {
    hide Conserved, Span, Length;
  }

  // ----- the handlers

  lemma SyncEventLive(w: World, k: nat, honest: bool)
    requires Live(w, k, 0, honest)
    ensures Solid(SyncEvent(w).0, honest) && (SyncEvent(w).1 ==> Live(SyncEvent(w).0, k, 1, honest))
  {
    hide Emit, Conserved, StopAndWait, Registrations, SnapOk;
    EmitRegistration(w, IOCTL_SET_WAIT_MASK, Be32(0x38010000), k, 0, honest);
    var (w1, ok) := Emit(w, CMD_IOCTL, IOCTL_SET_WAIT_MASK, 0, Be32(0x38010000));
    if ok {
      EmitLive(w1, CMD_IOCTL, IOCTL_GET_MODEMSTATUS, 0, [], k, 1, honest);
    }
  }

  lemma SettlePopSound(w: World, honest: bool)
    requires |w.port.stk| >= 2 && Live(w, w.port.pending, 1, honest) && w.port.sk >= 0
    ensures Sound(Settle(Pop(w)), honest)
  {
    hide UpdateRx, UpdateTx, Conserved, StopAndWait, Registrations, Length;
    SettleLive(Pop(w), w.port.pending, 1, honest);
    SettlePort(Pop(w));
  }

  lemma SettlePort(w: World)
    ensures Settle(w).port.pending == w.port.pending && Settle(w).port.sk == w.port.sk
  {
  }

  lemma SyncRestSound(w: World, honest: bool)
    requires Top(w) == Sync && w.port.sk >= 0 && Live(w, w.port.pending, 0, honest)
    ensures Sound(SyncRest(w), honest)
  {
    hide Emit, Excp, Settle, Conserved, StopAndWait, Registrations, SnapOk;
    SyncEventLive(w, w.port.pending, honest);
    SyncPort(w);
    var (w1, ok1) := SyncEvent(w);
    ExcpSound(w1, honest);
    if ok1 {
      var credit := if w1.port.tx.head == w1.port.tx.tail then 1024 else 0;
      EmitLive(w1, CMD_QUEUEFREE, 0, credit, [], w.port.pending, 1, honest);
      SyncPort(w1);
      var (w2, ok2) := SyncQueue(w1);
      ExcpSound(w2, honest);
      if ok2 {
        SettlePopSound(w2, honest);
      }
    }
  }

  lemma SyncPort(w: World)
    ensures SyncEvent(w).0.port.(tid := 0) == SyncQueue(w).0.port.(tid := 0) == RegSyncEvent(w).0.port.(tid := 0)
         == w.port.(tid := 0)
  {
    hide Send;
  }

  lemma SyncInitSound(w: World, honest: bool)
    requires Top(w) == Sync && w.port.sk >= 0 && Live(w, w.port.pending, 0, honest)
    ensures Sound(SyncInit(w), honest)
  {
    hide Emit, Excp, SyncRest, Conserved, StopAndWait, Registrations, SnapOk, Rts, Dtr;
    var ms := Attr(w).ms;
    var k := w.port.pending;
    var rts := if Rts(ms) then IOCTL_SET_RTS else IOCTL_CLR_RTS;
    EmitLive(w, CMD_IOCTL, rts, 0, [], k, 0, honest);
    var (w1, ok1) := Emit(w, CMD_IOCTL, rts, 0, []);
    ExcpSound(w1, honest);
    if ok1 {
      EmitLive(w1, CMD_IOCTL, if Dtr(ms) then IOCTL_SET_DTR else IOCTL_CLR_DTR, 0, [], k, 0, honest);
      var (w2, ok2) := SyncMs(w, ms);
      ExcpSound(w2, honest);
      if ok2 {
        var w3 := w2.(port := w2.port.(eki := w2.port.eki.(ms := ms)));
        SnapPort(w2, w3);
        SyncRestSound(w3, honest);
      }
    }
  }

  lemma SnapPort(w: World, v: World)
    requires v.env == w.env && v.port.rx == w.port.rx
    ensures SnapOk(v) == SnapOk(w)
  {
  }

  /** The answer handled here is one event registration less under way; the handler makes up for it. */
  lemma SyncRecvSound(w: World, p: Pkt, c: nat, honest: bool)
    requires Top(w) == Sync && w.port.sk >= 0 && Live(w, w.port.pending, c, honest) && p.cmd == CMD_IOCTL
    requires honest ==> c + (if IsMaskReply(p) then 1 else 0) == 1
    ensures Sound(SyncRecv(w, p), honest)
  {
    hide Emit, Await, Excp, Settle, SyncEvent, Conserved, StopAndWait, Registrations, SnapOk;
    var k := w.port.pending;
    SyncPort(w);
    if p.p2 == IOCTL_WAIT_ON_MASK {
      CountIsForHonest(w.env, k, c, 0, honest);
      SyncEventLive(w, k, honest);
      var (w1, ok) := SyncEvent(w);
      ExcpSound(w1, honest);
      if ok { SettlePopSound(w1, honest); }
    } else if p.p2 == IOCTL_SET_WAIT_MASK {
      CountIsForHonest(w.env, k, c, 0, honest);
      EmitRegistration(w, IOCTL_WAIT_ON_MASK, [], k, 0, honest);
      var (w1, ok) := RegSyncEvent(w);
      ExcpSound(w1, honest);
      if ok { SettlePopSound(w1, honest); }
    } else {
      CountIsForHonest(w.env, k, c, 1, honest);
      if p.p2 == IOCTL_GET_MODEMSTATUS {
        SleepLive(w, k, 1, honest);
        ExcpSound(Sleep(w), honest);
        SettlePopSound(Sleep(w), honest);
      } else {
        SettlePopSound(w, honest);
      }
    }
  }

  lemma CountIsForHonest(e: Env, k: nat, c: nat, d: nat, honest: bool)
    requires Flow(e, k, c, honest) && (honest ==> c == d)
    ensures Flow(e, k, d, honest)
  {
  }

  lemma CommonOpenSound(w: World, honest: bool)
    requires |w.port.stk| == 2 && w.port.sk >= 0 && w.port.pending == 0 && Live(w, 0, 0, honest)
    ensures Sound(CommonOpen(w), honest)
  {
    hide Send, Excp, SyncInit, Conserved, StopAndWait, Registrations, Length;
    var create := [Sent(w.port.tid, OpenPkt(1, w.port.devid, w.port.port))];
    SendFlow(w.env, create, 0, 0, honest);
    SendSnap(w, create, honest);
    var (e, ok) := Send(w.env, create);
    ExcpSound(w.(env := e), honest);
    if ok {
      SyncInitSound(Push(w.(env := e, port := w.port.(tid := w.port.tid + 1, eki := w.port.eki.(isOpen := true))), Sync), honest);
    }
  }

  lemma NetDownOpenSound(w: World, honest: bool)
    requires Top(w) == NetDown && w.port.sk < 0 && Sound(w, honest)
    ensures Sound(NetDownOpen(w), honest)
  {
    hide Await, CommonOpen, Conserved, StopAndWait, Registrations, Length;
    ConnectFlow(w.env, honest);
    AwaitSnap(w, honest);
    var (e, sk) := Connect(w.env);
    if sk >= 0 {
      var w1 := w.(env := e, port := w.port.(sk := sk));
      CommonOpenSound(Push(w1, if w1.port.tx.head == w1.port.tx.tail then NetUp else Pause), honest);
    }
  }

  lemma CloseSound(w: World, honest: bool)
    requires (Works(Top(w)) || Top(w) == Idle) && Sound(w, honest)
    ensures Sound(Close(w), honest)
  {
    hide Emit, IocRxHead, IocClear, UpdateRx, Excp, Conserved, StopAndWait, Registrations, Length;
    ClearBase(w.env, honest);
    var w1 := w.(env := IocRxHead(IocClear(w.env), 0));
    UpdateRxSolid(w1, honest);
    UpdateRxSolid(UpdateRx(w1), honest);
    var w2 := BufClear(w);
    EmitSolid(w2, CMD_IOCTL, IOCTL_PURGE, 0, Le32(0x0000000f), honest);
    var w3 := Purge(w2);
    EmitSolid(w3, CMD_CLOSE, 0, 0, [], honest);
    ExcpSound(Emit(w3, CMD_CLOSE, 0, 0, []).0, honest);
  }

  /** What the daemon sends is what the device will be told is at the front of the ring. */
  lemma XmitSound(w: World, honest: bool)
    requires Sound(w, honest) && w.port.sk >= 0 && w.port.pending == 0 && w.port.rx.head != w.port.rx.tail
    ensures Sound(Xmit(w), honest)
  {
    hide Send, Excp, Conserved, StopAndWait, Registrations, Length;
    var len := Min(XMIT_LEN, |SnapContents(w)|);
    SnapPrefix(w);
    var data := SnapContents(w)[..len];
    var p := Sent(w.port.tid, Pkt(MAGIC, w.port.tid % TID_MOD, CMD_WRITE, len, 0, data));
    SendWrite(w.env, p, 1, honest);
    SendSnap(w, [p], honest);
    ExcpSound(Emit(w, CMD_WRITE, len, 0, data).0, honest);
  }

  lemma SnapPrefix(w: World)
    requires SnapOk(w)
    ensures SnapContents(w) <= w.env.rx.Contents()
    ensures w.port.rx.head != w.port.rx.tail ==> SnapContents(w) != []
  {
    SnapshotPrefix(w.env.rx.buf, w.env.rx.head, w.port.rx.tail, w.env.rx.tail);
  }

  /** A stage of `vc_common_ioctl` keeps the flows. */
  predicate StageSound(w: World, r: (World, bool), honest: bool) {
    Live(r.0, w.port.pending, 1, honest) && r.0.port.pending == w.port.pending && r.0.port.sk == w.port.sk
  }

  lemma MirrorIsIrrelevant(w: World, eki: Info, k: nat, c: nat, honest: bool)
    requires Live(w, k, c, honest)
    ensures Live(w.(port := w.port.(eki := eki)), k, c, honest)
  {
    hide Flow, Length;
  }

  lemma IoctlStagesSound(w: World, honest: bool)
    requires Live(w, w.port.pending, 1, honest)
    ensures StageSound(w, IoctlBaud(w), honest) && StageSound(w, IoctlLine(w), honest) && StageSound(w, IoctlFlow(w), honest)
  {
    hide Emit, Live, Junk, Le32, ToU32, FlowWords, FlowExt, LineExt, ToByte, InRange;
    var (a, e, k) := (Attr(w), w.port.eki, w.port.pending);
    var (e1, e2, e3) := (e.(baud := a.baud), e.(pair := a.pair, stop := a.stop, byte := a.byte), e.(flowctl := a.flowctl));
    MirrorIsIrrelevant(w, e1, k, 1, honest);
    MirrorIsIrrelevant(w, e2, k, 1, honest);
    MirrorIsIrrelevant(w, e3, k, 1, honest);
    EmitLive(w.(port := w.port.(eki := e1)), CMD_IOCTL, IOCTL_SET_BAUD_RATE, 0, Le32(ToU32(a.baud)), k, 1, honest);
    EmitLive(w.(port := w.port.(eki := e2)), CMD_IOCTL, IOCTL_SET_LINE_CONTROL, 0,
             LineExt(ToByte(a.pair), ToByte(a.byte), ToByte(a.stop)), k, 1, honest);
    EmitLive(w.(port := w.port.(eki := e3)), CMD_IOCTL, IOCTL_SET_HANDFLOW, 0,
             FlowExt(FlowWords(a.flowctl).0, FlowWords(a.flowctl).1, Junk(w.env)), k, 1, honest);
  }

  lemma IoctlMsSound(w: World, honest: bool)
    requires Live(w, w.port.pending, 1, honest)
    ensures StageSound(w, IoctlMs(w), honest)
  {
    hide Send, Conserved, StopAndWait, Registrations, Length, Rts, Dtr;
    var ps := MsPkts(w.port.tid, w.port.eki.ms, Attr(w).ms);
    SendFlow(w.env, ps, w.port.pending, 1, honest);
    SendSnap(w, ps, honest);
  }

  lemma IoctlSound(w: World, honest: bool)
    requires Sound(w, honest) && w.port.sk >= 0
    ensures Sound(Ioctl(w), honest)
  {
    hide IoctlBaud, IoctlLine, IoctlFlow, IoctlMs, Excp, Flow, Conserved, SnapOk;
    IoctlStagesSound(w, honest);
    var (w1, ok1) := IoctlBaud(w);
    StageEnds(w1, honest);
    if ok1 {
      IoctlStagesSound(w1, honest);
      var (w2, ok2) := IoctlLine(w1);
      StageEnds(w2, honest);
      if ok2 {
        IoctlStagesSound(w2, honest);
        var (w3, ok3) := IoctlFlow(w2);
        StageEnds(w3, honest);
        if ok3 {
          IoctlMsSound(w3, honest);
          StageEnds(IoctlMs(w3).0, honest);
        }
      }
    }
  }

  lemma StageEnds(w: World, honest: bool)
    requires w.port.sk >= 0 && Live(w, w.port.pending, 1, honest)
    ensures Sound(w, honest) && Sound(Excp(w), honest)
  {
    hide Conserved, SnapOk, StopAndWait, Registrations, Excp;
    ExcpSound(w, honest);
  }

  lemma CreditSwapSound(w: World, credit: u32, s: St, honest: bool)
    requires Sound(w, honest) && w.port.sk >= 0 && |w.port.stk| == 2 && Works(s)
    ensures var (w1, ok) := Emit(w, CMD_QUEUEFREE, 0, credit, []);
            Sound(Excp(w1), honest) && (ok ==> Sound(Settle(Rpls(w1, s)), honest))
  {
    hide Emit, Settle, Excp, Conserved, StopAndWait, Registrations, Length;
    EmitLive(w, CMD_QUEUEFREE, 0, credit, [], w.port.pending, 1, honest);
    var (w1, ok) := Emit(w, CMD_QUEUEFREE, 0, credit, []);
    StageEnds(w1, honest);
    if ok {
      SettleLive(Rpls(w1, s), w.port.pending, 1, honest);
      SettlePort(Rpls(w1, s));
    }
  }

  lemma PauseSound(w: World, honest: bool)
    requires Sound(w, honest) && w.port.sk >= 0
    ensures Sound(PauseOp(w), honest)
  {
    hide Emit, Settle, Excp, Live, Solid;
    if Top(w) == NetUp {
      CreditSwapSound(w, 0, Pause, honest);
    }
  }

  lemma SleepSound(w: World, honest: bool)
    requires Sound(w, honest)
    ensures Sound(Sleep(w), honest)
  {
    hide Await, Conserved, StopAndWait, Registrations, Length;
    AwaitSnap(w, honest);
    if w.port.sk >= 0 {
      SleepLive(w, w.port.pending, 1, honest);
    }
  }

  lemma ResumeSound(w: World, honest: bool)
    requires Sound(w, honest) && w.port.sk >= 0
    ensures Sound(Resume(w), honest)
  {
    hide Emit, Settle, Await, Excp, Flow, Conserved, SnapOk;
    if Top(w) == Pause {
      SleepSound(w, honest);
      StageEnds(Sleep(w), honest);
      CreditSwapSound(Sleep(w), 1024, NetUp, honest);
    }
  }

  lemma EventSound(w: World, honest: bool)
    requires Sound(w, honest) && w.port.sk >= 0
    ensures Sound(Event(w).0, honest)
  {
    hide Await, Excp, Flow, Conserved, SnapOk;
    SleepSound(w, honest);
    StageEnds(Sleep(w), honest);
  }

  lemma PollSound(w: World, honest: bool)
    requires Sound(w, honest) && w.port.sk >= 0
    ensures Sound(Poll(w), honest)
  {
    hide Emit, Excp, Flow, Conserved, Length;
    StageEnds(w, honest);
    if Top(w) == NetUp || Top(w) == Pause {
      EmitLive(Push(w, Idle), CMD_IOCTL, IOCTL_GET_WAIT_MASK, 0, [], w.port.pending, 1, honest);
      StageEnds(Emit(Push(w, Idle), CMD_IOCTL, IOCTL_GET_WAIT_MASK, 0, []).0, honest);
    }
  }

  // ----- receiving

  /** A packet just taken from the queue, and what an honest device means by it. */
  predicate Taking(w: World, p: Pkt, c: nat, honest: bool) {
    && w.port.sk >= 0 && Live(w, w.port.pending, c, honest)
    && (honest ==> c + (if IsMaskReply(p) then 1 else 0) == 1)
    && (honest && IsWrite(p) ==> Answers(w.env, p, w.port.pending))
    && (p.cmd == CMD_DATAREADY ==> TxFresh(w))
  }

  /** DATAREADY: all of the payload is appended to the ring, or nothing is and the connection is dropped. */
  lemma DataReadyDelivers(w: World, p: Pkt, k: nat, c: nat, honest: bool)
    requires Live(w, k, c, honest) && TxFresh(w)
    ensures var v := DataReady(w, p);
            if p.p1 == STATUS_SUCCESS && p.p2 == |p.ext| <= Room(w.port.tx.head, w.port.tx.tail, |w.env.tx.buf|) then
              && |p.ext| <= w.env.tx.Free()
              && Live(v, k, c, honest) && v.port == w.port && v.env.hist.accepted == w.env.hist.accepted + p.ext
            else v == Excp(w) && v.env == w.env
  {
    hide IocTxTail, Conserved, StopAndWait, Registrations, Span, Fill, Accounted, Bounded, Filter;
    if p.p1 == STATUS_SUCCESS && p.p2 == |p.ext| <= Room(w.port.tx.head, w.port.tx.tail, |w.env.tx.buf|) {
      StageFlow(w.env, p.ext, k, c, honest);
      var e1 := w.env.(tx := w.env.tx.Stage(p.ext));
      PublishFlow(e1, p.ext, k, c, honest);
      AwaitSnap(w.(env := e1), honest);
      RecordIsIrrelevant(IocTxTail(e1, p.ext), p, k);
    }
  }

  lemma BusyFlow(e: Env, p: Pkt, k: nat, c: nat, honest: bool)
    requires Flow(e, k, c, honest) && (honest ==> Answers(e, p, k)) && p.p1 != STATUS_SUCCESS
    ensures Flow(e, 0, c, honest)
  {
    hide Filter, Span, Bytes;
    if honest {
      assert e.rx.Contents()[..0] == [];
    }
  }

  /** An answer to a WRITE: success retires exactly the bytes sent, busy and failure retire nothing. */
  lemma WriteReplyRetires(w: World, p: Pkt, c: nat, honest: bool)
    requires Taking(w, p, c, honest) && p.cmd == CMD_WRITE
    ensures Sound(WriteReply(w, p), honest)
    ensures var v, k := WriteReply(w, p), w.port.pending;
            v.env.hist.upGone == w.env.hist.upGone +
              if IsXmitReply(p, STATUS_SUCCESS, k) then Mark(w.env.rx.Contents()[..k], true) else []
  {
    hide IocRxHead, UpdateRx, Excp, Conserved, StopAndWait, Registrations, Span, Mark;
    var k := w.port.pending;
    DropSound(w, c, honest);
    if IsXmitReply(p, STATUS_SUCCESS, k) {
      RetireFlow(w.env, k, c, honest);
      var w1 := w.(env := IocRxHead(w.env, k), port := w.port.(pending := 0));
      CountIsForHonest(w1.env, 0, c, 1, honest);
      UpdateRxLive(w1, 0, 1, honest);
      UpdateRxSpares(w1);
    } else if IsXmitReply(p, STATUS_DEVICE_BUSY, k) {
      BusyFlow(w.env, p, k, c, honest);
      CountIsForHonest(w.env, 0, c, 1, honest);
    }
  }

  lemma UpdateRxSpares(w: World)
    ensures UpdateRx(w).env.hist.upGone == w.env.hist.upGone && UpdateRx(w).port.(rx := w.port.rx) == w.port
  {
  }

  lemma DropSound(w: World, c: nat, honest: bool)
    requires Live(w, w.port.pending, c, honest)
    ensures Sound(Excp(w), honest) && Excp(w).env == w.env
  {
    hide Conserved, SnapOk, StopAndWait, Registrations;
    ExcpSound(w, honest);
  }

  lemma CommonRecvSound(w: World, p: Pkt, c: nat, honest: bool)
    requires Taking(w, p, c, honest) && |w.port.stk| == 2
    ensures Sound(CommonRecv(w, p), honest)
  {
    hide SyncRecv, WriteReply, DataReady, Excp, Conserved, StopAndWait, Registrations, SnapOk, Answers;
    DropSound(w, c, honest);
    if !IsMaskReply(p) {
      CountIsForHonest(w.env, w.port.pending, c, 1, honest);
    }
    if p.cmd == CMD_IOCTL {
      SnapPort(w, Push(w, Sync));
      SyncRecvSound(Push(w, Sync), p, c, honest);
    } else if p.cmd == CMD_DATAREADY {
      DataReadyDelivers(w, p, w.port.pending, 1, honest);
    } else if p.cmd == CMD_WRITE {
      WriteReplyRetires(w, p, c, honest);
    }
  }

  /** Idle drops the packet: an event registration answered by it is lost. */
  lemma IdleRecvSound(w: World, p: Pkt, c: nat, honest: bool)
    requires Taking(w, p, c, honest) && Top(w) == Idle
    ensures Sound(Recv(w, p), honest)
  {
    hide Settle, Conserved, StopAndWait, Filter, Length;
    var n := Discard(w.env.net, p);
    RecordIsIrrelevant(w.env, p, w.port.pending);
    SettlePopSound(w.(env := w.env.(net := n)), honest);
  }

  /** What is recorded of a packet that was read matters to no other claim. */
  lemma RecordIsIrrelevant(e: Env, p: Pkt, k: nat)
    ensures var f := e.(net := Discard(e.net, p));
            Conserved(f) == Conserved(e) && StopAndWait(f, k) == StopAndWait(e, k)
    ensures var f := e.(net := Accept(e.net, p));
            Conserved(f) == Conserved(e) && StopAndWait(f, k) == StopAndWait(e, k) && Registrations(f.net) == Registrations(e.net)
  {
  }

  lemma RecvSound(w: World, p: Pkt, c: nat, honest: bool)
    requires Taking(w, p, c, honest) && Up(w)
    ensures Sound(Recv(w, p), honest)
  {
    hide CommonRecv, SyncRecv, Settle, Taking, Logged, LastCredit;
    if Top(w) == Idle {
      IdleRecvSound(w, p, c, honest);
    } else {
      CommonRecvSound(w, p, c, honest);
    }
  }

  lemma SleepTaking(w: World, p: Pkt, c: nat, honest: bool)
    requires Taking(w, p, c, honest)
    ensures Taking(Sleep(w), p, c, honest)
  {
    hide Await, Conserved, StopAndWait, Registrations, Filter, Length;
    SleepLive(w, w.port.pending, c, honest);
    AwaitSnap(w, honest);
    if honest && IsWrite(p) {
      AwaitQuiet(w.env);
    }
  }

  lemma RecvPayloadSound(w: World, p: Pkt, c: nat, r: Reading, honest: bool)
    requires Taking(w, p, c, honest) && Up(w)
    ensures Sound(RecvPayload(w, p, r), honest)
  {
    hide Recv, Excp, Sleep, Logged, LastCredit, Flow, SnapOk, Answers;
    SleepTaking(w, p, c, honest);
    DropSound(w, c, honest);
    DropSound(Sleep(w), c, honest);
    UpdateLink(w);
    SameLinkUp(w, Sleep(w));
    RecvSound(Sleep(w), p, c, honest);
  }

  lemma UpdateTxTaking(w: World, p: Pkt, c: nat, honest: bool)
    requires Taking(w, p.(cmd := 0), c, honest) && p.cmd == CMD_DATAREADY
    ensures Taking(UpdateTx(w), p, c, honest)
  {
    hide Conserved, StopAndWait, Registrations, Filter, Length, UpdateTx;
    UpdateTxLive(w, w.port.pending, c, honest);
    UpdateTxSolid(w, honest);
    UpdateLink(w);
  }

  /** The next packet leaves the queue. */
  lemma PopTaking(w: World, honest: bool) returns (c: nat)
    requires Sound(w, honest) && Up(w) && w.env.net.down != []
    ensures var w1 := w.(env := w.env.(net := w.env.net.(down := w.env.net.down[1..])));
            && Up(w1) && Live(w1, w.port.pending, c, honest) && w1.port == w.port
            && (honest ==> c + (if IsMaskReply(w.env.net.down[0]) then 1 else 0) == 1)
            && (honest && IsWrite(w.env.net.down[0]) ==> Answers(w1.env, w.env.net.down[0], w.port.pending))
  {
    hide Conserved, Accounted, Bounded, StopAndWait, Registrations, Length, Answers, Logged, LastCredit;
    PopFlow(w.env, w.port.pending, 1, honest);
    c := Registrations(w.env.net.(down := w.env.net.down[1..]));
  }

  lemma RecvDespSound(w: World, r: Reading, honest: bool)
    requires Sound(w, honest) && Up(w)
    ensures Sound(RecvDesp(w, r), honest)
  {
    hide RecvPayload, UpdateTx, Excp, Up, Solid, Live, Answers;
    UpIsLive(w, honest);
    DropSound(w, 1, honest);
    if r != Closed && r != ShortHeader && w.env.net.down != [] {
      var p := w.env.net.down[0];
      var w1 := w.(env := w.env.(net := w.env.net.(down := w.env.net.down[1..])));
      var c := PopTaking(w, honest);
      UpIsConnected(w1);
      if p.cmd == CMD_DATAREADY {
        UpdateTxTaking(w1, p, c, honest);
        UpdateLink(w1);
        SameLinkUp(w1, UpdateTx(w1));
        RecvPayloadSound(UpdateTx(w1), p, c, r, honest);
      } else {
        RecvPayloadSound(w1, p, c, r, honest);
      }
    }
  }

  lemma UpIsLive(w: World, honest: bool)
    requires Sound(w, honest) && Up(w)
    ensures Live(w, w.port.pending, 1, honest)
  {
    hide Solid, Live, Logged, LastCredit;
  }

  // ----- one turn

  lemma HearSound(w: World, wake: Wake, honest: bool)
    requires Good(w) && Sound(w, honest) && wake.Ready?
    ensures Sound(Hear(w, wake), honest)
  {
    hide RecvDesp, Excp, Logged, LastCredit, Flow, Base, SnapOk;
    if Up(w) {
      forall v: World, n: nat ensures SnapOk(v.(lrecv := n)) == SnapOk(v) {
        SnapPort(v, v.(lrecv := n));
      }
      RecvDespSound(w.(lrecv := 0), wake.reading, honest);
      DropSound(w, 1, honest);
    }
  }

  lemma OpenCloseSound(w: World, honest: bool)
    requires Good(w) && Sound(w, honest)
    ensures Sound(OpenClose(w), honest)
  {
    hide NetDownOpen, CommonOpen, Close, Logged, LastCredit, Flow, Solid, SnapOk;
    if Down(w) {
      NetDownOpenSound(w, honest);
    } else {
      CloseSound(w, honest);
    }
  }

  lemma StagesSound(w: World, honest: bool)
    requires Good(w) && Sound(w, honest)
    ensures Sound(Reconcile(w), honest) && Sound(SendPending(w), honest) && Sound(TakeCreditBack(w), honest)
    ensures Sound(Event(w).0, honest)
  {
    hide Ioctl, Xmit, PauseOp, Event, SettingsDiffer, Logged, LastCredit, Flow, Solid, SnapOk;
    if Down(w) {
      DownStays(w, Ready(0, false, false, Closed, false, false));
    } else {
      IoctlSound(w, honest);
      PauseSound(w, honest);
      EventSound(w, honest);
      if w.port.pending == 0 && w.port.rx.head != w.port.rx.tail {
        XmitSound(w, honest);
      }
    }
  }

  lemma InterruptSound(w: World, honest: bool)
    requires Sound(w, honest)
    ensures Sound(Interrupt(w), honest)
  {
    hide IocInter, Await, Conserved, StopAndWait, Registrations, Length;
    InterBase(w.env, honest);
    if w.port.sk >= 0 {
      InterFlow(w.env, w.port.pending, 1, honest);
    }
  }

  lemma BeforeSound(w: World, honest: bool)
    requires Good(w) && Sound(w, honest)
    ensures Sound(Before(w).0, honest)
  {
    hide OpenClose, Reconcile, SendPending, TakeCreditBack, Event, Interrupt, Sound, Linked;
    OpenCloseGood(w);
    OpenCloseSound(w, honest);
    var w1 := OpenClose(w);
    StagesKeep(w1);
    StagesSound(w1, honest);
    var w2 := Reconcile(w1);
    StagesKeep(w2);
    StagesSound(w2, honest);
    var w3 := SendPending(w2);
    StagesKeep(w3);
    StagesSound(w3, honest);
    var w4 := TakeCreditBack(w3);
    StagesSound(w4, honest);
    InterruptSound(Event(w4).0, honest);
  }

  lemma RefreshSound(w: World, honest: bool)
    requires Sound(w, honest)
    ensures Sound(UpdateRx(w), honest) && Sound(UpdateTx(w), honest)
  {
    hide UpdateRx, UpdateTx, Conserved, StopAndWait, Registrations, Length;
    UpdateLink(w);
    UpdateRxSolid(w, honest);
    UpdateTxSolid(w, honest);
    if w.port.sk >= 0 {
      UpdateRxLive(w, w.port.pending, 1, honest);
      UpdateTxLive(w, w.port.pending, 1, honest);
    }
  }

  lemma AfterSelectSound(w: World, rd: bool, wr: bool, wake: Wake, honest: bool)
    requires Good(w) && Sound(w, honest)
    ensures Sound(AfterSelect(w, rd, wr, wake), honest)
  {
    hide Poll, Resume, Hear, UpdateRx, UpdateTx, UpdateAttr, Logged, LastCredit, Flow, Solid, SnapOk, Await, Span;
    match wake
    case Timeout =>
      if Down(w) {
        DownStays(w, Ready(0, false, false, Closed, false, false));
      } else {
        PollSound(w, honest);
      }
    case Ready(_, pri, _, _, rdReady, wrReady) =>
      UpdateLink(w);
      SameLinkGood(w, UpdateAttr(w));
      UpdateAttrSound(w, honest);
      var w0 := if pri then UpdateAttr(w) else w;
      HearGood(w0, wake);
      HearSound(w0, wake, honest);
      var w1 := Hear(w0, wake);
      UpdateLink(w1);
      SameLinkGood(w1, UpdateRx(w1));
      RefreshSound(w1, honest);
      var w2 := if rd && rdReady then UpdateRx(w1) else w1;
      UpdateLink(w2);
      SameLinkGood(w2, UpdateTx(w2));
      RefreshSound(w2, honest);
      var w3 := UpdateTx(w2);
      if Down(w3) {
        DownStays(w3, wake);
      } else {
        ResumeSound(w3, honest);
      }
  }

  /** A script is honest when all its steps are. */
  predicate HonestTicks(ticks: seq<Tick>) { forall i :: 0 <= i < |ticks| ==> HonestIo(ticks[i].io) }

  lemma NewScript(w: World, io: seq<IoStep>, honest: bool)
    requires Sound(w, honest) && (honest ==> HonestIo(io))
    ensures Sound(w.(env := w.env.(io := io)), honest)
  {
    hide Conserved, StopAndWait, Length, Filter;
    ScriptIsIrrelevant(w.env, io, w.port.pending);
  }

  lemma TurnSound(w: World, t: Tick, honest: bool)
    requires Good(w) && Sound(w, honest) && (honest ==> HonestIo(t.io))
    ensures Sound(Turn(w, t), honest)
  {
    hide Before, AfterSelect, Sleep, Linked, Sound, HonestIo;
    var w0 := w.(env := w.env.(io := t.io));
    NewScript(w, t.io, honest);
    SameLinkGood(w, w0);
    BeforeGood(w0);
    BeforeSound(w0, honest);
    var (w1, rd, wr) := Before(w0);
    UpdateLink(w1);
    SameLinkGood(w1, Sleep(w1));
    SleepSound(w1, honest);
    AfterSelectSound(Sleep(w1), rd, wr, t.wake, honest);
  }
}
