/**
 What every turn of the main loop keeps about the connection: the shape of the stack, its agreement with the socket and
 with the daemon's mirror of the settings, the packets sent on the connection, and the credit last given to the device.
 */
module Control {
  import opened Words
  import opened Packets
  import opened Rings
  import opened Attributes
  import opened Worlds
  import opened Handlers

  /** No connection: the state `vc_netdown_init` leaves. */
  predicate Down(w: World) {
    w.port.stk == [NetDown] && w.port.sk == -1 && w.port.tid == 0 && w.port.pending == 0 && w.port.eki == FRESH_EKI
  }

  /**
   The packets of a connection: CREATE with transaction id 1 comes first, every later packet carries its own number
   modulo 2^32, and the numbers increase and stay below `tid`. The number that follows CREATE is 1.
   */
  predicate Numbered(sent: seq<Sent>, tid: nat, create: Pkt) {
    |sent| > 0 &&
    var last := sent[|sent| - 1];
    && last.n < tid
    && if |sent| == 1 then last == Sent(0, create) && tid == 1
       else last.pkt.tid == last.n % TID_MOD && last.pkt.cmd != CMD_CREATE && Numbered(sent[..|sent| - 1], last.n, create)
  }

  /** The packets are numbered, and the bytes on the wire are their encodings, whole and in order. */
  predicate Logged(sent: seq<Sent>, wire: seq<byte>, tid: nat, create: Pkt) {
    Numbered(sent, tid, create) && wire == EncodeAll(Packed(sent))
  }

  lemma {:induction false} NumberedMeans(sent: seq<Sent>, tid: nat, create: Pkt)
    requires Numbered(sent, tid, create)
    ensures sent[0] == Sent(0, create)
    ensures forall i :: 1 <= i < |sent| ==> sent[i].pkt.tid == sent[i].n % TID_MOD && sent[i].pkt.cmd != CMD_CREATE
    ensures forall i, j :: 0 <= i < j < |sent| ==> sent[i].n < sent[j].n
    ensures forall i :: 0 <= i < |sent| ==> sent[i].n < tid
    ensures |sent| >= 2 ==> sent[1].n == 1
  {
    if |sent| > 1 {
      var init := sent[..|sent| - 1];
      NumberedMeans(init, sent[|sent| - 1].n, create);
      assert forall i :: 0 <= i < |init| ==> sent[i] == init[i];
    }
  }

  function CreatePkt(w: World): Pkt { OpenPkt(1, w.port.devid, w.port.port) }

  /** The value of the last QUEUEFREE packet, or -1. */
  function LastCredit(sent: seq<Sent>): int {
    if sent == [] then -1
    else if sent[|sent| - 1].pkt.cmd == CMD_QUEUEFREE then sent[|sent| - 1].pkt.p2
    else LastCredit(sent[..|sent| - 1])
  }

  /** The credit that goes with the state above Net Down. */
  function CreditOf(s: St): int { if s == NetUp then 1024 else 0 }

  /** Connected, with the handshake still under way. */
  predicate Linked(w: World) {
    |w.port.stk| >= 2 && w.port.sk >= 0 && w.port.eki.isOpen
    && Logged(w.env.net.sent, w.env.net.wire, w.port.tid, CreatePkt(w))
  }

  /** Connected, at a point where the main loop could be. */
  predicate Up(w: World) {
    && Linked(w) && Top(w) != Sync
    && LastCredit(w.env.net.sent) == CreditOf(w.port.stk[1])
  }

  /** The invariant of the main loop. */
  predicate Good(w: World) {
    (Down(w) || Up(w)) && !w.exited && w.lrecv <= VC_PULL_TIME
  }

  /** `v` is connected or not, as the main loop may find it, and otherwise `w` and `v` agree on what `Good` needs and on the settings. */
  predicate Lands(w: World, v: World) {
    (Down(v) || Up(v)) && v.exited == w.exited && v.lrecv == w.lrecv && Attr(v) == Attr(w)
  }

  // ----- sending extends the log

  lemma LogOne(w: World, cmd: u16, p1: u32, p2: u32, ext: Ext)
    requires Linked(w) && cmd != CMD_CREATE
    ensures var (w1, ok) := Emit(w, cmd, p1, p2, ext);
            ok ==> && Linked(w1)
                   && LastCredit(w1.env.net.sent) == if cmd == CMD_QUEUEFREE then p2 else LastCredit(w.env.net.sent)
  {
    var p := Pkt(MAGIC, w.port.tid % TID_MOD, cmd, p1, p2, ext);
    LogMany(w, [Sent(w.port.tid, p)], w.port.tid + 1);
    assert (w.env.net.sent + [Sent(w.port.tid, p)])[..|w.env.net.sent|] == w.env.net.sent;
  }

  /** Packets that continue the numbering, sent together. */
  predicate Continues(tid: nat, ps: seq<Sent>) {
    forall i :: 0 <= i < |ps| ==> ps[i].n == tid + i && ps[i].pkt.tid == ps[i].n % TID_MOD && ps[i].pkt.cmd != CMD_CREATE
  }

  lemma {:induction false} NumberedMore(sent: seq<Sent>, tid: nat, create: Pkt, ps: seq<Sent>, more: nat)
    requires Numbered(sent, tid, create) && Continues(tid, ps) && more >= tid + |ps| && (ps == [] ==> more == tid)
    ensures Numbered(sent + ps, more, create)
  {
    if ps == [] {
      assert sent + ps == sent;
    } else {
      var n := |ps| - 1;
      NumberedMore(sent, tid, create, ps[..n], ps[n].n);
      assert (sent + ps)[..|sent| + n] == sent + ps[..n];
    }
  }

  lemma LogMany(w: World, ps: seq<Sent>, tid: nat)
    requires Linked(w) && Continues(w.port.tid, ps) && ps != [] && tid >= w.port.tid + |ps|
    ensures var (e, ok) := Send(w.env, ps);
            ok ==> e.net.sent == w.env.net.sent + ps && Logged(e.net.sent, e.net.wire, tid, CreatePkt(w))
  {
    var sent := w.env.net.sent;
    NumberedMore(sent, w.port.tid, CreatePkt(w), ps, tid);
    assert Packed(sent + ps) == Packed(sent) + Packed(ps);
    EncodeAllAppend(Packed(sent), Packed(ps));
  }

  lemma {:induction false} CreditSkips(sent: seq<Sent>, ps: seq<Sent>)
    requires forall i :: 0 <= i < |ps| ==> ps[i].pkt.cmd != CMD_QUEUEFREE
    ensures LastCredit(sent + ps) == LastCredit(sent)
  {
    if ps == [] {
      assert sent + ps == sent;
    } else {
      var n := |ps| - 1;
      CreditSkips(sent, ps[..n]);
      assert (sent + ps)[..|sent| + n] == sent + ps[..n];
    }
  }

  // ----- the handlers

  lemma UpIsConnected(w: World)
    requires Up(w)
    ensures w.port.sk >= 0 && Top(w) != NetDown
  {
    hide Logged, LastCredit;
  }

  /** What `Up` and `Good` depend on. */
  predicate SameLink(w: World, v: World) {
    && v.port.stk == w.port.stk && v.port.sk == w.port.sk && v.port.tid == w.port.tid && v.port.eki == w.port.eki
    && v.port.devid == w.port.devid && v.port.port == w.port.port && v.port.pending == w.port.pending
    && v.env.net.sent == w.env.net.sent && v.env.net.wire == w.env.net.wire
    && v.exited == w.exited && v.lrecv == w.lrecv
  }

  lemma UpdateLink(w: World)
    ensures SameLink(w, UpdateRx(w)) && SameLink(w, UpdateTx(w)) && SameLink(w, UpdateAttr(w)) && SameLink(w, Sleep(w))
    ensures Attr(UpdateRx(w)) == Attr(UpdateTx(w)) == Attr(Sleep(w)) == Attr(w)
  {
  }

  lemma SettleLink(w: World)
    ensures SameLink(w, Settle(w)) && Attr(Settle(w)) == Attr(w)
  {
    UpdateLink(w);
    UpdateLink(UpdateRx(w));
  }

  lemma InterruptLink(w: World)
    ensures SameLink(w, Interrupt(w)) && Attr(Interrupt(w)) == Attr(w)
  {
  }

  lemma ExcpIsDown(w: World)
    ensures Down(Excp(w)) && Lands(w, Excp(w)) && Excp(w).env == w.env
  {
  }

  lemma SyncEventLinked(w: World)
    requires Linked(w)
    ensures var (w1, ok) := SyncEvent(w);
            && w1.exited == w.exited && w1.lrecv == w.lrecv && Attr(w1) == Attr(w)
            && (ok ==> Linked(w1) && LastCredit(w1.env.net.sent) == LastCredit(w.env.net.sent))
  {
    LogOne(w, CMD_IOCTL, IOCTL_SET_WAIT_MASK, 0, Be32(0x38010000));
    var (w1, ok1) := Emit(w, CMD_IOCTL, IOCTL_SET_WAIT_MASK, 0, Be32(0x38010000));
    if ok1 {
      LogOne(w1, CMD_IOCTL, IOCTL_GET_MODEMSTATUS, 0, []);
    }
  }

  lemma SyncRestGood(w: World)
    requires Linked(w) && Top(w) == Sync && (w.port.stk[1] == NetUp <==> w.port.tx.head == w.port.tx.tail)
    ensures Lands(w, SyncRest(w))
  {
    hide Emit, Settle, Logged, LastCredit, Fits, InRange;
    SyncEventLinked(w);
    var (w1, ok1) := SyncEvent(w);
    if ok1 {
      LogOne(w1, CMD_QUEUEFREE, 0, if w1.port.tx.head == w1.port.tx.tail then 1024 else 0, []);
      var (w2, ok2) := SyncQueue(w1);
      if ok2 {
        SettleLink(Pop(w2));
      }
    }
  }

  lemma SyncInitGood(w: World)
    requires Linked(w) && Top(w) == Sync && (w.port.stk[1] == NetUp <==> w.port.tx.head == w.port.tx.tail)
    ensures Lands(w, SyncInit(w))
  {
    hide Emit, SyncRest, Logged, LastCredit, Rts, Dtr, Shaped;
    var ms := Attr(w).ms;
    var rts := if Rts(ms) then IOCTL_SET_RTS else IOCTL_CLR_RTS;
    LogOne(w, CMD_IOCTL, rts, 0, []);
    var (w1, ok1) := Emit(w, CMD_IOCTL, rts, 0, []);
    if ok1 {
      LogOne(w1, CMD_IOCTL, if Dtr(ms) then IOCTL_SET_DTR else IOCTL_CLR_DTR, 0, []);
      var (w2, ok2) := SyncMs(w, ms);
      if ok2 {
        SyncRestGood(w2.(port := w2.port.(eki := w2.port.eki.(ms := ms))));
      }
    }
  }

  /** Sync has done its part, and is left. */
  lemma LeaveSync(w: World)
    requires Linked(w) && Top(w) == Sync && LastCredit(w.env.net.sent) == CreditOf(w.port.stk[1])
    ensures var v := Settle(Pop(w));
            Up(v) && v.exited == w.exited && v.lrecv == w.lrecv && Attr(v) == Attr(w)
  {
    hide Settle, Logged, LastCredit;
    SettleLink(Pop(w));
  }

  lemma SyncRecvGood(w: World, p: Pkt)
    requires Linked(w) && Top(w) == Sync && LastCredit(w.env.net.sent) == CreditOf(w.port.stk[1])
    ensures Lands(w, SyncRecv(w, p))
  {
    hide Emit, SyncEvent, Settle, Await, Logged, LastCredit, Up;
    if p.p2 == IOCTL_WAIT_ON_MASK {
      SyncEventLinked(w);
      var (w1, ok) := SyncEvent(w);
      if ok { LeaveSync(w1); }
    } else if p.p2 == IOCTL_SET_WAIT_MASK {
      LogOne(w, CMD_IOCTL, IOCTL_WAIT_ON_MASK, 0, []);
      var (w1, ok) := RegSyncEvent(w);
      if ok { LeaveSync(w1); }
    } else if p.p2 == IOCTL_GET_MODEMSTATUS {
      UpdateLink(w);
      LeaveSync(Sleep(w));
    } else {
      LeaveSync(w);
    }
  }

  lemma CommonOpenGood(w: World)
    requires |w.port.stk| == 2 && w.port.sk >= 0 && w.port.tid == 0 && w.env.net.sent == [] && w.env.net.wire == []
    requires w.port.stk[1] == NetUp <==> w.port.tx.head == w.port.tx.tail
    ensures Lands(w, CommonOpen(w))
  {
    hide SyncInit, Await, EncodeAll;
    var create := [Sent(0, CreatePkt(w))];
    var (e, ok) := Send(w.env, create);
    if ok {
      assert e.net.sent == create && e.net.wire == EncodeAll(Packed(create));
      SyncInitGood(Push(w.(env := e, port := w.port.(tid := 1, eki := w.port.eki.(isOpen := true))), Sync));
    }
  }

  lemma NetDownOpenGood(w: World)
    requires Down(w)
    ensures Lands(w, NetDownOpen(w))
  {
    hide CommonOpen, Await;
    var (e, sk) := Connect(w.env);
    if sk >= 0 {
      var w1 := w.(env := e, port := w.port.(sk := sk));
      CommonOpenGood(Push(w1, if w1.port.tx.head == w1.port.tx.tail then NetUp else Pause));
    }
  }

  lemma CloseGood(w: World)
    requires Up(w)
    ensures Down(Close(w)) && Close(w).exited == w.exited && Close(w).lrecv == w.lrecv && Attr(Close(w)) == Attr(w)
  {
    hide Emit, BufClear, Excp, Down, Logged, LastCredit;
    ClearFrame(w);
    ExcpIsDown(Emit(Purge(BufClear(w)), CMD_CLOSE, 0, 0, []).0);
  }

  lemma ClearFrame(w: World)
    ensures BufClear(w).exited == w.exited && BufClear(w).lrecv == w.lrecv && Attr(BufClear(w)) == Attr(w)
  {
    hide Await, Span, Mark;
  }

  /** Open is only asked for without a connection, and close only with one: Sync's handlers, which exit, are never reached. */
  lemma OpenCloseGood(w: World)
    requires Good(w)
    ensures Lands(w, OpenClose(w))
  {
    hide NetDownOpen, Close, CommonOpen, Logged, LastCredit;
    if Down(w) {
      NetDownOpenGood(w);
    } else {
      CloseGood(w);
    }
  }

  lemma EmitUp(w: World, cmd: u16, p1: u32, p2: u32, ext: Ext)
    requires Up(w) && cmd != CMD_CREATE && cmd != CMD_QUEUEFREE
    ensures var (w1, ok) := Emit(w, cmd, p1, p2, ext);
            ok ==> Up(w1)
  {
    hide Emit, Logged, LastCredit;
    LogOne(w, cmd, p1, p2, ext);
  }

  lemma XmitGood(w: World)
    requires Up(w)
    ensures Lands(w, Xmit(w))
  {
    hide Emit, Logged, LastCredit, SnapContents;
    var len := Min(XMIT_LEN, |SnapContents(w)|);
    EmitUp(w, CMD_WRITE, len, 0, SnapContents(w)[..len]);
  }

  /** A stage of `vc_common_ioctl` went well and left a connection, or failed. */
  predicate Stage(w: World, r: (World, bool)) {
    && (r.1 ==> Up(r.0) && r.0.port.stk == w.port.stk)
    && r.0.exited == w.exited && r.0.lrecv == w.lrecv && Attr(r.0) == Attr(w)
  }

  lemma IoctlStages(w: World)
    requires Up(w)
    ensures Stage(w, IoctlBaud(w)) && Stage(w, IoctlLine(w)) && Stage(w, IoctlFlow(w))
  {
    hide Emit, Logged, LastCredit, Junk, Le32, ToU32, FlowWords, FlowExt, LineExt, ToByte, Shaped, Fits, InRange;
    var a := Attr(w);
    var e := w.port.eki;
    EmitUp(w.(port := w.port.(eki := e.(baud := a.baud))), CMD_IOCTL, IOCTL_SET_BAUD_RATE, 0, Le32(ToU32(a.baud)));
    EmitUp(w.(port := w.port.(eki := e.(pair := a.pair, stop := a.stop, byte := a.byte))), CMD_IOCTL,
           IOCTL_SET_LINE_CONTROL, 0, LineExt(ToByte(a.pair), ToByte(a.byte), ToByte(a.stop)));
    EmitUp(w.(port := w.port.(eki := e.(flowctl := a.flowctl))), CMD_IOCTL, IOCTL_SET_HANDFLOW, 0,
           FlowExt(FlowWords(a.flowctl).0, FlowWords(a.flowctl).1, Junk(w.env)));
  }

  lemma IoctlMsStage(w: World)
    requires Up(w)
    ensures Stage(w, IoctlMs(w))
  {
    hide Send, Numbered, EncodeAll, LastCredit, Rts, Dtr;
    var ps := MsPkts(w.port.tid, w.port.eki.ms, Attr(w).ms);
    if ps != [] {
      LogMany(w, ps, w.port.tid + |ps| + 1);
      CreditSkips(w.env.net.sent, ps);
    }
  }

  lemma IoctlGood(w: World)
    requires Up(w)
    ensures Lands(w, Ioctl(w))
  {
    hide IoctlBaud, IoctlLine, IoctlFlow, IoctlMs, Excp, Logged, LastCredit, WellFormed, Attr;
    IoctlStages(w);
    var (w1, ok1) := IoctlBaud(w);
    ExcpIsDown(w1);
    if ok1 {
      IoctlStages(w1);
      var (w2, ok2) := IoctlLine(w1);
      ExcpIsDown(w2);
      if ok2 {
        IoctlStages(w2);
        var (w3, ok3) := IoctlFlow(w2);
        ExcpIsDown(w3);
        if ok3 {
          IoctlMsStage(w3);
          ExcpIsDown(IoctlMs(w3).0);
        }
      }
    }
  }

  lemma CreditSwap(w: World, credit: u32, s: St)
    requires Up(w) && |w.port.stk| == 2 && Works(s) && credit == CreditOf(s)
    ensures var (w1, ok) := Emit(w, CMD_QUEUEFREE, 0, credit, []);
            var v := Settle(Rpls(w1, s));
            ok ==> Up(v) && v.exited == w.exited && v.lrecv == w.lrecv && Attr(v) == Attr(w)
  {
    hide Emit, Settle, Logged, LastCredit;
    LogOne(w, CMD_QUEUEFREE, 0, credit, []);
    var (w1, ok) := Emit(w, CMD_QUEUEFREE, 0, credit, []);
    SettleLink(Rpls(w1, s));
  }

  lemma PauseGood(w: World)
    requires Up(w)
    ensures Lands(w, PauseOp(w))
  {
    hide Emit, Settle, Logged, LastCredit;
    if Top(w) == NetUp {
      CreditSwap(w, 0, Pause);
    }
  }

  lemma ResumeGood(w: World)
    requires Up(w)
    ensures Lands(w, Resume(w))
  {
    hide Emit, Settle, Await, Logged, LastCredit;
    if Top(w) == Pause {
      UpdateLink(w);
      CreditSwap(Sleep(w), 1024, NetUp);
    }
  }

  lemma EventGood(w: World)
    requires Up(w)
    ensures Lands(w, Event(w).0)
  {
    hide Await, Logged, LastCredit;
    UpdateLink(w);
  }

  lemma PollGood(w: World)
    requires Up(w)
    ensures Lands(w, Poll(w))
  {
    hide Emit, Logged, LastCredit;
    if Top(w) != Idle {
      EmitUp(Push(w, Idle), CMD_IOCTL, IOCTL_GET_WAIT_MASK, 0, []);
    }
  }

  lemma WriteReplyGood(w: World, p: Pkt)
    requires Up(w)
    ensures Lands(w, WriteReply(w, p))
  {
    hide UpdateRx, IocRxHead, Excp, Down, Up;
    ExcpIsDown(w);
    RetireSpares(w.env, w.port.pending);
    var w1 := w.(env := IocRxHead(w.env, w.port.pending), port := w.port.(pending := 0));
    NothingPending(w, w1);
    UpdateLink(w1);
    SameLinkUp(w1, UpdateRx(w1));
    NothingPending(w, w.(port := w.port.(pending := 0)));
  }

  lemma NothingPending(w: World, v: World)
    requires Up(w) && v.port == w.port.(pending := 0)
    requires v.env.net.sent == w.env.net.sent && v.env.net.wire == w.env.net.wire
    ensures Up(v)
  {
    hide Logged, LastCredit;
  }

  lemma RetireSpares(e: Env, n: nat)
    ensures IocRxHead(e, n).net.sent == e.net.sent && IocRxHead(e, n).net.wire == e.net.wire
    ensures IocRxHead(e, n).att.slots == e.att.slots
  {
    hide Await, Span, Mark;
  }

  lemma DataReadyGood(w: World, p: Pkt)
    requires Up(w)
    ensures Lands(w, DataReady(w, p))
  {
    hide Await, Taken, Fill, Excp, Down, Logged, LastCredit, Mark;
    ExcpIsDown(w);
  }

  lemma CommonRecvGood(w: World, p: Pkt)
    requires Up(w) && |w.port.stk| == 2
    ensures Lands(w, CommonRecv(w, p))
  {
    hide SyncRecv, WriteReply, DataReady, Excp, Down, Logged, LastCredit;
    ExcpIsDown(w);
    if p.cmd == CMD_IOCTL {
      SyncRecvGood(Push(w, Sync), p);
    } else if p.cmd == CMD_WRITE {
      WriteReplyGood(w, p);
    } else if p.cmd == CMD_DATAREADY {
      DataReadyGood(w, p);
    }
  }

  lemma RecvGood(w: World, p: Pkt)
    requires Up(w)
    ensures Lands(w, Recv(w, p))
  {
    hide CommonRecv, Settle, Logged, LastCredit;
    if Top(w) == Idle {
      var w1 := w.(env := w.env.(net := Discard(w.env.net, p)));
      SettleLink(Pop(w1));
    } else {
      CommonRecvGood(w, p);
    }
  }

  lemma RecvPayloadGood(w: World, p: Pkt, r: Reading)
    requires Up(w)
    ensures Lands(w, RecvPayload(w, p, r))
  {
    hide Recv, Sleep, Excp, Up, Down;
    ExcpIsDown(w);
    ExcpIsDown(Sleep(w));
    UpIsConnected(w);
    UpdateLink(w);
    SameLinkUp(w, Sleep(w));
    RecvGood(Sleep(w), p);
  }

  lemma RecvDespGood(w: World, r: Reading)
    requires Up(w)
    ensures Lands(w, RecvDesp(w, r))
  {
    hide RecvPayload, UpdateTx, Logged, LastCredit, Await;
    if r != Closed && r != ShortHeader && w.env.net.down != [] {
      var p := w.env.net.down[0];
      var w1 := w.(env := w.env.(net := w.env.net.(down := w.env.net.down[1..])));
      UpdateLink(w1);
      RecvPayloadGood(if p.cmd == CMD_DATAREADY then UpdateTx(w1) else w1, p, r);
    }
  }

  // ----- one turn

  /** Without a connection, everything but opening one leaves the daemon where it is. */
  lemma DownStays(w: World, wake: Wake)
    requires Down(w) && wake.Ready?
    ensures Reconcile(w) == w && SendPending(w) == w && TakeCreditBack(w) == w && Event(w) == (w, false, false)
    ensures Poll(w) == w && Resume(w) == w && Hear(w, wake) == w
  {
  }

  lemma HearGood(w: World, wake: Wake)
    requires Good(w) && wake.Ready?
    ensures Good(Hear(w, wake))
    ensures Down(w) ==> Down(Hear(w, wake))
    ensures Attr(Hear(w, wake)) == Attr(w)
  {
    hide RecvDesp, Logged, LastCredit;
    if Up(w) {
      RecvDespGood(w.(lrecv := 0), wake.reading);
    }
  }

  /** `v` is as good as `w`, no connection appears, and the clock stands still. */
  predicate Keeps(w: World, v: World) {
    Good(v) && v.lrecv == w.lrecv && (Down(w) ==> Down(v))
  }

  lemma StagesKeep(w: World)
    requires Good(w)
    ensures Keeps(w, Reconcile(w)) && Keeps(w, SendPending(w)) && Keeps(w, TakeCreditBack(w)) && Keeps(w, Event(w).0)
    ensures Attr(Reconcile(w)) == Attr(SendPending(w)) == Attr(TakeCreditBack(w)) == Attr(Event(w).0) == Attr(w)
  {
    hide Ioctl, Xmit, PauseOp, Event, SettingsDiffer, Logged, LastCredit;
    if Down(w) {
      DownStays(w, Ready(0, false, false, Closed, false, false));
    } else {
      IoctlGood(w);
      XmitGood(w);
      PauseGood(w);
      EventGood(w);
    }
  }

  lemma BeforeGood(w: World)
    requires Good(w)
    ensures Good(Before(w).0) && Before(w).0.lrecv == w.lrecv
    ensures !Attr(w).isOpen ==> Down(Before(w).0)
    ensures Attr(Before(w).0) == Attr(w)
  {
    hide OpenClose, Reconcile, SendPending, TakeCreditBack, Event, Interrupt, Linked;
    OpenCloseGood(w);
    if !Attr(w).isOpen {
      CloseWhenAsked(w);
    }
    var w1 := OpenClose(w);
    StagesKeep(w1);
    var w2 := Reconcile(w1);
    StagesKeep(w2);
    var w3 := SendPending(w2);
    StagesKeep(w3);
    var w4 := TakeCreditBack(w3);
    StagesKeep(w4);
    var w5 := Event(w4).0;
    InterruptLink(w5);
    SameLinkGood(w5, Interrupt(w5));
  }

  lemma SameLinkGood(w: World, v: World)
    requires Good(w) && SameLink(w, v)
    ensures Keeps(w, v)
  {
    hide Logged, LastCredit;
  }

  lemma SameLinkUp(w: World, v: World)
    requires Up(w) && SameLink(w, v)
    ensures Up(v) && v.port.pending == w.port.pending && v.port.sk == w.port.sk
  {
    hide Logged, LastCredit;
  }

  lemma CloseWhenAsked(w: World)
    requires Good(w) && !Attr(w).isOpen
    ensures Down(OpenClose(w))
  {
    hide Close, Logged, LastCredit;
    if Up(w) {
      CloseGood(w);
    }
  }

  lemma AfterSelectGood(w: World, rd: bool, wr: bool, wake: Wake)
    requires Good(w)
    ensures Good(AfterSelect(w, rd, wr, wake))
    ensures Down(w) ==> Down(AfterSelect(w, rd, wr, wake))
    ensures Attr(AfterSelect(w, rd, wr, wake)) == if wake.Ready? && wake.pri then Attr(UpdateAttr(w)) else Attr(w)
  {
    hide Poll, Resume, Hear, UpdateRx, UpdateTx, UpdateAttr, Attr, Up, Down, WellFormed, InRange;
    match wake
    case Timeout =>
      if Down(w) {
        DownStays(w, Ready(0, false, false, Closed, false, false));
      } else {
        PollGood(w);
      }
    case Ready(_, pri, _, _, rdReady, wrReady) =>
      UpdateLink(w);
      SameLinkGood(w, UpdateAttr(w));
      var w0 := if pri then UpdateAttr(w) else w;
      HearGood(w0, wake);
      var w1 := Hear(w0, wake);
      UpdateLink(w1);
      SameLinkGood(w1, UpdateRx(w1));
      var w2 := if rd && rdReady then UpdateRx(w1) else w1;
      UpdateLink(w2);
      SameLinkGood(w2, UpdateTx(w2));
      var w3 := UpdateTx(w2);
      if Down(w3) {
        DownStays(w3, wake);
      } else {
        ResumeGood(w3);
      }
  }

  lemma TurnGood(w: World, t: Tick)
    requires Good(w)
    ensures Good(Turn(w, t))
  {
    hide Before, AfterSelect, Sleep, Linked;
    var w0 := w.(env := w.env.(io := t.io));
    SameLinkGood(w, w0);
    BeforeGood(w0);
    var (w1, rd, wr) := Before(w0);
    UpdateLink(w1);
    SameLinkGood(w1, Sleep(w1));
    AfterSelectGood(Sleep(w1), rd, wr, t.wake);
  }
}
