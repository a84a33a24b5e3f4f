/**
 What the uplink loses when Idle drops a packet. Idle discards the packet that wakes it; if that is the answer to a WRITE,
 the daemon goes on waiting for it, and sends and retires nothing more until the connection ends.
 */
module Stall {
  import opened Words
  import opened Packets
  import opened Rings
  import opened Attributes
  import opened Worlds
  import opened Handlers
  import opened Control
  import opened Pipes
  import opened PipeRuns

  /** No answer is on its way, nor a WRITE that could have one; so far, `gone` has left the uplink ring. */
  predicate Deaf(e: Env, gone: seq<Fate>) {
    NoWriteUnderWay(e.net) && HonestIo(e.io) && e.hist.upGone == gone
  }

  /** The daemon waits for the answer to `k` bytes, and none will come. */
  predicate Stuck(w: World, k: nat, gone: seq<Fate>) { w.port.pending == k > 0 && Deaf(w.env, gone) }

  predicate StuckOrDown(w: World, k: nat, gone: seq<Fate>) { Down(w) || Stuck(w, k, gone) }

  // ----- system calls

  lemma AwaitDeaf(e: Env, gone: seq<Fate>)
    requires Deaf(e, gone)
    ensures Deaf(Await(e).0, gone)
  {
    hide Steps, Filter;
    AwaitQuiet(e);
  }

  lemma SendDeaf(e: Env, ps: seq<Sent>, gone: seq<Fate>)
    requires Deaf(e, gone) && forall i :: 0 <= i < |ps| ==> !IsWrite(ps[i].pkt)
    ensures Deaf(Send(e, ps).0, gone)
  {
    hide Await, Filter, EncodeAll;
    AwaitDeaf(e, gone);
    FilterNone(Packed(ps), IsWrite);
    FilterConcat(Await(e).0.net.up, Packed(ps), IsWrite);
  }

  lemma EmitStuck(w: World, cmd: u16, p1: u32, p2: u32, ext: Ext, k: nat, gone: seq<Fate>)
    requires Stuck(w, k, gone) && cmd != CMD_WRITE
    ensures Stuck(Emit(w, cmd, p1, p2, ext).0, k, gone)
  {
    hide Send, Deaf;
    SendDeaf(w.env, [Sent(w.port.tid, Pkt(MAGIC, w.port.tid % TID_MOD, cmd, p1, p2, ext))], gone);
  }

  lemma UpdateStuck(w: World, k: nat, gone: seq<Fate>)
    requires Stuck(w, k, gone)
    ensures Stuck(UpdateRx(w), k, gone) && Stuck(UpdateTx(w), k, gone) && Stuck(Sleep(w), k, gone) && Stuck(UpdateAttr(w), k, gone)
  {
    hide Await, Filter, HonestIo;
    AwaitDeaf(w.env, gone);
    AwaitDeaf(Await(w.env).0, gone);
  }

  lemma SettleStuck(w: World, k: nat, gone: seq<Fate>)
    requires Stuck(w, k, gone)
    ensures Stuck(Settle(w), k, gone)
  {
    hide UpdateRx, UpdateTx, Deaf;
    UpdateStuck(w, k, gone);
    UpdateStuck(UpdateRx(w), k, gone);
  }

  lemma CopiesDeaf(e: Env, takes: seq<nat>, gone: seq<Fate>)
    requires Deaf(e, gone)
    ensures Deaf(XmitCopy(e), gone) && Deaf(RecvChars(e, takes), gone)
  {
  }

  // ----- handlers

  lemma PopStuck(w: World, k: nat, gone: seq<Fate>)
    requires |w.port.stk| >= 2 && Stuck(w, k, gone)
    ensures StuckOrDown(Settle(Pop(w)), k, gone) && Stuck(Settle(Pop(w)), k, gone)
  {
    hide Settle, Deaf;
    SettleStuck(Pop(w), k, gone);
  }

  lemma SyncRecvStuck(w: World, p: Pkt, k: nat, gone: seq<Fate>)
    requires Top(w) == Sync && Stuck(w, k, gone)
    ensures StuckOrDown(SyncRecv(w, p), k, gone)
  {
    hide Emit, Settle, Await, Excp, Down, Stuck, Be32;
    if p.p2 == IOCTL_WAIT_ON_MASK {
      EmitStuck(w, CMD_IOCTL, IOCTL_SET_WAIT_MASK, 0, Be32(0x38010000), k, gone);
      var w1 := Emit(w, CMD_IOCTL, IOCTL_SET_WAIT_MASK, 0, Be32(0x38010000)).0;
      EmitStuck(w1, CMD_IOCTL, IOCTL_GET_MODEMSTATUS, 0, [], k, gone);
      ExcpIsDown(SyncEvent(w).0);
      PopStuck(SyncEvent(w).0, k, gone);
    } else if p.p2 == IOCTL_SET_WAIT_MASK {
      EmitStuck(w, CMD_IOCTL, IOCTL_WAIT_ON_MASK, 0, [], k, gone);
      ExcpIsDown(RegSyncEvent(w).0);
      PopStuck(RegSyncEvent(w).0, k, gone);
    } else if p.p2 == IOCTL_GET_MODEMSTATUS {
      UpdateStuck(w, k, gone);
      ExcpIsDown(Sleep(w));
      PopStuck(Sleep(w), k, gone);
    } else {
      PopStuck(w, k, gone);
    }
  }

  lemma IoctlStuck(w: World, k: nat, gone: seq<Fate>)
    requires Stuck(w, k, gone)
    ensures StuckOrDown(CommonIoctl(w), k, gone)
  {
    hide IoctlBaud, IoctlLine, IoctlFlow, IoctlMs, Stuck, WellFormed;
    StagesStuck(w, k, gone);
    StagesStuck(IoctlBaud(w).0, k, gone);
    StagesStuck(IoctlLine(IoctlBaud(w).0).0, k, gone);
    StagesStuck(IoctlFlow(IoctlLine(IoctlBaud(w).0).0).0, k, gone);
  }

  lemma StagesStuck(w: World, k: nat, gone: seq<Fate>)
    requires Stuck(w, k, gone)
    ensures Stuck(IoctlBaud(w).0, k, gone) && Stuck(IoctlLine(w).0, k, gone)
    ensures Stuck(IoctlFlow(w).0, k, gone) && Stuck(IoctlMs(w).0, k, gone)
  {
    hide Emit, Send, Deaf, Le32, ToU32, FlowWords, FlowExt, LineExt, ToByte, Junk, Rts, Dtr;
    var (a, e) := (Attr(w), w.port.eki);
    EmitStuck(w.(port := w.port.(eki := e.(baud := a.baud))), CMD_IOCTL, IOCTL_SET_BAUD_RATE, 0, Le32(ToU32(a.baud)), k, gone);
    EmitStuck(w.(port := w.port.(eki := e.(pair := a.pair, stop := a.stop, byte := a.byte))),
              CMD_IOCTL, IOCTL_SET_LINE_CONTROL, 0, LineExt(ToByte(a.pair), ToByte(a.byte), ToByte(a.stop)), k, gone);
    EmitStuck(w.(port := w.port.(eki := e.(flowctl := a.flowctl))), CMD_IOCTL, IOCTL_SET_HANDFLOW, 0,
              FlowExt(FlowWords(a.flowctl).0, FlowWords(a.flowctl).1, Junk(w.env)), k, gone);
    SendDeaf(w.env, MsPkts(w.port.tid, e.ms, a.ms), gone);
  }

  lemma DataReadyStuck(w: World, p: Pkt, k: nat, gone: seq<Fate>)
    requires Stuck(w, k, gone)
    ensures StuckOrDown(DataReady(w, p), k, gone)
  {
    hide Await, RecvChars, Fill, Filter, HonestIo;
    if !(p.p1 != STATUS_SUCCESS || p.p2 != |p.ext|) && Room(w.port.tx.head, w.port.tx.tail, |w.env.tx.buf|) >= |p.ext| {
      var e := w.env.(tx := w.env.tx.(buf := Fill(w.env.tx.buf, w.port.tx.tail, p.ext)));
      AwaitDeaf(e, gone);
      var (e1, io) := Await(e);
      CopiesDeaf(e1.(tx := e1.tx.MoveTail(|p.ext|), hist := e1.hist.(accepted := e1.hist.accepted + p.ext)), io.takes, gone);
    }
  }

  lemma RecvStuck(w: World, p: Pkt, k: nat, gone: seq<Fate>)
    requires Up(w) && Stuck(w, k, gone) && !IsWrite(p)
    ensures StuckOrDown(Recv(w, p), k, gone)
  {
    hide SyncRecv, DataReady, Settle, Deaf, Logged, LastCredit;
    if Top(w) == Idle {
      DiscardDeaf(w.env, p, gone);
      SettleStuck(Pop(w.(env := w.env.(net := Discard(w.env.net, p)))), k, gone);
    } else if p.cmd == CMD_IOCTL {
      SyncRecvStuck(Push(w, Sync), p, k, gone);
    } else if p.cmd == CMD_DATAREADY {
      DataReadyStuck(w, p, k, gone);
    }
  }

  lemma DiscardDeaf(e: Env, p: Pkt, gone: seq<Fate>)
    requires Deaf(e, gone)
    ensures Deaf(e.(net := Discard(e.net, p)), gone)
  {
  }

  lemma RecvPayloadStuck(w: World, p: Pkt, r: Reading, k: nat, gone: seq<Fate>)
    requires Up(w) && Stuck(w, k, gone) && !IsWrite(p)
    ensures StuckOrDown(RecvPayload(w, p, r), k, gone)
  {
    hide Recv, Sleep, Stuck, Linked;
    UpdateStuck(w, k, gone);
    UpdateLink(w);
    SameLinkUp(w, Sleep(w));
    RecvStuck(Sleep(w), p, k, gone);
  }

  lemma RecvDespStuck(w: World, r: Reading, k: nat, gone: seq<Fate>)
    requires Up(w) && Stuck(w, k, gone)
    ensures StuckOrDown(RecvDesp(w, r), k, gone)
  {
    hide RecvPayload, UpdateTx, Filter, Linked;
    if r != Closed && r != ShortHeader && w.env.net.down != [] {
      var p := w.env.net.down[0];
      Dequeue(w.env.net.down, IsWrite);
      var w1 := w.(env := w.env.(net := w.env.net.(down := w.env.net.down[1..])));
      SameLinkUp(w, w1);
      UpdateStuck(w1, k, gone);
      UpdateLink(w1);
      SameLinkUp(w1, UpdateTx(w1));
      RecvPayloadStuck(if p.cmd == CMD_DATAREADY then UpdateTx(w1) else w1, p, r, k, gone);
    }
  }

  // ----- turns

  lemma HearStuck(w: World, wake: Wake, k: nat, gone: seq<Fate>)
    requires Good(w) && StuckOrDown(w, k, gone) && wake.Ready?
    ensures StuckOrDown(Hear(w, wake), k, gone)
  {
    hide RecvDesp, Deaf, Logged, LastCredit;
    if Down(w) {
      DownStays(w, wake);
    } else if wake.sk {
      RecvDespStuck(w.(lrecv := 0), wake.reading, k, gone);
    }
  }

  /** An open connection is not opened again; what asks for its end gets it. */
  lemma OpenCloseStuck(w: World, k: nat, gone: seq<Fate>)
    requires Up(w) && Stuck(w, k, gone)
    ensures StuckOrDown(OpenClose(w), k, gone)
  {
    hide Close, Deaf, Logged, LastCredit;
    CloseGood(w);
  }

  lemma RingsStuck(w: World, k: nat, gone: seq<Fate>)
    requires Good(w) && StuckOrDown(w, k, gone)
    ensures SendPending(w) == w && StuckOrDown(TakeCreditBack(w), k, gone)
  {
    hide Emit, Settle, Xmit, Deaf, Logged, LastCredit;
    if Down(w) {
      DownStays(w, Ready(0, false, false, Closed, false, false));
    } else if Top(w) == NetUp {
      EmitStuck(w, CMD_QUEUEFREE, 0, 0, [], k, gone);
      SettleStuck(Rpls(Emit(w, CMD_QUEUEFREE, 0, 0, []).0, Pause), k, gone);
    }
  }

  lemma ReconcileStuck(w: World, k: nat, gone: seq<Fate>)
    requires Good(w) && StuckOrDown(w, k, gone)
    ensures StuckOrDown(Reconcile(w), k, gone)
  {
    hide CommonIoctl, SettingsDiffer, Deaf, Linked;
    if Down(w) {
      DownStays(w, Ready(0, false, false, Closed, false, false));
    } else {
      IoctlStuck(w, k, gone);
    }
  }

  lemma WaitStuck(w: World, k: nat, gone: seq<Fate>)
    requires Good(w) && StuckOrDown(w, k, gone)
    ensures StuckOrDown(Event(w).0, k, gone) && StuckOrDown(Interrupt(w), k, gone) && StuckOrDown(Sleep(w), k, gone)
  {
    hide Await, XmitCopy, RecvChars, Deaf, Linked;
    if Down(w) {
      DownStays(w, Ready(0, false, false, Closed, false, false));
    } else {
      UpdateStuck(w, k, gone);
      var (e1, io) := Await(w.env);
      CopiesDeaf(e1, io.takes, gone);
      CopiesDeaf(XmitCopy(e1), io.takes, gone);
    }
  }

  lemma PollStuck(w: World, k: nat, gone: seq<Fate>)
    requires Good(w) && StuckOrDown(w, k, gone)
    ensures StuckOrDown(Poll(w), k, gone)
  {
    hide Emit, Deaf, Logged, LastCredit;
    if Up(w) && Top(w) != Idle {
      EmitStuck(Push(w, Idle), CMD_IOCTL, IOCTL_GET_WAIT_MASK, 0, [], k, gone);
    }
  }

  lemma ResumeStuck(w: World, k: nat, gone: seq<Fate>)
    requires Good(w) && StuckOrDown(w, k, gone)
    ensures StuckOrDown(Resume(w), k, gone)
  {
    hide Emit, Settle, Await, Deaf, Logged, LastCredit;
    if Up(w) && Top(w) == Pause {
      UpdateStuck(w, k, gone);
      EmitStuck(Sleep(w), CMD_QUEUEFREE, 0, 1024, [], k, gone);
      SettleStuck(Rpls(Emit(Sleep(w), CMD_QUEUEFREE, 0, 1024, []).0, NetUp), k, gone);
    }
  }

  lemma RefreshStuck(w: World, k: nat, gone: seq<Fate>)
    requires StuckOrDown(w, k, gone)
    ensures StuckOrDown(UpdateRx(w), k, gone) && StuckOrDown(UpdateTx(w), k, gone) && StuckOrDown(UpdateAttr(w), k, gone)
  {
    hide UpdateRx, UpdateTx, UpdateAttr, Stuck;
    UpdateLink(w);
    if !Down(w) {
      UpdateStuck(w, k, gone);
    }
  }

  lemma BeforeStuck(w: World, k: nat, gone: seq<Fate>)
    requires Up(w) && Good(w) && Stuck(w, k, gone)
    ensures StuckOrDown(Before(w).0, k, gone)
  {
    hide OpenClose, Reconcile, SendPending, TakeCreditBack, Event, Interrupt, Linked, Stuck, Down;
    OpenCloseGood(w);
    OpenCloseStuck(w, k, gone);
    var w1 := OpenClose(w);
    StagesKeep(w1);
    ReconcileStuck(w1, k, gone);
    var w2 := Reconcile(w1);
    StagesKeep(w2);
    RingsStuck(w2, k, gone);
    var w3 := TakeCreditBack(w2);
    StagesKeep(w3);
    WaitStuck(w3, k, gone);
    WaitStuck(Event(w3).0, k, gone);
  }

  lemma AfterStuck(w: World, rd: bool, wr: bool, wake: Wake, k: nat, gone: seq<Fate>)
    requires Good(w) && StuckOrDown(w, k, gone)
    ensures StuckOrDown(AfterSelect(w, rd, wr, wake), k, gone)
  {
    hide Poll, Hear, Resume, UpdateRx, UpdateTx, UpdateAttr, Up, Down, Stuck;
    match wake
    case Timeout => PollStuck(w, k, gone);
    case Ready(_, pri, _, _, rdReady, wrReady) =>
      UpdateLink(w);
      SameLinkGood(w, UpdateAttr(w));
      RefreshStuck(w, k, gone);
      var w0 := if pri then UpdateAttr(w) else w;
      HearGood(w0, wake);
      HearStuck(w0, wake, k, gone);
      var w1 := Hear(w0, wake);
      UpdateLink(w1);
      SameLinkGood(w1, UpdateRx(w1));
      RefreshStuck(w1, k, gone);
      var w2 := if rd && rdReady then UpdateRx(w1) else w1;
      UpdateLink(w2);
      SameLinkGood(w2, UpdateTx(w2));
      RefreshStuck(w2, k, gone);
      ResumeStuck(UpdateTx(w2), k, gone);
  }

  lemma TurnStuck(w: World, t: Tick, k: nat, gone: seq<Fate>)
    requires Up(w) && Good(w) && Stuck(w, k, gone) && HonestIo(t.io)
    ensures StuckOrDown(Turn(w, t), k, gone)
  {
    hide Before, AfterSelect, Sleep, Logged, LastCredit, NoWriteUnderWay, HonestIo;
    var w0 := w.(env := w.env.(io := t.io));
    SameLinkUp(w, w0);
    BeforeGood(w0);
    BeforeStuck(w0, k, gone);
    var (w1, rd, wr) := Before(w0);
    UpdateLink(w1);
    SameLinkGood(w1, Sleep(w1));
    WaitStuck(w1, k, gone);
    AfterStuck(Sleep(w1), rd, wr, t.wake, k, gone);
  }

  // ----- the results

  /**
   While the answer to a WRITE is lost, no run of the connection retires a byte or forgets that it waits: either it is
   still stuck at the end, or the connection ended on the way.
   */
  lemma {:induction false} LostAnswerStallsUplink(w: World, ticks: seq<Tick>, k: nat, gone: seq<Fate>)
    requires Good(w) && StuckOrDown(w, k, gone) && HonestTicks(ticks)
    ensures Stuck(Run(w, ticks), k, gone) || exists n :: 0 <= n <= |ticks| && Down(Run(w, ticks[..n]))
    decreases |ticks|
  {
    hide Turn, Up, Down, Stuck;
    if Down(w) {
      assert Run(w, ticks[..0]) == w;
    } else if ticks != [] {
      TurnStuck(w, ticks[0], k, gone);
      TurnGood(w, ticks[0]);
      var (v, rest) := (Turn(w, ticks[0]), ticks[1..]);
      LostAnswerStallsUplink(v, rest, k, gone);
      if !Stuck(Run(v, rest), k, gone) {
        var n :| 0 <= n <= |rest| && Down(Run(v, rest[..n]));
        assert ticks[..n + 1][1..] == rest[..n];
        assert Down(Run(w, ticks[..n + 1]));
      }
    }
  }

  /**
   The answer to a WRITE is acted on if and only if Idle is not the current state when it is read; if Idle is, the
   connection is stuck from then on.
   */
  lemma IdleLosesTheAnswer(w: World, p: Pkt, c: nat)
    requires Up(w) && Taking(w, p, c, true) && IsWrite(p) && w.port.pending > 0
    ensures Recv(w, p).port.pending == 0 <==> Top(w) != Idle
    ensures Top(w) == Idle ==> Stuck(Recv(w, p), w.port.pending, w.env.hist.upGone)
  {
    hide Settle, IocRxHead, UpdateRx, UpdateTx, Conserved, Accounted, Bounded, StopAndWait, Registrations, Span, Filter, Logged, LastCredit, InRange;
    if Top(w) == Idle {
      var w1 := w.(env := w.env.(net := Discard(w.env.net, p)));
      PopStuck(w1, w.port.pending, w.env.hist.upGone);
    } else if IsXmitReply(p, STATUS_SUCCESS, w.port.pending) {
      UpdateRxSpares(w.(env := IocRxHead(w.env, w.port.pending), port := w.port.(pending := 0)));
    }
  }

  /** Received data that fits is appended to the downlink ring if and only if Idle is not the current state. */
  lemma IdleLosesData(w: World, p: Pkt, c: nat, honest: bool)
    requires Up(w) && Taking(w, p, c, honest) && p.cmd == CMD_DATAREADY && p.p1 == STATUS_SUCCESS && p.p2 == |p.ext|
    requires 0 < |p.ext| <= Room(w.port.tx.head, w.port.tx.tail, |w.env.tx.buf|)
    ensures Recv(w, p).env.hist.accepted == w.env.hist.accepted + p.ext <==> Top(w) != Idle
  {
    hide DataReady, UpdateRx, UpdateTx, Await, Conserved, Accounted, Bounded, StopAndWait, Registrations, Span, Filter, Logged, LastCredit, Room;
    if Top(w) == Idle {
      var w1 := w.(env := w.env.(net := Discard(w.env.net, p)));
      SettleAcceptsNothing(Pop(w1));
      assert |w.env.hist.accepted + p.ext| > |w.env.hist.accepted|;
    } else {
      DataReadyDelivers(w, p, w.port.pending, c, honest);
    }
  }

  lemma SettleAcceptsNothing(w: World)
    ensures Settle(w).env.hist.accepted == w.env.hist.accepted
  {
  }
}
