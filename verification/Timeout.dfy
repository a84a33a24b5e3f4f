/** A peer that falls silent is given up within a bounded number of turns. */
module Timeout {
  import opened Words
  import opened Packets
  import opened Rings
  import opened Worlds
  import opened Handlers
  import opened Control

  /** No connection any more, or still as many states on the stack. */
  predicate Level(w: World, v: World) { Down(v) || |v.port.stk| == |w.port.stk| }

  lemma EmitStack(w: World, cmd: u16, p1: u32, p2: u32, ext: Ext)
    ensures Emit(w, cmd, p1, p2, ext).0.port.stk == w.port.stk
  {
  }

  lemma IoctlLevel(w: World)
    requires Up(w)
    ensures Level(w, Ioctl(w))
  {
    hide IoctlBaud, IoctlLine, IoctlFlow, IoctlMs, Logged, LastCredit, WellFormed, Attr;
    IoctlStages(w);
    var (w1, ok1) := IoctlBaud(w);
    if ok1 {
      IoctlStages(w1);
      var (w2, ok2) := IoctlLine(w1);
      if ok2 {
        IoctlStages(w2);
        var (w3, ok3) := IoctlFlow(w2);
        if ok3 {
          IoctlMsStage(w3);
        }
      }
    }
  }

  lemma XmitLevel(w: World)
    ensures Level(w, CommonXmit(w))
  {
    hide Emit, Excp, Down, SnapContents;
    var len := Min(XMIT_LEN, |SnapContents(w)|);
    EmitStack(w, CMD_WRITE, len, 0, SnapContents(w)[..len]);
    ExcpIsDown(Emit(w, CMD_WRITE, len, 0, SnapContents(w)[..len]).0);
  }

  lemma PauseLevel(w: World)
    ensures Level(w, PauseOp(w))
  {
    hide Emit, Settle, Excp, Down, Logged, LastCredit;
    if Top(w) == NetUp {
      var w1 := Emit(w, CMD_QUEUEFREE, 0, 0, []).0;
      EmitStack(w, CMD_QUEUEFREE, 0, 0, []);
      SettleLink(Rpls(w1, Pause));
      ExcpIsDown(w1);
    }
  }

  lemma EventLevel(w: World)
    ensures Level(w, Event(w).0)
  {
    hide Await, Excp, Down;
    ExcpIsDown(Sleep(w));
  }

  lemma StagesLevel(w: World)
    requires Good(w)
    ensures Level(w, Reconcile(w)) && Level(w, SendPending(w)) && Level(w, TakeCreditBack(w)) && Level(w, Event(w).0)
  {
    hide Ioctl, CommonXmit, PauseOp, Event, SettingsDiffer, Linked;
    EventLevel(w);
    XmitLevel(w);
    if Down(w) {
      DownStays(w, Ready(0, false, false, Closed, false, false));
    } else {
      IoctlLevel(w);
      PauseLevel(w);
    }
  }

  lemma BeforeLevel(w: World)
    requires Good(w) && Up(w)
    ensures Level(w, Before(w).0)
  {
    hide OpenClose, Reconcile, SendPending, TakeCreditBack, Event, Interrupt, Linked;
    OpenCloseLevel(w);
    OpenCloseGood(w);
    var w1 := OpenClose(w);
    StagesKeep(w1);
    StagesLevel(w1);
    var w2 := Reconcile(w1);
    StagesKeep(w2);
    StagesLevel(w2);
    var w3 := SendPending(w2);
    StagesKeep(w3);
    StagesLevel(w3);
    var w4 := TakeCreditBack(w3);
    StagesKeep(w4);
    StagesLevel(w4);
    InterruptLink(Event(w4).0);
  }

  lemma OpenCloseLevel(w: World)
    requires Up(w)
    ensures Level(w, OpenClose(w))
  {
    hide Close, Logged, LastCredit;
    CloseGood(w);
  }

  lemma ResumeLevel(w: World)
    ensures Level(w, Resume(w))
  {
    hide Emit, Settle, Await, Logged, LastCredit;
    if Top(w) == Pause {
      var w1 := Sleep(w);
      EmitStack(w1, CMD_QUEUEFREE, 0, 1024, []);
      SettleLink(Rpls(Emit(w1, CMD_QUEUEFREE, 0, 1024, []).0, NetUp));
    }
  }

  /** A turn in which the device is not heard. */
  predicate Silent(t: Tick) { t.wake.Ready? ==> !t.wake.sk }

  lemma SilentPoll(w: World)
    requires Good(w)
    ensures Down(Poll(w)) || (|w.port.stk| == 2 && |Poll(w).port.stk| == 3 && Poll(w).lrecv == w.lrecv)
  {
    hide Emit, Logged, LastCredit;
    if Up(w) && Top(w) != Idle {
      EmitStack(Push(w, Idle), CMD_IOCTL, IOCTL_GET_WAIT_MASK, 0, []);
    }
  }

  lemma SilentHear(w: World, wake: Wake)
    requires Good(w) && wake.Ready? && !wake.sk
    ensures var v := Hear(w, wake);
            Good(v) && (Down(v) || (|v.port.stk| == |w.port.stk| && v.lrecv > w.lrecv))
  {
    hide RecvDesp, Logged, LastCredit;
    HearGood(w, wake);
  }

  /** After select: a timeout is answered by Idle and then by giving up; a wakeup brings the clock forward. */
  lemma SilentAfterSelect(w: World, rd: bool, wr: bool, wake: Wake)
    requires Good(w) && (wake.Ready? ==> !wake.sk)
    ensures var v := AfterSelect(w, rd, wr, wake);
            Down(v) || if wake.Timeout? then |w.port.stk| == 2 && |v.port.stk| == 3 && v.lrecv == w.lrecv
                       else |v.port.stk| == |w.port.stk| && v.lrecv > w.lrecv
  {
    hide Poll, Hear, Resume, UpdateRx, UpdateTx, UpdateAttr, Linked, WellFormed, Await;
    match wake
    case Timeout =>
      SilentPoll(w);
    case Ready(_, pri, _, _, rdReady, wrReady) =>
      UpdateLink(w);
      SameLinkGood(w, UpdateAttr(w));
      var w0 := if pri then UpdateAttr(w) else w;
      SilentHear(w0, wake);
      var w1 := Hear(w0, wake);
      UpdateLink(w1);
      SameLinkGood(w1, UpdateRx(w1));
      var w2 := if rd && rdReady then UpdateRx(w1) else w1;
      UpdateLink(w2);
      SameLinkGood(w2, UpdateTx(w2));
      var w3 := UpdateTx(w2);
      if Down(w3) {
        DownStays(w3, wake);
      } else {
        ResumeGood(w3);
        ResumeLevel(w3);
      }
  }

  lemma SilentTurn(w: World, t: Tick)
    requires Good(w) && Up(w) && Silent(t)
    ensures var v := Turn(w, t);
            Down(v) || if t.wake.Timeout? then |w.port.stk| == 2 && |v.port.stk| == 3 && v.lrecv == w.lrecv
                       else |v.port.stk| == |w.port.stk| && v.lrecv > w.lrecv
  {
    hide Before, AfterSelect, Sleep, Linked;
    var w0 := w.(env := w.env.(io := t.io));
    SameLinkGood(w, w0);
    BeforeGood(w0);
    SameLinkUp(w, w0);
    BeforeLevel(w0);
    var (w1, rd, wr) := Before(w0);
    UpdateLink(w1);
    SameLinkGood(w1, Sleep(w1));
    SilentAfterSelect(Sleep(w1), rd, wr, t.wake);
    AfterSelectGood(Sleep(w1), rd, wr, t.wake);
  }

  function Timeouts(ticks: seq<Tick>): nat {
    if ticks == [] then 0 else (if ticks[0].wake.Timeout? then 1 else 0) + Timeouts(ticks[1..])
  }

  lemma TimeoutsBound(ticks: seq<Tick>)
    ensures Timeouts(ticks) <= |ticks|
  {
  }

  /** The timeouts a connection survives from here: two, or one once it is Idle. */
  function Patience(w: World): nat { if |w.port.stk| == 3 then 1 else 2 }

  /**
   Without a packet from the device, a connection ends within two timeouts of select, or within VC_PULL_TIME + 1 wakeups
   for other reasons, whichever comes first; less if it was Idle, or had been waiting, already.
   */
  lemma {:induction false} SilentPeerIsGivenUp(w: World, ticks: seq<Tick>)
    requires Good(w) && forall i :: 0 <= i < |ticks| ==> Silent(ticks[i])
    requires Timeouts(ticks) >= Patience(w) || w.lrecv + |ticks| - Timeouts(ticks) > VC_PULL_TIME
    ensures exists n :: 0 <= n <= |ticks| && Down(Run(w, ticks[..n]))
    decreases |ticks|
  {
    hide Turn, Logged, LastCredit;
    if Down(w) {
      assert Run(w, ticks[..0]) == w;
    } else {
      TimeoutsBound(ticks);
      SilentTurn(w, ticks[0]);
      TurnGood(w, ticks[0]);
      var v := Turn(w, ticks[0]);
      var rest := ticks[1..];
      if Down(v) {
        assert ticks[..1] == [ticks[0]];
        assert Run(v, ticks[..1][1..]) == v;
        assert Down(Run(w, ticks[..1]));
      } else {
        SilentPeerIsGivenUp(v, rest);
        var n :| 0 <= n <= |rest| && Down(Run(v, rest[..n]));
        assert ticks[..n + 1][1..] == rest[..n];
        assert Down(Run(w, ticks[..n + 1]));
      }
    }
  }
}
