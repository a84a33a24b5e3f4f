/**
 From one connection to the next. A close flushes the downlink ring but does not refresh the daemon's copy of its head and
 tail; what the copy held at the close decides the state and the credit of the next connection.
 */
module Reopening {
  import opened Words
  import opened Packets
  import opened Rings
  import opened Attributes
  import opened Worlds
  import opened Handlers
  import opened Control
  import opened Settings
  import opened Runs

  predicate Drained(e: Env) { e.tx.head == e.tx.tail }

  // ----- an empty downlink ring stays empty, since only the daemon fills it

  lemma StepDrained(e: Env, s: EnvStep)
    requires Drained(e)
    ensures Drained(Step(e, s))
  {
    hide XmitCopy, Mark, Span;
    match s
    case Unthrottle(takes) => CopyDrained(e.(throttled := false), takes);
    case StartTx => CopyDrained(e.(rx := e.rx.(enabled := true)), []);
    case _ =>
  }

  lemma CopyDrained(e: Env, takes: seq<nat>)
    requires Drained(e)
    ensures Drained(RecvChars(e, takes)) && Drained(XmitCopy(e))
  {
    hide Mark, Span, Fill;
    ModOnce(e.tx.head, |e.tx.buf|);
  }

  lemma StepsDrained(e: Env, ss: seq<EnvStep>)
    requires Drained(e)
    ensures Drained(Steps(e, ss))
    decreases |ss|
  {
    hide Step;
    if ss != [] {
      StepDrained(e, ss[0]);
      StepsDrained(Step(e, ss[0]), ss[1..]);
    }
  }

  lemma AwaitDrained(e: Env)
    ensures Drained(e) ==> Drained(Await(e).0)
  {
    hide Steps;
    if e.io != [] && Drained(e) {
      StepsDrained(e.(io := e.io[1..]), e.io[0].env);
    }
  }

  lemma EmitDrained(w: World, cmd: u16, p1: u32, p2: u32, ext: Ext)
    ensures Drained(w.env) ==> Drained(Emit(w, cmd, p1, p2, ext).0.env)
  {
    hide Await, EncodeAll;
    AwaitDrained(w.env);
  }

  lemma SettleDrained(w: World)
    ensures Drained(w.env) ==> Drained(Settle(w).env)
  {
    hide Await;
    AwaitDrained(w.env);
    AwaitDrained(Await(w.env).0);
    AwaitDrained(UpdateRx(w).env);
    AwaitDrained(Await(UpdateRx(w).env).0);
  }

  // ----- opening

  lemma SyncEventFollows(w: World)
    ensures var v := SyncEvent(w).0;
            (Drained(w.env) ==> Drained(v.env)) && v.port.tx == w.port.tx
  {
    hide Emit, Be32;
    EmitDrained(w, CMD_IOCTL, IOCTL_SET_WAIT_MASK, 0, Be32(0x38010000));
    EmitDrained(Emit(w, CMD_IOCTL, IOCTL_SET_WAIT_MASK, 0, Be32(0x38010000)).0, CMD_IOCTL, IOCTL_GET_MODEMSTATUS, 0, []);
  }

  lemma ExcpKeepsCopy(w: World)
    ensures Excp(w).port.tx == w.port.tx && Excp(w).env == w.env && Excp(w).port.stk == [NetDown]
  {
  }

  lemma SettlePopStack(w: World)
    requires |w.port.stk| >= 2
    ensures Settle(Pop(w)).port.stk == w.port.stk[..|w.port.stk| - 1]
  {
    hide Await;
  }

  /** The handshake of a connection, from `w` to `v`: it fails and the copy is as it was, or its two states are left. */
  predicate Tried(w: World, v: World) {
    && (Drained(w.env) ==> Drained(v.env))
    && ((v.port.stk == [NetDown] && v.port.tx == w.port.tx) || (|w.port.stk| >= 2 && v.port.stk == w.port.stk[..2]))
  }

  lemma SyncRestFollows(w: World)
    requires Top(w) == Sync
    ensures Tried(w, SyncRest(w))
  {
    hide Emit, SyncEvent, Settle, Excp;
    SyncEventFollows(w);
    var (w1, ok1) := SyncEvent(w);
    ExcpKeepsCopy(w1);
    if ok1 {
      var credit := if w1.port.tx.head == w1.port.tx.tail then 1024 else 0;
      EmitDrained(w1, CMD_QUEUEFREE, 0, credit, []);
      var (w2, ok2) := Emit(w1, CMD_QUEUEFREE, 0, credit, []);
      ExcpKeepsCopy(w2);
      SettleDrained(Pop(w2));
      SettlePopStack(w2);
    }
  }

  lemma SyncInitFollows(w: World)
    requires Top(w) == Sync
    ensures Tried(w, SyncInit(w))
  {
    hide Emit, SyncRest, Excp, Rts, Dtr, Shaped, Fits, InRange;
    var ms := Attr(w).ms;
    var rts := if Rts(ms) then IOCTL_SET_RTS else IOCTL_CLR_RTS;
    EmitDrained(w, CMD_IOCTL, rts, 0, []);
    EmitDrained(Emit(w, CMD_IOCTL, rts, 0, []).0, CMD_IOCTL, if Dtr(ms) then IOCTL_SET_DTR else IOCTL_CLR_DTR, 0, []);
    var (w1, ok1) := SyncMs(w, ms);
    ExcpKeepsCopy(w1);
    if ok1 {
      SyncRestFollows(w1.(port := w1.port.(eki := w1.port.eki.(ms := ms))));
    }
  }

  lemma CommonOpenFollows(w: World)
    requires |w.port.stk| == 2
    ensures Tried(w, CommonOpen(w))
  {
    hide Await, EncodeAll, SyncInit, Excp;
    AwaitDrained(w.env);
    var (e, ok) := Send(w.env, [Sent(w.port.tid, OpenPkt(1, w.port.devid, w.port.port))]);
    ExcpKeepsCopy(w.(env := e));
    if ok {
      SyncInitFollows(Push(w.(env := e, port := w.port.(tid := w.port.tid + 1, eki := w.port.eki.(isOpen := true))), Sync));
    }
  }

  /** The state of a new connection is chosen by the daemon's copy of the downlink ring. */
  lemma NetDownOpenFollows(w: World)
    requires Down(w)
    ensures var v := NetDownOpen(w);
            && (Drained(w.env) ==> Drained(v.env))
            && ((v.port.stk == [NetDown] && v.port.tx == w.port.tx)
                || v.port.stk == [NetDown, if w.port.tx.head == w.port.tx.tail then NetUp else Pause])
  {
    hide Await, CommonOpen;
    AwaitDrained(w.env);
    var (e, sk) := Connect(w.env);
    if sk >= 0 {
      var w1 := w.(env := e, port := w.port.(sk := sk));
      CommonOpenFollows(Push(w1, if w1.port.tx.head == w1.port.tx.tail then NetUp else Pause));
    }
  }

  // ----- closing, and the time without a connection

  /** No connection; the downlink ring is empty, whatever the daemon's copy of it says. */
  predicate Stale(w: World, tx: Snap) { Down(w) && w.port.tx == tx && Drained(w.env) }

  lemma ClearDrains(w: World)
    ensures BufClear(w).port.tx == w.port.tx && Drained(BufClear(w).env)
  {
    hide Await, Mark, Span;
    var e1 := IocClear(w.env);
    AwaitDrained(e1);
    var e2 := IocRxHead(e1, 0);
    AwaitDrained(e2);
    AwaitDrained(Await(e2).0);
    var w2 := UpdateRx(w.(env := e2));
    AwaitDrained(w2.env);
    AwaitDrained(Await(w2.env).0);
  }

  lemma CloseLeavesStale(w: World)
    requires Up(w)
    ensures Stale(Close(w), w.port.tx)
  {
    hide BufClear, Emit, Excp, Le32, Logged, LastCredit;
    ClearDrains(w);
    var w1 := BufClear(w);
    EmitDrained(w1, CMD_IOCTL, IOCTL_PURGE, 0, Le32(0x0000000f));
    EmitDrained(Purge(w1), CMD_CLOSE, 0, 0, []);
    var w2 := Emit(Purge(w1), CMD_CLOSE, 0, 0, []).0;
    ExcpKeepsCopy(w2);
    ExcpIsDown(w2);
  }

  lemma WaitStale(w: World, tx: Snap)
    requires Stale(w, tx)
    ensures Stale(Sleep(w), tx) && Stale(Interrupt(w), tx) && Stale(UpdateAttr(w), tx)
  {
    hide Await, RecvChars, XmitCopy;
    AwaitDrained(w.env);
    var (e1, io) := Await(w.env);
    CopyDrained(e1, io.takes);
    CopyDrained(XmitCopy(e1), io.takes);
  }

  /** Opening or closing, as the turn asks for. */
  function Opened(w: World, t: Tick): World { OpenClose(w.(env := w.env.(io := t.io))) }

  /** A turn that ends up without a connection leaves the copy as it is. */
  lemma TurnStale(w: World, t: Tick, tx: Snap)
    requires Stale(Opened(w, t), tx)
    ensures Stale(Turn(w, t), tx)
  {
    hide OpenClose, Reconcile, SendPending, TakeCreditBack, Event, Interrupt, Poll, Hear, UpdateAttr, Sleep, Resume, Down;
    var w1 := Opened(w, t);
    DownStays(w1, Ready(0, false, false, Closed, false, false));
    WaitStale(w1, tx);
    WaitStale(Interrupt(w1), tx);
    var w2 := Sleep(Interrupt(w1));
    WaitStale(w2, tx);
    DownStays(w2, Ready(0, false, false, Closed, false, false));
    if t.wake.Ready? {
      DownStays(w2, t.wake);
      DownStays(UpdateAttr(w2), t.wake);
    }
  }

  lemma OpenedIsStale(w: World, t: Tick, tx: Snap)
    requires Stale(w, tx) && Down(Opened(w, t))
    ensures Stale(Opened(w, t), tx)
  {
    hide NetDownOpen, Close;
    NetDownOpenFollows(w.(env := w.env.(io := t.io)));
  }

  lemma ClosedIsStale(w: World, t: Tick)
    requires Up(w) && !Attr(w).isOpen
    ensures Stale(Opened(w, t), w.port.tx)
  {
    hide Close, Logged, LastCredit;
    var w0 := w.(env := w.env.(io := t.io));
    SameLinkUp(w, w0);
    CloseLeavesStale(w0);
  }

  lemma {:induction false} StaysStale(trace: seq<World>, ticks: seq<Tick>, i: nat, j: nat)
    requires Execution(trace, ticks) && i < j < |ticks| && Connected(trace[i]) && !Attr(trace[i]).isOpen
    requires forall m {:trigger ticks[m]} :: i < m < j ==> Down(Opened(trace[m], ticks[m]))
    ensures Stale(trace[j], trace[i].port.tx)
  {
    hide Turn, Opened, Stale, Launched, Good, Up, Down, WellFormed;
    if j == i + 1 {
      Throughout(trace, ticks, i, false);
      ConnectedIsUp(trace[i]);
      ClosedIsStale(trace[i], ticks[i]);
    } else {
      StaysStale(trace, ticks, i, j - 1);
      OpenedIsStale(trace[j - 1], ticks[j - 1], trace[i].port.tx);
    }
    TurnStale(trace[j - 1], ticks[j - 1], trace[i].port.tx);
    assert trace[j] == Turn(trace[j - 1], ticks[j - 1]);
  }

  lemma ConnectedIsUp(w: World)
    requires Good(w) && Connected(w)
    ensures Up(w)
  {
    hide Logged, LastCredit;
  }

  lemma OpenedStarts(w: World, t: Tick, tx: Snap)
    requires Stale(w, tx)
    ensures var v := Opened(w, t);
            Connected(v) ==> v.env.tx.Contents() == [] && v.port.stk == [NetDown, if tx.head == tx.tail then NetUp else Pause]
  {
    hide NetDownOpen, Close;
    NetDownOpenFollows(w.(env := w.env.(io := t.io)));
  }

  lemma OpenedHasCredit(w: World, t: Tick)
    requires Good(w)
    ensures Connected(Opened(w, t)) ==> LastCredit(Opened(w, t).env.net.sent) == CreditOf(Opened(w, t).port.stk[1])
  {
    hide OpenClose, LastCredit, Logged;
    var w0 := w.(env := w.env.(io := t.io));
    SameLinkGood(w, w0);
    OpenCloseGood(w0);
  }

  /**
   Turn `i` closes a connection, and no turn before `j` makes one. If turn `j` does, then the downlink ring is empty; but the
   new connection starts in Pause, with credit 0, if and only if the daemon's copy of the ring was not empty at the close.
   `Reopened.CopyIsStale` reaches this.
   */
  lemma StaleCopyPauses(trace: seq<World>, ticks: seq<Tick>, i: nat, j: nat)
    requires Execution(trace, ticks) && i < j < |ticks| && Connected(trace[i]) && !Attr(trace[i]).isOpen
    requires forall m {:trigger ticks[m]} :: i < m < j ==> Down(Opened(trace[m], ticks[m]))
    ensures var (v, tx) := (Opened(trace[j], ticks[j]), trace[i].port.tx);
            Connected(v) ==>
            && v.env.tx.Contents() == []
            && (v.port.stk == [NetDown, Pause] <==> tx.head != tx.tail)
            && LastCredit(v.env.net.sent) == if tx.head != tx.tail then 0 else 1024
  {
    hide Opened, LastCredit, Turn, Launched, Good;
    StaysStale(trace, ticks, i, j);
    Throughout(trace, ticks, j, false);
    OpenedStarts(trace[j], ticks[j], trace[i].port.tx);
    OpenedHasCredit(trace[j], ticks[j]);
  }

  // ----- the first reconciliation

  /** A new connection: its state, its mirror, and what the device has after the handshake. */
  lemma OpenedIsFresh(w: World, t: Tick, c: Config)
    requires Down(w)
    ensures var (v, w0) := (Opened(w, t), w.(env := w.env.(io := t.io)));
            Connected(v) ==>
            && v == NetDownOpen(w0) && v.port.sk >= 0 && (Top(v) == NetUp || Top(v) == Pause)
            && v.port.eki == FRESH_EKI.(isOpen := true, ms := Attr(w).ms) && Attr(v) == Attr(w)
  {
    hide NetDownOpen, Close, ObeyAll, Rts, Dtr, Logged, LastCredit;
    var w0 := w.(env := w.env.(io := t.io));
    OpenObeyed(w0, c);
    NetDownOpenGood(w0);
    NetDownOpenFollows(w0);
  }

  lemma FreshReconciles(v: World)
    requires v.port.eki.pair == PAIR_UNDEF && (Top(v) == NetUp || Top(v) == Pause)
    ensures Reconcile(v) == CommonIoctl(v)
  {
    hide CommonIoctl;
  }

  /**
   In any execution, the turn that makes a connection leaves the device with the published settings, when no send fails, if
   and only if it had the baud rate 0 already in case that is published.
   */
  lemma FirstTurnMatches(trace: seq<World>, ticks: seq<Tick>, i: nat, c: Config)
    requires Execution(trace, ticks) && i < |ticks| && Down(trace[i])
    ensures var (v, a) := (Reconcile(Opened(trace[i], ticks[i])), Attr(trace[i]));
            Connected(Opened(trace[i], ticks[i])) && v.port.sk >= 0 ==>
              && v.port.eki.(isOpen := true) == a.(isOpen := true)
              && (Matches(ObeyAll(c, v.env.net.sent), a) <==> (a.baud == 0 ==> c.baud == 0))
  {
    hide Opened, Turn, Launched, NetDownOpen, CommonIoctl, Reconcile, ObeyAll, Matches;
    var w := trace[i];
    if Connected(Opened(w, ticks[i])) {
      OpenedIsFresh(w, ticks[i], c);
      FreshReconciles(Opened(w, ticks[i]));
      FreshConnectionMatches(w.(env := w.env.(io := ticks[i].io)), c);
    }
  }
}
