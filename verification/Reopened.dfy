/**
 An execution in which the daemon's stale copy of the downlink ring matters: one byte that the tty does not take, a close,
 and a connection that starts in Pause although the ring is empty.
 */
module Reopened {
  import opened Words
  import opened Packets
  import opened Rings
  import opened Attributes
  import opened Worlds
  import opened Handlers
  import opened Control
  import opened Pipes
  import opened PipeRuns
  import opened Reopening
  import opened Runs
  import opened Witnesses

  const EMPTY := Ring([0, 0], 0, 0, true, false)
  const FULL := Ring([9, 0], 0, 1, true, false)

  /** The daemon starts; the downlink ring holds a byte that it finds there. */
  const HOLDING: World := Machine(
    Port([NetDown], -1, 0, 0, FRESH_EKI, 0, Snap(0, 0), Snap(0, 1), 1, 1),
    Env(EMPTY, FULL, [], ATT, false, NO_NET, Hist([], [], [9], [], []), []),
    0, false)

  lemma HoldingIsLaunched()
    ensures Launched(HOLDING)
  {
    var s := FULL.Contents();
    assert |s| == 1 && s[0] == FULL.buf[Wrap(FULL.head + 0, 2)] && FULL.buf[0] == 9;
    assert Bytes([]) == [] && [] + [9] == [9] && [] + EMPTY.Contents() + [] == [];
    assert HOLDING.env.hist.upGone[0..] == [];
  }

  const WAKE := Ready(0, true, false, Closed, false, false)

  const CLOSING := IoStep([Shutdown], true, 0, 0, [], [0, 0, 0, 0])
  const OPENING := IoStep([Startup], true, 0, 0, [], [0, 0, 0, 0])

  const TICK_OPEN := Tick(Fines(16) + [CLOSING], WAKE)
  const TICK_CLOSE := Tick([OPENING], WAKE)
  const TICK_REOPEN := Tick(Fines(11), Timeout)

  // ----- the first turn: a connection, and the application closes the port at its end

  /** The scene of the first turn. */
  const ONE_BYTE: World := HOLDING.(env := HOLDING.env.(io := [CLOSING]))

  lemma BeforeHolding(w: World)
    requires At(w, ONE_BYTE, 16) && w.port == HOLDING.port
    ensures var (v, rd, wr) := Before(w);
            && At(v, ONE_BYTE, 1) && v.port.stk == [NetDown, Pause] && v.port.sk == 0 && v.port.tx == Snap(0, 1)
            && v.port.eki.isOpen
  {
    hide NetDownOpen, CommonIoctl, Interrupt, Await, Fines;
    NetDownOpenAt(w, ONE_BYTE, 5);
    var w1 := NetDownOpen(w);
    CommonIoctlAt(w1, ONE_BYTE, Pause, 3);
    var w2 := CommonIoctl(w1);
    AwaitScene(w2, ONE_BYTE, 2);
    InterruptAt(Sleep(w2), ONE_BYTE, 1);
  }

  /** The settings after the port was closed and published so. */
  const CLOSED_ATT := ATT.(attr := ZERO_INFO, ptr := 1, slots := [ZERO_INFO.(isOpen := true), ZERO_INFO])

  /** Connected, with the byte in the daemon's copy, and the port seen closed. */
  predicate Paused(v: World) {
    && v.port.stk == [NetDown, Pause] && v.port.tx == Snap(0, 1) && v.port.attrPtr == 1 && v.env.att == CLOSED_ATT
    && v.env.circ == [] && v.env.tx == FULL
  }

  lemma ShutdownSeen(w: World)
    requires At(w, ONE_BYTE, 0) && w.port.stk == [NetDown, Pause] && w.port.tx == Snap(0, 1)
    ensures var v := UpdateAttr(w); Paused(v) && v.port.sk == w.port.sk && v.lrecv == w.lrecv
  {
    assert Fines(0) + [CLOSING] == [CLOSING] && [CLOSING][1..] == [];
    assert Steps(w.env.(io := []), [Shutdown]) == Step(w.env.(io := []), Shutdown);
    assert CLOSED_ATT.slots == ATT.slots[1 := ZERO_INFO];
  }

  lemma HearNothing(w: World)
    requires Paused(w) && w.lrecv == 0
    ensures Paused(Hear(w, WAKE))
  {
  }

  lemma FirstTurnPauses()
    ensures Paused(Turn(HOLDING, TICK_OPEN))
  {
    hide Before, UpdateAttr, Await, Fines, Launched, Logged, LastCredit, Paused, Hear, Up;
    var w := HOLDING.(env := HOLDING.env.(io := TICK_OPEN.io));
    assert At(w, ONE_BYTE, 16);
    HoldingIsLaunched();
    LaunchedIsSound(HOLDING, false);
    BeforeHolding(w);
    BeforeGood(w);
    var w1 := Before(w).0;
    SleepAt(w1, ONE_BYTE, 0);
    ShutdownSeen(Sleep(w1));
    HearNothing(UpdateAttr(Sleep(w1)));
  }

  // ----- the second turn: the daemon closes the connection while the application opens the port again

  /** The rest of a script is empty: every further call fails, and nothing else happens. */
  lemma CloseInPeace(w: World)
    requires w.port.stk == [NetDown, Pause] && w.env.io == [OPENING] && w.env.circ == []
    ensures var v := Close(w);
            && v.env.io == [] && v.env.circ == [] && v.port.attrPtr == w.port.attrPtr
            && v.env.att == w.env.att.(attr := w.env.att.attr.(isOpen := true))
  {
    hide Mark, Span, EncodeAll, Le32;
    assert [OPENING][1..] == [];
    assert Steps(w.env.(io := []), [Startup]) == Step(w.env.(io := []), Startup);
  }

  lemma SecondTurnCloses(w: World)
    requires Paused(w) && Up(w)
    ensures var v := Turn(w, TICK_CLOSE);
            Stale(v, Snap(0, 1)) && v.env.circ == [] && Attr(v) == ZERO_INFO.(isOpen := true)
  {
    hide Close, Logged, LastCredit, Turn;
    ClosedIsStale(w, TICK_CLOSE);
    TurnStale(w, TICK_CLOSE, Snap(0, 1));
    var w0 := w.(env := w.env.(io := [OPENING]));
    CloseInPeace(w0);
    AfterClose(w, Close(w0));
  }

  lemma AfterClose(w: World, v: World)
    requires Paused(w) && w.port.eki.isOpen && Down(v)
    requires v.env.io == [] && v.env.circ == [] && v.env.att == CLOSED_ATT.(attr := ZERO_INFO.(isOpen := true))
    ensures var u := Turn(w, TICK_CLOSE);
            v == Close(w.(env := w.env.(io := [OPENING]))) ==> u.env.circ == [] && Attr(u) == ZERO_INFO.(isOpen := true)
  {
    hide Close, Reconcile, SendPending, TakeCreditBack, Event, Interrupt, Hear, UpdateAttr;
    DownStays(v, WAKE);
    InterruptIsQuiet(v);
    var w1 := Interrupt(v);
    DownStays(w1, WAKE);
    PublishOpen(w1);
    DownStays(UpdateAttr(w1), WAKE);
  }

  lemma InterruptIsQuiet(w: World)
    requires w.env.io == [] && w.env.circ == []
    ensures var v := Interrupt(w); v == w.(env := v.env) && v.env.io == [] && v.env.circ == [] && v.env.att == w.env.att
  {
  }

  lemma PublishOpen(w: World)
    requires w.env.io == [] && w.env.att == CLOSED_ATT.(attr := ZERO_INFO.(isOpen := true))
    ensures var v := UpdateAttr(w);
            Attr(v) == ZERO_INFO.(isOpen := true) && v.env.circ == w.env.circ && v == w.(env := v.env, port := w.port.(attrPtr := v.port.attrPtr))
  {
  }

  // ----- the third turn: a new connection

  lemma ThirdTurnConnects(w: World)
    requires Stale(w, Snap(0, 1)) && w.env.circ == [] && Attr(w) == ZERO_INFO.(isOpen := true)
    ensures Connected(Opened(w, TICK_REOPEN))
  {
    hide NetDownOpen, Fines, Await;
    assert Fines(11) + [] == Fines(11);
    NetDownOpenAt(w.(env := w.env.(io := Fines(11))), w.(env := w.env.(io := [])), 0);
  }

  lemma TicksAreHonest()
    ensures HonestTicks([TICK_OPEN, TICK_CLOSE, TICK_REOPEN])
  {
    assert Honest(Shutdown) && Honest(Startup);
    assert HonestIo(TICK_OPEN.io) && HonestIo(TICK_CLOSE.io) && HonestIo(TICK_REOPEN.io);
  }

  /**
   A connection that starts in Pause although the downlink ring is empty: a byte that the tty does not take stays in the
   daemon's copy of the ring, the port is closed and opened again, and the close flushes the ring but not the copy.
   */
  lemma CopyIsStale() returns (trace: seq<World>, ticks: seq<Tick>)
    ensures |ticks| == 3 && Execution(trace, ticks) && HonestTicks(ticks)
    ensures Connected(trace[1]) && !Attr(trace[1]).isOpen && Down(trace[2])
    ensures var v := Opened(trace[2], ticks[2]);
            Connected(v) && v.env.tx.Contents() == [] && v.port.stk == [NetDown, Pause] && LastCredit(v.env.net.sent) == 0
  {
    hide Turn, Launched, Opened, LastCredit, Logged, HonestTicks, TICK_OPEN, TICK_CLOSE, TICK_REOPEN;
    HoldingIsLaunched();
    FirstTurnPauses();
    TicksAreHonest();
    var v1 := Turn(HOLDING, TICK_OPEN);
    var v2 := Turn(v1, TICK_CLOSE);
    trace, ticks := [HOLDING, v1, v2, Turn(v2, TICK_REOPEN)], [TICK_OPEN, TICK_CLOSE, TICK_REOPEN];
    Throughout(trace, ticks, 1, false);
    ConnectedIsUp(v1);
    SecondTurnCloses(v1);
    ThirdTurnConnects(v2);
    StaleCopyPauses(trace, ticks, 1, 2);
  }
}
