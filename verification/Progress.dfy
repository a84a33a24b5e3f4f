/**
 Progress: what a turn brings on its way. The uplink ring is refilled and seen, credit is given and taken back, settings are
 published, and the tty gets what it takes. All of it is said of the turn's beginning, of the moment of `select`, and of its end.
 */
module Progress {
  import opened Words
  import opened Packets
  import opened Rings
  import opened Attributes
  import opened Worlds
  import opened Handlers
  import opened Control
  import opened Pipes
  import opened PipeRuns
  import opened Ledger
  import opened Reopening
  import opened Runs
  import opened Says
  import opened Hears
  import opened Speech

  // ----- the uplink ring grows while nothing is retired

  /** What the uplink ring held in `e` it still holds in `f`, at its front. */
  predicate Grows(e: Env, f: Env) { f.rx.clean == e.rx.clean && e.rx.Contents() <= f.rx.Contents() }

  lemma CopiesGrow(e: Env, takes: seq<nat>)
    ensures Grows(e, XmitCopy(e)) && Grows(e, RecvChars(e, takes))
  {
    hide Span, Taken, Mark;
    PushContents(e.rx, e.circ[..Min(|e.circ|, e.rx.Free())]);
  }

  lemma StepGrows(e: Env, s: EnvStep)
    ensures Grows(e, Step(e, s))
  {
    hide XmitCopy, RecvChars, Span;
    match s
    case StartTx => CopiesGrow(e.(rx := e.rx.(enabled := true)), []);
    case Unthrottle(takes) => CopiesGrow(e.(throttled := false), takes);
    case _ =>
  }

  lemma StepsGrow(e: Env, ss: seq<EnvStep>)
    ensures Grows(e, Steps(e, ss))
    decreases |ss|
  {
    hide Step, Span;
    if ss != [] {
      StepGrows(e, ss[0]);
      StepsGrow(Step(e, ss[0]), ss[1..]);
    }
  }

  lemma AwaitGrows(e: Env)
    ensures Grows(e, Await(e).0)
  {
    hide Steps, Span;
    if e.io != [] {
      StepsGrow(e.(io := e.io[1..]), e.io[0].env);
    }
  }

  lemma EmitGrows(w: World, cmd: u16, p1: u32, p2: u32, ext: Ext)
    ensures Grows(w.env, Emit(w, cmd, p1, p2, ext).0.env)
  {
    hide Await, EncodeAll, Span;
    AwaitGrows(w.env);
  }

  lemma UpdateGrows(w: World)
    ensures Grows(w.env, UpdateRx(w).env) && Grows(w.env, UpdateTx(w).env) && Grows(w.env, Sleep(w).env) && Grows(w.env, UpdateAttr(w).env)
  {
    hide Await, Span;
    AwaitGrows(w.env);
    AwaitGrows(Await(w.env).0);
  }

  lemma SettleGrows(w: World)
    ensures Grows(w.env, Settle(w).env)
  {
    hide UpdateRx, UpdateTx, Span;
    UpdateGrows(w);
    UpdateGrows(UpdateRx(w));
  }

  lemma SyncEventGrows(w: World)
    ensures Grows(w.env, SyncEvent(w).0.env)
  {
    hide Emit, Span, Be32;
    EmitGrows(w, CMD_IOCTL, IOCTL_SET_WAIT_MASK, 0, Be32(0x38010000));
    EmitGrows(Emit(w, CMD_IOCTL, IOCTL_SET_WAIT_MASK, 0, Be32(0x38010000)).0, CMD_IOCTL, IOCTL_GET_MODEMSTATUS, 0, []);
  }

  lemma SyncRecvGrows(w: World, p: Pkt)
    requires Top(w) == Sync
    ensures Grows(w.env, SyncRecv(w, p).env)
  {
    hide Emit, SyncEvent, Settle, Await, Span;
    SyncEventGrows(w);
    SettleGrows(Pop(SyncEvent(w).0));
    EmitGrows(w, CMD_IOCTL, IOCTL_WAIT_ON_MASK, 0, []);
    SettleGrows(Pop(RegSyncEvent(w).0));
    AwaitGrows(w.env);
    SettleGrows(Pop(Sleep(w)));
    SettleGrows(Pop(w));
  }

  lemma DataReadyGrows(w: World, p: Pkt)
    ensures Grows(w.env, DataReady(w, p).env)
  {
    hide Await, RecvChars, Fill, Span;
    if p.p1 == STATUS_SUCCESS && p.p2 == |p.ext| && Room(w.port.tx.head, w.port.tx.tail, |w.env.tx.buf|) >= |p.ext| {
      var e := w.env.(tx := w.env.tx.(buf := Fill(w.env.tx.buf, w.port.tx.tail, p.ext)));
      AwaitGrows(e);
      var (e1, io) := Await(e);
      CopiesGrow(e1.(tx := e1.tx.MoveTail(|p.ext|), hist := e1.hist.(accepted := e1.hist.accepted + p.ext)), io.takes);
    }
  }

  /** With nothing awaited, an answer to a WRITE retires nothing. */
  lemma WriteReplyGrows(w: World, p: Pkt)
    requires w.port.pending == 0 && !w.env.rx.clean
    ensures Grows(w.env, WriteReply(w, p).env)
  {
    hide Await, UpdateRx, Span, Mark;
    AwaitGrows(w.env);
    var e := Await(w.env).0;
    PopContents(e.rx, 0);
    assert e.rx.Contents()[0..] == e.rx.Contents();
    UpdateGrows(w.(env := IocRxHead(w.env, 0)));
  }

  lemma RecvGrows(w: World, p: Pkt)
    requires Works(Top(w)) && w.port.pending == 0 && !w.env.rx.clean
    ensures Grows(w.env, Recv(w, p).env)
  {
    hide SyncRecv, DataReady, WriteReply, Span;
    if p.cmd == CMD_IOCTL {
      SyncRecvGrows(Push(w, Sync), p);
    } else if p.cmd == CMD_DATAREADY {
      DataReadyGrows(w, p);
    } else if p.cmd == CMD_WRITE {
      WriteReplyGrows(w, p);
    }
  }

  lemma FetchedGrows(w: World)
    requires w.env.net.down != []
    ensures Grows(w.env, Fetched(w).env)
  {
    hide UpdateTx, Sleep, Span;
    var w1 := w.(env := w.env.(net := w.env.net.(down := w.env.net.down[1..])));
    UpdateGrows(w1);
    UpdateGrows(UpdateTx(w1));
  }

  lemma HearGrows(w: World, wake: Wake)
    requires Works(Top(w)) && w.port.pending == 0 && !w.env.rx.clean && wake.Ready? && Linked(w)
    ensures var v := Hear(w, wake);
            v.port.stk == [NetDown] || Grows(w.env, v.env)
  {
    hide Hear, Recv, Fetched, Span, Logged;
    HearComesTo(w, wake);
    var w0 := w.(lrecv := 0);
    if wake.sk && Readable(w0, wake.reading) {
      FetchedGrows(w0);
      FetchedIsLinked(w0);
      RecvGrows(Fetched(w0), w.env.net.down[0]);
    }
  }

  lemma ResumeGrows(w: World)
    ensures Grows(w.env, Resume(w).env)
  {
    hide Emit, Settle, Await, Span;
    if Top(w) == Pause {
      AwaitGrows(w.env);
      EmitGrows(Sleep(w), CMD_QUEUEFREE, 0, 1024, []);
      SettleGrows(Rpls(Emit(Sleep(w), CMD_QUEUEFREE, 0, 1024, []).0, NetUp));
    }
  }

  // ----- what select waits for

  /** The world in which the daemon asks its state what to wait for. */
  function Acted(w: World, t: Tick): World { TakeCreditBack(SendPending(Reconcile(Opened(w, t)))) }

  /** The world as `select` returns. */
  function AtSelect(w: World, t: Tick): World { Sleep(Before(w.(env := w.env.(io := t.io))).0) }

  /** Pause asks for the length of the socket's input queue before it waits for anything. */
  function InputQueue(w: World, t: Tick): IoStep { Await(Acted(w, t).env).1 }

  lemma ActedIsGood(w: World, t: Tick)
    requires Good(w)
    ensures Good(Acted(w, t)) && Attr(Acted(w, t)) == Attr(w)
  {
    hide OpenClose, Reconcile, SendPending, TakeCreditBack, Linked, LastCredit;
    var w0 := w.(env := w.env.(io := t.io));
    SameLinkGood(w, w0);
    OpenCloseGood(w0);
    var w1 := OpenClose(w0);
    StagesKeep(w1);
    StagesKeep(Reconcile(w1));
    StagesKeep(SendPending(Reconcile(w1)));
  }

  /** What a state waits for: the uplink ring, the downlink ring. */
  predicate WaitsFor(a: World, u: World, rd: bool, wr: bool, io: IoStep) {
    && (Top(u) == NetUp ==> rd == (u.port.pending == 0) && !wr)
    && (Top(u) == Pause ==> io.ok && if io.val > 0 then !rd && !wr else rd == (u.port.pending == 0) && wr)
    && (!Works(Top(u)) ==> !rd && !wr)
    && (u.port.stk == [NetDown] || u.port == a.port)
  }

  lemma EventMeans(a: World)
    ensures var (v, rd, wr) := Event(a);
            WaitsFor(a, v, rd, wr, Await(a.env).1)
  {
    hide Await, Excp;
    ExcpKeepsCopy(Sleep(a));
  }

  /**
   What the readiness bits of a turn are. Net Up waits for the uplink ring exactly if nothing is awaited from the device;
   Pause, if the socket's input queue is empty, does the same and waits for the downlink ring as well; nobody else waits.
   */
  lemma SelectMeans(w: World, t: Tick)
    requires Good(w)
    ensures var u := AtSelect(w, t);
            var (_, rd, wr) := Before(w.(env := w.env.(io := t.io)));
            Good(u) && Attr(u) == Attr(w) && WaitsFor(Acted(w, t), u, rd, wr, InputQueue(w, t))
  {
    hide OpenClose, Reconcile, SendPending, TakeCreditBack, Event, Await, Interrupt, WaitsFor, Linked, LastCredit;
    ActedIsGood(w, t);
    var w0 := w.(env := w.env.(io := t.io));
    SameLinkGood(w, w0);
    BeforeGood(w0);
    var v := Before(w0).0;
    UpdateLink(v);
    SameLinkGood(v, Sleep(v));
    EventMeans(Acted(w, t));
    InterruptPort(Event(Acted(w, t)).0);
    SamePortWaits(Acted(w, t), Event(Acted(w, t)).0, AtSelect(w, t), Event(Acted(w, t)).1, Event(Acted(w, t)).2, InputQueue(w, t));
  }

  lemma SamePortWaits(a: World, v: World, u: World, rd: bool, wr: bool, io: IoStep)
    requires WaitsFor(a, v, rd, wr, io) && u.port == v.port
    ensures WaitsFor(a, u, rd, wr, io)
  {
  }

  lemma InterruptPort(w: World)
    ensures Interrupt(w).port == w.port
  {
  }

  /** The turn from `select` on. */
  lemma TurnFromSelect(w: World, t: Tick)
    ensures var (_, rd, wr) := Before(w.(env := w.env.(io := t.io)));
            Turn(w, t) == AfterSelect(AtSelect(w, t), rd, wr, t.wake)
  {
    hide Before, AfterSelect, Await;
  }

  lemma HearIgnores(w: World, wake: Wake, rd2: bool, wr2: bool)
    requires wake.Ready?
    ensures Hear(w, wake.(rd := rd2, wr := wr2)) == Hear(w, wake)
  {
    hide RecvDesp, Err;
  }

  /** What was not waited for does not matter, although `select` report it. */
  lemma OnlyWhatIsWaitedFor(w: World, t: Tick, rd2: bool, wr2: bool)
    requires Good(w) && t.wake.Ready?
    ensures var (u, q) := (AtSelect(w, t), InputQueue(w, t));
            var t2 := t.(wake := t.wake.(rd := rd2, wr := wr2));
            && (!Works(Top(u)) || (Top(u) == Pause && q.val > 0) ==> Turn(w, t2) == Turn(w, t))
            && (u.port.pending > 0 && wr2 == t.wake.wr ==> Turn(w, t2) == Turn(w, t))
            && (Top(u) == NetUp && rd2 == t.wake.rd ==> Turn(w, t2) == Turn(w, t))
  {
    hide Before, Turn, Await, Hear, UpdateAttr, UpdateRx, UpdateTx, Resume, Acted, Good;
    SelectMeans(w, t);
    TurnFromSelect(w, t);
    TurnFromSelect(w, t.(wake := t.wake.(rd := rd2, wr := wr2)));
    HearIgnores(if t.wake.pri then UpdateAttr(AtSelect(w, t)) else AtSelect(w, t), t.wake, rd2, wr2);
  }

  // ----- the uplink ring is seen

  /** Hearing keeps Net Up and Pause or ends the connection, and with nothing awaited it changes nothing of that. */
  lemma HearStays(w: World, wake: Wake)
    requires Linked(w) && Works(Top(w)) && wake.Ready?
    ensures var v := Hear(w, wake);
            v.port.stk == [NetDown] || (v.port.stk == w.port.stk && (w.port.pending == 0 ==> v.port.pending == 0))
  {
    hide Hear, Recv, Fetched, Logged;
    HearComesTo(w, wake);
    if wake.sk && Readable(w.(lrecv := 0), wake.reading) {
      FetchedIsLinked(w.(lrecv := 0));
      RecvStays(Fetched(w.(lrecv := 0)), w.env.net.down[0]);
    }
  }

  lemma RecvStays(w: World, p: Pkt)
    requires Linked(w) && Works(Top(w))
    ensures var v := Recv(w, p);
            v.port.stk == [NetDown] || (v.port.stk == w.port.stk && (w.port.pending == 0 ==> v.port.pending == 0))
  {
    hide WriteReply, DataReady, SyncRecv, Excp, Down, Logged, Packed, Subscription;
    CommonRecvMeans(w, p);
    ExcpIsDown(w);
    DownStack(Recv(w, p));
    if p.cmd == CMD_WRITE {
      WriteReplyMeans(w, p);
    } else if p.cmd == CMD_DATAREADY {
      DataReadyPort(w, p);
    } else if p.cmd == CMD_IOCTL && p.p1 == STATUS_SUCCESS && IsSyncReply(p.p2) {
      SyncRecvPending(Push(w, Sync), p);
    }
  }

  lemma DownStack(w: World)
    ensures Down(w) ==> w.port.stk == [NetDown]
  {
  }

  lemma DataReadyPort(w: World, p: Pkt)
    ensures DataReady(w, p).port == w.port || DataReady(w, p) == Excp(w)
  {
    hide IocTxTail, Fill, Excp;
  }

  lemma SyncRecvPending(w: World, p: Pkt)
    requires Top(w) == Sync
    ensures SyncRecv(w, p).port.pending == w.port.pending || SyncRecv(w, p).port.stk == [NetDown]
  {
    hide Send, Await, UpdateRx, UpdateTx;
    SettleSays(Pop(SyncEvent(w).0));
    SettleSays(Pop(RegSyncEvent(w).0));
    SettleSays(Pop(Sleep(w)));
    SettleSays(Pop(w));
  }

  lemma SelectIsSound(w: World, t: Tick)
    requires Good(w) && Sound(w, false)
    ensures Sound(AtSelect(w, t), false)
  {
    hide Before, Await, Linked, Live, Base;
    var w0 := w.(env := w.env.(io := t.io));
    SameLinkGood(w, w0);
    NewScript(w, t.io, false);
    BeforeSound(w0, false);
    SleepSound(Before(w0).0, false);
  }

  /** The snapshot of the uplink ring covers at least `n` bytes. */
  predicate Sees(w: World, n: nat) { Length(w.port.rx.head, w.port.rx.tail, |w.env.rx.buf|) >= n }

  lemma RefreshSees(w: World, n: nat)
    requires n <= w.env.rx.Len()
    ensures Sees(UpdateRx(w), n)
  {
    hide UpdateRx, Span;
    UpdateRxMeans(w);
    UpdateGrows(w);
    assert |w.env.rx.Contents()| <= |UpdateRx(w).env.rx.Contents()| == |SnapContents(UpdateRx(w))|;
  }

  lemma ResumeSees(w: World, n: nat)
    requires Sees(w, n) && n <= w.env.rx.Len()
    ensures var v := Resume(w);
            v.port.stk == [NetDown] || (Sees(v, n) && v.port.pending == w.port.pending && |v.port.stk| == |w.port.stk|)
  {
    hide Emit, Await, Excp, UpdateRx, UpdateTx, Span;
    if Top(w) == Pause {
      AwaitGrows(w.env);
      var w1 := Sleep(w);
      EmitGrows(w1, CMD_QUEUEFREE, 0, 1024, []);
      var w2 := Emit(w1, CMD_QUEUEFREE, 0, 1024, []).0;
      assert |w.env.rx.Contents()| <= |w2.env.rx.Contents()|;
      RefreshSees(Rpls(w2, NetUp), n);
      RefreshKeepsSight(UpdateRx(Rpls(w2, NetUp)));
      UpdateLink(Rpls(w2, NetUp));
      UpdateLink(UpdateRx(Rpls(w2, NetUp)));
      ExcpKeepsCopy(w1);
      ExcpKeepsCopy(w2);
    }
  }

  lemma RefreshKeepsSight(w: World)
    ensures UpdateTx(w).port.rx == w.port.rx && |UpdateTx(w).env.rx.buf| == |w.env.rx.buf|
  {
    hide Steps;
  }

  /** From the snapshot's length to its contents. */
  lemma SightIsContents(u: World, v: World)
    requires Grows(u.env, v.env) && SnapOk(v) && Sees(v, u.env.rx.Len())
    ensures u.env.rx.Contents() <= SnapContents(v)
  {
    hide Span, Length;
    SnapPrefix(v);
    assert |SnapContents(v)| >= |u.env.rx.Contents()|;
  }

  /** From hearing to the next loop head, when the uplink ring is reported readable and waited for. */
  lemma RefreshAfterHearing(h: World, wr: bool, n: nat)
    requires n <= h.env.rx.Len()
    ensures var w2 := UpdateRx(h);
            var v := if wr then Resume(UpdateTx(w2)) else w2;
            && Grows(h.env, v.env)
            && (v.port.stk == [NetDown] || (Sees(v, n) && v.port.pending == h.port.pending && |v.port.stk| == |h.port.stk|))
  {
    hide UpdateRx, UpdateTx, Resume, Span;
    UpdateGrows(h);
    UpdateLink(h);
    RefreshSees(h, n);
    var w2 := UpdateRx(h);
    UpdateGrows(w2);
    UpdateLink(w2);
    RefreshKeepsSight(w2);
    assert |h.env.rx.Contents()| <= |w2.env.rx.Contents()| <= |UpdateTx(w2).env.rx.Contents()|;
    ResumeSees(UpdateTx(w2), n);
    ResumeGrows(UpdateTx(w2));
  }

  /** The part of a turn after `select`, if the uplink ring is waited for and reported readable. */
  lemma AfterSelectSees(u: World, wr: bool, wake: Wake)
    requires Up(u) && Works(Top(u)) && u.port.pending == 0 && !u.env.rx.clean && wake.Ready? && wake.rd
    ensures var v := AfterSelect(u, true, wr, wake);
            v.port.stk == [NetDown] || (Grows(u.env, v.env) && Sees(v, u.env.rx.Len()) && v.port.pending == 0 && |v.port.stk| == 2)
  {
    hide Hear, UpdateRx, UpdateTx, UpdateAttr, Resume, Span, Logged, LastCredit;
    UpdateGrows(u);
    UpdateLink(u);
    var x := if wake.pri then UpdateAttr(u) else u;
    HearStays(x, wake);
    HearGrows(x, wake);
    var h := Hear(x, wake);
    if h.port.stk == [NetDown] {
      DownStaysAfter(h, wr && wake.wr);
    } else {
      assert |u.env.rx.Contents()| <= |h.env.rx.Contents()|;
      RefreshAfterHearing(h, wr && wake.wr, u.env.rx.Len());
    }
  }

  lemma DownStaysAfter(h: World, wr: bool)
    requires h.port.stk == [NetDown]
    ensures var w2 := UpdateRx(h);
            (if wr then Resume(UpdateTx(w2)) else w2).port.stk == [NetDown]
  {
    hide Await;
  }

  /** The ring is waited for, and reported readable. */
  predicate Awakes(w: World, t: Tick) {
    var u := AtSelect(w, t);
    && t.wake.Ready? && t.wake.rd && u.port.pending == 0
    && (Top(u) == NetUp || (Top(u) == Pause && InputQueue(w, t).val == 0))
  }

  lemma TurnSees(w: World, t: Tick)
    requires Good(w) && Sound(w, false) && Awakes(w, t)
    ensures var (u, v) := (AtSelect(w, t), Turn(w, t));
            v.port.stk == [NetDown] || (Grows(u.env, v.env) && Sees(v, u.env.rx.Len()) && v.port.pending == 0 && |v.port.stk| == 2)
  {
    hide Turn, Before, AfterSelect, AtSelect, InputQueue, Logged, LastCredit, Base, Grows, Sees, Attr;
    SelectMeans(w, t);
    SelectIsSound(w, t);
    TurnFromSelect(w, t);
    var (_, _, wr) := Before(w.(env := w.env.(io := t.io)));
    AfterSelectSees(AtSelect(w, t), wr, t.wake);
  }

  /**
   What the application writes is seen. In any execution, a turn that reaches `select` with nothing awaited, in Net Up, or in
   Pause with an empty input queue, and that is woken with the uplink ring readable, ends with a snapshot that covers all the
   ring held when `select` returned, unless the connection ends. With `Ledger.NextWriteFollows` the next WRITE carries it.
   */
  lemma RingIsSeen(trace: seq<World>, ticks: seq<Tick>, i: nat)
    requires Execution(trace, ticks) && i < |ticks|
    ensures var (u, v) := (AtSelect(trace[i], ticks[i]), trace[i + 1]);
            Awakes(trace[i], ticks[i]) && Connected(v) ==>
              u.env.rx.Contents() <= SnapContents(v) && v.port.pending == 0 && Top(v) != Idle
  {
    hide Execution, Turn, AtSelect, InputQueue, Logged, LastCredit, Base, Span, Grows, Sees;
    NextIsTurn(trace, ticks, i);
    Throughout(trace, ticks, i, false);
    Throughout(trace, ticks, i + 1, false);
    if Awakes(trace[i], ticks[i]) && Connected(trace[i + 1]) {
      TurnSees(trace[i], ticks[i]);
      SightIsContents(AtSelect(trace[i], ticks[i]), trace[i + 1]);
    }
  }

  lemma NextIsTurn(trace: seq<World>, ticks: seq<Tick>, i: nat)
    requires Execution(trace, ticks) && i < |ticks|
    ensures |trace| == |ticks| + 1 && trace[i + 1] == Turn(trace[i], ticks[i])
  {
    hide Turn, Launched;
    assert ticks[i] == ticks[i];
  }

  /**
   So what the application writes goes out: the turn after such a turn sends a WRITE before its `select`, of as many bytes as
   the ring held then, up to 1024, unless the connection ends.
   */
  lemma RingIsSent(trace: seq<World>, ticks: seq<Tick>, i: nat)
    requires Execution(trace, ticks) && i + 1 < |ticks|
    ensures var (u, v) := (AtSelect(trace[i], ticks[i]), AtSelect(trace[i + 1], ticks[i + 1]));
            Awakes(trace[i], ticks[i]) && u.env.rx.Contents() != [] && Connected(trace[i + 1]) && Connected(v) ==>
              v.port.pending >= Min(1024, u.env.rx.Len())
  {
    hide Execution, Turn, Before, Awakes, Sound, Linked, LastCredit, Span, Await;
    NextIsTurn(trace, ticks, i);
    RingIsSeen(trace, ticks, i);
    Throughout(trace, ticks, i + 1, false);
    var (w, t) := (trace[i + 1], ticks[i + 1]);
    var w0 := w.(env := w.env.(io := t.io));
    SameLinkGood(w, w0);
    if Up(w) && Top(w) != Idle && w.port.pending == 0 && w.port.rx.head != w.port.rx.tail {
      SameLinkUp(w, w0);
      NextWriteFollows(w0);
    }
    DownIsNotConnected(AtSelect(w, t));
    assert |SnapContents(w)| == Length(w.port.rx.head, w.port.rx.tail, |w.env.rx.buf|);
    ConnectedIsUpToo(w);
  }

  lemma DownIsNotConnected(w: World)
    ensures Down(w) ==> !Connected(w)
  {
  }

  lemma ConnectedIsUpToo(w: World)
    ensures Good(w) && Connected(w) ==> Up(w)
  {
    hide Logged, LastCredit;
  }

  // ----- the uplink ring is refilled

  /**
   What ADVVCOM_IOCSINTER does to the uplink: where it finds the port open and the ring empty, the ring then holds the first
   bytes of the circular buffer, as many as it has room for, and they have left that; otherwise neither changes.
   */
  lemma InterRefills(e: Env)
    ensures var (e1, f) := (Await(e).0, IocInter(e));
            if e1.att.attr.isOpen && e1.rx.Contents() == [] then
              var n := Min(|e1.circ|, |e1.rx.buf| - 1);
              f.rx.Contents() == e1.circ[..n] && f.circ == e1.circ[n..]
            else f.rx == e1.rx && f.circ == e1.circ
  {
    hide Await, Span, Taken, Mark;
    var e1 := Await(e).0;
    EmptyContents(e1.rx);
    PushContents(e1.rx, e1.circ[..Min(|e1.circ|, e1.rx.Free())]);
  }

  lemma EmptyContents(r: Ring)
    requires r.Ok()
    ensures r.Contents() == [] <==> r.head == r.tail
  {
  }

  /** The world as `select` is called. */
  function ToSelect(w: World, t: Tick): World { Before(w.(env := w.env.(io := t.io))).0 }

  /** The port is open and the uplink ring, empty, has room. */
  predicate Wants(e: Env) { e.att.attr.isOpen && e.rx.Contents() == [] && |e.rx.buf| > 1 }

  lemma InterruptLeavesNothing(a: World)
    ensures Wants(Interrupt(a).env) ==> Interrupt(a).env.circ == []
  {
    hide IocInter, Await, Span;
    InterRefills(a.env);
    InterKeepsOpen(a.env);
  }

  /**
   In any execution, `select` is not called while the port is open, the uplink ring is empty and has room, and bytes are left
   in the circular buffer: what does not fit the ring at once is not left behind.
   */
  lemma NothingIsLeftBehind(trace: seq<World>, ticks: seq<Tick>, i: nat)
    requires Execution(trace, ticks) && i < |ticks|
    ensures var e := ToSelect(trace[i], ticks[i]).env;
            Wants(e) ==> e.circ == []
  {
    hide Execution, OpenClose, Reconcile, SendPending, TakeCreditBack, Event, Interrupt, Wants;
    NextIsTurn(trace, ticks, i);
    var w0 := trace[i].(env := trace[i].env.(io := ticks[i].io));
    InterruptLeavesNothing(Event(TakeCreditBack(SendPending(Reconcile(OpenClose(w0))))).0);
  }

  lemma InterKeepsOpen(e: Env)
    ensures IocInter(e).att == Await(e).0.att && |IocInter(e).rx.buf| == |Await(e).0.rx.buf|
  {
    hide Await;
  }

  // ----- settings are published

  /**
   In any execution, a turn woken by a priority event ends with the settings that the driver had when the daemon asked for
   them, the first thing after `select`; any other turn keeps the ones it had.
   */
  lemma SettingsArePublished(trace: seq<World>, ticks: seq<Tick>, i: nat)
    requires Execution(trace, ticks) && i < |ticks|
    ensures var wake := ticks[i].wake;
            Attr(trace[i + 1]) == if wake.Ready? && wake.pri then Await(AtSelect(trace[i], ticks[i]).env).0.att.attr else Attr(trace[i])
  {
    hide Execution, Turn, Before, AfterSelect, AtSelect, Await, Good, Sound;
    NextIsTurn(trace, ticks, i);
    Throughout(trace, ticks, i, false);
    var (w, t) := (trace[i], ticks[i]);
    SelectMeans(w, t);
    TurnFromSelect(w, t);
    var (_, rd, wr) := Before(w.(env := w.env.(io := t.io)));
    AfterSelectGood(AtSelect(w, t), rd, wr, t.wake);
  }
}
