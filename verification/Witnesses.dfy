/**
 The failures that the theorems describe do happen: concrete worlds and scripts that reach them. All of them start from one
 launched world, in which the application has written one byte and has left the baud rate at 0.
 */
module Witnesses {
  import opened Words
  import opened Packets
  import opened Rings
  import opened Attributes
  import opened Worlds
  import opened Handlers
  import opened Control
  import opened Pipes
  import opened PipeRuns
  import opened Stall
  import opened Settings
  import opened CloseFraming
  import opened Reopening
  import opened Runs

  const ATT := AttrBuf(ZERO_INFO.(isOpen := true), [ZERO_INFO.(isOpen := true), ZERO_INFO.(isOpen := true)], 0, false)
  const UPLINK := Ring([7, 0], 0, 1, true, false)
  const DOWNLINK := Ring([0, 0], 0, 0, true, false)

  const FIRST: World := Machine(
    Port([NetDown], -1, 0, 0, FRESH_EKI, 0, Snap(0, 1), Snap(0, 0), 1, 1),
    Env(UPLINK, DOWNLINK, [], ATT, false, NO_NET, Hist([7], [], [], [], []), []),
    0, false)

  /** A system call that succeeds, with nothing happening before it. */
  const FINE := IoStep([], true, 0, 0, [], [0, 0, 0, 0])

  function Fines(n: nat): (io: seq<IoStep>)
    ensures |io| == n
  {
    seq(n, _ => FINE)
  }

  lemma UplinkHolds()
    ensures UPLINK.Contents() == [7] && DOWNLINK.Contents() == []
  {
    var s := UPLINK.Contents();
    assert |s| == 1 && s[0] == UPLINK.buf[Wrap(UPLINK.head + 0, 2)] && UPLINK.buf[0] == 7;
  }

  lemma FirstIsLaunched()
    ensures Launched(FIRST)
  {
    UplinkHolds();
    assert Bytes([]) == [] && [] + [7] + [] == [7] && FIRST.env.hist.upGone[0..] == [];
  }

  // ----- a first turn, call by call

  function Copy(r: Ring): Snap { Snap(r.head, r.tail) }

  /** The driver is as in the scene `b`; the next `n` system calls are fine, and what follows them is the script of `b`. */
  predicate Scene(w: World, b: World, n: nat) {
    && w.env.io == Fines(n) + b.env.io
    && w.env.rx == b.env.rx && w.env.tx == b.env.tx && w.env.circ == b.env.circ == [] && w.env.att == b.env.att
    && w.port.attrPtr == b.port.attrPtr && Attr(b) == ZERO_INFO.(isOpen := true)
  }

  /** Besides, the device is silent. */
  predicate At(w: World, b: World, n: nat) { Scene(w, b, n) && w.env.net.down == w.env.net.held == [] }

  lemma AwaitScene(w: World, b: World, n: nat)
    requires Scene(w, b, n + 1)
    ensures Await(w.env) == (w.env.(io := w.env.io[1..]), FINE) && Scene(Sleep(w), b, n)
  {
    assert (Fines(n + 1) + b.env.io)[1..] == Fines(n) + b.env.io;
  }

  lemma EmitAt(w: World, b: World, cmd: u16, p1: u32, p2: u32, ext: Ext, n: nat)
    requires At(w, b, n + 1)
    ensures var (v, ok) := Emit(w, cmd, p1, p2, ext);
            && ok && At(v, b, n)
            && v.env.net.up == w.env.net.up + [Pkt(MAGIC, w.port.tid % TID_MOD, cmd, p1, p2, ext)]
  {
    hide Await, EncodeAll, Fines;
    AwaitScene(w, b, n);
    var p := Pkt(MAGIC, w.port.tid % TID_MOD, cmd, p1, p2, ext);
    assert Packed([Sent(w.port.tid, p)]) == [p];
  }

  lemma SettleAt(w: World, b: World, n: nat)
    requires At(w, b, n + 4)
    ensures var v := Settle(w);
            At(v, b, n) && v.port == w.port.(rx := Copy(b.env.rx), tx := Copy(b.env.tx)) && v.env.net == w.env.net
  {
    hide Await, Fines;
    AwaitScene(w, b, n + 3);
    AwaitScene(Sleep(w), b, n + 2);
    var w1 := UpdateRx(w);
    AwaitScene(w1, b, n + 1);
    AwaitScene(Sleep(w1), b, n);
  }

  lemma SyncEventAt(w: World, b: World, n: nat)
    requires At(w, b, n + 2)
    ensures var (v, ok) := SyncEvent(w);
            ok && At(v, b, n) && v.port == w.port.(tid := v.port.tid)
  {
    hide Emit, Be32, At;
    EmitAt(w, b, CMD_IOCTL, IOCTL_SET_WAIT_MASK, 0, Be32(0x38010000), n + 1);
    EmitAt(Emit(w, CMD_IOCTL, IOCTL_SET_WAIT_MASK, 0, Be32(0x38010000)).0, b, CMD_IOCTL, IOCTL_GET_MODEMSTATUS, 0, [], n);
  }

  lemma SyncMsAt(w: World, b: World, ms: u32, n: nat)
    requires At(w, b, n + 2)
    ensures var (v, ok) := SyncMs(w, ms);
            ok && At(v, b, n) && v.port == w.port.(tid := v.port.tid)
  {
    hide Emit, Rts, Dtr, At;
    var rts := if Rts(ms) then IOCTL_SET_RTS else IOCTL_CLR_RTS;
    EmitAt(w, b, CMD_IOCTL, rts, 0, [], n + 1);
    EmitAt(Emit(w, CMD_IOCTL, rts, 0, []).0, b, CMD_IOCTL, if Dtr(ms) then IOCTL_SET_DTR else IOCTL_CLR_DTR, 0, [], n);
  }

  lemma SyncRestAt(w: World, b: World, n: nat)
    requires |w.port.stk| == 3 && Top(w) == Sync && At(w, b, n + 7)
    ensures var v := SyncRest(w);
            && At(v, b, n)
            && v.port == w.port.(stk := w.port.stk[..2], rx := Copy(b.env.rx), tx := Copy(b.env.tx), tid := v.port.tid)
  {
    hide Emit, SyncEvent, Settle, At;
    SyncEventAt(w, b, n + 5);
    var w1 := SyncEvent(w).0;
    var credit := if w1.port.tx.head == w1.port.tx.tail then 1024 else 0;
    EmitAt(w1, b, CMD_QUEUEFREE, 0, credit, [], n + 4);
    var w2 := Emit(w1, CMD_QUEUEFREE, 0, credit, []).0;
    PopAt(w2, b, n + 4);
    SettleAt(Pop(w2), b, n);
  }

  lemma PopAt(w: World, b: World, n: nat)
    requires |w.port.stk| == 3 && At(w, b, n)
    ensures At(Pop(w), b, n) && Pop(w).port == w.port.(stk := w.port.stk[..2])
  {
    hide Fines;
  }

  lemma SyncInitAt(w: World, b: World, n: nat)
    requires |w.port.stk| == 3 && Top(w) == Sync && At(w, b, n + 9)
    ensures var v := SyncInit(w);
            && At(v, b, n)
            && v.port == w.port.(stk := w.port.stk[..2], rx := Copy(b.env.rx), tx := Copy(b.env.tx), tid := v.port.tid,
                                 eki := w.port.eki.(ms := 0))
  {
    hide SyncMs, SyncRest, Fines;
    SyncMsAt(w, b, 0, n + 7);
    var w1 := SyncMs(w, 0).0;
    SyncRestAt(w1.(port := w1.port.(eki := w1.port.eki.(ms := 0))), b, n);
  }

  /** The world once connected, with `n` fine calls left. */
  predicate JustOpened(v: World, b: World, s: St, n: nat) {
    && At(v, b, n) && v.port.stk == [NetDown, s] && v.port.sk == 0 && v.port.pending == 0
    && v.port.eki == FRESH_EKI.(isOpen := true, ms := 0) && v.port.rx == Copy(b.env.rx) && v.port.tx == Copy(b.env.tx)
  }

  lemma NetDownOpenAt(w: World, b: World, n: nat)
    requires Scene(w, b, n + 11) && Down(w)
    ensures JustOpened(NetDownOpen(w), b, if w.port.tx.head == w.port.tx.tail then NetUp else Pause, n)
  {
    hide SyncInit, Await, EncodeAll, Fines;
    AwaitScene(w, b, n + 10);
    var (e, sk) := Connect(w.env);
    var w1 := Push(w.(env := e, port := w.port.(sk := sk)), if w.port.tx.head == w.port.tx.tail then NetUp else Pause);
    assert At(w1, b, n + 10);
    AwaitScene(w1, b, n + 9);
    var e2 := Send(w1.env, [Sent(0, OpenPkt(1, w.port.devid, w.port.port))]).0;
    var w2 := Push(w1.(env := e2, port := w1.port.(tid := 1, eki := FRESH_EKI.(isOpen := true))), Sync);
    assert At(w2, b, n + 9);
    SyncInitAt(w2, b, n);
  }

  /** Two settings differ from a fresh mirror; the baud rate 0 does not. */
  lemma CommonIoctlAt(w: World, b: World, s: St, n: nat)
    requires JustOpened(w, b, s, n + 2)
    ensures var v := CommonIoctl(w);
            && At(v, b, n) && v.port == w.port.(eki := ZERO_INFO.(isOpen := true), tid := v.port.tid)
  {
    hide Emit, LineExt, ToByte, FlowExt, FlowWords, Junk, Fines;
    var e := w.port.eki.(pair := 0, stop := 0, byte := 0);
    var w1 := w.(port := w.port.(eki := e));
    EmitAt(w1, b, CMD_IOCTL, IOCTL_SET_LINE_CONTROL, 0, LineExt(ToByte(0), ToByte(0), ToByte(0)), n + 1);
    var w2 := IoctlLine(w).0;
    var w3 := w2.(port := w2.port.(eki := e.(flowctl := 0)));
    EmitAt(w3, b, CMD_IOCTL, IOCTL_SET_HANDFLOW, 0, FlowExt(FlowWords(0).0, FlowWords(0).1, Junk(w2.env)), n);
  }

  lemma XmitAt(w: World, n: nat)
    requires At(w, FIRST, n + 1) && w.port.stk == [NetDown, NetUp] && w.port.rx == Snap(0, 1)
    ensures var v := CommonXmit(w);
            && At(v, FIRST, n) && v.port == w.port.(pending := 1, tid := v.port.tid)
            && |v.env.net.up| == |w.env.net.up| + 1 && IsWrite(v.env.net.up[|w.env.net.up|])
  {
    hide Emit, Fines;
    UplinkHolds();
    EmitAt(w, FIRST, CMD_WRITE, 1, 0, [7], n);
    assert [7][..1] == [7];
  }

  /** The driver has nothing to copy, and the tty takes nothing. */
  lemma InterruptAt(w: World, b: World, n: nat)
    requires At(w, b, n + 1)
    ensures At(Interrupt(w), b, n) && Interrupt(w).port == w.port && Interrupt(w).env.net == w.env.net
  {
    hide Await, Fines;
    AwaitScene(w, b, n);
    NothingMoves(w.env.(io := w.env.io[1..]));
  }

  lemma NothingMoves(e: Env)
    requires e.circ == []
    ensures XmitCopy(e) == e && RecvChars(e, []) == e
  {
    hide Span;
    PushNothing(e.rx);
    assert e.circ[..0] == [] && e.circ[0..] == [];
    assert Taken(e.tx, [], 3) == 0;
    ModOnce(e.tx.head, |e.tx.buf|);
    assert Mark(e.tx.Contents()[..0], true) == [];
    assert e.hist.downGone + [] == e.hist.downGone;
  }

  lemma SleepAt(w: World, b: World, n: nat)
    requires At(w, b, n + 1)
    ensures At(Sleep(w), b, n) && Sleep(w).port == w.port && Sleep(w).env.net == w.env.net
  {
    hide Await, Fines;
    AwaitScene(w, b, n);
  }

  const TICK1 := Tick(Fines(18), Timeout)

  lemma PollAt(w: World, n: nat)
    requires At(w, FIRST, n + 1) && w.port.stk == [NetDown, NetUp]
    ensures var v := Poll(w);
            && At(v, FIRST, n) && v.port == w.port.(stk := [NetDown, NetUp, Idle], tid := v.port.tid)
            && |v.env.net.up| == |w.env.net.up| + 1 && v.env.net.up[..|w.env.net.up|] == w.env.net.up
            && !IsWrite(v.env.net.up[|w.env.net.up|])
  {
    hide Emit, Fines;
    EmitAt(Push(w, Idle), FIRST, CMD_IOCTL, IOCTL_GET_WAIT_MASK, 0, [], n);
  }

  /** A WRITE for the byte is under way, with a request behind it, and the daemon has become Idle. */
  predicate Waiting(v: World, m: nat) {
    && At(v, FIRST, 1) && v.port.stk == [NetDown, NetUp, Idle] && v.port.sk == 0 && v.port.pending == 1
    && v.port.eki == ZERO_INFO.(isOpen := true) && v.port.tx == Snap(0, 0)
    && |v.env.net.up| == m + 2 && IsWrite(v.env.net.up[m]) && !IsWrite(v.env.net.up[m + 1])
  }

  lemma BeforeAt(w: World) returns (m: nat)
    requires At(w, FIRST, 18) && w.port == FIRST.port
    ensures var (v, rd, wr) := Before(w);
            && At(v, FIRST, 3) && v.port.stk == [NetDown, NetUp] && v.port.sk == 0 && v.port.pending == 1
            && v.port.eki == ZERO_INFO.(isOpen := true) && v.port.tx == Snap(0, 0)
            && |v.env.net.up| == m + 1 && IsWrite(v.env.net.up[m])
  {
    hide NetDownOpen, CommonIoctl, CommonXmit, Interrupt, Await, Fines;
    NetDownOpenAt(w, FIRST, 7);
    var w1 := NetDownOpen(w);
    CommonIoctlAt(w1, FIRST, NetUp, 5);
    var w2 := CommonIoctl(w1);
    XmitAt(w2, 4);
    var w3 := CommonXmit(w2);
    InterruptAt(w3, FIRST, 3);
    m := |w2.env.net.up|;
  }

  lemma FirstTurnAt() returns (m: nat)
    ensures Waiting(Turn(FIRST, TICK1), m)
  {
    hide Before, Sleep, Poll, Await, Fines;
    var w := FIRST.(env := FIRST.env.(io := Fines(18)));
    assert Fines(18) + [] == Fines(18);
    assert At(w, FIRST, 18);
    m := BeforeAt(w);
    var w1 := Before(w).0;
    SleepAt(w1, FIRST, 2);
    PollAt(Sleep(w1), 1);
  }

  // ----- the second turn: the device answers the WRITE alone, and Idle reads the answer

  function Silences(n: nat): seq<EnvStep> { if n == 0 then [] else [DevSilent(0, false)] + Silences(n - 1) }

  function Script2(m: nat): seq<IoStep> {
    [IoStep(Silences(m) + [DevAnswer(0, STATUS_SUCCESS, [])], true, 0, 0, [], [0, 0, 0, 0])]
  }

  function Tick2(m: nat): Tick { Tick(Script2(m), Ready(0, false, true, Whole, false, false)) }

  lemma SilencesAreHonest(n: nat)
    ensures HonestSteps(Silences(n) + [DevAnswer(0, STATUS_SUCCESS, [])])
  {
    if n > 0 {
      SilencesAreHonest(n - 1);
      assert Silences(n) + [DevAnswer(0, STATUS_SUCCESS, [])] == [DevSilent(0, false)] + (Silences(n - 1) + [DevAnswer(0, STATUS_SUCCESS, [])]);
    }
  }

  lemma SilenceStep(e: Env)
    requires e.net.up != []
    ensures var f := Step(e, DevSilent(0, false));
            f == e.(net := f.net) && f.net.up == e.net.up[1..] && f.net.down == e.net.down && f.net.held == e.net.held
  {
  }

  lemma AnswerStep(e: Env)
    requires e.net.up != [] && IsWrite(e.net.up[0]) && e.net.down == []
    ensures var f := Step(e, DevAnswer(0, STATUS_SUCCESS, []));
            && f == e.(net := f.net) && f.net.up == e.net.up[1..] && |f.net.down| == 1 && IsWrite(f.net.down[0])
            && f.net.down[0].ext == [] && f.net.held == e.net.held
  {
  }

  /** The requests before the WRITE are left unanswered, the WRITE is answered. */
  lemma AnswersWrite(e: Env, m: nat)
    requires |e.net.up| == m + 2 && IsWrite(e.net.up[m]) && e.net.down == []
    ensures var f := Steps(e, Silences(m) + [DevAnswer(0, STATUS_SUCCESS, [])]);
            && f == e.(net := f.net) && f.net.up == e.net.up[m + 1..] && |f.net.down| == 1 && IsWrite(f.net.down[0])
            && f.net.down[0].ext == [] && f.net.held == e.net.held
    decreases m
  {
    hide Step;
    var ss := Silences(m) + [DevAnswer(0, STATUS_SUCCESS, [])];
    if m == 0 {
      AnswerStep(e);
      assert ss == [DevAnswer(0, STATUS_SUCCESS, [])] && ss[1..] == [];
      assert Steps(e, ss) == Step(e, ss[0]);
    } else {
      SilenceStep(e);
      assert ss[1..] == Silences(m - 1) + [DevAnswer(0, STATUS_SUCCESS, [])];
      AnswersWrite(Step(e, ss[0]), m - 1);
    }
  }

  lemma BeforeWaiting(w: World, m: nat)
    requires Waiting(w, m)
    ensures var w0 := w.(env := w.env.(io := Script2(m)));
            var (v, rd, wr) := Before(w0);
            && v.port == w.port && !rd && !wr && v.env.io == [] && v.env.hist.upGone == w.env.hist.upGone
            && v.env.net.up == w.env.net.up[m + 1..] && |v.env.net.down| == 1 && IsWrite(v.env.net.down[0])
            && v.env.net.down[0].ext == [] && v.env.net.held == []
  {
    hide Steps, Silences;
    AnswersWrite(w.env.(io := []), m);
    assert Script2(m)[1..] == [];
    NothingMoves(w.env.(io := []));
  }

  lemma HearWaiting(w: World)
    requires w.port.stk == [NetDown, NetUp, Idle] && w.port.sk == 0 && w.port.pending == 1 && w.env.io == []
    requires |w.env.net.up| == 1 && !IsWrite(w.env.net.up[0]) && |w.env.net.down| == 1 && IsWrite(w.env.net.down[0])
    requires w.env.net.down[0].ext == [] && w.env.net.held == []
    ensures var r := Ready(0, false, true, Whole, false, false);
            Stuck(AfterSelect(w, false, false, r), 1, w.env.hist.upGone)
  {
    hide Settle, Excp, Fits;
    var p := w.env.net.down[0];
    FilterOne(w.env.net.up[0], IsWrite);
    assert w.env.net.up == [w.env.net.up[0]] && w.env.net.down[1..] == [];
    var w1 := w.(lrecv := 0, env := w.env.(net := w.env.net.(down := [])));
    assert Sleep(w1) == w1;
    assert Deaf(w1.env, w.env.hist.upGone);
    DiscardDeaf(w1.env, p, w.env.hist.upGone);
    PopStuck(w1.(env := w1.env.(net := Discard(w1.env.net, p))), 1, w.env.hist.upGone);
    ExcpIsDown(w1);
  }

  lemma SecondTurnSticks(w: World, m: nat)
    requires Waiting(w, m)
    ensures Stuck(Turn(w, Tick2(m)), 1, w.env.hist.upGone)
  {
    hide Before, AfterSelect, Silences;
    BeforeWaiting(w, m);
    var v := Before(w.(env := w.env.(io := Script2(m)))).0;
    assert Sleep(v) == v;
    HearWaiting(v);
  }

  /**
   An execution with a device that answers each request at most once, after which the uplink is stuck for good: the daemon
   sends a WRITE, a timeout makes it Idle, and Idle drops the answer that reports success.
   */
  lemma UplinkGetsStuck() returns (trace: seq<World>, ticks: seq<Tick>)
    ensures |ticks| == 2 && Execution(trace, ticks) && HonestTicks(ticks)
    ensures Connected(trace[2]) && Stuck(trace[2], 1, trace[2].env.hist.upGone)
  {
    hide Turn, Launched, Stuck, HonestSteps, Silences;
    FirstIsLaunched();
    var m := FirstTurnAt();
    var v1 := Turn(FIRST, TICK1);
    SecondTurnSticks(v1, m);
    trace, ticks := [FIRST, v1, Turn(v1, Tick2(m))], [TICK1, Tick2(m)];
    SilencesAreHonest(m);
    NothingIsHonest();
    Throughout(trace, ticks, 2, true);
    StuckIsConnected(trace[2], 1, v1.env.hist.upGone);
  }

  lemma NothingIsHonest()
    ensures HonestSteps([]) && HonestIo(TICK1.io)
  {
  }

  lemma StuckIsConnected(w: World, k: nat, gone: seq<Fate>)
    requires Good(w) && Stuck(w, k, gone)
    ensures Connected(w) && gone == w.env.hist.upGone
  {
    hide Logged, LastCredit;
  }

  // ----- another second turn: the device sends a byte, and Idle reads it

  const BYTE := Pkt(MAGIC, 0, CMD_DATAREADY, STATUS_SUCCESS, 1, [1])

  const TICK_DATA := Tick([IoStep([DevData([1])], true, 0, 0, [], [0, 0, 0, 0])], Ready(0, false, true, Whole, false, false))

  lemma DataArrives(w: World)
    requires w.env.io == TICK_DATA.io && w.env.circ == []
    ensures Interrupt(w) == w.(env := w.env.(io := [], net := Offer(w.env.net, BYTE)))
  {
    hide XmitCopy, RecvChars;
    var e := w.env.(io := []);
    assert TICK_DATA.io[1..] == [];
    assert Steps(e, [DevData([1])]) == Step(e, DevData([1]));
    NothingMoves(Step(e, DevData([1])));
  }

  lemma BeforeData(w: World, m: nat)
    requires Waiting(w, m)
    ensures var w0 := w.(env := w.env.(io := TICK_DATA.io));
            Before(w0) == (w.(env := w.env.(io := [], net := Offer(w.env.net, BYTE))), false, false)
  {
    hide Interrupt;
    DataArrives(w.(env := w.env.(io := TICK_DATA.io)));
  }

  /** What Idle reads is dropped: the record says so, and nothing is accepted. */
  predicate Dropped(w: World, v: World, p: Pkt) {
    && v.port.stk == [NetDown, NetUp] && v.env.net.heard == w.env.net.heard + [Heard(p, true)]
    && v.env.hist.accepted == w.env.hist.accepted
  }

  lemma HearData(w: World)
    requires w.port.stk == [NetDown, NetUp, Idle] && w.port.sk == 0 && w.env.io == [] && w.env.net.down == [BYTE]
    ensures var r := Ready(0, false, true, Whole, false, false);
            Dropped(w, AfterSelect(w, false, false, r), BYTE)
  {
    assert [BYTE][1..] == [];
  }

  lemma SecondTurnLoses(w: World, m: nat)
    requires Waiting(w, m)
    ensures Dropped(w, Turn(w, TICK_DATA), BYTE)
  {
    hide Before, AfterSelect;
    BeforeData(w, m);
    var v := Before(w.(env := w.env.(io := TICK_DATA.io))).0;
    assert Sleep(v) == v;
    HearData(v);
  }

  /**
   An execution with a device that answers each request at most once, in which Idle reads a DATAREADY packet that fits the
   ring, and its byte is lost.
   */
  lemma DataGetsLost() returns (trace: seq<World>, ticks: seq<Tick>)
    ensures |ticks| == 2 && Execution(trace, ticks) && HonestTicks(ticks)
    ensures Top(trace[1]) == Idle && 0 < |BYTE.ext| <= trace[1].env.tx.Free() && Dropped(trace[1], trace[2], BYTE)
  {
    hide Turn, Launched, Dropped, HonestSteps;
    FirstIsLaunched();
    var m := FirstTurnAt();
    var v1 := Turn(FIRST, TICK1);
    SecondTurnLoses(v1, m);
    trace, ticks := [FIRST, v1, Turn(v1, TICK_DATA)], [TICK1, TICK_DATA];
    DataIsHonest();
  }

  lemma DataIsHonest()
    ensures HonestTicks([TICK1, TICK_DATA])
  {
    assert Honest(DevData([1]));
  }

  // ----- a cut PURGE

  /** Six calls that flush the rings, a send that fails after `k` bytes, and one that succeeds. */
  function CutPurge(k: nat): seq<IoStep> { Fines(6) + [FINE.(ok := false, cut := k), FINE] }

  lemma FlushTakesSix(w: World)
    requires |w.env.io| >= 6
    ensures BufClear(w).env.io == w.env.io[6..]
  {
    hide Mark, Span;
  }

  /**
   On every connection a send can be cut so that the bytes of the connection are not its packets any more: PURGE breaks off
   after some of its bytes, and CLOSE goes out whole.
   */
  lemma CutPurgeTearsFraming(w: World, k: nat)
    requires Up(w) && 0 < k < 24
    ensures var v := Close(w.(env := w.env.(io := CutPurge(k))));
            Split(v.env.net.wire) != Packed(v.env.net.sent)
  {
    hide Split, Encode, EncodeAll, BufClear, Logged, LastCredit, Le32, Close;
    var w0 := w.(env := w.env.(io := CutPurge(k)));
    SameLinkUp(w, w0);
    FlushTakesSix(w0);
    assert CutPurge(k)[6..] == [FINE.(ok := false, cut := k), FINE];
    ClosedFraming(w0);
    ClearKeepsLink(w0);
    CutSend(BufClear(w0), k);
  }

  /** A send of PURGE that is cut, and one of CLOSE that is not. */
  lemma CutSend(w: World, k: nat)
    requires w.env.io == [FINE.(ok := false, cut := k), FINE] && 0 < k < 24
    ensures var (v, ok) := Emit(w, CMD_IOCTL, IOCTL_PURGE, 0, Le32(0x0000000f));
            && !ok && v.env.net.wire != w.env.net.wire && Emit(v, CMD_CLOSE, 0, 0, []).1
  {
    hide Encode, Le32;
    var p := Pkt(MAGIC, w.port.tid % TID_MOD, CMD_IOCTL, IOCTL_PURGE, 0, Le32(0x0000000f));
    EncodeOne(p);
    assert Packed([Sent(w.port.tid, p)]) == [p];
    assert Steps(w.env.(io := [FINE]), []) == w.env.(io := [FINE]);
    assert w.env.io[1..] == [FINE];
  }

  lemma FramingGetsTorn() returns (w: World)
    ensures Up(w) && Split(Close(w).env.net.wire) != Packed(Close(w).env.net.sent)
  {
    hide Launched, Turn, Stuck, Up, Split, Close;
    var trace, ticks := UplinkGetsStuck();
    Throughout(trace, ticks, 2, false);
    ConnectedIsUp(trace[2]);
    CutPurgeTearsFraming(trace[2], 10);
    w := trace[2].(env := trace[2].env.(io := CutPurge(10)));
    SameLinkUp(trace[2], w);
  }

  // ----- a mirror that agrees with the settings, and a device that does not

  /** Baud rate 0 is published, the device has another, and no send fails: the daemon believes that they agree. */
  lemma BaudIsNotSent(c: Config) returns (w: World)
    requires c.baud != 0
    ensures Down(w)
    ensures var v := CommonIoctl(NetDownOpen(w));
            && v.port.sk >= 0 && v.port.eki == Attr(w) && !Matches(ObeyAll(c, v.env.net.sent), Attr(w))
  {
    hide NetDownOpen, CommonIoctl, ObeyAll, Matches;
    w := FIRST.(env := FIRST.env.(io := Fines(18)));
    assert Fines(18) + [] == Fines(18);
    NetDownOpenAt(w, FIRST, 7);
    CommonIoctlAt(NetDownOpen(w), FIRST, NetUp, 5);
    FreshConnectionMatches(w, c);
  }
}
