/**
 A whole turn of the daemon: all that it says, in order, from the state, the settings, the snapshots and the packet read, and
 in which state it ends.
 */
module Turns {
  import opened Words
  import opened Packets
  import opened Rings
  import opened Attributes
  import opened Worlds
  import opened Handlers
  import opened Control
  import opened Pipes
  import opened PipeRuns
  import opened Ledger
  import opened Reopening
  import opened Runs
  import opened Says
  import opened Hears
  import opened Speech
  import opened Progress

  // ----- before select: settings, data, credit

  /** A stage of the reconciliation touches nothing but the ids and the mirror, and the uplink ring only grows. */
  predicate StageKeeps(w: World, v: World) {
    v.port == w.port.(tid := v.port.tid, eki := v.port.eki) && Grows(w.env, v.env) && |v.env.rx.buf| == |w.env.rx.buf|
  }

  lemma StagesKeepRest(w: World)
    ensures StageKeeps(w, IoctlBaud(w).0) && StageKeeps(w, IoctlLine(w).0) && StageKeeps(w, IoctlFlow(w).0)
  {
    hide Send, Span, Le32, ToU32, FlowWords, FlowExt, LineExt, ToByte, Junk, InRange;
    var (a, e) := (Attr(w), w.port.eki);
    EmitGrows(w.(port := w.port.(eki := e.(baud := a.baud))), CMD_IOCTL, IOCTL_SET_BAUD_RATE, 0, Le32(ToU32(a.baud)));
    EmitGrows(w.(port := w.port.(eki := e.(pair := a.pair, stop := a.stop, byte := a.byte))), CMD_IOCTL,
              IOCTL_SET_LINE_CONTROL, 0, LineExt(ToByte(a.pair), ToByte(a.byte), ToByte(a.stop)));
    EmitGrows(w.(port := w.port.(eki := e.(flowctl := a.flowctl))), CMD_IOCTL, IOCTL_SET_HANDFLOW, 0,
              FlowExt(FlowWords(a.flowctl).0, FlowWords(a.flowctl).1, Junk(w.env)));
  }

  lemma LinesKeepRest(w: World)
    ensures StageKeeps(w, IoctlMs(w).0)
  {
    hide Await, Span, EncodeAll, MsPkts, Rts, Dtr, InRange;
    AwaitGrows(w.env);
  }

  lemma IoctlKeepsRest(w: World)
    ensures CommonIoctl(w).port.stk == [NetDown] || StageKeeps(w, CommonIoctl(w))
  {
    hide IoctlBaud, IoctlLine, IoctlFlow, IoctlMs, Excp, Span;
    StagesKeepRest(w);
    var w1 := IoctlBaud(w).0;
    StagesKeepRest(w1);
    var w2 := IoctlLine(w1).0;
    StagesKeepRest(w2);
    var w3 := IoctlFlow(w2).0;
    LinesKeepRest(w3);
    ExcpKeepsCopy(w1);
    ExcpKeepsCopy(w2);
    ExcpKeepsCopy(w3);
    ExcpKeepsCopy(IoctlMs(w3).0);
  }

  /** Net Up and Pause say the settings that differ from the mirror; Idle says nothing. */
  function SettingsSaid(o: World): seq<Command> {
    if Works(Top(o)) then SettingsCommands(o.port.eki, Attr(o)) else []
  }

  lemma NothingDiffers(from: Info, to: Info)
    requires from.(isOpen := true) == to.(isOpen := true)
    ensures SettingsCommands(from, to) == []
  {
  }

  lemma ReconcileSpeaks(o: World)
    requires Up(o)
    ensures var v := Reconcile(o);
            v.port.stk == [NetDown] || (StageKeeps(o, v) && Said(v) == Said(o) + SettingsSaid(o))
  {
    hide CommonIoctl, SettingsCommands, Said, Span, Logged, LastCredit;
    assert Said(o) + [] == Said(o);
    ReconcileUtters(o);
    IoctlKeepsRest(o);
    if !SettingsDiffer(o) {
      NothingDiffers(o.port.eki, Attr(o));
    }
  }

  /** With nothing awaited and bytes seen, Net Up and Pause send the first of them, as many as a packet takes. */
  function DataSaid(o: World): seq<Command> {
    if Works(Top(o)) && o.port.pending == 0 && o.port.rx.head != o.port.rx.tail then
      var len := Min(1024, Length(o.port.rx.head, o.port.rx.tail, |o.env.rx.buf|));
      [Command(0x04, len, 0, o.env.rx.Contents()[..Min(len, o.env.rx.Len())])]
    else []
  }

  /** How many bytes await an answer then. */
  function Awaiting(o: World): nat {
    if Works(Top(o)) && o.port.pending == 0 then Min(1024, Length(o.port.rx.head, o.port.rx.tail, |o.env.rx.buf|)) else o.port.pending
  }

  lemma DataSpeaks(o: World, x: World)
    requires SnapOk(o) && SnapOk(x) && StageKeeps(o, x) && |x.port.stk| >= 2
    ensures var v := SendPending(x);
            || v.port.stk == [NetDown]
            || (v.port.(tid := 0) == x.port.(tid := 0, pending := Awaiting(o)) && Said(v) == Said(x) + DataSaid(o))
  {
    hide Emit, Excp, Packed, Span, Length, Gist;
    assert Said(x) + [] == Said(x);
    SnapPrefix(x);
    SnapPrefix(o);
    XmitSays(x);
    SameBytes(o, x);
    if x.port.pending == 0 && x.port.rx.head != x.port.rx.tail && Works(Top(x)) && Xmit(x).port.stk != [NetDown] {
      var len := Min(1024, |SnapContents(x)|);
      SaidMore(x, Xmit(x), [Cmd(x, 0, 0x04, len, 0, SnapContents(x)[..len])]);
      WriteGist(x, SnapContents(x)[..len]);
      assert SnapContents(x)[..len] == o.env.rx.Contents()[..len];
      XmitPort(x);
    }
    NothingSeen(o);
    NothingSeen(x);
  }

  lemma NothingSeen(o: World)
    ensures o.port.rx.head == o.port.rx.tail <==> Length(o.port.rx.head, o.port.rx.tail, |o.env.rx.buf|) == 0
  {
  }

  lemma WriteGist(x: World, data: Ext)
    ensures Gists([Cmd(x, 0, 0x04, |data|, 0, data)]) == [Command(0x04, |data|, 0, data)]
  {
  }

  lemma XmitPort(x: World)
    ensures var v := Xmit(x);
            v.port.stk == [NetDown] || !Works(Top(x)) || v.port.(tid := 0, pending := 0) == x.port.(tid := 0, pending := 0)
  {
    hide Send;
  }

  /** What the snapshot covers is what the ring held at its front before. */
  lemma SameBytes(o: World, x: World)
    requires SnapOk(o) && SnapOk(x) && StageKeeps(o, x)
    ensures |SnapContents(x)| == Length(o.port.rx.head, o.port.rx.tail, |o.env.rx.buf|) <= o.env.rx.Len()
    ensures SnapContents(x) == o.env.rx.Contents()[..|SnapContents(x)|]
  {
    hide Span, Length;
    SnapPrefix(x);
    assert |SnapContents(x)| <= |o.env.rx.Contents()|;
  }

  /** Net Up with a downlink ring that does not look empty takes the credit back and pauses. */
  function CreditSaid(o: World): seq<Command> {
    if Top(o) == NetUp && o.port.tx.head != o.port.tx.tail then [Command(0x0900, 0, 0, [])] else []
  }

  function StackAtSelect(o: World): seq<St> {
    if Top(o) == NetUp && o.port.tx.head != o.port.tx.tail then [NetDown, Pause] else o.port.stk
  }

  lemma CreditSpeaks(x: World)
    ensures var v := TakeCreditBack(x);
            || v.port.stk == [NetDown]
            || (Said(v) == Said(x) + CreditSaid(x) && v.port.stk == StackAtSelect(x) && v.port.pending == x.port.pending)
  {
    hide Emit, Settle, Excp, Packed, Gist;
    assert Said(x) + [] == Said(x);
    PauseSays(x);
    if Top(x) == NetUp && PauseOp(x).port.stk != [NetDown] {
      SaidMore(x, PauseOp(x), [Cmd(x, 0, 0x0900, 0, 0, [])]);
      CreditGist(x, 0);
      PausePort(x);
    }
  }

  lemma CreditGist(x: World, credit: u32)
    ensures Gists([Cmd(x, 0, 0x0900, 0, credit, [])]) == [Command(0x0900, 0, credit, [])]
  {
  }

  lemma PausePort(x: World)
    ensures PauseOp(x).port.stk == [NetDown] || PauseOp(x).port.pending == x.port.pending
  {
    hide Send, Settle;
    if Top(x) == NetUp {
      SettleSays(Rpls(Emit(x, CMD_QUEUEFREE, 0, 0, []).0, Pause));
    }
  }

  /** Nothing is said between `w` and `v`, unless the connection ends. */
  predicate Silent(w: World, v: World) { v.port.stk == [NetDown] || (v.env.net.sent == w.env.net.sent && v.port == w.port) }

  lemma WaitingIsSilent(w: World)
    ensures Silent(w, Event(w).0) && Silent(w, Interrupt(w)) && Silent(w, Sleep(w))
  {
    hide Await, Excp;
    ExcpKeepsCopy(Sleep(w));
    UpdateLink(w);
    InterruptLink(w);
    InterruptPort(w);
  }

  /** All that is said before `select`: the settings, then data, then the credit that is taken back. */
  function SaidBefore(o: World): seq<Command> { SettingsSaid(o) + DataSaid(o) + CreditSaid(o) }

  lemma ActedSpeaks(o: World)
    requires Up(o) && Connected(o) && Good(o) && Sound(o, false)
    ensures var a := TakeCreditBack(SendPending(Reconcile(o)));
            || a.port.stk == [NetDown]
            || (Said(a) == Said(o) + SaidBefore(o) && a.port.stk == StackAtSelect(o) && a.port.pending == Awaiting(o))
  {
    hide Reconcile, SendPending, TakeCreditBack, Said, Live, Base, Linked, LastCredit;
    hide SettingsSaid, DataSaid, CreditSaid, Awaiting, Span, Length, Grows, SnapOk;
    ReconcileSpeaks(o);
    StagesSound(o, false);
    var x := Reconcile(o);
    DownStaysDown(x);
    var y := SendPending(x);
    DownStaysDown(y);
    if x.port.stk != [NetDown] {
      DataSpeaks(o, x);
      if y.port.stk != [NetDown] {
        CreditSpeaks(y);
        SameCredit(o, y);
        Associate(Said(o), SettingsSaid(o), DataSaid(o), CreditSaid(o));
      }
    }
  }

  /** From the question what to wait for to `select`, nothing is said. */
  lemma SelectSpeaks(a: World)
    ensures var u := Sleep(Interrupt(Event(a).0));
            u.port.stk == [NetDown] || (Said(u) == Said(a) && u.port == a.port)
  {
    hide Event, Interrupt, Sleep, Said;
    var (b, c) := (Event(a).0, Interrupt(Event(a).0));
    WaitingIsSilent(a);
    WaitingIsSilent(b);
    WaitingIsSilent(c);
    DownStaysDown(b);
    DownStaysDown(c);
    SilentSaid(a, b);
    SilentSaid(b, c);
    SilentSaid(c, Sleep(c));
  }

  lemma BeforeSpeaks(w: World, t: Tick)
    requires Good(w) && Sound(w, false) && Connected(Opened(w, t))
    ensures var (o, u) := (Opened(w, t), AtSelect(w, t));
            || u.port.stk == [NetDown]
            || (Said(u) == Said(o) + SaidBefore(o) && u.port.stk == StackAtSelect(o) && u.port.pending == Awaiting(o))
  {
    hide OpenClose, Reconcile, SendPending, TakeCreditBack, Event, Interrupt, Sleep, Said, SaidBefore, Live, Base, Linked, LastCredit;
    var w0 := w.(env := w.env.(io := t.io));
    SameLinkGood(w, w0);
    NewScript(w, t.io, false);
    OpenCloseGood(w0);
    OpenCloseSound(w0, false);
    var o := Opened(w, t);
    ConnectedIsUpToo(o);
    ActedSpeaks(o);
    SelectSpeaks(Acted(w, t));
    DownStaysDown(Acted(w, t));
    DownStaysDown(Event(Acted(w, t)).0);
    DownStaysDown(Interrupt(Event(Acted(w, t)).0));
  }

  lemma SilentSaid(w: World, v: World)
    requires Silent(w, v)
    ensures v.port.stk == [NetDown] || (Said(v) == Said(w) && v.port == w.port)
  {
  }

  lemma SameCredit(o: World, y: World)
    requires y.port.stk == o.port.stk && y.port.tx == o.port.tx
    ensures CreditSaid(y) == CreditSaid(o) && StackAtSelect(y) == StackAtSelect(o)
  {
  }

  lemma Associate(a: seq<Command>, b: seq<Command>, c: seq<Command>, d: seq<Command>)
    ensures a + b + c + d == a + (b + c + d)
  {
  }

  /** In Net Down, nothing before `select` leads out of it. */
  lemma DownStaysDown(w: World)
    ensures w.port.stk == [NetDown] ==>
              && SendPending(w).port.stk == [NetDown] && TakeCreditBack(w).port.stk == [NetDown]
              && Event(w).0.port.stk == [NetDown] && Interrupt(w).port.stk == [NetDown] && Sleep(w).port.stk == [NetDown]
  {
    hide IocInter, Await;
  }

  // ----- after select: answers, credit, a sign of life

  /** The answers to the replies that Sync waits for. */
  function AnswersTo(subcmd: u32): seq<Command> {
    if subcmd == 0x12 then [Command(0x0e, 0x11, 0, [0x38, 0x01, 0x00, 0x00]), Ioctl0(0x1a)]
    else if subcmd == 0x11 then [Ioctl0(0x12)]
    else []
  }

  /** What Net Up and Pause say to the packet that is read, if one is. */
  function AnswersSaid(u: World, wake: Wake): seq<Command>
    requires wake.Ready?
  {
    if wake.sk && Readable(u, wake.reading) && Works(Top(u)) && u.env.net.down[0].cmd == 0x0e then AnswersTo(u.env.net.down[0].p2)
    else []
  }

  lemma AnswerGists(w: World, subcmd: u32)
    ensures Gists(Answer(w, subcmd)) == AnswersTo(subcmd)
  {
  }

  lemma RecvSpeaks(w: World, p: Pkt)
    requires Linked(w) && Works(Top(w))
    ensures var v := Recv(w, p);
            v.port.stk == [NetDown] || Said(v) == Said(w) + if p.cmd == 0x0e then AnswersTo(p.p2) else []
  {
    hide WriteReply, DataReady, Excp, Down, Logged, Packed, Answer, AnswersTo;
    assert Said(w) + [] == Said(w);
    CommonRecvMeans(w, p);
    DownStack(Recv(w, p));
    DataKeepsSent(w, p);
    if p.cmd == CMD_IOCTL && p.p1 == STATUS_SUCCESS && Recv(w, p).port.stk != [NetDown] {
      SaidMore(w, Recv(w, p), Answer(w, p.p2));
      AnswerGists(w, p.p2);
    }
  }

  lemma DataKeepsSent(w: World, p: Pkt)
    ensures Said(WriteReply(w, p)) == Said(w) && Said(DataReady(w, p)) == Said(w)
  {
    hide Span, Mark, Fill, Taken;
  }

  lemma HearSpeaks(w: World, wake: Wake)
    requires Linked(w) && Top(w) != Sync && wake.Ready?
    ensures var v := Hear(w, wake);
            v.port.stk == [NetDown] || Said(v) == Said(w) + AnswersSaid(w, wake)
  {
    hide Hear, Recv, Fetched, Logged, AnswersTo, Packed;
    assert Said(w) + [] == Said(w);
    HearComesTo(w, wake);
    var w0 := w.(lrecv := 0);
    if wake.sk && Readable(w0, wake.reading) {
      FetchedIsLinked(w0);
      var (u, p) := (Fetched(w0), w.env.net.down[0]);
      if Works(Top(w)) {
        RecvSpeaks(u, p);
      } else {
        IdleRecvMeans(u, p);
      }
    }
  }

  /** Pause that has become Net Up has given credit. */
  function CreditGiven(h: World, v: World): seq<Command> {
    if Top(h) == Pause && v.port.stk == [NetDown, NetUp] then [Command(0x0900, 0, 1024, [])] else []
  }

  lemma ResumeSpeaks(h: World)
    ensures var v := Resume(h);
            v.port.stk == [NetDown] || (Said(v) == Said(h) + CreditGiven(h, v) && (Top(h) != Pause ==> v == h))
  {
    hide Resume, Packed, Gist, Await;
    assert Said(h) + [] == Said(h);
    ResumeSays(h);
    UpdateLink(h);
    if Top(h) == Pause && Await(h.env).1.ok && Await(h.env).1.val == 0 && Resume(h).port.stk != [NetDown] {
      SaidMore(h, Resume(h), [Cmd(h, 0, 0x0900, 0, 1024, [])]);
      CreditGist(h, 1024);
    }
  }

  /** A timeout makes Net Up and Pause ask for a sign of life. */
  function SignOfLife(u: World): seq<Command> { if Works(Top(u)) then [Ioctl0(0x10)] else [] }

  lemma PollSpeaks(u: World)
    requires Top(u) != Sync
    ensures var v := Poll(u);
            v.port.stk == [NetDown] || (Said(v) == Said(u) + SignOfLife(u) && v.port.stk == u.port.stk + [Idle])
  {
    hide Poll, Packed, Gist;
    PollSays(u);
    if Works(Top(u)) && Poll(u).port.stk != [NetDown] {
      SaidMore(u, Poll(u), [Cmd(u, 0, 0x0e, 0x10, 0, [])]);
      SignGist(u);
    }
  }

  lemma SignGist(u: World)
    ensures Gists([Cmd(u, 0, 0x0e, 0x10, 0, [])]) == [Ioctl0(0x10)]
  {
  }

  /** The states above Net Down after a packet was read or not: Idle gives way to the state below it. */
  function StackHeard(u: World, wake: Wake): seq<St>
    requires wake.Ready?
  {
    if Top(u) == Idle && wake.sk then u.port.stk[..2] else u.port.stk
  }

  lemma HearStack(u: World, wake: Wake)
    requires Linked(u) && Top(u) != Sync && wake.Ready?
    ensures var h := Hear(u, wake);
            h.port.stk == [NetDown] || h.port.stk == StackHeard(u, wake)
  {
    hide Hear, Recv, Fetched, Logged;
    HearComesTo(u, wake);
    if Works(Top(u)) {
      HearStays(u, wake);
    } else if wake.sk && Readable(u.(lrecv := 0), wake.reading) {
      FetchedIsLinked(u.(lrecv := 0));
      IdleRecvMeans(Fetched(u.(lrecv := 0)), u.env.net.down[0]);
    } else if wake.sk {
      HearMeans(u, wake);
      RecvDespMeans(u.(lrecv := 0), wake.reading);
    }
  }

  /** The world in which the socket's turn comes. */
  function Listening(u: World, wake: Wake): World
    requires wake.Ready?
  {
    if wake.pri then UpdateAttr(u) else u
  }

  /** What a turn ends in when it has read a packet or not: as it is, or with credit given by a Pause that was waited for. */
  predicate EndsIn(x: World, v: World, wake: Wake, resumes: bool)
    requires wake.Ready?
  {
    || v.port.stk == [NetDown]
    || (v.port.stk == StackHeard(x, wake) && Said(v) == Said(x) + AnswersSaid(x, wake))
    || (resumes && StackHeard(x, wake) == [NetDown, Pause] && v.port.stk == [NetDown, NetUp]
        && Said(v) == Said(x) + AnswersSaid(x, wake) + [Command(0x0900, 0, 1024, [])])
  }

  lemma ResumeEnds(x: World, h: World, w2: World, wr: bool, wake: Wake)
    requires Linked(x) && Top(x) != Sync && wake.Ready? && h == Hear(x, wake) && SameLink(h, w2)
    ensures EndsIn(x, if wr then Resume(UpdateTx(w2)) else w2, wake, wr)
  {
    hide Hear, UpdateTx, Resume, Said, AnswersSaid, StackHeard, Logged;
    HearSpeaks(x, wake);
    HearStack(x, wake);
    LinkSaid(h, w2);
    UpdateLink(w2);
    LinkSaid(w2, UpdateTx(w2));
    ResumeSpeaks(UpdateTx(w2));
    ResumeStack(UpdateTx(w2));
  }

  /** What is said after `select`, and where it ends: an answer to the packet read, and credit where Pause becomes Net Up. */
  lemma AfterSpeaks(u: World, rd: bool, wr: bool, wake: Wake)
    requires Linked(u) && Top(u) != Sync && wake.Ready?
    ensures var x := Listening(u, wake);
            Said(x) == Said(u) && EndsIn(x, AfterSelect(u, rd, wr, wake), wake, wr && wake.wr)
  {
    hide Hear, UpdateRx, UpdateTx, UpdateAttr, Resume, Said, EndsIn, Logged;
    UpdateLink(u);
    LinkSaid(u, UpdateAttr(u));
    var x := Listening(u, wake);
    var h := Hear(x, wake);
    UpdateLink(h);
    ResumeEnds(x, h, if rd && wake.rd then UpdateRx(h) else h, wr && wake.wr, wake);
  }

  lemma ResumeStack(w: World)
    ensures var v := Resume(w);
            v.port.stk == [NetDown] || v.port.stk == w.port.stk || (Top(w) == Pause && v.port.stk == [NetDown, NetUp])
  {
    hide Resume, Packed, Await;
    ResumeSays(w);
    UpdateLink(w);
  }

  lemma LinkSaid(w: World, v: World)
    ensures SameLink(w, v) ==> Said(v) == Said(w)
  {
  }

  // ----- the results

  /**
   All that the daemon says in a turn of any execution, if the connection lasts: the settings that differ from its mirror, in
   order; the first bytes of the ring, if nothing is awaited; the credit taken back, if Net Up finds the downlink ring not
   empty; the answers to the packet read; and the credit that a Pause gives as it becomes Net Up. A timeout asks for a sign
   of life instead. Idle says nothing but that last.
   */
  lemma TurnSays(trace: seq<World>, ticks: seq<Tick>, i: nat)
    requires Execution(trace, ticks) && i < |ticks| && Connected(Opened(trace[i], ticks[i])) && Connected(trace[i + 1])
    ensures var (o, u, v) := (Opened(trace[i], ticks[i]), AtSelect(trace[i], ticks[i]), trace[i + 1]);
            && Connected(u) && u.port.stk == StackAtSelect(o) && u.port.pending == Awaiting(o)
            && match ticks[i].wake
               case Timeout => Said(v) == Said(o) + SaidBefore(o) + SignOfLife(u) && v.port.stk == u.port.stk + [Idle]
               case Ready(_, _, _, _, _, _) =>
                 var (x, wake) := (Listening(u, ticks[i].wake), ticks[i].wake);
                 if v.port.stk == StackHeard(x, wake) then Said(v) == Said(o) + SaidBefore(o) + AnswersSaid(x, wake)
                 else
                   && wake.wr && StackHeard(x, wake) == [NetDown, Pause] && v.port.stk == [NetDown, NetUp]
                   && Said(v) == Said(o) + SaidBefore(o) + AnswersSaid(x, wake) + [Command(0x0900, 0, 1024, [])]
  {
    hide Execution, Turn, Before, AfterSelect, AtSelect, Opened, InputQueue, Sound, Logged, LastCredit;
    hide Said, SaidBefore, AnswersSaid, SignOfLife, StackHeard, StackAtSelect, Awaiting;
    NextIsTurn(trace, ticks, i);
    Throughout(trace, ticks, i, false);
    var (w, t) := (trace[i], ticks[i]);
    SelectMeans(w, t);
    TurnFromSelect(w, t);
    BeforeSpeaks(w, t);
    var (_, rd, wr) := Before(w.(env := w.env.(io := t.io)));
    var u := AtSelect(w, t);
    AfterLastsSo(u, rd, wr, t.wake);
    match t.wake
    case Timeout => PollSpeaks(u);
    case Ready(_, _, _, _, _, _) =>
      AfterSpeaks(u, rd, wr, t.wake);
  }

  /** A connection at the end of a turn was there at `select`. */
  lemma AfterLastsSo(u: World, rd: bool, wr: bool, wake: Wake)
    requires Good(u)
    ensures Connected(AfterSelect(u, rd, wr, wake)) ==> Connected(u) && Up(u) && u.port.stk != [NetDown]
    ensures wake.Timeout? ==> AfterSelect(u, rd, wr, wake) == Poll(u)
  {
    hide Hear, UpdateRx, UpdateTx, UpdateAttr, Resume, Poll, Logged, LastCredit;
    AfterSelectGood(u, rd, wr, wake);
  }

  /** The world in which a Pause that has waited for the downlink ring asks whether it may give credit. */
  function AtResume(u: World, wake: Wake): World
    requires wake.Ready?
  {
    var h := Hear(Listening(u, wake), wake);
    UpdateTx(if u.port.pending == 0 && wake.rd then UpdateRx(h) else h)
  }

  /** Whether credit is given, by the length of the output queue, and the calls that work. */
  predicate Resumes(r: World, v: World) {
    var io := Await(r.env).1;
    && (!io.ok ==> v.port.stk == [NetDown])
    && (io.ok && io.val > 0 ==> v.port.stk == [NetDown, Pause] && Said(v) == Said(r))
    && (Fine(r.env, 2) && io.val == 0 ==> v.port.stk == [NetDown, NetUp] && Said(v) == Said(r) + [Command(0x0900, 0, 1024, [])])
  }

  lemma PauseResumes(r: World)
    requires r.port.stk == [NetDown, Pause]
    ensures Resumes(r, Resume(r))
  {
    hide Resume, Said, Packed, Await;
    ResumeSays(r);
    ResumeSpeaks(r);
    FineAwait(r.env);
    SilentSleep(r);
  }

  lemma AfterResumes(u: World, wake: Wake)
    requires Up(u) && Top(u) == Pause && wake.Ready? && wake.wr
    ensures var r := AtResume(u, wake);
            r.port.stk == [NetDown] || Resumes(r, AfterSelect(u, u.port.pending == 0, true, wake))
  {
    hide Hear, UpdateAttr, UpdateRx, UpdateTx, Resume, Resumes, Linked, LastCredit;
    ResumeStateIsPause(u, wake);
    var r := AtResume(u, wake);
    if r.port.stk != [NetDown] {
      PauseResumes(r);
    }
  }

  /**
   Credit is given back. In any execution, a turn that reaches `select` in Pause with an empty input queue, and that is woken
   with the downlink ring writable, asks for the length of the output queue after it has heard the socket. If that is empty
   and the calls work, the turn ends in Net Up, having said the credit of 1024; if it is not, the turn ends in Pause, with
   nothing said and the credit 0.
   */
  lemma CreditIsGivenBack(trace: seq<World>, ticks: seq<Tick>, i: nat)
    requires Execution(trace, ticks) && i < |ticks|
    ensures var (u, v, wake) := (AtSelect(trace[i], ticks[i]), trace[i + 1], ticks[i].wake);
            wake.Ready? && wake.wr && Top(u) == Pause && InputQueue(trace[i], ticks[i]).val == 0 ==>
              var r := AtResume(u, wake);
              r.port.stk != [NetDown] ==>
                && Resumes(r, v)
                && (v.port.stk == [NetDown, Pause] ==> LastCredit(v.env.net.sent) == 0)
                && (v.port.stk == [NetDown, NetUp] ==> LastCredit(v.env.net.sent) == 1024)
  {
    hide Execution, Turn, Before, AfterSelect, AtSelect, AtResume, InputQueue, Sound, Linked, LastCredit, Resumes;
    NextIsTurn(trace, ticks, i);
    Throughout(trace, ticks, i, false);
    var (w, t) := (trace[i], ticks[i]);
    SelectMeans(w, t);
    TurnFromSelect(w, t);
    var u := AtSelect(w, t);
    PauseIsUp(u);
    if t.wake.Ready? && t.wake.wr && Top(u) == Pause {
      AfterResumes(u, t.wake);
    }
    if Connected(trace[i + 1]) {
      CreditAgrees(trace, ticks, i + 1);
    }
  }

  lemma PauseIsUp(u: World)
    ensures Good(u) && Top(u) == Pause ==> Up(u)
  {
    hide Logged, LastCredit;
  }

  lemma FineAwait(e: Env)
    ensures Fine(e, 2) ==> Await(e).1.ok
  {
    hide Steps;
  }

  lemma SilentSleep(r: World)
    ensures Said(Sleep(r)) == Said(r) && Sleep(r).port == r.port
  {
    hide Steps;
  }

  lemma ResumeStateIsPause(u: World, wake: Wake)
    requires Up(u) && Top(u) == Pause && wake.Ready?
    ensures var r := AtResume(u, wake);
            r.port.stk == [NetDown] || r.port.stk == [NetDown, Pause]
  {
    hide Hear, UpdateAttr, UpdateRx, UpdateTx, Logged, LastCredit;
    UpdateLink(u);
    HearStays(Listening(u, wake), wake);
    var h := Hear(Listening(u, wake), wake);
    RefreshStack(h);
    RefreshStack(UpdateRx(h));
  }

  lemma RefreshStack(h: World)
    ensures UpdateRx(h).port.stk == UpdateTx(h).port.stk == h.port.stk
  {
  }
}
