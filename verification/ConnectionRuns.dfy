/**
 From one turn to the next: what of the rings is flushed, how the bytes of a connection that has ended are framed, and that
 the device, obeying what it is sent, has the settings in the daemon's mirror.
 */
module ConnectionRuns {
  import opened Words
  import opened Packets
  import opened Rings
  import opened Attributes
  import opened Worlds
  import opened Handlers
  import opened Control
  import opened Pipes
  import opened PipeRuns
  import opened Settings
  import opened CloseFraming
  import opened Ledger
  import opened Reopening
  import opened Runs
  import opened Connections

  // ----- the stages of a turn

  /** A stage of the main loop after opening and closing. */
  predicate Moves(w: World, v: World, c: Config) {
    (Up(w) ==> Goes(w, v, c)) && (Down(w) ==> Rests(w, v))
  }

  lemma RestMoves(w: World, v: World, c: Config)
    requires Good(w) && Rests(w, v)
    ensures Moves(w, v, c)
  {
    hide Goes, Discarded, Logged, LastCredit;
    if Up(w) {
      RestGoes(w, v, c);
    }
  }

  lemma StagesMove(w: World, c: Config)
    requires Good(w)
    ensures Moves(w, SendPending(w), c) && Moves(w, TakeCreditBack(w), c) && Moves(w, Event(w).0, c)
    ensures Moves(w, Resume(w), c) && Moves(w, Poll(w), c)
  {
    hide Goes, CommonXmit, PauseOp, Event, Resume, Poll, Discarded, Logged, LastCredit;
    if Down(w) {
      DownStays(w, Ready(0, false, false, Closed, false, false));
    } else {
      StayGoes(w, w, c);
      XmitGoes(w, c);
      PauseGoes(w, c);
      EventGoes(w, c);
      ResumeGoes(w, c);
      PollGoes(w, c);
    }
  }

  lemma HearMoves(w: World, wake: Wake, c: Config)
    requires Good(w) && wake.Ready? && !w.env.rx.clean
    ensures Moves(w, Hear(w, wake), c)
  {
    hide Goes, Hear, Discarded, Logged, LastCredit;
    if Down(w) {
      DownStays(w, wake);
    } else {
      HearGoes(w, wake, c);
    }
  }

  lemma RefreshMoves(w: World, c: Config)
    requires Good(w)
    ensures Moves(w, UpdateRx(w), c) && Moves(w, UpdateTx(w), c) && Moves(w, UpdateAttr(w), c)
    ensures Moves(w, Sleep(w), c) && Moves(w, Interrupt(w), c)
  {
    hide Moves, UpdateRx, UpdateTx, UpdateAttr, Sleep, Interrupt, Discarded, Good;
    UpdateRests(w);
    InterruptRests(w);
    RestMoves(w, UpdateRx(w), c);
    RestMoves(w, UpdateTx(w), c);
    RestMoves(w, UpdateAttr(w), c);
    RestMoves(w, Sleep(w), c);
    RestMoves(w, Interrupt(w), c);
  }

  /**
   From `u`, where the turn has opened or closed what it had to, to `w`: nothing was flushed; without a connection nothing
   was sent; a connection that ended is framed, and one that goes on is mirrored.
   */
  predicate Kept(u: World, w: World, c: Config) {
    && Spares(u.env, w.env) && !w.env.rx.clean
    && if u.port.stk == [NetDown] then
         w.port.stk == [NetDown] && w.env.net.wire == u.env.net.wire && w.env.net.sent == u.env.net.sent
       else if w.port.stk == [NetDown] then FramedButOne(w.env.net)
       else Mirrored(w, c) && Defined(w.port.eki)
  }

  lemma MoveKeeps(u: World, w: World, v: World, c: Config)
    requires Kept(u, w, c) && Good(w) && Moves(w, v, c)
    ensures Kept(u, v, c)
  {
    hide Discarded, Split, ObeyAll, Logged, LastCredit, Rts, Dtr, Line, ToU32, FlowWords;
  }

  /** Reconciliation gives a new connection its first true mirror. */
  lemma ReconcileKeeps(u: World, c: Config)
    requires Good(u) && !u.env.rx.clean && (Up(u) ==> Mirrored(u, c) && (Defined(u.port.eki) || Works(Top(u))))
    ensures Kept(u, Reconcile(u), c)
  {
    hide CommonIoctl, Mirrored, Discarded, FramedButOne, Logged, LastCredit, ObeyAll;
    if Down(u) {
      DownStays(u, Ready(0, false, false, Closed, false, false));
    } else if SettingsDiffer(u) && Works(Top(u)) {
      IoctlEnds(u);
      if CommonIoctl(u).port.stk != [NetDown] {
        ReconcileMirrors(u, c);
      }
    } else if !SettingsDiffer(u) {
      SameSettings(u.port.eki, Attr(u));
    }
  }

  lemma BeforeKeeps(w: World, c: Config)
    requires Good(w) && Sound(w, false)
    requires var u := OpenClose(w); Up(u) ==> Mirrored(u, c) && (Defined(u.port.eki) || Works(Top(u)))
    ensures Kept(OpenClose(w), Before(w).0, c)
  {
    hide OpenClose, Reconcile, SendPending, TakeCreditBack, Event, Interrupt, Kept, Moves, Linked, Mirrored, Live, Base;
    OpenCloseGood(w);
    OpenCloseSound(w, false);
    var u := OpenClose(w);
    ReconcileKeeps(u, c);
    StagesKeep(u);
    var w1 := Reconcile(u);
    StagesMove(w1, c);
    StagesKeep(w1);
    MoveKeeps(u, w1, SendPending(w1), c);
    var w2 := SendPending(w1);
    StagesMove(w2, c);
    StagesKeep(w2);
    MoveKeeps(u, w2, TakeCreditBack(w2), c);
    var w3 := TakeCreditBack(w2);
    StagesMove(w3, c);
    StagesKeep(w3);
    MoveKeeps(u, w3, Event(w3).0, c);
    RefreshMoves(Event(w3).0, c);
    MoveKeeps(u, Event(w3).0, Interrupt(Event(w3).0), c);
  }

  lemma AfterKeeps(u: World, w: World, rd: bool, wr: bool, wake: Wake, c: Config)
    requires Good(w) && Kept(u, w, c)
    ensures Kept(u, AfterSelect(w, rd, wr, wake), c)
  {
    hide Poll, Hear, Resume, UpdateRx, UpdateTx, UpdateAttr, Moves, Up, Down, Mirrored, FramedButOne, Discarded;
    StagesMove(w, c);
    match wake
    case Timeout => MoveKeeps(u, w, Poll(w), c);
    case Ready(_, pri, _, _, rdReady, wrReady) =>
      UpdateLink(w);
      SameLinkGood(w, UpdateAttr(w));
      RefreshMoves(w, c);
      MoveKeeps(u, w, UpdateAttr(w), c);
      var w0 := if pri then UpdateAttr(w) else w;
      HearGood(w0, wake);
      HearMoves(w0, wake, c);
      MoveKeeps(u, w0, Hear(w0, wake), c);
      var w1 := Hear(w0, wake);
      UpdateLink(w1);
      SameLinkGood(w1, UpdateRx(w1));
      RefreshMoves(w1, c);
      MoveKeeps(u, w1, UpdateRx(w1), c);
      var w2 := if rd && rdReady then UpdateRx(w1) else w1;
      UpdateLink(w2);
      SameLinkGood(w2, UpdateTx(w2));
      RefreshMoves(w2, c);
      MoveKeeps(u, w2, UpdateTx(w2), c);
      StagesMove(UpdateTx(w2), c);
      MoveKeeps(u, UpdateTx(w2), Resume(UpdateTx(w2)), c);
  }

  /** The mirror is complete and tells what the device has. */
  predicate TellsTrue(w: World, c: Config) { Up(w) ==> Mirrored(w, c) && Defined(w.port.eki) }

  lemma OpenedIsMirrored(w: World, t: Tick, c: Config)
    requires Good(w) && TellsTrue(w, c)
    ensures var u := Opened(w, t); Up(u) ==> Mirrored(u, c) && (Defined(u.port.eki) || Works(Top(u)))
  {
    hide NetDownOpen, Close, CommonOpen, ObeyAll, Logged, LastCredit, Rts, Dtr, Line, ToU32, FlowWords;
    var w0 := w.(env := w.env.(io := t.io));
    if Down(w) {
      if |NetDownOpen(w0).port.stk| >= 2 {
        NewIsMirrored(w0, c);
      }
    } else {
      SameLinkUp(w, w0);
      OpenIsKept(w0);
    }
  }

  lemma TurnKeeps(w: World, t: Tick, c: Config)
    requires Good(w) && Sound(w, false) && TellsTrue(w, c)
    ensures Kept(Opened(w, t), Turn(w, t), c)
  {
    hide Before, AfterSelect, OpenClose, Sleep, Linked, Sound, Kept, Mirrored, Moves;
    var w0 := w.(env := w.env.(io := t.io));
    SameLinkGood(w, w0);
    NewScript(w, t.io, false);
    OpenedIsMirrored(w, t, c);
    BeforeGood(w0);
    BeforeKeeps(w0, c);
    var (w1, rd, wr) := Before(w0);
    UpdateLink(w1);
    SameLinkGood(w1, Sleep(w1));
    RefreshMoves(w1, c);
    MoveKeeps(Opened(w, t), w1, Sleep(w1), c);
    AfterKeeps(Opened(w, t), Sleep(w1), rd, wr, t.wake, c);
  }

  // ----- the results

  /**
   In any execution, on a connection, a device that obeys what it is sent has the settings of the daemon's mirror, whatever
   it had before; the one exception is a baud rate that is 0 in the mirror and has not been sent on this connection.
   */
  lemma {:induction false} DeviceFollowsMirror(trace: seq<World>, ticks: seq<Tick>, i: nat, c: Config)
    requires Execution(trace, ticks) && i < |trace|
    ensures Connected(trace[i]) ==> Mirrored(trace[i], c) && Defined(trace[i].port.eki)
  {
    hide Turn, Launched, Mirrored, Sound, Opened, Logged, LastCredit;
    Throughout(trace, ticks, i, false);
    if i == 0 {
      LaunchedIsDown(trace[0]);
    } else {
      DeviceFollowsMirror(trace, ticks, i - 1, c);
      Throughout(trace, ticks, i - 1, false);
      TurnKeeps(trace[i - 1], ticks[i - 1], c);
      assert trace[i] == Turn(trace[i - 1], ticks[i - 1]);
    }
  }

  lemma LaunchedIsDown(w: World)
    requires Launched(w)
    ensures Down(w)
  {
  }

  lemma MirrorTruth(d: Config, eki: Info, a: PortInfo, w: World, c: Config)
    requires Mirrored(w, c) && d == ObeyAll(c, w.env.net.sent) && eki == w.port.eki
    ensures MirrorIsTrue(d, eki, a) <==> (eki.baud == 0 && a.baud == 0 ==> d.baud == 0)
    ensures eki.(isOpen := true) == a.(isOpen := true) ==> (Matches(d, a) <==> MirrorIsTrue(d, eki, a))
  {
    hide ObeyAll, Rts, Dtr, FlowWords, ToByte, LineExt;
  }

  /**
   In any execution, a reconciliation on a connection, the first one or a later one, leaves the mirror equal to the
   published settings when no send fails; the device then has them if and only if it had the baud rate 0 already in case
   that is both published and in the mirror.
   */
  lemma ReconciliationMatches(trace: seq<World>, ticks: seq<Tick>, i: nat, c: Config)
    requires Execution(trace, ticks) && i < |ticks|
    ensures var (u, a) := (Opened(trace[i], ticks[i]), Attr(Opened(trace[i], ticks[i])));
            var v := Reconcile(u);
            Connected(u) && Top(u) != Idle && Connected(v) ==>
              && v.port.eki.(isOpen := true) == a.(isOpen := true)
              && (Matches(ObeyAll(c, v.env.net.sent), a)
                  <==> (u.port.eki.baud == 0 && a.baud == 0 ==> ObeyAll(c, u.env.net.sent).baud == 0))
  {
    hide Turn, Launched, Opened, CommonIoctl, Mirrored, Matches, MirrorIsTrue, ObeyAll, Sound, Logged, LastCredit;
    Throughout(trace, ticks, i, false);
    DeviceFollowsMirror(trace, ticks, i, c);
    OpenedIsMirrored(trace[i], ticks[i], c);
    OpenedIsGood(trace[i], ticks[i]);
    var u := Opened(trace[i], ticks[i]);
    if Connected(u) && Top(u) != Idle && Connected(Reconcile(u)) {
      var d := ObeyAll(c, u.env.net.sent);
      MirrorTruth(d, u.port.eki, Attr(u), u, c);
      IoctlEnds(u);
      var ps := ReconciliationConverges(u, d);
      ObeyMore(c, u.env.net.sent, ps);
    }
  }

  lemma OpenedIsGood(w: World, t: Tick)
    requires Good(w)
    ensures Good(Opened(w, t))
  {
    hide OpenClose, Logged, LastCredit;
    SameLinkGood(w, w.(env := w.env.(io := t.io)));
    OpenCloseGood(w.(env := w.env.(io := t.io)));
  }

  /**
   In any execution, the bytes of a connection that ends split into the packets sent on it, or these and the first of two
   modem line packets whose common send was cut. With a close it is the packets sent exactly under the condition of
   `CloseFrames`. Without a connection nothing is sent.
   */
  lemma EndsFramed(trace: seq<World>, ticks: seq<Tick>, i: nat)
    requires Execution(trace, ticks) && i < |ticks| && !Connected(trace[i + 1])
    ensures var (w, n) := (trace[i].(env := trace[i].env.(io := ticks[i].io)), trace[i + 1].env.net);
            if !Connected(w) then FramedButOne(n) || (n.wire == w.env.net.wire && n.sent == w.env.net.sent)
            else if Attr(w).isOpen then FramedButOne(n)
            else CloseFrames(w, n)
  {
    hide Turn, Launched, OpenClose, Mirrored, Sound, Split, AfterPurge, AfterClose, Close, Logged, LastCredit;
    Throughout(trace, ticks, i, false);
    Throughout(trace, ticks, i + 1, false);
    var c := Config(0, [], (0, 0), false, false);
    DeviceFollowsMirror(trace, ticks, i, c);
    TurnKeeps(trace[i], ticks[i], c);
    assert trace[i + 1] == Turn(trace[i], ticks[i]);
    OpenedEnds(trace[i], ticks[i]);
  }

  lemma OpenedEnds(w: World, t: Tick)
    requires Good(w)
    ensures var (u, w0) := (Opened(w, t), w.(env := w.env.(io := t.io)));
            if Down(w) then Opens(w0, u)
            else if Attr(w).isOpen then u == w0
            else u.port.stk == [NetDown] && CloseFrames(w0, u.env.net)
  {
    hide NetDownOpen, Close, CloseFrames, Split, Logged, LastCredit, Discarded;
    var w0 := w.(env := w.env.(io := t.io));
    if Down(w) {
      NetDownOpenOpens(w0);
      StayOpens(w0);
    } else {
      SameLinkUp(w, w0);
      if !Attr(w).isOpen {
        CloseEnds(w0);
        CloseGood(w0);
      }
    }
  }

  lemma StayOpens(w: World)
    ensures Opens(w, w)
  {
    hide Discarded, Split;
  }

  /**
   In any execution, a turn flushes the rings if and only if it starts on a connection and finds the port closed: then all
   that the uplink ring holds is flushed, and what is still in the downlink ring. So what the rings hold when a connection
   breaks, or when the port is closed without one, is kept for the next open.
   */
  lemma OnlyCloseFlushes(trace: seq<World>, ticks: seq<Tick>, i: nat) returns (up: seq<byte>, down: seq<byte>)
    requires Execution(trace, ticks) && i < |ticks|
    ensures var (e, f) := (trace[i].env, trace[i + 1].env);
            && Discarded(f.hist.upGone) == Discarded(e.hist.upGone) + up
            && Discarded(f.hist.downGone) == Discarded(e.hist.downGone) + down
            && if Connected(trace[i]) && !Attr(trace[i]).isOpen then
                 e.rx.Contents() <= up && |down| <= e.tx.Len() && down == e.tx.Contents()[e.tx.Len() - |down|..]
               else up == down == []
  {
    hide Turn, Launched, OpenClose, Mirrored, Sound, Discarded, Close, Logged, LastCredit, Span;
    Throughout(trace, ticks, i, false);
    var c := Config(0, [], (0, 0), false, false);
    DeviceFollowsMirror(trace, ticks, i, c);
    TurnKeeps(trace[i], ticks[i], c);
    assert trace[i + 1] == Turn(trace[i], ticks[i]);
    up, down := OpenedFlushes(trace[i], ticks[i]);
  }

  lemma OpenedFlushes(w: World, t: Tick) returns (up: seq<byte>, down: seq<byte>)
    requires Good(w) && Sound(w, false)
    ensures var (e, f) := (w.env, Opened(w, t).env);
            && Discarded(f.hist.upGone) == Discarded(e.hist.upGone) + up
            && Discarded(f.hist.downGone) == Discarded(e.hist.downGone) + down
            && if Connected(w) && !Attr(w).isOpen then
                 e.rx.Contents() <= up && |down| <= e.tx.Len() && down == e.tx.Contents()[e.tx.Len() - |down|..]
               else up == down == []
  {
    hide NetDownOpen, Close, Discarded, Conserved, Split, Logged, LastCredit, Span;
    var w0 := w.(env := w.env.(io := t.io));
    up, down := [], [];
    assert Discarded(w.env.hist.upGone) + [] == Discarded(w.env.hist.upGone);
    assert Discarded(w.env.hist.downGone) + [] == Discarded(w.env.hist.downGone);
    if Down(w) {
      NetDownOpenOpens(w0);
    } else if !Attr(w).isOpen {
      SameLinkUp(w, w0);
      ScriptIsIrrelevant(w.env, t.io, 0);
      up, down := CloseDiscards(w0);
    }
  }
}
