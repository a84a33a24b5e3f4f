/**
 From what the application asks for to what the device has: the flags of `termios` and the modem lines on one side, the
 rate, the three bytes of the line, the two words of the flow control and the lines on the other, all in plain numbers.
 */
module Wishes {
  import opened Words
  import opened Packets
  import opened Attributes
  import opened Worlds
  import opened Handlers
  import opened Control
  import opened PipeRuns
  import opened Settings
  import opened Reopening
  import opened Runs
  import opened Connections
  import opened ConnectionRuns
  import opened Progress

  /** The device has what the application asked for. */
  predicate Has(c: Config, t: Termios, rts: bool, dtr: bool) {
    && c.baud == t.baud % 0x1_0000_0000
    && c.line == [if t.cstopb then 2 else 0,
                  if !t.parenb then 0 else if t.cmspar then (if t.parodd then 3 else 4) else (if t.parodd then 1 else 2),
                  if t.csize == 5 then 5 else if t.csize == 6 then 6 else if t.csize == 7 then 7 else 8]
    && c.flow == (if t.crtscts then (0x0900_0000, 0x8000_0080) else if t.ixoff then (0x0100_0000, 0x4300_0080) else (0x0100_0000, 0x4000_0080))
    && c.rts == rts && c.dtr == dtr
  }

  // ----- the driver's settings

  /** The settings are those of a call of `set_termios`. */
  predicate FromTermios(a: Info, t: Termios) {
    && a.baud == t.baud
    && a.byte == (if t.csize == 5 then 5 else if t.csize == 6 then 6 else if t.csize == 7 then 7 else 8)
    && a.flowctl == (if t.crtscts then 2 else if t.ixoff then 1 else 0)
    && a.pair == (if !t.parenb then 0 else if t.cmspar then (if t.parodd then 3 else 4) else (if t.parodd then 1 else 2))
    && a.stop == (if t.cstopb then 2 else 0)
  }

  /** The modem lines are those of a call of `set_mctrl`: the bits 4 and 2. */
  predicate FromLines(a: Info, rts: bool, dtr: bool) { a.ms == (if rts then 4 else 0) + (if dtr then 2 else 0) }

  lemma StepWishes(e: Env, s: EnvStep)
    ensures var a := Step(e, s).att.attr;
            && (s.SetTermios? ==> FromTermios(a, s.t) && a.ms == e.att.attr.ms && a.isOpen == e.att.attr.isOpen)
            && (s.SetMctrl? ==> FromLines(a, s.rts, s.dtr) && a.(ms := e.att.attr.ms) == e.att.attr)
            && (!s.SetTermios? && !s.SetMctrl? ==> a.(isOpen := e.att.attr.isOpen) == e.att.attr)
  {
    hide XmitCopy, RecvChars;
    match s
    case StartTx => CopiesSpareSettings(e.(rx := e.rx.(enabled := true)), []);
    case Unthrottle(takes) => CopiesSpareSettings(e.(throttled := false), takes);
    case _ =>
  }

  lemma CopiesSpareSettings(e: Env, takes: seq<nat>)
    ensures XmitCopy(e).att == e.att && RecvChars(e, takes).att == e.att
  {
  }

  /** Among any steps of the world, the last call of `set_termios` settles the rate, the line and the flow control. */
  lemma {:induction false} LastTermiosStands(e: Env, ss: seq<EnvStep>, i: nat)
    requires i < |ss| && ss[i].SetTermios? && forall k :: i < k < |ss| ==> !ss[k].SetTermios?
    ensures FromTermios(Steps(e, ss).att.attr, ss[i].t)
    decreases |ss|
  {
    hide Step, FromTermios;
    StepWishes(e, ss[0]);
    if i > 0 {
      LastTermiosStands(Step(e, ss[0]), ss[1..], i - 1);
    } else {
      NoMoreTermios(Step(e, ss[0]), ss[1..], ss[0].t);
    }
  }

  lemma {:induction false} NoMoreTermios(e: Env, ss: seq<EnvStep>, t: Termios)
    requires FromTermios(e.att.attr, t) && forall k :: 0 <= k < |ss| ==> !ss[k].SetTermios?
    ensures FromTermios(Steps(e, ss).att.attr, t)
    decreases |ss|
  {
    hide Step;
    if ss != [] {
      StepWishes(e, ss[0]);
      NoMoreTermios(Step(e, ss[0]), ss[1..], t);
    }
  }

  /** Among any steps of the world, the last call of `set_mctrl` settles the modem lines. */
  lemma {:induction false} LastMctrlStands(e: Env, ss: seq<EnvStep>, i: nat)
    requires i < |ss| && ss[i].SetMctrl? && forall k :: i < k < |ss| ==> !ss[k].SetMctrl?
    ensures FromLines(Steps(e, ss).att.attr, ss[i].rts, ss[i].dtr)
    decreases |ss|
  {
    hide Step, FromLines;
    StepWishes(e, ss[0]);
    if i > 0 {
      LastMctrlStands(Step(e, ss[0]), ss[1..], i - 1);
    } else {
      NoMoreMctrl(Step(e, ss[0]), ss[1..], ss[0].rts, ss[0].dtr);
    }
  }

  lemma {:induction false} NoMoreMctrl(e: Env, ss: seq<EnvStep>, rts: bool, dtr: bool)
    requires FromLines(e.att.attr, rts, dtr) && forall k :: 0 <= k < |ss| ==> !ss[k].SetMctrl?
    ensures FromLines(Steps(e, ss).att.attr, rts, dtr)
    decreases |ss|
  {
    hide Step;
    if ss != [] {
      StepWishes(e, ss[0]);
      NoMoreMctrl(Step(e, ss[0]), ss[1..], rts, dtr);
    }
  }

  // ----- the device's settings

  /** To match the settings of the driver is to have what the application asked for. */
  lemma MatchesMeans(c: Config, a: Info, t: Termios, rts: bool, dtr: bool)
    requires FromTermios(a, t) && FromLines(a, rts, dtr)
    ensures Matches(c, a) <==> Has(c, t, rts, dtr)
  {
  }

  /** The words of the flow control that a reconciliation sends, where the mirror has another setting. */
  lemma FlowIsSent(w: World, c: Config)
    ensures var (v, flowctl) := (CommonIoctl(w), Attr(w).flowctl);
            v.port.sk >= 0 && w.port.eki.flowctl != flowctl ==>
              ObeyAll(c, v.env.net.sent).flow ==
                if flowctl == 2 then (0x0900_0000, 0x8000_0080)
                else if flowctl == 1 then (0x0100_0000, 0x4300_0080)
                else (0x0100_0000, 0x4000_0080)
  {
    hide CommonIoctl, ObeyAll, Matches, MirrorIsTrue, Rts, Dtr, Line;
    var ps := ReconciliationConverges(w, ObeyAll(c, w.env.net.sent));
    ObeyMore(c, w.env.net.sent, ps);
  }

  /**
   In any execution, after every reconciliation on a connection, the first or a later one, the device has the words of the
   flow control that is published, whatever it had before.
   */
  lemma FlowFollows(trace: seq<World>, ticks: seq<Tick>, i: nat, c: Config)
    requires Execution(trace, ticks) && i < |ticks|
    ensures var u := Opened(trace[i], ticks[i]);
            var (v, flowctl) := (Reconcile(u), Attr(u).flowctl);
            Connected(u) && Top(u) != Idle && Connected(v) ==>
              ObeyAll(c, v.env.net.sent).flow ==
                if flowctl == 2 then (0x0900_0000, 0x8000_0080)
                else if flowctl == 1 then (0x0100_0000, 0x4300_0080)
                else (0x0100_0000, 0x4000_0080)
  {
    hide Execution, Opened, Reconcile, Mirrored, ObeyAll, Sound, Logged, LastCredit;
    NextIsTurn(trace, ticks, i);
    Throughout(trace, ticks, i, false);
    DeviceFollowsMirror(trace, ticks, i, c);
    OpenedIsMirrored(trace[i], ticks[i], c);
    OpenedIsGood(trace[i], ticks[i]);
    var u := Opened(trace[i], ticks[i]);
    ConnectedIsUpToo(u);
    if Connected(u) && Top(u) != Idle {
      FlowAfter(u, c);
    }
  }

  lemma FlowAfter(u: World, c: Config)
    requires Up(u) && Mirrored(u, c) && Top(u) != Idle
    ensures var (v, flowctl) := (Reconcile(u), Attr(u).flowctl);
            Connected(v) ==>
              ObeyAll(c, v.env.net.sent).flow ==
                if flowctl == 2 then (0x0900_0000, 0x8000_0080)
                else if flowctl == 1 then (0x0100_0000, 0x4300_0080)
                else (0x0100_0000, 0x4000_0080)
  {
    hide CommonIoctl, Matches, MirrorIsTrue, ObeyAll, Logged, LastCredit, Rts, Dtr, Line;
    IoctlEnds(u);
    FlowIsSent(u, c);
    FlowOfMirror(u, c);
    var ps := ReconciliationConverges(u, ObeyAll(c, u.env.net.sent));
    ObeyMore(c, u.env.net.sent, ps);
  }

  lemma FlowOfMirror(u: World, c: Config)
    requires Mirrored(u, c)
    ensures u.port.eki.flowctl == Attr(u).flowctl ==> ObeyAll(c, u.env.net.sent).flow == FlowWords(Attr(u).flowctl)
  {
    hide ObeyAll, FlowWords, Line, Rts, Dtr;
  }

  /**
   What the application asks for reaches the device. In any execution, take a turn woken by a priority event, at a moment
   when the driver's settings are those of `set_termios` with `t` and of `set_mctrl`. If the next turn reconciles on a
   connection, and no send fails, the device then has exactly these, if and only if it had the baud rate 0 already in case
   that is asked for and in the mirror.
   */
  lemma ApplicationIsObeyed(trace: seq<World>, ticks: seq<Tick>, i: nat, c: Config, t: Termios, rts: bool, dtr: bool)
    requires Execution(trace, ticks) && i + 1 < |ticks|
    ensures var (wake, a) := (ticks[i].wake, Await(AtSelect(trace[i], ticks[i]).env).0.att.attr);
            var u := Opened(trace[i + 1], ticks[i + 1]);
            var v := Reconcile(u);
            && wake.Ready? && wake.pri && FromTermios(a, t) && FromLines(a, rts, dtr)
            && Connected(u) && Top(u) != Idle && Connected(v) ==>
              (Has(ObeyAll(c, v.env.net.sent), t, rts, dtr)
               <==> (u.port.eki.baud == 0 && t.baud == 0 ==> ObeyAll(c, u.env.net.sent).baud == 0))
  {
    hide Execution, Turn, Opened, Reconcile, AtSelect, Await, Attr, Matches, Has, ObeyAll, Sound, Good, FromTermios, FromLines, Top;
    NextIsTurn(trace, ticks, i);
    SettingsArePublished(trace, ticks, i);
    ReconciliationMatches(trace, ticks, i + 1, c);
    Throughout(trace, ticks, i + 1, false);
    OpenedKeepsSettings(trace[i + 1], ticks[i + 1]);
    var (a, u) := (Await(AtSelect(trace[i], ticks[i]).env).0.att.attr, Opened(trace[i + 1], ticks[i + 1]));
    if FromTermios(a, t) && FromLines(a, rts, dtr) {
      RateAskedFor(a, t);
      MatchesMeans(ObeyAll(c, Reconcile(u).env.net.sent), a, t, rts, dtr);
    }
  }

  lemma RateAskedFor(a: Info, t: Termios)
    requires FromTermios(a, t)
    ensures a.baud == t.baud
  {
  }

  lemma OpenedKeepsSettings(w: World, t: Tick)
    requires Good(w)
    ensures Attr(Opened(w, t)) == Attr(w)
  {
    hide OpenClose, Linked, LastCredit;
    SameLinkGood(w, w.(env := w.env.(io := t.io)));
    OpenCloseGood(w.(env := w.env.(io := t.io)));
  }
}
