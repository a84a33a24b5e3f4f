/**
 All that the daemon says in a turn, as a list of plain commands that follows from the state, the settings, the snapshots and
 the packet read. Numbers and bytes are written out here; no handler and no builder is named.
 */
module Speech {
  import opened Words
  import opened Packets
  import opened Rings
  import opened Attributes
  import opened Worlds
  import opened Handlers
  import opened Control
  import opened Reopening
  import opened Says
  import opened Hears

  // ----- commands

  /** A packet without its ids; of SET_HANDFLOW, without the four bytes that nobody writes. */
  datatype Command = Command(cmd: u16, p1: u32, p2: u32, ext: seq<byte>)

  function Gist(p: Pkt): Command {
    Command(p.cmd, p.p1, p.p2, if p.cmd == 0x0e && p.p1 == 0x19 && |p.ext| >= 12 then p.ext[..12] else p.ext)
  }

  function Gists(ps: seq<Pkt>): (cs: seq<Command>)
    ensures |cs| == |ps|
  {
    seq(|ps|, i requires 0 <= i < |ps| => Gist(ps[i]))
  }

  /** The commands sent on the connection. */
  function Said(w: World): seq<Command> { Gists(Packed(w.env.net.sent)) }

  function Ioctl0(p1: u32): Command { Command(0x0e, p1, 0, []) }

  lemma GistsMore(ps: seq<Pkt>, qs: seq<Pkt>)
    ensures Gists(ps + qs) == Gists(ps) + Gists(qs)
  {
  }

  // ----- the settings

  /** The rate, low byte first. */
  function BaudCommands(from: int, to: int): seq<Command> {
    var rate := to % 0x1_0000_0000;
    if from == to then []
    else [Command(0x0e, 0x01, 0, [rate % 0x100, rate / 0x100 % 0x100, rate / 0x1_0000 % 0x100, rate / 0x100_0000])]
  }

  /** Stop bits, parity, size. */
  function LineCommands(from: Info, to: Info): seq<Command> {
    if from.pair == to.pair && from.stop == to.stop && from.byte == to.byte then []
    else [Command(0x0e, 0x03, 0, [to.stop % 0x100, to.pair % 0x100, to.byte % 0x100])]
  }

  /** RTS/CTS, XON/XOFF, or neither, and the limit of 512 bytes. */
  function FlowBody(flowctl: int): seq<byte> {
    if flowctl == 2 then [0x09, 0, 0, 0, 0x80, 0, 0, 0x80, 0, 0, 2, 0]
    else if flowctl == 1 then [0x01, 0, 0, 0, 0x43, 0, 0, 0x80, 0, 0, 2, 0]
    else [0x01, 0, 0, 0, 0x40, 0, 0, 0x80, 0, 0, 2, 0]
  }

  function FlowCommands(from: int, to: int): seq<Command> {
    if from == to then [] else [Command(0x0e, 0x19, 0, FlowBody(to))]
  }

  /** One command for each of the modem lines that changes. */
  function LinesCommands(from: u32, to: u32): seq<Command> {
    (if from / 4 % 2 == to / 4 % 2 then [] else [Ioctl0(if to / 4 % 2 == 1 then 0x0c else 0x0d)])
    + (if from / 2 % 2 == to / 2 % 2 then [] else [Ioctl0(if to / 2 % 2 == 1 then 0x09 else 0x0a)])
  }

  function SettingsCommands(from: Info, to: Info): seq<Command> {
    BaudCommands(from.baud, to.baud) + LineCommands(from, to) + FlowCommands(from.flowctl, to.flowctl) + LinesCommands(from.ms, to.ms)
  }

  /** A stage of the reconciliation: if it goes well, exactly `cs` are said; one call that works is enough for it. */
  predicate Utters(w: World, r: (World, bool), cs: seq<Command>, n: nat) {
    && (Fine(w.env, n + 1) ==> r.1 && Fine(r.0.env, n))
    && (r.1 ==> Said(r.0) == Said(w) + cs && r.0.port.stk == w.port.stk && r.0.env.att.slots == w.env.att.slots
                && r.0.port.attrPtr == w.port.attrPtr)
  }

  /** So many numbers are used up. */
  predicate Counts(w: World, v: World, n: nat) { v.port.tid == w.port.tid + n }

  lemma EmitUtters(w: World, cmd: u16, p1: u32, p2: u32, ext: Ext, n: nat)
    ensures Utters(w, Emit(w, cmd, p1, p2, ext), [Gist(Pkt(MAGIC, 0, cmd, p1, p2, ext))], n)
  {
    hide Emit, Packed, Gist;
    EmitSays(w, cmd, p1, p2, ext, n);
    var p := Cmd(w, 0, cmd, p1, p2, ext);
    GistsMore(Packed(w.env.net.sent), [p]);
    SameGist(p, Pkt(MAGIC, 0, cmd, p1, p2, ext));
  }

  lemma SkipUtters(w: World, n: nat)
    ensures Utters(w, (w, true), [], n)
  {
    AwaitFine(w.env, n);
    assert Said(w) + [] == Said(w);
  }

  lemma SameGist(p: Pkt, q: Pkt)
    requires p.(tid := 0) == q.(tid := 0)
    ensures Gist(p) == Gist(q)
  {
  }

  lemma Le32Bytes(n: u32)
    ensures Le32(n) == [n % 0x100, n / 0x100 % 0x100, n / 0x1_0000 % 0x100, n / 0x100_0000]
  {
    var (a, b) := (n / 0x1_0000 / 0x100, n / 0x1_0000 % 0x100);
    var (c, d) := (n % 0x1_0000 / 0x100, n % 0x1_0000 % 0x100);
    assert n == a * 0x100_0000 + b * 0x1_0000 + c * 0x100 + d;
    assert Le32(n) == [d, c, b, a];
    Digits(a, b, c, d);
  }

  lemma Digits(a: byte, b: byte, c: byte, d: byte)
    ensures var n := a * 0x100_0000 + b * 0x1_0000 + c * 0x100 + d;
            n % 0x100 == d && n / 0x100 % 0x100 == c && n / 0x1_0000 % 0x100 == b && n / 0x100_0000 == a
  {
    var n := a * 0x100_0000 + b * 0x1_0000 + c * 0x100 + d;
    assert n / 0x100 == a * 0x1_0000 + b * 0x100 + c;
    assert n / 0x1_0000 == a * 0x100 + b;
  }

  lemma BaudUtters(w: World, n: nat)
    ensures Utters(w, IoctlBaud(w), BaudCommands(w.port.eki.baud, Attr(w).baud), n)
    ensures IoctlBaud(w).1 ==> Counts(w, IoctlBaud(w).0, |BaudCommands(w.port.eki.baud, Attr(w).baud)|)
    ensures IoctlBaud(w).1 ==> IoctlBaud(w).0.port.eki == w.port.eki.(baud := Attr(w).baud)
  {
    hide Emit, Packed, Le32;
    var rate := ToU32(Attr(w).baud);
    Le32Bytes(rate);
    EmitUtters(w.(port := w.port.(eki := w.port.eki.(baud := Attr(w).baud))), CMD_IOCTL, IOCTL_SET_BAUD_RATE, 0, Le32(rate), n);
    SkipUtters(w, n);
  }

  lemma LineUtters(w: World, n: nat)
    ensures Utters(w, IoctlLine(w), LineCommands(w.port.eki, Attr(w)), n)
    ensures IoctlLine(w).1 ==> Counts(w, IoctlLine(w).0, |LineCommands(w.port.eki, Attr(w))|)
    ensures var a := Attr(w);
            IoctlLine(w).1 ==> IoctlLine(w).0.port.eki == w.port.eki.(pair := a.pair, stop := a.stop, byte := a.byte)
  {
    hide Emit, Packed;
    var a := Attr(w);
    EmitUtters(w.(port := w.port.(eki := w.port.eki.(pair := a.pair, stop := a.stop, byte := a.byte))), CMD_IOCTL,
               IOCTL_SET_LINE_CONTROL, 0, LineExt(ToByte(a.pair), ToByte(a.byte), ToByte(a.stop)), n);
    SkipUtters(w, n);
  }

  /** The twelve bytes of SET_HANDFLOW that are written. */
  lemma FlowBytes(flowctl: int, unwritten: Quad)
    ensures var ext := FlowExt(FlowWords(flowctl).0, FlowWords(flowctl).1, unwritten);
            |ext| == 16 && ext[..12] == FlowBody(flowctl)
  {
    hide Be32;
    var (chflow, flowrep) := FlowWords(flowctl);
    assert FlowExt(chflow, flowrep, unwritten)[..12] == Be32(chflow) + Be32(flowrep) + Be32(512);
    WordsInBytes();
  }

  lemma WordsInBytes()
    ensures Be32(0x01000000) == [0x01, 0, 0, 0] && Be32(0x43000080) == [0x43, 0, 0, 0x80] && Be32(0x40000080) == [0x40, 0, 0, 0x80]
    ensures Be32(0x09000000) == [0x09, 0, 0, 0] && Be32(0x80000080) == [0x80, 0, 0, 0x80] && Be32(512) == [0, 0, 2, 0]
  {
  }

  lemma FlowUtters(w: World, n: nat)
    ensures Utters(w, IoctlFlow(w), FlowCommands(w.port.eki.flowctl, Attr(w).flowctl), n)
    ensures IoctlFlow(w).1 ==> Counts(w, IoctlFlow(w).0, |FlowCommands(w.port.eki.flowctl, Attr(w).flowctl)|)
    ensures IoctlFlow(w).1 ==> IoctlFlow(w).0.port.eki == w.port.eki.(flowctl := Attr(w).flowctl)
  {
    hide Emit, Packed, FlowExt, FlowWords, FlowBody, Junk;
    var flow := Attr(w).flowctl;
    var ext := FlowExt(FlowWords(flow).0, FlowWords(flow).1, Junk(w.env));
    FlowBytes(flow, Junk(w.env));
    EmitUtters(w.(port := w.port.(eki := w.port.eki.(flowctl := flow))), CMD_IOCTL, IOCTL_SET_HANDFLOW, 0, ext, n);
    SkipUtters(w, n);
  }

  lemma LinesGists(tid: nat, from: u32, to: u32)
    ensures Gists(Packed(MsPkts(tid, from, to))) == LinesCommands(from, to)
  {
  }

  lemma LinesUtter(w: World, n: nat)
    ensures Utters(w, IoctlMs(w), LinesCommands(w.port.eki.ms, Attr(w).ms), n)
    ensures var n := |LinesCommands(w.port.eki.ms, Attr(w).ms)|;
            IoctlMs(w).1 ==> Counts(w, IoctlMs(w).0, if n == 0 then 0 else n + 1)
    ensures IoctlMs(w).1 ==> IoctlMs(w).0.port.eki == w.port.eki.(ms := Attr(w).ms)
  {
    hide Await, EncodeAll, MsPkts, LinesCommands, Gist;
    var ps := MsPkts(w.port.tid, w.port.eki.ms, Attr(w).ms);
    LinesGists(w.port.tid, w.port.eki.ms, Attr(w).ms);
    AwaitFine(w.env, n);
    assert Packed(w.env.net.sent + ps) == Packed(w.env.net.sent) + Packed(ps);
    GistsMore(Packed(w.env.net.sent), Packed(ps));
    assert w.env.net.sent + [] == w.env.net.sent;
  }

  /**
   Reconciliation says what differs, in this order: the rate, the line, the flow control, RTS, DTR. It needs four calls that
   work, and leaves the mirror equal to the published settings. It uses up a number for each command, and one more for the
   modem lines.
   */
  lemma ReconcileUtters(w: World)
    ensures var (v, a) := (CommonIoctl(w), Attr(w));
            && (Fine(w.env, 4) ==> v.port.stk == w.port.stk)
            && (v.port.stk != [NetDown] ==>
                  && v.port.stk == w.port.stk && Said(v) == Said(w) + SettingsCommands(w.port.eki, a)
                  && v.port.eki == a.(isOpen := w.port.eki.isOpen)
                  && Counts(w, v, |SettingsCommands(w.port.eki, a)| + if LinesCommands(w.port.eki.ms, a.ms) == [] then 0 else 1))
  {
    hide IoctlBaud, IoctlLine, IoctlFlow, IoctlMs, Excp, Said, Fine;
    hide BaudCommands, LineCommands, FlowCommands, LinesCommands;
    BaudUtters(w, 3);
    var w1 := IoctlBaud(w).0;
    LineUtters(w1, 2);
    var w2 := IoctlLine(w1).0;
    FlowUtters(w2, 1);
    var w3 := IoctlFlow(w2).0;
    LinesUtter(w3, 0);
    ExcpKeepsCopy(w1);
    ExcpKeepsCopy(w2);
    ExcpKeepsCopy(w3);
    ExcpKeepsCopy(IoctlMs(w3).0);
    if IoctlBaud(w).1 {
      LineAsBefore(w.port.eki, w1.port.eki, Attr(w));
    }
  }

  lemma LineAsBefore(eki: Info, eki1: Info, a: Info)
    requires eki1 == eki.(baud := eki1.baud)
    ensures LineCommands(eki1, a) == LineCommands(eki, a)
  {
  }

  /** What was sent is what is said. */
  lemma SaidMore(w: World, v: World, ps: seq<Pkt>)
    requires Packed(v.env.net.sent) == Packed(w.env.net.sent) + ps
    ensures Said(v) == Said(w) + Gists(ps)
  {
    GistsMore(Packed(w.env.net.sent), ps);
  }
}
