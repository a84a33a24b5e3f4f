/**
 Reconciliation of the port settings: the daemon compares the published settings with its mirror of the device's, and
 sends commands until they agree. What the device then holds is found by replaying the packets sent.
 */
module Settings {
  import opened Words
  import opened Packets
  import opened Attributes
  import opened Worlds
  import opened Handlers
  import opened Control

  /** What the device knows of the settings. */
  datatype Config = Config(baud: u32, line: Ext, flow: (u32, u32), rts: bool, dtr: bool)

  /** The device obeys one packet. */
  function Obey(c: Config, p: Pkt): Config {
    if p.cmd != CMD_IOCTL then c
    else if p.p1 == IOCTL_SET_BAUD_RATE && |p.ext| == 4 then c.(baud := FromLe32(p.ext))
    else if p.p1 == IOCTL_SET_LINE_CONTROL then c.(line := p.ext)
    else if p.p1 == IOCTL_SET_HANDFLOW && |p.ext| == 16 then c.(flow := (FromBe32(p.ext[..4]), FromBe32(p.ext[4..8])))
    else if p.p1 == IOCTL_SET_RTS then c.(rts := true)
    else if p.p1 == IOCTL_CLR_RTS then c.(rts := false)
    else if p.p1 == IOCTL_SET_DTR then c.(dtr := true)
    else if p.p1 == IOCTL_CLR_DTR then c.(dtr := false)
    else c
  }

  function ObeyAll(c: Config, ps: seq<Sent>): Config
    decreases |ps|
  {
    if ps == [] then c else ObeyAll(Obey(c, ps[0].pkt), ps[1..])
  }

  lemma ObeyMore(c: Config, ps: seq<Sent>, qs: seq<Sent>)
    ensures ObeyAll(c, ps + qs) == ObeyAll(ObeyAll(c, ps), qs)
    decreases |ps|
  {
    if ps == [] {
      assert ps + qs == qs;
    } else {
      assert (ps + qs)[1..] == ps[1..] + qs;
      ObeyMore(Obey(c, ps[0].pkt), ps[1..], qs);
    }
  }

  function Line(a: Info): Ext { LineExt(ToByte(a.pair), ToByte(a.byte), ToByte(a.stop)) }

  /** The device has the settings `a`. */
  predicate Matches(c: Config, a: Info) {
    && c.baud == ToU32(a.baud) && c.line == Line(a) && c.flow == FlowWords(a.flowctl)
    && c.rts == Rts(a.ms) && c.dtr == Dtr(a.ms)
  }

  /** Where the mirror already agrees with the settings, so that nothing will be sent, the device has them. */
  predicate MirrorIsTrue(c: Config, eki: Info, a: Info) {
    && (eki.baud == a.baud ==> c.baud == ToU32(a.baud))
    && (SameLine(eki, a) ==> c.line == Line(a))
    && (eki.flowctl == a.flowctl ==> c.flow == FlowWords(a.flowctl))
    && (Rts(eki.ms) == Rts(a.ms) ==> c.rts == Rts(a.ms))
    && (Dtr(eki.ms) == Dtr(a.ms) ==> c.dtr == Dtr(a.ms))
  }

  /** What a device with `c` has after all that differs between the mirror and the settings was sent to it. */
  function Told(c: Config, eki: Info, a: Info): Config {
    Config(if eki.baud == a.baud then c.baud else ToU32(a.baud),
           if SameLine(eki, a) then c.line else Line(a),
           if eki.flowctl == a.flowctl then c.flow else FlowWords(a.flowctl),
           if Rts(eki.ms) == Rts(a.ms) then c.rts else Rts(a.ms),
           if Dtr(eki.ms) == Dtr(a.ms) then c.dtr else Dtr(a.ms))
  }

  lemma ToldMatches(c: Config, eki: Info, a: Info)
    ensures Matches(Told(c, eki, a), a) <==> MirrorIsTrue(c, eki, a)
  {
    hide FlowWords, Line, ToU32, Rts, Dtr;
  }

  /** The packets sent between two worlds of one connection. */
  predicate SentBetween(w: World, v: World, ps: seq<Sent>) { v.env.net.sent == w.env.net.sent + ps }

  // ----- the four stages

  /** A stage that went well: nothing was sent and the io script is untouched, or one send was made. */
  predicate OneSend(w: World, v: World, ps: seq<Sent>) {
    && SentBetween(w, v, ps) && v.env.att.slots == w.env.att.slots && v.port.attrPtr == w.port.attrPtr
    && |v.env.io| <= |w.env.io| <= |v.env.io| + 1
  }

  lemma EmitOnce(w: World, cmd: u16, p1: u32, p2: u32, ext: Ext)
    ensures var (v, ok) := Emit(w, cmd, p1, p2, ext);
            ok ==> OneSend(w, v, [Sent(w.port.tid, Pkt(MAGIC, w.port.tid % TID_MOD, cmd, p1, p2, ext))])
  {
  }

  lemma BaudStage(w: World, c: Config) returns (ps: seq<Sent>)
    ensures var (v, ok) := IoctlBaud(w);
            ok ==> && OneSend(w, v, ps) && v.port.eki == w.port.eki.(baud := Attr(w).baud)
                   && ObeyAll(c, ps) == if w.port.eki.baud == Attr(w).baud then c else c.(baud := ToU32(Attr(w).baud))
  {
    hide Emit, ToU32, Le32, FromLe32;
    var baud := Attr(w).baud;
    if w.port.eki.baud == baud {
      ps := [];
    } else {
      ps := [Sent(w.port.tid, Pkt(MAGIC, w.port.tid % TID_MOD, CMD_IOCTL, IOCTL_SET_BAUD_RATE, 0, Le32(ToU32(baud))))];
      EmitOnce(w.(port := w.port.(eki := w.port.eki.(baud := baud))), CMD_IOCTL, IOCTL_SET_BAUD_RATE, 0, Le32(ToU32(baud)));
      Be32RoundTrip(ToU32(baud), [0, 0, 0, 0]);
      assert ps[1..] == [];
    }
  }

  lemma LineStage(w: World, c: Config) returns (ps: seq<Sent>)
    ensures var (v, ok) := IoctlLine(w);
            var a := Attr(w);
            ok ==> && OneSend(w, v, ps) && v.port.eki == w.port.eki.(pair := a.pair, stop := a.stop, byte := a.byte)
                   && ObeyAll(c, ps) == if SameLine(w.port.eki, a) then c else c.(line := Line(a))
  {
    hide Emit, LineExt, ToByte;
    var a := Attr(w);
    if SameLine(w.port.eki, a) {
      ps := [];
    } else {
      ps := [Sent(w.port.tid, Pkt(MAGIC, w.port.tid % TID_MOD, CMD_IOCTL, IOCTL_SET_LINE_CONTROL, 0, Line(a)))];
      EmitOnce(w.(port := w.port.(eki := w.port.eki.(pair := a.pair, stop := a.stop, byte := a.byte))),
               CMD_IOCTL, IOCTL_SET_LINE_CONTROL, 0, Line(a));
      assert ps[1..] == [];
    }
  }

  lemma FlowExtWords(chflow: u32, flowrep: u32, unwritten: Quad)
    ensures var ext := FlowExt(chflow, flowrep, unwritten);
            |ext| == 16 && FromBe32(ext[..4]) == chflow && FromBe32(ext[4..8]) == flowrep
  {
    var ext := FlowExt(chflow, flowrep, unwritten);
    assert ext[..4] == Be32(chflow) && ext[4..8] == Be32(flowrep);
    Be32RoundTrip(chflow, unwritten);
    Be32RoundTrip(flowrep, unwritten);
  }

  lemma FlowStage(w: World, c: Config) returns (ps: seq<Sent>)
    ensures var (v, ok) := IoctlFlow(w);
            var flow := Attr(w).flowctl;
            ok ==> && OneSend(w, v, ps) && v.port.eki == w.port.eki.(flowctl := flow)
                   && ObeyAll(c, ps) == if w.port.eki.flowctl == flow then c else c.(flow := FlowWords(flow))
  {
    hide Emit, FlowExt, FlowWords, FromBe32;
    var flow := Attr(w).flowctl;
    if w.port.eki.flowctl == flow {
      ps := [];
    } else {
      var ext := FlowExt(FlowWords(flow).0, FlowWords(flow).1, Junk(w.env));
      ps := [Sent(w.port.tid, Pkt(MAGIC, w.port.tid % TID_MOD, CMD_IOCTL, IOCTL_SET_HANDFLOW, 0, ext))];
      EmitOnce(w.(port := w.port.(eki := w.port.eki.(flowctl := flow))), CMD_IOCTL, IOCTL_SET_HANDFLOW, 0, ext);
      FlowExtWords(FlowWords(flow).0, FlowWords(flow).1, Junk(w.env));
      assert ps[1..] == [];
    }
  }

  lemma MsObeyed(tid: nat, from: u32, to: u32, c: Config)
    ensures ObeyAll(c, MsPkts(tid, from, to))
         == c.(rts := if Rts(from) == Rts(to) then c.rts else Rts(to), dtr := if Dtr(from) == Dtr(to) then c.dtr else Dtr(to))
  {
    var rts := if Rts(from) == Rts(to) then []
               else [Sent(tid, IoctlPkt(tid % TID_MOD, if Rts(to) then IOCTL_SET_RTS else IOCTL_CLR_RTS, []))];
    var dtr := if Dtr(from) == Dtr(to) then []
               else [Sent(tid + |rts|, IoctlPkt((tid + |rts|) % TID_MOD, if Dtr(to) then IOCTL_SET_DTR else IOCTL_CLR_DTR, []))];
    ObeyMore(c, rts, dtr);
    assert rts != [] ==> rts[1..] == [];
    assert dtr != [] ==> dtr[1..] == [];
  }

  lemma MsStage(w: World, c: Config) returns (ps: seq<Sent>)
    ensures var (v, ok) := IoctlMs(w);
            var (from, to) := (w.port.eki.ms, Attr(w).ms);
            ok ==> && OneSend(w, v, ps) && v.port.eki == w.port.eki.(ms := to)
                   && ObeyAll(c, ps) == c.(rts := if Rts(from) == Rts(to) then c.rts else Rts(to),
                                           dtr := if Dtr(from) == Dtr(to) then c.dtr else Dtr(to))
  {
    hide MsPkts, EncodeAll, Rts, Dtr;
    ps := MsPkts(w.port.tid, w.port.eki.ms, Attr(w).ms);
    MsObeyed(w.port.tid, w.port.eki.ms, Attr(w).ms, c);
    assert w.env.net.sent + [] == w.env.net.sent;
  }

  // ----- the whole of vc_common_ioctl

  /**
   When no send fails, reconciliation takes at most four sends, leaves the mirror equal to the published settings, and
   leaves the device with those settings exactly when the mirror was true wherever it already agreed with them.
   */
  lemma ReconciliationConverges(w: World, c: Config) returns (ps: seq<Sent>)
    ensures var v := CommonIoctl(w);
            v.port.sk >= 0 ==>
              && SentBetween(w, v, ps) && Attr(v) == Attr(w) && |v.env.io| <= |w.env.io| <= |v.env.io| + 4
              && v.port.eki == Attr(w).(isOpen := w.port.eki.isOpen)
              && ObeyAll(c, ps) == Told(c, w.port.eki, Attr(w))
              && (Matches(ObeyAll(c, ps), Attr(w)) <==> MirrorIsTrue(c, w.port.eki, Attr(w)))
  {
    hide IoctlBaud, IoctlLine, IoctlFlow, IoctlMs, FlowWords, Line, ToU32, Rts, Dtr, ObeyAll, Matches, MirrorIsTrue;
    var ps1 := BaudStage(w, c);
    var w1 := IoctlBaud(w).0;
    var c1 := ObeyAll(c, ps1);
    var ps2 := LineStage(w1, c1);
    var w2 := IoctlLine(w1).0;
    var c2 := ObeyAll(c1, ps2);
    var ps3 := FlowStage(w2, c2);
    var w3 := IoctlFlow(w2).0;
    var c3 := ObeyAll(c2, ps3);
    var ps4 := MsStage(w3, c3);
    ObeyMore(c, ps1, ps2);
    ObeyMore(c, ps1 + ps2, ps3);
    ObeyMore(c, ps1 + ps2 + ps3, ps4);
    ps := ps1 + ps2 + ps3 + ps4;
    ToldMatches(c, w.port.eki, Attr(w));
  }

  // ----- a fresh connection

  lemma SettleSpares(w: World)
    ensures Settle(w).env.net.sent == w.env.net.sent && Settle(w).port.eki == w.port.eki && Settle(w).port.sk == w.port.sk
    ensures Attr(Settle(w)) == Attr(w)
  {
  }

  /** One packet of the handshake: what the device makes of it. */
  lemma EmitObeyed(w: World, cmd: u16, p1: u32, p2: u32, ext: Ext, c: Config) returns (ps: seq<Sent>)
    ensures var (v, ok) := Emit(w, cmd, p1, p2, ext);
            && (ok ==> SentBetween(w, v, ps)) && Attr(v) == Attr(w)
            && ObeyAll(c, ps) == Obey(c, Pkt(MAGIC, w.port.tid % TID_MOD, cmd, p1, p2, ext))
  {
    ps := [Sent(w.port.tid, Pkt(MAGIC, w.port.tid % TID_MOD, cmd, p1, p2, ext))];
    EmitOnce(w, cmd, p1, p2, ext);
    assert ps[1..] == [];
  }

  lemma SyncMsObeyed(w: World, c: Config) returns (ps: seq<Sent>)
    ensures var ((v, ok), ms) := (SyncMs(w, Attr(w).ms), Attr(w).ms);
            ok ==> SentBetween(w, v, ps) && Attr(v) == Attr(w) && ObeyAll(c, ps) == c.(rts := Rts(ms), dtr := Dtr(ms))
  {
    hide Emit, ObeyAll, Rts, Dtr;
    var ms := Attr(w).ms;
    var rts := if Rts(ms) then IOCTL_SET_RTS else IOCTL_CLR_RTS;
    var ps1 := EmitObeyed(w, CMD_IOCTL, rts, 0, [], c);
    var w1 := Emit(w, CMD_IOCTL, rts, 0, []).0;
    var ps2 := EmitObeyed(w1, CMD_IOCTL, if Dtr(ms) then IOCTL_SET_DTR else IOCTL_CLR_DTR, 0, [], c.(rts := Rts(ms)));
    ObeyMore(c, ps1, ps2);
    ps := ps1 + ps2;
  }

  lemma SyncEventObeyed(w: World, c: Config) returns (ps: seq<Sent>)
    ensures var (v, ok) := SyncEvent(w);
            ok ==> SentBetween(w, v, ps) && Attr(v) == Attr(w) && ObeyAll(c, ps) == c && v.port.eki == w.port.eki
  {
    hide Emit, ObeyAll, Be32;
    var ps1 := EmitObeyed(w, CMD_IOCTL, IOCTL_SET_WAIT_MASK, 0, Be32(0x38010000), c);
    var w1 := Emit(w, CMD_IOCTL, IOCTL_SET_WAIT_MASK, 0, Be32(0x38010000)).0;
    var ps2 := EmitObeyed(w1, CMD_IOCTL, IOCTL_GET_MODEMSTATUS, 0, [], c);
    ObeyMore(c, ps1, ps2);
    ps := ps1 + ps2;
  }

  lemma SyncRestObeyed(w: World, c: Config) returns (ps: seq<Sent>)
    requires Top(w) == Sync
    ensures var v := SyncRest(w);
            v.port.sk >= 0 ==> SentBetween(w, v, ps) && Attr(v) == Attr(w) && ObeyAll(c, ps) == c && v.port.eki == w.port.eki
  {
    hide Emit, SyncEvent, ObeyAll, Settle, Fits, Works;
    var ps1 := SyncEventObeyed(w, c);
    var w1 := SyncEvent(w).0;
    var credit := if w1.port.tx.head == w1.port.tx.tail then 1024 else 0;
    var ps2 := EmitObeyed(w1, CMD_QUEUEFREE, 0, credit, [], c);
    SettleSpares(Pop(Emit(w1, CMD_QUEUEFREE, 0, credit, []).0));
    ObeyMore(c, ps1, ps2);
    ps := ps1 + ps2;
  }

  lemma SyncObeyed(w: World, c: Config) returns (ps: seq<Sent>)
    requires Top(w) == Sync
    ensures var (v, ms) := (SyncInit(w), Attr(w).ms);
            v.port.sk >= 0 ==> && SentBetween(w, v, ps) && Attr(v) == Attr(w) && v.port.eki == w.port.eki.(ms := ms)
                               && ObeyAll(c, ps) == c.(rts := Rts(ms), dtr := Dtr(ms))
  {
    hide SyncMs, SyncRest, ObeyAll, Rts, Dtr;
    var ms := Attr(w).ms;
    var ps1 := SyncMsObeyed(w, c);
    var (w1, ok1) := SyncMs(w, ms);
    ps := [];
    if ok1 {
      var w2 := w1.(port := w1.port.(eki := w1.port.eki.(ms := ms)));
      var ps2 := SyncRestObeyed(w2, c.(rts := Rts(ms), dtr := Dtr(ms)));
      MsKeepsEki(w, ms);
      ObeyMore(c, ps1, ps2);
      ps := ps1 + ps2;
    }
  }

  lemma MsKeepsEki(w: World, ms: u32)
    ensures SyncMs(w, ms).0.port.eki == w.port.eki
  {
    hide Send;
  }

  lemma CommonOpenObeyed(w: World, c: Config)
    requires |w.port.stk| == 2 && w.port.sk >= 0 && w.port.tid == 0 && w.port.eki == FRESH_EKI && w.env.net.sent == []
    ensures var (v, a) := (CommonOpen(w), Attr(w));
            v.port.sk >= 0 ==> && ObeyAll(c, v.env.net.sent) == c.(rts := Rts(a.ms), dtr := Dtr(a.ms))
                               && v.port.eki == FRESH_EKI.(isOpen := true, ms := a.ms) && Attr(v) == a
  {
    hide SyncInit, Await, ObeyAll, Rts, Dtr, EncodeAll;
    var create := [Sent(0, CreatePkt(w))];
    var (e, ok) := Send(w.env, create);
    if ok {
      assert e.net.sent == create;
      var w2 := Push(w.(env := e, port := w.port.(tid := 1, eki := w.port.eki.(isOpen := true))), Sync);
      var ps := SyncObeyed(w2, c);
      CreateObeyed(w, c);
      ObeyMore(c, create, ps);
    }
  }

  lemma OpenObeyed(w: World, c: Config)
    requires Down(w)
    ensures var (v, a) := (NetDownOpen(w), Attr(w));
            v.port.sk >= 0 ==> && ObeyAll(c, v.env.net.sent) == c.(rts := Rts(a.ms), dtr := Dtr(a.ms))
                               && v.port.eki == FRESH_EKI.(isOpen := true, ms := a.ms) && Attr(v) == a
  {
    hide CommonOpen, Await, ObeyAll, Rts, Dtr;
    var (e, sk) := Connect(w.env);
    var w1 := w.(env := e, port := w.port.(sk := sk));
    if sk >= 0 {
      CommonOpenObeyed(Push(w1, if w1.port.tx.head == w1.port.tx.tail then NetUp else Pause), c);
    }
  }

  lemma CreateObeyed(w: World, c: Config)
    ensures ObeyAll(c, [Sent(0, CreatePkt(w))]) == c
  {
    assert [Sent(0, CreatePkt(w))][1..] == [];
  }

  /**
   The first turn of a connection, handshake and reconciliation together, leaves the device with the published settings
   if and only if it already had the baud rate 0 in case that is published: 0 looks like the fresh mirror, so that it is
   never sent. The other values of a fresh mirror are undefined ones that the driver does not publish.
   */
  lemma FreshConnectionMatches(w: World, c: Config)
    requires Down(w)
    ensures var (v, a) := (CommonIoctl(NetDownOpen(w)), Attr(w));
            NetDownOpen(w).port.sk >= 0 && v.port.sk >= 0 ==>
              && v.port.eki.(isOpen := true) == a.(isOpen := true)
              && (Matches(ObeyAll(c, v.env.net.sent), a) <==> (a.baud == 0 ==> c.baud == 0))
  {
    hide NetDownOpen, CommonIoctl, ObeyAll, Rts, Dtr, Line, FlowWords;
    OpenObeyed(w, c);
    var v := NetDownOpen(w);
    if v.port.sk >= 0 {
      var c1 := ObeyAll(c, v.env.net.sent);
      var ps := ReconciliationConverges(v, c1);
      ObeyMore(c, v.env.net.sent, ps);
    }
  }
}
