/**
 What each handler of the daemon does to the world, and one turn of its main loop. `Daemon.VcAttr` holds the handlers in
 the form of the source and is proved to do exactly this.
 */
module Handlers {
  import opened Words
  import opened Packets
  import opened Rings
  import opened Attributes
  import opened Worlds

  const VC_PULL_TIME := 10000000
  const RBUF_SIZE := 4096
  const TID_MOD := 0x1_0000_0000

  datatype St = NetDown | NetUp | Pause | Sync | Idle

  /** The daemon's copy of a ring's head and tail. */
  datatype Snap = Snap(head: nat, tail: nat)

  /** `struct vc_attr`. `tid` counts without wrapping; the wire carries it modulo 2^32. */
  datatype Port = Port(
    stk: seq<St>,
    sk: int,
    tid: nat,
    pending: nat,
    eki: Info,
    attrPtr: nat,
    rx: Snap,
    tx: Snap,
    devid: u16,
    port: u32)

  /** The daemon, its world, the time since it last heard from the device, and whether it has called `exit`. */
  datatype Machine = Machine(port: Port, env: Env, lrecv: nat, exited: bool)

  predicate Fits(s: Snap, r: Ring) { s.head < |r.buf| && s.tail < |r.buf| }

  /** The states that exchange data with the device. */
  predicate Works(s: St) { s == NetUp || s == Pause }

  /** Net Down is at the bottom; Net Up or Pause may be on it, and then Sync or Idle on that. */
  predicate Shaped(stk: seq<St>) {
    && 1 <= |stk| <= 3 && stk[0] == NetDown
    && (|stk| >= 2 ==> Works(stk[1]))
    && (|stk| == 3 ==> (stk[2] == Sync || stk[2] == Idle))
  }

  predicate WellFormed(m: Machine) {
    && Shaped(m.port.stk)
    && Fits(m.port.rx, m.env.rx) && Fits(m.port.tx, m.env.tx)
    && m.port.attrPtr < 2
  }

  const FRESH_EKI := ZERO_INFO.(stop := STOP_UNDEF, flowctl := FLOW_UNDEF, pair := PAIR_UNDEF)

  const NEW_MACHINE := Machine(
    Port([NetDown], -1, 0, 0, FRESH_EKI, 0, Snap(0, 0), Snap(0, 0), 0, 0),
    Env(Ring([0], 0, 0, false, false), Ring([0], 0, 0, false, false), [],
        AttrBuf(ZERO_INFO, [ZERO_INFO, ZERO_INFO], 0, true), false, NO_NET, Hist([], [], [], [], []), []),
    0, false)

  /** Every handler below is checked to lead from a stack of this shape to another one. */
  type World = m: Machine | WellFormed(m) witness NEW_MACHINE

  // ----- the stack

  function Top(w: World): St { w.port.stk[|w.port.stk| - 1] }

  function Push(w: World, s: St): World
    requires Shaped(w.port.stk + [s])
  {
    w.(port := w.port.(stk := w.port.stk + [s]))
  }

  function Pop(w: World): World
    requires |w.port.stk| >= 2
  {
    w.(port := w.port.(stk := w.port.stk[..|w.port.stk| - 1]))
  }

  function Rpls(w: World, s: St): World
    requires |w.port.stk| == 2 && Works(s)
  {
    w.(port := w.port.(stk := [NetDown, s]))
  }

  /** The settings the daemon reads through `attr_p`. */
  function Attr(w: World): PortInfo { w.env.att.slots[w.port.attrPtr] }

  /** Time passes: the rest of the world goes on. */
  function Sleep(w: World): World { w.(env := Await(w.env).0) }

  // ----- sending

  /** Send one packet under the current transaction id, and count it if it went out. */
  function Emit(w: World, cmd: u16, p1: u32, p2: u32, ext: Ext): (r: (World, bool))
    ensures r.0.port == if r.1 then w.port.(tid := w.port.tid + 1) else w.port
    ensures r.0.env.att.slots == w.env.att.slots && r.0.lrecv == w.lrecv && r.0.exited == w.exited
    ensures SameSizes(w.env, r.0.env)
  {
    hide Send;
    var p := Pkt(MAGIC, w.port.tid % TID_MOD, cmd, p1, p2, ext);
    var (e, ok) := Send(w.env, [Sent(w.port.tid, p)]);
    (w.(env := e, port := if ok then w.port.(tid := w.port.tid + 1) else w.port), ok)
  }

  // ----- snapshots: vc_buf_update

  function UpdateRx(w: World): World {
    var (e1, _) := Await(w.env);
    var (e2, _) := Await(e1);
    w.(env := e2, port := w.port.(rx := Snap(e1.rx.head, e2.rx.tail)))
  }

  function UpdateTx(w: World): World {
    var (e1, _) := Await(w.env);
    var (e2, _) := Await(e1);
    w.(env := e2, port := w.port.(tx := Snap(e1.tx.head, e2.tx.tail)))
  }

  function UpdateAttr(w: World): World {
    var (e, ptr) := IocAttrPtr(w.env);
    w.(env := e, port := w.port.(attrPtr := ptr))
  }

  // ----- Net Down

  function NetDownInit(w: World): World {
    w.(port := w.port.(sk := -1, tid := 0, pending := 0, eki := FRESH_EKI))
  }

  /** `stk_excp`, then the init handler of the state it leaves: always Net Down. */
  function Excp(w: World): World {
    NetDownInit(w.(port := w.port.(stk := [NetDown])))
  }

  /** The init handler of Net Up and of Pause. */
  function Settle(w: World): World { UpdateTx(UpdateRx(w)) }

  // ----- Sync

  function SyncMs(w: World, ms: u32): (r: (World, bool))
    ensures r.0.port.stk == w.port.stk
  {
    var (w1, ok1) := Emit(w, CMD_IOCTL, if Rts(ms) then IOCTL_SET_RTS else IOCTL_CLR_RTS, 0, []);
    if !ok1 then (w1, false)
    else Emit(w1, CMD_IOCTL, if Dtr(ms) then IOCTL_SET_DTR else IOCTL_CLR_DTR, 0, [])
  }

  function SyncEvent(w: World): (r: (World, bool))
    ensures r.0.port.stk == w.port.stk
  {
    var (w1, ok1) := Emit(w, CMD_IOCTL, IOCTL_SET_WAIT_MASK, 0, Be32(0x38010000));
    if !ok1 then (w1, false)
    else Emit(w1, CMD_IOCTL, IOCTL_GET_MODEMSTATUS, 0, [])
  }

  function RegSyncEvent(w: World): (r: (World, bool))
    ensures r.0.port.stk == w.port.stk
  {
    Emit(w, CMD_IOCTL, IOCTL_WAIT_ON_MASK, 0, [])
  }

  function SyncQueue(w: World): (r: (World, bool))
    ensures r.0.port.stk == w.port.stk
  {
    Emit(w, CMD_QUEUEFREE, 0, if w.port.tx.head == w.port.tx.tail then 1024 else 0, [])
  }

  /** The second half of `vc_sync_init`: register for events, state the credit, leave Sync. */
  function SyncRest(w: World): World
    requires Top(w) == Sync
  {
    hide SyncEvent, SyncQueue, Excp, Settle;
    var (w1, ok1) := SyncEvent(w);
    if !ok1 then Excp(w1)
    else
      var (w2, ok2) := SyncQueue(w1);
      if !ok2 then Excp(w2) else Settle(Pop(w2))
  }

  function SyncInit(w: World): World
    requires Top(w) == Sync
  {
    hide SyncMs, SyncRest, Excp;
    var ms := Attr(w).ms;
    var (w1, ok1) := SyncMs(w, ms);
    if !ok1 then Excp(w1)
    else SyncRest(w1.(port := w1.port.(eki := w1.port.eki.(ms := ms))))
  }

  function SyncRecv(w: World, p: Pkt): World
    requires Top(w) == Sync
  {
    if p.p2 == IOCTL_WAIT_ON_MASK then
      var (w1, ok) := SyncEvent(w);
      if ok then Settle(Pop(w1)) else Excp(w1)
    else if p.p2 == IOCTL_SET_WAIT_MASK then
      var (w1, ok) := RegSyncEvent(w);
      if ok then Settle(Pop(w1)) else Excp(w1)
    else if p.p2 == IOCTL_GET_MODEMSTATUS then
      var (e, io) := Await(w.env);
      if io.ok then Settle(Pop(w.(env := e))) else Excp(w.(env := e))
    else Settle(Pop(w))
  }

  // ----- Idle

  function IdleInit(w: World): World {
    var (w1, ok) := Emit(w, CMD_IOCTL, IOCTL_GET_WAIT_MASK, 0, []);
    if ok then w1 else Excp(w1)
  }

  // ----- what Net Up, Pause and Idle share (vc_client_common.c)

  /** The CREATE packet carries the literal transaction id 1. */
  function CommonOpen(w: World): World
    requires |w.port.stk| == 2
  {
    hide Send, SyncInit, Excp;
    var (e, ok) := Send(w.env, [Sent(w.port.tid, OpenPkt(1, w.port.devid, w.port.port))]);
    var w1 := w.(env := e);
    if !ok then Excp(w1)
    else SyncInit(Push(w1.(port := w1.port.(tid := w1.port.tid + 1, eki := w1.port.eki.(isOpen := true))), Sync))
  }

  /** What the daemon's snapshot says the uplink ring holds. */
  function SnapContents(w: World): seq<byte> {
    Span(w.env.rx.buf, w.port.rx.head, w.port.rx.tail)
  }

  function CommonXmit(w: World): World {
    var len := Min(XMIT_LEN, |SnapContents(w)|);
    var (w1, ok) := Emit(w, CMD_WRITE, len, 0, SnapContents(w)[..len]);
    if ok then w1.(port := w1.port.(pending := len)) else Excp(w1)
  }

  function IoctlBaud(w: World): (World, bool) {
    var baud := Attr(w).baud;
    if w.port.eki.baud == baud then (w, true)
    else Emit(w.(port := w.port.(eki := w.port.eki.(baud := baud))), CMD_IOCTL, IOCTL_SET_BAUD_RATE, 0, Le32(ToU32(baud)))
  }

  function IoctlLine(w: World): (World, bool) {
    var (a, eki) := (Attr(w), w.port.eki);
    if SameLine(eki, a) then (w, true)
    else Emit(w.(port := w.port.(eki := eki.(pair := a.pair, stop := a.stop, byte := a.byte))),
              CMD_IOCTL, IOCTL_SET_LINE_CONTROL, 0, LineExt(ToByte(a.pair), ToByte(a.byte), ToByte(a.stop)))
  }

  /** The `chflow` and `flowrep` words of a flow setting; settings without words of their own count as none. */
  function FlowWords(flowctl: int): (u32, u32) {
    if flowctl == FLOW_RTSCTS then (0x09000000, 0x80000080)
    else if flowctl == FLOW_XONXOFF then (0x01000000, 0x43000080)
    else (0x01000000, 0x40000080)
  }

  function IoctlFlow(w: World): (World, bool) {
    var flow := Attr(w).flowctl;
    if w.port.eki.flowctl == flow then (w, true)
    else Emit(w.(port := w.port.(eki := w.port.eki.(flowctl := flow))), CMD_IOCTL, IOCTL_SET_HANDFLOW, 0,
              FlowExt(FlowWords(flow).0, FlowWords(flow).1, Junk(w.env)))
  }

  /** The packets of `_set_ms`: one for each of RTS and DTR that changed. */
  function MsPkts(tid: nat, from: u32, to: u32): (ps: seq<Sent>)
    ensures |ps| <= 2
  {
    var rts := if Rts(from) == Rts(to) then []
               else [Sent(tid, IoctlPkt(tid % TID_MOD, if Rts(to) then IOCTL_SET_RTS else IOCTL_CLR_RTS, []))];
    var n := tid + |rts|;
    rts + if Dtr(from) == Dtr(to) then []
          else [Sent(n, IoctlPkt(n % TID_MOD, if Dtr(to) then IOCTL_SET_DTR else IOCTL_CLR_DTR, []))]
  }

  /** Both packets of `_set_ms` go out in one send; it counts them, and the caller counts once more. */
  function IoctlMs(w: World): (World, bool) {
    hide MsPkts, Send;
    var ms := Attr(w).ms;
    var ps := MsPkts(w.port.tid, w.port.eki.ms, ms);
    var w1 := w.(port := w.port.(eki := w.port.eki.(ms := ms)));
    if ps == [] then (w1, true)
    else
      var (e, ok) := Send(w1.env, ps);
      (w1.(env := e, port := if ok then w1.port.(tid := w1.port.tid + |ps| + 1) else w1.port), ok)
  }

  function CommonIoctl(w: World): World {
    var (w1, ok1) := IoctlBaud(w);
    if !ok1 then Excp(w1)
    else
      var (w2, ok2) := IoctlLine(w1);
      if !ok2 then Excp(w2)
      else
        var (w3, ok3) := IoctlFlow(w2);
        if !ok3 then Excp(w3)
        else
          var (w4, ok4) := IoctlMs(w3);
          if ok4 then w4 else Excp(w4)
  }

  /** The replies that Sync waits for. */
  predicate IsSyncReply(subcmd: u32) {
    subcmd == IOCTL_WAIT_ON_MASK || subcmd == IOCTL_GET_MODEMSTATUS || subcmd == IOCTL_SET_WAIT_MASK
  }

  function IoctlReply(w: World, p: Pkt): World
    requires |w.port.stk| == 2
  {
    if p.p1 != STATUS_SUCCESS then Excp(w)
    else if IsSyncReply(p.p2) then
      SyncRecv(Push(w, Sync), p)
    else w
  }

  /** A DATAREADY packet: write the payload beyond the tail the snapshot knows, then publish it. */
  function DataReady(w: World, p: Pkt): World {
    if p.p1 != STATUS_SUCCESS || p.p2 != |p.ext| then Excp(w)
    else if Room(w.port.tx.head, w.port.tx.tail, |w.env.tx.buf|) < |p.ext| then Excp(w)
    else
      var e1 := w.env.(tx := w.env.tx.(buf := Fill(w.env.tx.buf, w.port.tx.tail, p.ext)));
      var e2 := IocTxTail(e1, p.ext);
      w.(env := e2.(net := Accept(e2.net, p)))
  }

  predicate IsXmitReply(p: Pkt, status: u32, len: nat) {
    p.pid == MAGIC && p.cmd == CMD_WRITE && |p.ext| == 0 && p.p1 == status && p.p2 == len
  }

  /** A WRITE reply: success retires the bytes sent, busy keeps them, anything else is an exception. */
  function WriteReply(w: World, p: Pkt): World {
    var len := w.port.pending;
    if IsXmitReply(p, STATUS_SUCCESS, len) then
      UpdateRx(w.(env := IocRxHead(w.env, len), port := w.port.(pending := 0)))
    else if IsXmitReply(p, STATUS_DEVICE_BUSY, len) then w.(port := w.port.(pending := 0))
    else Excp(w)
  }

  function CommonRecv(w: World, p: Pkt): World
    requires |w.port.stk| == 2
  {
    if p.cmd == CMD_CREATE then
      if p.pid == MAGIC && |p.ext| == 0 && p.p1 == STATUS_SUCCESS && p.p2 == w.port.port then w else Excp(w)
    else if p.cmd == CMD_IOCTL then IoctlReply(w, p)
    else if p.cmd == CMD_DATAREADY then DataReady(w, p)
    else if p.cmd == CMD_WRITE then WriteReply(w, p)
    else w
  }

  /** `vc_buf_clear` with both flags; its last refresh is of the uplink snapshot again, not of the downlink one. */
  function BufClear(w: World): World {
    var e1 := IocRxHead(IocClear(w.env), 0);
    UpdateRx(UpdateRx(w.(env := e1)))
  }

  /** `vc_common_purge`: a failure is ignored. */
  function Purge(w: World): World {
    Emit(w, CMD_IOCTL, IOCTL_PURGE, 0, Le32(0x0000000f)).0
  }

  /** `vc_common_close`: whether or not CLOSE goes out, the connection is gone. */
  function CommonClose(w: World): World {
    Excp(Emit(w, CMD_CLOSE, 0, 0, []).0)
  }

  // ----- dispatch on the current state; a state without a handler leaves the world as it is

  function NetDownOpen(w: World): World
    requires Top(w) == NetDown
  {
    var (e, sk) := Connect(w.env);
    var w1 := w.(env := e, port := w.port.(sk := sk));
    if sk >= 0 then CommonOpen(Push(w1, if w1.port.tx.head == w1.port.tx.tail then NetUp else Pause)) else w1
  }

  function Open(w: World): World {
    match Top(w)
    case NetDown => NetDownOpen(w)
    case NetUp => CommonOpen(w)
    case Pause => CommonOpen(w)
    case Idle => CommonOpen(Pop(w))
    case Sync => w.(exited := true)
  }

  function Close(w: World): World {
    match Top(w)
    case NetDown => var w1 := BufClear(w); w1.(port := w1.port.(sk := if w1.port.sk > 0 then -1 else w1.port.sk))
    case Sync => w.(exited := true)
    case _ => CommonClose(Purge(BufClear(w)))
  }

  function Ioctl(w: World): World {
    if Works(Top(w)) then CommonIoctl(w) else w
  }

  function Xmit(w: World): World {
    if Works(Top(w)) then CommonXmit(w) else w
  }

  /** Only Net Up pauses: it takes back the credit, then becomes Pause. */
  function PauseOp(w: World): World {
    if Top(w) == NetUp then
      var (w1, ok) := Emit(w, CMD_QUEUEFREE, 0, 0, []);
      if ok then Settle(Rpls(w1, Pause)) else Excp(w1)
    else w
  }

  /** Only Pause resumes: once the socket's output queue is empty it gives credit, then becomes Net Up. */
  function Resume(w: World): World {
    hide Await, Emit, Settle, Excp;
    if Top(w) == Pause then
      var (e, io) := Await(w.env);
      var w1 := w.(env := e);
      if !io.ok then Excp(w1)
      else if io.val > 0 then w1
      else
        var (w2, ok) := Emit(w1, CMD_QUEUEFREE, 0, 1024, []);
        if ok then Settle(Rpls(w2, NetUp)) else Excp(w2)
    else w
  }

  /** Which of the driver's readiness bits the daemon will wait for: for reading, for writing. */
  function Event(w: World): (World, bool, bool) {
    if Top(w) == NetUp then (w, w.port.pending == 0, false)
    else if Top(w) == Pause then
      var (e, io) := Await(w.env);
      var w1 := w.(env := e);
      if !io.ok then (Excp(w1), false, false)
      else if io.val > 0 then (w1, false, false)
      else (w1, w1.port.pending == 0, true)
    else (w, false, false)
  }

  function Poll(w: World): World {
    match Top(w)
    case NetUp => IdleInit(Push(w, Idle))
    case Pause => IdleInit(Push(w, Idle))
    case Idle => Excp(w)
    case _ => w
  }

  function Err(w: World): World {
    if Top(w) == NetDown then w else Excp(w)
  }

  /** Idle drops the packet that wakes it. */
  function Recv(w: World, p: Pkt): World {
    match Top(w)
    case NetDown => w
    case Sync => SyncRecv(w, p)
    case Idle =>
      Settle(Pop(w.(env := w.env.(net := Discard(w.env.net, p)))))
    case _ => CommonRecv(w, p)
  }

  // ----- the main loop

  /** How reading a packet goes, see `Receive`: the connection ended, a part of the packet is missing, or all is there. */
  datatype Reading = Closed | ShortHeader | ShortPayload | Whole

  /** The part of `vc_recv_desp` that follows the header. */
  function RecvPayload(w: World, p: Pkt, r: Reading): World {
    if |p.ext| > RBUF_SIZE - HDR_LEN then Err(w)
    else
      var w1 := Sleep(w);
      if r == ShortPayload && |p.ext| > 0 then Err(w1) else Recv(w1, p)
  }

  /** `vc_recv_desp`: the next packet from the device, or an exception. */
  function RecvDesp(w: World, r: Reading): World {
    if r == Closed || w.env.net.down == [] then Excp(w)
    else if r == ShortHeader then Err(w)
    else
      var p := w.env.net.down[0];
      var w1 := w.(env := w.env.(net := w.env.net.(down := w.env.net.down[1..])));
      RecvPayload(if p.cmd == CMD_DATAREADY then UpdateTx(w1) else w1, p, r)
  }

  /** Time spent in select, which never waits longer than VC_PULL_TIME. */
  type Micros = n: nat | n <= VC_PULL_TIME

  /**
   What select reports: a timeout, or a wakeup after `used` microseconds with some of: a priority event of the driver, the
   socket readable, the uplink ring readable, the downlink ring writable.
   */
  datatype Wake = Timeout | Ready(used: Micros, pri: bool, sk: bool, reading: Reading, rd: bool, wr: bool)

  /** One turn of the main loop: the script of its system calls, and what select reports. */
  datatype Tick = Tick(io: seq<IoStep>, wake: Wake)

  predicate SettingsDiffer(w: World) { Attr(w).(isOpen := true) != w.port.eki.(isOpen := true) }

  function OpenClose(w: World): World {
    if w.port.eki.isOpen == Attr(w).isOpen then w else if Attr(w).isOpen then Open(w) else Close(w)
  }

  function Reconcile(w: World): World { if SettingsDiffer(w) then Ioctl(w) else w }

  function SendPending(w: World): World {
    if w.port.pending == 0 && w.port.rx.head != w.port.rx.tail then Xmit(w) else w
  }

  function TakeCreditBack(w: World): World {
    if w.port.tx.head != w.port.tx.tail then PauseOp(w) else w
  }

  function Interrupt(w: World): World { w.(env := IocInter(w.env)) }

  /** The part of a turn before select; with it, which readiness bits select will wait for. */
  function Before(w: World): (World, bool, bool) {
    var (w1, rd, wr) := Event(TakeCreditBack(SendPending(Reconcile(OpenClose(w)))));
    (Interrupt(w1), rd, wr)
  }

  /** The socket's turn: read a packet, or count the time without one. */
  function Hear(w: World, wake: Wake): World
    requires wake.Ready?
  {
    if w.port.sk < 0 then w
    else if wake.sk then RecvDesp(w.(lrecv := 0), wake.reading)
    else
      var lrecv := w.lrecv + if wake.used > 0 then wake.used else 1;
      if lrecv > VC_PULL_TIME then Err(w).(lrecv := 0) else w.(lrecv := lrecv)
  }

  /** The part of a turn after select. */
  function AfterSelect(w: World, rd: bool, wr: bool, wake: Wake): World {
    match wake
    case Timeout => Poll(w)
    case Ready(_, pri, _, _, rdReady, wrReady) =>
      var w1 := Hear(if pri then UpdateAttr(w) else w, wake);
      var w2 := if rd && rdReady then UpdateRx(w1) else w1;
      if wr && wrReady then Resume(UpdateTx(w2)) else w2
  }

  function Turn(w: World, t: Tick): World {
    var (w1, rd, wr) := Before(w.(env := w.env.(io := t.io)));
    AfterSelect(Sleep(w1), rd, wr, t.wake)
  }

  /** The daemon's main loop, for any number of turns. */
  function Run(w: World, ticks: seq<Tick>): World
    decreases |ticks|
  {
    if ticks == [] then w else Run(Turn(w, ticks[0]), ticks[1..])
  }

  lemma {:induction false} RunMore(w: World, ticks: seq<Tick>, t: Tick)
    ensures Run(w, ticks + [t]) == Turn(Run(w, ticks), t)
    decreases |ticks|
  {
    hide Turn;
    if ticks == [] {
      assert ([] + [t])[1..] == [];
    } else {
      assert (ticks + [t])[1..] == ticks[1..] + [t];
      RunMore(Turn(w, ticks[0]), ticks[1..], t);
    }
  }
}
