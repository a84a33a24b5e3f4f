/**
 The world the daemon runs in, on values: the kernel driver, the application and the tty behind it, the device at the
 other end of the connection, and every system call the daemon makes on them. The daemon is one process among others:
 before each of its calls takes effect, the others may take any number of steps. A script, arbitrary in every theorem,
 says which steps those are and how the call turns out.
 */
module Worlds {
  import opened Words
  import opened Packets
  import opened Rings
  import opened Attributes

  type OkRing = r: Ring | r.Ok() witness Ring([0], 0, 0, false, false)

  /** A ring on which no clean request is pending. */
  type LiveRing = r: Ring | r.Ok() && !r.clean witness Ring([0], 0, 0, false, false)

  /** What became of a byte that left a ring: passed on (acknowledged by the device, or taken by the tty) or flushed. */
  datatype Fate = Passed(b: byte) | Flushed(b: byte)

  /** A connection that has ended: how much had left the uplink ring before it, and what the device took on it. */
  datatype Visit = Visit(mark: nat, taken: seq<byte>)

  /** A DATAREADY packet that was read, and whether Idle read it. */
  datatype Heard = Heard(pkt: Pkt, idle: bool)

  /** The past of the two byte pipes, kept for the theorems only. */
  datatype Hist = Hist(
    written: seq<byte>,   // bytes the serial core accepted from the application
    upGone: seq<Fate>,    // bytes that left the uplink ring, in order
    accepted: seq<byte>,  // payload bytes the daemon put into the downlink ring
    downGone: seq<Fate>,  // bytes that left the downlink ring, in order
    visits: seq<Visit>)   // earlier connections, in order

  /** A packet sent, with the number of transaction ids the connection had used before it. */
  datatype Sent = Sent(n: nat, pkt: Pkt)

  /** One TCP connection and the device at its end. */
  datatype Net = Net(
    up: seq<Pkt>,       // sent by the daemon, not yet processed by the device
    held: seq<Pkt>,     // WRITEs the device took and has not answered yet
    down: seq<Pkt>,     // sent by the device, not yet read by the daemon
    sent: seq<Sent>,    // the packets of every send on this connection that succeeded
    wire: seq<byte>,    // every byte sent on this connection
    taken: seq<byte>,   // data bytes the device has accepted on this connection
    mark: nat,          // |upGone| when the connection was made
    unacked: nat,       // bytes the device accepted whose acknowledgement the daemon has not acted on
    dropped: nat,       // event registrations that will never be answered, or whose answer was discarded
    unheard: nat,       // WRITEs that will never be answered, or whose answer was discarded
    offered: seq<Pkt>,  // the DATAREADY packets the device sent on this connection
    heard: seq<Heard>,  // those of them the daemon has dealt with
    start: nat)         // |accepted| when the connection was made

  const NO_NET := Net([], [], [], [], [], [], 0, 0, 0, 0, [], [], 0)

  /** A step of the application, the serial core, the tty or the device. */
  datatype EnvStep =
    | AppWrite(bytes: seq<byte>)
    | StartTx | StopTx | StopRx
    | Startup | Shutdown
    | SetTermios(t: Termios)
    | SetMctrl(rts: bool, dtr: bool)
    | Throttle | Unthrottle(takes: seq<nat>)
    | DevAnswer(at: nat, status: u32, ext: Ext)  // the device processes a request, not always the oldest, and answers it
    | DevSilent(at: nat, take: bool)    // the device processes a request and never answers it
    | DevTake(at: nat)                  // the device takes the data of a WRITE, and may report success later
    | DevReport(at: nat)                // the device reports success for a WRITE it took before
    | DevData(payload: Ext)             // the device reports received data
    | DevInject(pkt: Pkt)               // the device sends any packet it likes

  /** How one system call of the daemon goes: what happens before it, whether it succeeds, and the values it yields. */
  datatype IoStep = IoStep(
    env: seq<EnvStep>,
    ok: bool,
    cut: nat,          // bytes of a failing send that were sent nevertheless
    val: nat,          // a descriptor or a queue length
    takes: seq<nat>,   // what the tty takes, if the call makes the driver deliver data
    junk: Quad)        // uninitialised stack bytes of a packet buffer

  datatype Env = Env(
    rx: OkRing,          // the uplink ring: the driver is the producer
    tx: LiveRing,        // the downlink ring: the driver is the consumer
    circ: seq<byte>,     // contents of the serial core's circular buffer
    att: OkAttrBuf,
    throttled: bool,
    net: Net,
    hist: Hist,
    io: seq<IoStep>)     // the rest of the script

  const NO_IO := IoStep([], false, 0, 0, [], [0, 0, 0, 0])

  // ----- the past

  function Mark(bs: seq<byte>, passed: bool): (fs: seq<Fate>)
    ensures |fs| == |bs|
  {
    seq(|bs|, i requires 0 <= i < |bs| => if passed then Passed(bs[i]) else Flushed(bs[i]))
  }

  function Bytes(fs: seq<Fate>): (bs: seq<byte>)
    ensures |bs| == |fs|
  {
    seq(|fs|, i requires 0 <= i < |fs| => fs[i].b)
  }

  // ----- the driver

  /** What `adv_uart_xmit` does, see `UartDriver.AdvUartXmit`. */
  function XmitCopy(e: Env): Env {
    var k := Min(|e.circ|, e.rx.Free());
    e.(rx := e.rx.Push(e.circ[..k]), circ := e.circ[k..])
  }

  /** What `adv_uart_recv_chars` does, see `UartDriver.AdvUartRecvChars`. */
  function RecvChars(e: Env, takes: seq<nat>): Env {
    var n := if e.throttled || !e.tx.enabled then 0 else Taken(e.tx, takes, 3);
    e.(tx := e.tx.MoveHead(n), hist := e.hist.(downGone := e.hist.downGone + Mark(e.tx.Contents()[..n], true)))
  }

  // ----- the device

  predicate IsMaskRequest(p: Pkt) { p.cmd == CMD_IOCTL && (p.p1 == IOCTL_SET_WAIT_MASK || p.p1 == IOCTL_WAIT_ON_MASK) }
  predicate IsMaskReply(p: Pkt) { p.cmd == CMD_IOCTL && (p.p2 == IOCTL_SET_WAIT_MASK || p.p2 == IOCTL_WAIT_ON_MASK) }
  predicate IsWrite(p: Pkt) { p.cmd == CMD_WRITE }
  predicate IsData(p: Pkt) { p.cmd == CMD_DATAREADY }

  /** The device takes all of a WRITE or nothing of it. */
  function Take(n: Net, q: Pkt): Net {
    if IsWrite(q) then n.(taken := n.taken + q.ext, unacked := n.unacked + |q.ext|) else n
  }

  /** The answer to a request; CLOSE and QUEUEFREE have none. */
  function Reply(q: Pkt, status: u32, ext: Ext): seq<Pkt> {
    if q.cmd == CMD_CREATE then [Pkt(MAGIC, q.tid, CMD_CREATE, status, q.p2, [])]
    else if q.cmd == CMD_WRITE then [Pkt(MAGIC, q.tid, CMD_WRITE, status, |q.ext|, [])]
    else if q.cmd == CMD_IOCTL then [Pkt(MAGIC, q.tid, CMD_IOCTL, status, q.p1, ext)]
    else []
  }

  /** A queue from which the packet at `at` is taken out. */
  function Without(ps: seq<Pkt>, at: nat): (qs: seq<Pkt>)
    requires at < |ps|
    ensures |qs| == |ps| - 1
  {
    ps[..at] + ps[at + 1..]
  }

  /** A step of the device. */
  predicate IsDevStep(s: EnvStep) {
    s.DevAnswer? || s.DevSilent? || s.DevTake? || s.DevReport? || s.DevData? || s.DevInject?
  }

  /** The device sends a packet that answers nothing. */
  function Offer(n: Net, p: Pkt): Net {
    n.(down := n.down + [p], offered := n.offered + if IsData(p) then [p] else [])
  }

  /** The record of a packet that Idle drops. */
  function Discard(n: Net, p: Pkt): Net {
    n.(dropped := n.dropped + (if IsMaskReply(p) then 1 else 0),
       unheard := n.unheard + (if IsWrite(p) then 1 else 0),
       heard := n.heard + if IsData(p) then [Heard(p, true)] else [])
  }

  /** The record of a DATAREADY packet whose payload was accepted. */
  function Accept(n: Net, p: Pkt): Net { n.(heard := n.heard + [Heard(p, false)]) }

  function DevStep(n: Net, s: EnvStep): Net {
    match s
    case DevAnswer(at, status, ext) =>
      if at >= |n.up| then n
      else
        var n1 := if status == STATUS_SUCCESS then Take(n, n.up[at]) else n;
        n1.(up := Without(n.up, at), down := n.down + Reply(n.up[at], status, ext))
    case DevSilent(at, take) =>
      if at >= |n.up| then n
      else
        var n1 := if take then Take(n, n.up[at]) else n;
        n1.(up := Without(n.up, at),
            dropped := n.dropped + if IsMaskRequest(n.up[at]) then 1 else 0,
            unheard := n.unheard + if IsWrite(n.up[at]) then 1 else 0)
    case DevTake(at) =>
      if at >= |n.up| || !IsWrite(n.up[at]) then n
      else Take(n, n.up[at]).(up := Without(n.up, at), held := n.held + [n.up[at]])
    case DevReport(at) =>
      if at >= |n.held| then n
      else n.(held := Without(n.held, at), down := n.down + Reply(n.held[at], STATUS_SUCCESS, []))
    case DevData(payload) => Offer(n, Pkt(MAGIC, 0, CMD_DATAREADY, STATUS_SUCCESS, |payload|, payload))
    case DevInject(pkt) => Offer(n, pkt)
    case _ => n
  }

  // ----- one step of the environment

  function Step(e: Env, s: EnvStep): Env {
    match s
    case AppWrite(bytes) => e.(circ := e.circ + bytes, hist := e.hist.(written := e.hist.written + bytes))
    case StartTx => XmitCopy(e.(rx := e.rx.(enabled := true)))
    case StopTx => e.(rx := e.rx.(enabled := false))
    case StopRx => e.(tx := e.tx.(enabled := false))
    case Startup =>
      e.(att := e.att.(attr := e.att.attr.(isOpen := true)), throttled := false,
         rx := e.rx.(enabled := true), tx := e.tx.(enabled := true))
    case Shutdown => e.(att := e.att.(attr := e.att.attr.(isOpen := false)))
    case SetTermios(t) => e.(att := e.att.(attr := TermiosInfo(e.att.attr, t)))
    case SetMctrl(rts, dtr) =>
      e.(att := e.att.(attr := e.att.attr.(ms := (if rts then MS_RTS else 0) + (if dtr then MS_DTR else 0))))
    case Throttle => e.(throttled := true)
    case Unthrottle(takes) => RecvChars(e.(throttled := false), takes)
    case _ => e.(net := DevStep(e.net, s))
  }

  /** What no step of the environment can change: it belongs to the daemon. */
  predicate SameDaemonSide(e: Env, f: Env) {
    && |f.rx.buf| == |e.rx.buf| && |f.tx.buf| == |e.tx.buf| && f.rx.head == e.rx.head && f.rx.clean == e.rx.clean
    && f.tx.buf == e.tx.buf && f.tx.tail == e.tx.tail
    && f.att.slots == e.att.slots && f.att.ptr == e.att.ptr && f.att.newbie == e.att.newbie
    && f.net.sent == e.net.sent && f.net.wire == e.net.wire && f.net.mark == e.net.mark
    && f.net.heard == e.net.heard && f.net.start == e.net.start
    && f.hist.upGone == e.hist.upGone && f.hist.accepted == e.hist.accepted && f.hist.visits == e.hist.visits
    && f.io == e.io
  }

  lemma StepFrame(e: Env, s: EnvStep)
    ensures SameDaemonSide(e, Step(e, s))
  {
  }

  function Steps(e: Env, ss: seq<EnvStep>): (f: Env)
    ensures SameDaemonSide(e, f)
    decreases |ss|
  {
    if ss == [] then e
    else
      StepFrame(e, ss[0]);
      Steps(Step(e, ss[0]), ss[1..])
  }

  predicate SameSizes(e: Env, f: Env) {
    |f.rx.buf| == |e.rx.buf| && |f.tx.buf| == |e.tx.buf|
  }

  // ----- the daemon's system calls

  /** Wait for the next system call to take effect. */
  function Await(e: Env): (r: (Env, IoStep))
    ensures SameDaemonSide(e.(io := r.0.io), r.0)
    ensures r.0.io == if e.io == [] then [] else e.io[1..]
  {
    if e.io == [] then (e, NO_IO) else (Steps(e.(io := e.io[1..]), e.io[0].env), e.io[0])
  }

  /** The stack garbage that the next packet would carry in bytes nobody writes. */
  function Junk(e: Env): Quad { if e.io == [] then [0, 0, 0, 0] else e.io[0].junk }

  function Packed(ps: seq<Sent>): (qs: seq<Pkt>)
    ensures |qs| == |ps|
  {
    seq(|ps|, i requires 0 <= i < |ps| => ps[i].pkt)
  }

  /** How much of a failing send went out: less than all of it. */
  function Cut(cut: nat, len: nat): (k: nat)
    ensures k <= len
  {
    if cut < len then cut else 0
  }

  /** `fdcheck` and `send`: all the packets go out, or the call fails after part of their bytes. */
  function Send(e: Env, ps: seq<Sent>): (r: (Env, bool))
    ensures SameSizes(e, r.0) && r.0.att.slots == e.att.slots
  {
    var (e1, io) := Await(e);
    var bytes := EncodeAll(Packed(ps));
    if io.ok then
      (e1.(net := e1.net.(up := e1.net.up + Packed(ps), sent := e1.net.sent + ps, wire := e1.net.wire + bytes)), true)
    else
      (e1.(net := e1.net.(wire := e1.net.wire + bytes[..Cut(io.cut, |bytes|)])), false)
  }

  /** `vc_connect`: a new connection, nothing sent and nothing received on it. */
  function Connect(e: Env): (r: (Env, int))
    ensures SameSizes(e, r.0) && r.1 >= -1
  {
    var (e1, io) := Await(e);
    if io.ok then
      (e1.(net := NO_NET.(mark := |e1.hist.upGone|, start := |e1.hist.accepted|),
           hist := e1.hist.(visits := e1.hist.visits + [Visit(e1.net.mark, e1.net.taken)])), io.val as int)
    else (e1, -1)
  }

  /** The ioctl ADVVCOM_IOCSRXHEAD: the daemon retires `n` bytes, or everything if a clean request is pending. */
  function IocRxHead(e: Env, n: nat): (f: Env)
    ensures SameSizes(e, f)
  {
    var (e1, _) := Await(e);
    var gone := if e1.rx.clean then Mark(e1.rx.Contents(), false)
                else Mark(e1.rx.Contents()[..Min(n, e1.rx.Len())], true);
    e1.(rx := e1.rx.MoveHead(n),
        hist := e1.hist.(upGone := e1.hist.upGone + gone),
        net := e1.net.(unacked := if n <= e1.net.unacked then e1.net.unacked - n else 0))
  }

  /** The ioctl ADVVCOM_IOCSTXTAIL: the daemon publishes `data`, and the driver delivers what it can. */
  function IocTxTail(e: Env, data: seq<byte>): (f: Env)
    ensures SameSizes(e, f)
  {
    var (e1, io) := Await(e);
    RecvChars(e1.(tx := e1.tx.MoveTail(|data|), hist := e1.hist.(accepted := e1.hist.accepted + data)), io.takes)
  }

  /** The ioctl ADVVCOM_IOCSCLR with both flags: the downlink ring is flushed, the uplink ring is marked for it. */
  function IocClear(e: Env): (f: Env)
    ensures SameSizes(e, f)
  {
    var (e1, _) := Await(e);
    e1.(rx := e1.rx.(clean := true),
        tx := e1.tx.(head := e1.tx.tail),
        hist := e1.hist.(downGone := e1.hist.downGone + Mark(e1.tx.Contents(), false)))
  }

  /** The ioctl ADVVCOM_IOCGATTRPTR. */
  function IocAttrPtr(e: Env): (r: (Env, nat))
    ensures r.1 < 2 && SameSizes(e, r.0)
  {
    var (e1, _) := Await(e);
    (e1.(att := e1.att.Flush()), e1.att.Flush().ptr)
  }

  /** The ioctl ADVVCOM_IOCSINTER with both flags: refill an empty uplink ring, deliver from the downlink ring. */
  function IocInter(e: Env): (f: Env)
    ensures SameSizes(e, f)
  {
    var (e1, io) := Await(e);
    var e2 := if e1.att.attr.isOpen && e1.rx.head == e1.rx.tail then XmitCopy(e1) else e1;
    RecvChars(e2, io.takes)
  }
}
