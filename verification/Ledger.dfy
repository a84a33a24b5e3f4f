/**
 The account of a connection: which of the DATAREADY packets sent on it reached the downlink ring, and what became of each
 WRITE. Nothing is lost on the way but what Idle drops and what the device leaves unanswered. It also tells in which order
 the daemon asks for events.
 */
module Ledger {
  import opened Words
  import opened Packets
  import opened Rings
  import opened Attributes
  import opened Worlds
  import opened Handlers
  import opened Control
  import opened Pipes
  import opened PipeRuns

  function PacketsOf(hs: seq<Heard>): (ps: seq<Pkt>)
    ensures |ps| == |hs|
  {
    seq(|hs|, i requires 0 <= i < |hs| => hs[i].pkt)
  }

  /** The payloads of the packets that Idle did not read, one behind the other. */
  function Kept(hs: seq<Heard>): seq<byte> {
    if hs == [] then []
    else
      var (earlier, last) := (hs[..|hs| - 1], hs[|hs| - 1]);
      Kept(earlier) + if last.idle then [] else last.pkt.ext
  }

  /**
   The DATAREADY packets sent on the connection are those dealt with, one that is being read (`mid`), and those not read
   yet; what the daemon accepted on the connection is the payloads of those that Idle did not read.
   */
  predicate Delivered(n: Net, accepted: seq<byte>, mid: seq<Pkt>) {
    && n.offered == PacketsOf(n.heard) + (Filter(mid, IsData) + Filter(n.down, IsData))
    && n.start <= |accepted| && accepted[n.start..] == Kept(n.heard)
  }

  /** If `k` bytes await an answer, then one WRITE or one answer is under way, or it was lost; otherwise there is none. */
  predicate Owed(n: Net, k: nat, mid: seq<Pkt>) {
    && (forall q :: q in n.held ==> IsWrite(q))
    && |Filter(n.up, IsWrite)| + |n.held| + |Filter(n.down, IsWrite)| + |Filter(mid, IsWrite)| + n.unheard == (if k > 0 then 1 else 0)
  }

  /** The requests by which the daemon learns of events. */
  predicate IsEventRequest(p: Pkt) { IsMaskRequest(p) || (p.cmd == CMD_IOCTL && p.p1 == IOCTL_GET_MODEMSTATUS) }

  /** The subcommands of the event requests among the packets sent, in order. */
  function EventRequests(sent: seq<Sent>): seq<u32> {
    if sent == [] then []
    else
      var (earlier, last) := (sent[..|sent| - 1], sent[|sent| - 1].pkt);
      EventRequests(earlier) + if IsEventRequest(last) then [last.p1] else []
  }

  /** SET_WAIT_MASK, GET_MODEMSTATUS, WAIT_ON_MASK, and so on. */
  predicate Cycle(rs: seq<u32>) {
    forall i :: 0 <= i < |rs| ==>
      rs[i] == if i % 3 == 0 then IOCTL_SET_WAIT_MASK else if i % 3 == 1 then IOCTL_GET_MODEMSTATUS else IOCTL_WAIT_ON_MASK
  }

  /** Of the event requests sent, the last one that asks for an answer the daemon goes on from. */
  function LastMask(rs: seq<u32>): u32 { if |rs| % 3 == 0 then IOCTL_WAIT_ON_MASK else IOCTL_SET_WAIT_MASK }

  /** Of the requests for events at most the last is still to be answered, and an answer is one to the last. */
  predicate Awaited(rs: seq<u32>, requests: seq<Pkt>, replies: seq<Pkt>, mid: seq<Pkt>) {
    && |requests| + |replies| + |mid| <= (if rs == [] then 0 else 1)
    && (|requests| == 1 ==> requests[0].p1 == LastMask(rs))
    && (|replies| == 1 ==> replies[0].p2 == LastMask(rs))
    && (|mid| == 1 ==> mid[0].p2 == LastMask(rs))
  }

  /** The event requests sent follow each other as they should; `half` says whether GET_MODEMSTATUS is to come next. */
  predicate Asked(n: Net, mid: seq<Pkt>, half: bool) {
    var rs := EventRequests(n.sent);
    && Cycle(rs) && (|rs| % 3 == 1 <==> half)
    && Awaited(rs, Filter(n.up, IsMaskRequest), Filter(n.down, IsMaskReply), Filter(mid, IsMaskReply))
  }

  /** The account of a connection at any moment. */
  predicate Account(e: Env, k: nat, mid: seq<Pkt>, honest: bool, half: bool) {
    Delivered(e.net, e.hist.accepted, mid) && (honest ==> HonestIo(e.io) && Owed(e.net, k, mid) && Asked(e.net, mid, half))
  }

  predicate Told(e: Env, k: nat, mid: seq<Pkt>, honest: bool) { Account(e, k, mid, honest, false) }

  predicate ToldOrDown(w: World, honest: bool) { Down(w) || Told(w.env, w.port.pending, [], honest) }

  // ----- steps and system calls

  lemma ReplyIsNoData(q: Pkt, status: u32, ext: Ext)
    ensures Filter(Reply(q, status, ext), IsData) == []
  {
    if Reply(q, status, ext) != [] {
      FilterOne(Reply(q, status, ext)[0], IsData);
    }
  }

  /** An answer adds no data, and one answer to a WRITE at most. */
  lemma AnswerTold(n: Net, q: Pkt, status: u32, ext: Ext)
    ensures |Filter(n.down + Reply(q, status, ext), IsWrite)| == |Filter(n.down, IsWrite)| + if IsWrite(q) then 1 else 0
    ensures Filter(n.down + Reply(q, status, ext), IsData) == Filter(n.down, IsData)
  {
    hide Filter, Reply;
    ReplyKinds(q, status, ext);
    ReplyIsNoData(q, status, ext);
    FilterConcat(n.down, Reply(q, status, ext), IsWrite);
    FilterConcat(n.down, Reply(q, status, ext), IsData);
  }

  lemma HeldWithout(held: seq<Pkt>, at: nat)
    requires at < |held|
    ensures forall q :: q in Without(held, at) ==> q in held
  {
  }

  lemma OfferTold(n: Net, accepted: seq<byte>, p: Pkt, mid: seq<Pkt>)
    requires Delivered(n, accepted, mid)
    ensures Delivered(Offer(n, p), accepted, mid)
  {
    hide Filter, Kept;
    FilterAdd(n.down, p, IsData);
    var more := if IsData(p) then [p] else [];
    Assoc(Filter(mid, IsData), Filter(n.down, IsData), more);
    Assoc(PacketsOf(n.heard), Filter(mid, IsData) + Filter(n.down, IsData), more);
    assert n.offered + [] == n.offered;
  }

  lemma DevStepTold(e: Env, s: EnvStep, k: nat, mid: seq<Pkt>, honest: bool)
    requires Delivered(e.net, e.hist.accepted, mid) && (honest ==> Owed(e.net, k, mid) && Honest(s))
    ensures var n := DevStep(e.net, s);
            Delivered(n, e.hist.accepted, mid) && (honest ==> Owed(n, k, mid))
  {
    hide Filter, Kept, Reply, Without;
    var n := e.net;
    match s
    case DevAnswer(at, status, ext) =>
      if at < |n.up| {
        TakenOut(n.up, at, IsWrite);
        AnswerTold(n, n.up[at], status, ext);
      }
    case DevSilent(at, take) =>
      if at < |n.up| {
        TakenOut(n.up, at, IsWrite);
      }
    case DevTake(at) =>
      if at < |n.up| {
        TakenOut(n.up, at, IsWrite);
      }
    case DevReport(at) =>
      if at < |n.held| {
        AnswerTold(n, n.held[at], STATUS_SUCCESS, []);
        HeldWithout(n.held, at);
      }
    case DevData(payload) =>
      var p := Pkt(MAGIC, 0, CMD_DATAREADY, STATUS_SUCCESS, |payload|, payload);
      OfferTold(n, e.hist.accepted, p, mid);
      FilterAdd(n.down, p, IsWrite);
    case DevInject(pkt) =>
      OfferTold(n, e.hist.accepted, pkt, mid);
      FilterAdd(n.down, pkt, IsWrite);
    case _ =>
  }

  /** The answer to a request for events is of its kind. */
  lemma AnswerAsked(n: Net, q: Pkt, status: u32, ext: Ext)
    ensures Filter(n.down + Reply(q, status, ext), IsMaskReply)
         == Filter(n.down, IsMaskReply) + if IsMaskRequest(q) then [Pkt(MAGIC, q.tid, CMD_IOCTL, status, q.p1, ext)] else []
  {
    hide Filter;
    FilterConcat(n.down, Reply(q, status, ext), IsMaskReply);
    FilterNothing(IsMaskReply);
    if Reply(q, status, ext) != [] {
      FilterOne(Reply(q, status, ext)[0], IsMaskReply);
    }
  }

  lemma DevStepAsked(n: Net, s: EnvStep, mid: seq<Pkt>, half: bool)
    requires Asked(n, mid, half) && Honest(s) && forall q :: q in n.held ==> IsWrite(q)
    ensures Asked(DevStep(n, s), mid, half)
  {
    hide Filter, Reply, Without, EventRequests, Cycle, LastMask;
    match s
    case DevAnswer(at, status, ext) =>
      if at < |n.up| {
        TakenOut(n.up, at, IsMaskRequest);
        AnswerAsked(n, n.up[at], status, ext);
      }
    case DevSilent(at, take) =>
      if at < |n.up| {
        TakenOut(n.up, at, IsMaskRequest);
      }
    case DevTake(at) =>
      if at < |n.up| {
        TakenOut(n.up, at, IsMaskRequest);
      }
    case DevReport(at) =>
      if at < |n.held| {
        assert n.held[at] in n.held;
        AnswerAsked(n, n.held[at], STATUS_SUCCESS, []);
        assert Filter(n.down, IsMaskReply) + [] == Filter(n.down, IsMaskReply);
      }
    case DevData(payload) =>
      FilterAdd(n.down, Pkt(MAGIC, 0, CMD_DATAREADY, STATUS_SUCCESS, |payload|, payload), IsMaskReply);
    case DevInject(pkt) =>
      FilterAdd(n.down, pkt, IsMaskReply);
    case _ =>
  }

  lemma HeldAreWrites(n: Net, k: nat, mid: seq<Pkt>)
    requires Owed(n, k, mid)
    ensures forall q :: q in n.held ==> IsWrite(q)
  {
  }

  lemma StepTold(e: Env, s: EnvStep, k: nat, mid: seq<Pkt>, honest: bool, half: bool)
    requires Account(e, k, mid, honest, half) && (honest ==> Honest(s))
    ensures Account(Step(e, s), k, mid, honest, half)
  {
    hide Delivered, Owed, Asked, HonestIo, XmitCopy, RecvChars, DevStep;
    StepFrame(e, s);
    if IsDevStep(s) {
      DevStepTold(e, s, k, mid, honest);
      if honest {
        HeldAreWrites(e.net, k, mid);
        DevStepAsked(e.net, s, mid, half);
      }
    } else {
      OtherStepsSpareNet(e, s);
    }
  }

  lemma StepsTold(e: Env, ss: seq<EnvStep>, k: nat, mid: seq<Pkt>, honest: bool, half: bool)
    requires Account(e, k, mid, honest, half) && (honest ==> HonestSteps(ss))
    ensures Account(Steps(e, ss), k, mid, honest, half)
    decreases |ss|
  {
    hide Account, Step;
    if ss != [] {
      StepTold(e, ss[0], k, mid, honest, half);
      StepsTold(Step(e, ss[0]), ss[1..], k, mid, honest, half);
    }
  }

  lemma AwaitAccount(e: Env, k: nat, mid: seq<Pkt>, honest: bool, half: bool)
    requires Account(e, k, mid, honest, half)
    ensures Account(Await(e).0, k, mid, honest, half)
  {
    hide Delivered, Owed, Asked, Steps;
    if e.io != [] {
      StepsTold(e.(io := e.io[1..]), e.io[0].env, k, mid, honest, half);
    }
  }

  lemma AwaitTold(e: Env, k: nat, mid: seq<Pkt>, honest: bool)
    requires Told(e, k, mid, honest)
    ensures Told(Await(e).0, k, mid, honest)
  {
    hide Account, Await;
    AwaitAccount(e, k, mid, honest, false);
  }

  lemma EventRequestsAdd(sent: seq<Sent>, s: Sent)
    ensures EventRequests(sent + [s]) == EventRequests(sent) + if IsEventRequest(s.pkt) then [s.pkt.p1] else []
  {
    assert (sent + [s])[..|sent|] == sent;
  }

  lemma {:induction false} EventRequestsSkip(sent: seq<Sent>, ps: seq<Sent>)
    requires forall i :: 0 <= i < |ps| ==> !IsEventRequest(ps[i].pkt)
    ensures EventRequests(sent + ps) == EventRequests(sent)
  {
    if ps == [] {
      assert sent + ps == sent;
    } else {
      var n := |ps| - 1;
      EventRequestsSkip(sent, ps[..n]);
      assert (sent + ps)[..|sent| + n] == sent + ps[..n];
      assert EventRequests(sent) + [] == EventRequests(sent);
    }
  }

  lemma SendTold(e: Env, ps: seq<Sent>, k: nat, mid: seq<Pkt>, honest: bool)
    requires Told(e, k, mid, honest) && forall i :: 0 <= i < |ps| ==> !IsWrite(ps[i].pkt) && !IsEventRequest(ps[i].pkt)
    ensures Told(Send(e, ps).0, k, mid, honest)
  {
    hide Await, Filter, Kept, EncodeAll, HonestIo, EventRequests, Cycle, Awaited;
    AwaitTold(e, k, mid, honest);
    var up := Await(e).0.net.up;
    FilterNone(Packed(ps), IsWrite);
    FilterNone(Packed(ps), IsMaskRequest);
    FilterConcat(up, Packed(ps), IsWrite);
    FilterConcat(up, Packed(ps), IsMaskRequest);
    EventRequestsSkip(e.net.sent, ps);
    assert Filter(up, IsMaskRequest) + [] == Filter(up, IsMaskRequest);
  }

  lemma EmitTold(w: World, cmd: u16, p1: u32, p2: u32, ext: Ext, honest: bool)
    requires Told(w.env, w.port.pending, [], honest) && cmd != CMD_WRITE
    requires cmd == CMD_IOCTL ==> p1 != IOCTL_SET_WAIT_MASK && p1 != IOCTL_WAIT_ON_MASK && p1 != IOCTL_GET_MODEMSTATUS
    ensures Told(Emit(w, cmd, p1, p2, ext).0.env, w.port.pending, [], honest)
  {
    hide Send, Told;
    SendTold(w.env, [Sent(w.port.tid, Pkt(MAGIC, w.port.tid % TID_MOD, cmd, p1, p2, ext))], w.port.pending, [], honest);
  }

  /** No request for events has been sent, or `mid` is the answer to the last one, of kind `kind`. */
  predicate Turned(sent: seq<Sent>, mid: seq<Pkt>, kind: u32) {
    || (EventRequests(sent) == [] && mid == [] && kind == IOCTL_WAIT_ON_MASK)
    || (|mid| == 1 && mid[0].cmd == CMD_IOCTL && mid[0].p2 == kind && IsMaskReply(mid[0]))
  }

  /** The next request for events goes out: it is the one that the cycle asks for. */
  lemma SendMaskTold(e: Env, s: Sent, k: nat, mid: seq<Pkt>, kind: u32, honest: bool)
    requires Told(e, k, mid, honest) && Turned(e.net.sent, mid, kind) && s.pkt.cmd == CMD_IOCTL
    requires kind == IOCTL_WAIT_ON_MASK || kind == IOCTL_SET_WAIT_MASK
    requires s.pkt.p1 == if kind == IOCTL_WAIT_ON_MASK then IOCTL_SET_WAIT_MASK else IOCTL_WAIT_ON_MASK
    ensures Send(e, [s]).1 ==> Account(Send(e, [s]).0, k, [], honest, kind == IOCTL_WAIT_ON_MASK)
  {
    hide Await, Filter, Kept, EncodeAll, HonestIo, EventRequests;
    AwaitTold(e, k, mid, honest);
    var up := Await(e).0.net.up;
    assert Packed([s]) == [s.pkt];
    FilterAdd(up, s.pkt, IsWrite);
    FilterAdd(up, s.pkt, IsMaskRequest);
    EventRequestsAdd(e.net.sent, s);
    MidIsGone(mid);
  }

  /** An answer to an IOCTL is of no other account. */
  lemma MidIsGone(mid: seq<Pkt>)
    requires mid == [] || (|mid| == 1 && mid[0].cmd == CMD_IOCTL)
    ensures Filter(mid, IsData) == Filter(mid, IsWrite) == Filter([], IsData) == Filter([], IsWrite) == Filter([], IsMaskReply) == []
    ensures mid != [] && IsMaskReply(mid[0]) ==> Filter(mid, IsMaskReply) == mid
  {
    if mid != [] {
      assert mid == [mid[0]];
      FilterOne(mid[0], IsData);
      FilterOne(mid[0], IsWrite);
      FilterOne(mid[0], IsMaskReply);
    }
  }

  /** GET_MODEMSTATUS follows SET_WAIT_MASK. */
  lemma SendStatusTold(e: Env, s: Sent, k: nat, honest: bool)
    requires Account(e, k, [], honest, true) && s.pkt.cmd == CMD_IOCTL && s.pkt.p1 == IOCTL_GET_MODEMSTATUS
    ensures Send(e, [s]).1 ==> Told(Send(e, [s]).0, k, [], honest)
  {
    hide Await, Filter, Kept, EncodeAll, HonestIo, EventRequests;
    AwaitAccount(e, k, [], honest, true);
    var up := Await(e).0.net.up;
    assert Packed([s]) == [s.pkt];
    FilterAdd(up, s.pkt, IsWrite);
    FilterAdd(up, s.pkt, IsMaskRequest);
    EventRequestsAdd(e.net.sent, s);
    assert Filter(up, IsMaskRequest) + [] == Filter(up, IsMaskRequest);
  }

  lemma SendWriteTold(e: Env, s: Sent, k: nat, honest: bool)
    requires Told(e, 0, [], honest) && IsWrite(s.pkt) && k > 0
    ensures Send(e, [s]).1 ==> Told(Send(e, [s]).0, k, [], honest)
  {
    hide Await, Filter, Kept, EncodeAll, HonestIo, EventRequests, Cycle, Awaited;
    AwaitTold(e, 0, [], honest);
    var up := Await(e).0.net.up;
    assert Packed([s]) == [s.pkt];
    FilterAdd(up, s.pkt, IsWrite);
    FilterAdd(up, s.pkt, IsMaskRequest);
    EventRequestsSkip(e.net.sent, [s]);
    assert Filter(up, IsMaskRequest) + [] == Filter(up, IsMaskRequest);
  }

  lemma ConnectTold(e: Env, honest: bool)
    requires honest ==> HonestIo(e.io)
    ensures Connect(e).1 >= 0 ==> Told(Connect(e).0, 0, [], honest)
  {
    hide Steps;
    var e1 := Connect(e).0;
    assert e1.hist.accepted[|e1.hist.accepted|..] == [];
  }

  lemma UpdateTold(w: World, k: nat, mid: seq<Pkt>, honest: bool)
    requires Told(w.env, k, mid, honest)
    ensures Told(UpdateRx(w).env, k, mid, honest) && Told(UpdateTx(w).env, k, mid, honest)
    ensures Told(Sleep(w).env, k, mid, honest) && Told(UpdateAttr(w).env, k, mid, honest)
  {
    hide Await, Delivered, Owed, Asked, HonestIo;
    AwaitTold(w.env, k, mid, honest);
    AwaitTold(Await(w.env).0, k, mid, honest);
  }

  lemma SettleTold(w: World, k: nat, honest: bool)
    requires Told(w.env, k, [], honest)
    ensures Told(Settle(w).env, k, [], honest) && Settle(w).port.pending == w.port.pending
  {
    hide Await, Told;
    UpdateTold(w, k, [], honest);
    UpdateTold(UpdateRx(w), k, [], honest);
  }

  lemma CopiesTold(e: Env, takes: seq<nat>, k: nat, mid: seq<Pkt>, honest: bool)
    requires Told(e, k, mid, honest)
    ensures Told(XmitCopy(e), k, mid, honest) && Told(RecvChars(e, takes), k, mid, honest)
  {
    hide Delivered, Owed, Asked, HonestIo, XmitCopy, RecvChars;
    CopyFrame(e, takes);
    AcceptedStays(e, takes);
  }

  // ----- the handshake

  /** Both requests that follow an event go out, and nothing is awaited but the answer to the first. */
  lemma SyncEventTold(w: World, mid: seq<Pkt>, honest: bool)
    requires Told(w.env, w.port.pending, mid, honest) && Turned(w.env.net.sent, mid, IOCTL_WAIT_ON_MASK)
    ensures var (v, ok) := SyncEvent(w);
            v.port.pending == w.port.pending && (ok ==> Told(v.env, w.port.pending, [], honest))
  {
    hide Send, Account, Turned, Be32;
    SendMaskTold(w.env, MaskRequest(w, IOCTL_SET_WAIT_MASK, Be32(0x38010000)), w.port.pending, mid, IOCTL_WAIT_ON_MASK, honest);
    var (w1, ok) := Emit(w, CMD_IOCTL, IOCTL_SET_WAIT_MASK, 0, Be32(0x38010000));
    if ok {
      SendStatusTold(w1.env, MaskRequest(w1, IOCTL_GET_MODEMSTATUS, []), w.port.pending, honest);
    }
  }

  /** An IOCTL packet under the current transaction id. */
  function MaskRequest(w: World, p1: u32, ext: Ext): Sent {
    Sent(w.port.tid, Pkt(MAGIC, w.port.tid % TID_MOD, CMD_IOCTL, p1, 0, ext))
  }

  lemma PopTold(w: World, honest: bool)
    requires |w.port.stk| >= 2 && Told(w.env, w.port.pending, [], honest)
    ensures ToldOrDown(Settle(Pop(w)), honest)
  {
    hide Settle, Told, Down;
    SettleTold(Pop(w), w.port.pending, honest);
  }

  lemma SyncRestTold(w: World, honest: bool)
    requires Top(w) == Sync && Told(w.env, w.port.pending, [], honest) && EventRequests(w.env.net.sent) == []
    ensures ToldOrDown(SyncRest(w), honest)
  {
    hide Emit, SyncEvent, Settle, Excp, Told, Down;
    SyncEventTold(w, [], honest);
    var (w1, ok1) := SyncEvent(w);
    ExcpIsDown(w1);
    if ok1 {
      var credit := if w1.port.tx.head == w1.port.tx.tail then 1024 else 0;
      EmitTold(w1, CMD_QUEUEFREE, 0, credit, [], honest);
      var (w2, ok2) := Emit(w1, CMD_QUEUEFREE, 0, credit, []);
      ExcpIsDown(w2);
      PopTold(w2, honest);
    }
  }

  lemma EmitAsksNothing(w: World, cmd: u16, p1: u32, p2: u32, ext: Ext)
    requires cmd == CMD_IOCTL ==> p1 != IOCTL_SET_WAIT_MASK && p1 != IOCTL_WAIT_ON_MASK && p1 != IOCTL_GET_MODEMSTATUS
    ensures EventRequests(Emit(w, cmd, p1, p2, ext).0.env.net.sent) == EventRequests(w.env.net.sent)
  {
    hide Await, EncodeAll, EventRequests;
    var s := Sent(w.port.tid, Pkt(MAGIC, w.port.tid % TID_MOD, cmd, p1, p2, ext));
    EventRequestsSkip(w.env.net.sent, [s]);
  }

  lemma SyncMsTold(w: World, ms: u32, honest: bool)
    requires Told(w.env, w.port.pending, [], honest) && EventRequests(w.env.net.sent) == []
    ensures var v := SyncMs(w, ms).0;
            && Told(v.env, w.port.pending, [], honest) && v.port.pending == w.port.pending
            && EventRequests(v.env.net.sent) == []
  {
    hide Emit, Told, Rts, Dtr, EventRequests;
    var rts := if Rts(ms) then IOCTL_SET_RTS else IOCTL_CLR_RTS;
    var dtr := if Dtr(ms) then IOCTL_SET_DTR else IOCTL_CLR_DTR;
    var w1 := Emit(w, CMD_IOCTL, rts, 0, []).0;
    EmitTold(w, CMD_IOCTL, rts, 0, [], honest);
    EmitTold(w1, CMD_IOCTL, dtr, 0, [], honest);
    EmitAsksNothing(w, CMD_IOCTL, rts, 0, []);
    EmitAsksNothing(w1, CMD_IOCTL, dtr, 0, []);
  }

  lemma SyncInitTold(w: World, honest: bool)
    requires Top(w) == Sync && Told(w.env, w.port.pending, [], honest) && EventRequests(w.env.net.sent) == []
    ensures ToldOrDown(SyncInit(w), honest)
  {
    hide SyncMs, SyncRest, Excp, Told, Down, EventRequests;
    var ms := Attr(w).ms;
    SyncMsTold(w, ms, honest);
    var (w1, ok1) := SyncMs(w, ms);
    ExcpIsDown(w1);
    if ok1 {
      SyncRestTold(w1.(port := w1.port.(eki := w1.port.eki.(ms := ms))), honest);
    }
  }

  lemma CommonOpenTold(w: World, honest: bool)
    requires |w.port.stk| == 2 && Told(w.env, w.port.pending, [], honest) && w.env.net.sent == []
    ensures ToldOrDown(CommonOpen(w), honest)
  {
    hide Await, EncodeAll, SyncInit, Excp, Told, Down;
    var create := [Sent(w.port.tid, OpenPkt(1, w.port.devid, w.port.port))];
    SendTold(w.env, create, w.port.pending, [], honest);
    EventRequestsSkip([], create);
    var (e, ok) := Send(w.env, create);
    ExcpIsDown(w.(env := e));
    if ok {
      assert e.net.sent == [] + create;
      SyncInitTold(Push(w.(env := e, port := w.port.(tid := w.port.tid + 1, eki := w.port.eki.(isOpen := true))), Sync), honest);
    }
  }

  lemma NetDownOpenTold(w: World, honest: bool)
    requires Down(w) && (honest ==> HonestIo(w.env.io))
    ensures ToldOrDown(NetDownOpen(w), honest)
  {
    hide CommonOpen, Told, Await;
    ConnectTold(w.env, honest);
    var (e, sk) := Connect(w.env);
    if sk >= 0 {
      var w1 := w.(env := e, port := w.port.(sk := sk));
      CommonOpenTold(Push(w1, if w1.port.tx.head == w1.port.tx.tail then NetUp else Pause), honest);
    }
  }

  // ----- settings, credit, sending

  lemma SyncRecvTold(w: World, p: Pkt, honest: bool)
    requires Top(w) == Sync && Told(w.env, w.port.pending, [p], honest) && p.cmd == CMD_IOCTL
    ensures ToldOrDown(SyncRecv(w, p), honest)
  {
    hide Send, SyncEvent, Settle, Await, Excp, Account, Down;
    if p.p2 == IOCTL_WAIT_ON_MASK {
      SyncEventTold(w, [p], honest);
      var (w1, ok) := SyncEvent(w);
      if ok { PopTold(w1, honest); } else { ExcpIsDown(w1); }
    } else if p.p2 == IOCTL_SET_WAIT_MASK {
      SendMaskTold(w.env, MaskRequest(w, IOCTL_WAIT_ON_MASK, []), w.port.pending, [p], IOCTL_SET_WAIT_MASK, honest);
      var (w1, ok) := RegSyncEvent(w);
      if ok { PopTold(w1, honest); } else { ExcpIsDown(w1); }
    } else {
      NoAccount(w.env, w.port.pending, p, honest);
      UpdateTold(w, w.port.pending, [], honest);
      ExcpIsDown(Sleep(w));
      PopTold(Sleep(w), honest);
      PopTold(w, honest);
    }
  }

  lemma StagesTold(w: World, honest: bool)
    requires Told(w.env, w.port.pending, [], honest)
    ensures Told(IoctlBaud(w).0.env, w.port.pending, [], honest) && IoctlBaud(w).0.port.pending == w.port.pending
    ensures Told(IoctlLine(w).0.env, w.port.pending, [], honest) && IoctlLine(w).0.port.pending == w.port.pending
    ensures Told(IoctlFlow(w).0.env, w.port.pending, [], honest) && IoctlFlow(w).0.port.pending == w.port.pending
    ensures Told(IoctlMs(w).0.env, w.port.pending, [], honest) && IoctlMs(w).0.port.pending == w.port.pending
  {
    hide Emit, Send, Told, Le32, ToU32, FlowWords, FlowExt, LineExt, ToByte, Junk, Rts, Dtr;
    var (a, e) := (Attr(w), w.port.eki);
    EmitTold(w.(port := w.port.(eki := e.(baud := a.baud))), CMD_IOCTL, IOCTL_SET_BAUD_RATE, 0, Le32(ToU32(a.baud)), honest);
    EmitTold(w.(port := w.port.(eki := e.(pair := a.pair, stop := a.stop, byte := a.byte))),
             CMD_IOCTL, IOCTL_SET_LINE_CONTROL, 0, LineExt(ToByte(a.pair), ToByte(a.byte), ToByte(a.stop)), honest);
    EmitTold(w.(port := w.port.(eki := e.(flowctl := a.flowctl))), CMD_IOCTL, IOCTL_SET_HANDFLOW, 0,
             FlowExt(FlowWords(a.flowctl).0, FlowWords(a.flowctl).1, Junk(w.env)), honest);
    SendTold(w.env, MsPkts(w.port.tid, e.ms, a.ms), w.port.pending, [], honest);
  }

  lemma IoctlTold(w: World, honest: bool)
    requires Told(w.env, w.port.pending, [], honest)
    ensures ToldOrDown(CommonIoctl(w), honest)
  {
    hide IoctlBaud, IoctlLine, IoctlFlow, IoctlMs, Excp, Told, Down;
    StagesTold(w, honest);
    var w1 := IoctlBaud(w).0;
    StagesTold(w1, honest);
    var w2 := IoctlLine(w1).0;
    StagesTold(w2, honest);
    var w3 := IoctlFlow(w2).0;
    StagesTold(w3, honest);
    ExcpIsDown(w1);
    ExcpIsDown(w2);
    ExcpIsDown(w3);
    ExcpIsDown(IoctlMs(w3).0);
  }

  lemma XmitTold(w: World, honest: bool)
    requires Told(w.env, w.port.pending, [], honest) && w.port.pending == 0 && SnapContents(w) != []
    ensures ToldOrDown(CommonXmit(w), honest)
  {
    hide Send, Excp, SnapContents, Told, Down;
    var len := Min(XMIT_LEN, |SnapContents(w)|);
    var p := Pkt(MAGIC, w.port.tid % TID_MOD, CMD_WRITE, len, 0, SnapContents(w)[..len]);
    SendWriteTold(w.env, Sent(w.port.tid, p), len, honest);
    ExcpIsDown(Emit(w, CMD_WRITE, len, 0, SnapContents(w)[..len]).0);
  }

  lemma SwapTold(w: World, credit: u32, s: St, honest: bool)
    requires |w.port.stk| == 2 && Works(s) && Told(w.env, w.port.pending, [], honest)
    ensures ToldOrDown(Settle(Rpls(Emit(w, CMD_QUEUEFREE, 0, credit, []).0, s)), honest)
  {
    hide Emit, Settle, Told, Down;
    EmitTold(w, CMD_QUEUEFREE, 0, credit, [], honest);
    SettleTold(Rpls(Emit(w, CMD_QUEUEFREE, 0, credit, []).0, s), w.port.pending, honest);
  }

  // ----- receiving

  lemma FilterNothing(kind: Pkt -> bool)
    ensures Filter([], kind) == []
  {
  }

  /** A packet that is neither data nor an answer to a WRITE is of no account. */
  lemma NoAccount(e: Env, k: nat, p: Pkt, honest: bool)
    requires Told(e, k, [p], honest) && !IsData(p) && !IsWrite(p)
    ensures Told(e, k, [], honest)
  {
    hide Filter, Kept, HonestIo, EventRequests, Cycle;
    FilterNothing(IsMaskReply);
    FilterOne(p, IsData);
    FilterOne(p, IsWrite);
    FilterNothing(IsData);
    FilterNothing(IsWrite);
  }

  lemma PopQueueTold(e: Env, k: nat, honest: bool)
    requires Told(e, k, [], honest) && e.net.down != []
    ensures Told(e.(net := e.net.(down := e.net.down[1..])), k, [e.net.down[0]], honest)
  {
    hide Filter, Kept, HonestIo, EventRequests, Cycle;
    FilterNothing(IsMaskReply);
    FilterOne(e.net.down[0], IsMaskReply);
    FilterNothing(IsData);
    FilterNothing(IsWrite);
    FilterOne(e.net.down[0], IsData);
    FilterOne(e.net.down[0], IsWrite);
    Dequeue(e.net.down, IsData);
    Dequeue(e.net.down, IsMaskReply);
    Dequeue(e.net.down, IsWrite);
    assert [] + Filter(e.net.down, IsData) == Filter(e.net.down, IsData);
  }

  lemma HeardMore(hs: seq<Heard>, h: Heard)
    ensures PacketsOf(hs + [h]) == PacketsOf(hs) + [h.pkt]
    ensures Kept(hs + [h]) == Kept(hs) + if h.idle then [] else h.pkt.ext
  {
    assert (hs + [h])[..|hs|] == hs;
  }

  /** Idle drops the packet: data is recorded as dropped, and an answer to a WRITE as lost. */
  lemma DiscardTold(e: Env, k: nat, p: Pkt, honest: bool)
    requires Told(e, k, [p], honest)
    ensures Told(e.(net := Discard(e.net, p)), k, [], honest)
  {
    hide Filter, Kept, HonestIo, EventRequests, Cycle;
    FilterNothing(IsMaskReply);
    FilterOne(p, IsMaskReply);
    FilterOne(p, IsData);
    FilterOne(p, IsWrite);
    FilterNothing(IsData);
    FilterNothing(IsWrite);
    HeardMore(e.net.heard, Heard(p, true));
    var down := Filter(e.net.down, IsData);
    Assoc(PacketsOf(e.net.heard), if IsData(p) then [p] else [], down);
    assert PacketsOf(e.net.heard) + [] == PacketsOf(e.net.heard) && [] + down == down && Kept(e.net.heard) + [] == Kept(e.net.heard);
    assert e.net.heard + [] == e.net.heard;
  }

  /** The payload goes to the downlink ring. */
  lemma AcceptTold(e: Env, k: nat, p: Pkt, honest: bool)
    requires Told(e, k, [p], honest) && IsData(p)
    ensures Told(e.(net := Accept(e.net, p), hist := e.hist.(accepted := e.hist.accepted + p.ext)), k, [], honest)
  {
    hide Filter, Kept, HonestIo, EventRequests, Cycle;
    FilterNothing(IsMaskReply);
    FilterOne(p, IsMaskReply);
    FilterOne(p, IsData);
    FilterOne(p, IsWrite);
    FilterNothing(IsData);
    FilterNothing(IsWrite);
    HeardMore(e.net.heard, Heard(p, false));
    var down := Filter(e.net.down, IsData);
    Assoc(PacketsOf(e.net.heard), [p], down);
    assert [] + down == down;
    assert (e.hist.accepted + p.ext)[e.net.start..] == e.hist.accepted[e.net.start..] + p.ext;
  }

  lemma DataReadyTold(w: World, p: Pkt, honest: bool)
    requires Told(w.env, w.port.pending, [p], honest) && IsData(p)
    ensures ToldOrDown(DataReady(w, p), honest)
  {
    hide Await, RecvChars, Fill, Delivered, Owed, Asked, HonestIo, Excp, Down;
    ExcpIsDown(w);
    if p.p1 == STATUS_SUCCESS && p.p2 == |p.ext| && Room(w.port.tx.head, w.port.tx.tail, |w.env.tx.buf|) >= |p.ext| {
      var e := w.env.(tx := w.env.tx.(buf := Fill(w.env.tx.buf, w.port.tx.tail, p.ext)));
      AwaitTold(e, w.port.pending, [p], honest);
      var (e1, io) := Await(e);
      AcceptTold(e1, w.port.pending, p, honest);
      var e2 := e1.(tx := e1.tx.MoveTail(|p.ext|), hist := e1.hist.(accepted := e1.hist.accepted + p.ext));
      CopyFrame(e2, io.takes);
      AcceptedStays(e2, io.takes);
    }
  }

  lemma WriteReplyTold(w: World, p: Pkt, honest: bool)
    requires Told(w.env, w.port.pending, [p], honest) && IsWrite(p)
    ensures ToldOrDown(WriteReply(w, p), honest)
  {
    hide IocRxHead, UpdateRx, Await, Excp, Told, Down;
    ExcpIsDown(w);
    AnswerSettles(w.env, w.port.pending, p, honest);
    if IsXmitReply(p, STATUS_SUCCESS, w.port.pending) {
      RetireTold(w.env, w.port.pending, honest);
      var w1 := w.(env := IocRxHead(w.env, w.port.pending), port := w.port.(pending := 0));
      UpdateTold(w1, 0, [], honest);
      UpdateRxSpares(w1);
    }
  }

  /** The answer that was owed has come: nothing is owed any more. */
  lemma AnswerSettles(e: Env, k: nat, p: Pkt, honest: bool)
    requires Told(e, k, [p], honest) && IsWrite(p)
    ensures Told(e, 0, [], honest)
  {
    hide Filter, Kept, HonestIo, EventRequests, Cycle;
    FilterNothing(IsMaskReply);
    FilterOne(p, IsMaskReply);
    FilterOne(p, IsData);
    FilterOne(p, IsWrite);
    FilterNothing(IsData);
    FilterNothing(IsWrite);
  }

  lemma RetireTold(e: Env, k: nat, honest: bool)
    requires Told(e, 0, [], honest)
    ensures Told(IocRxHead(e, k), 0, [], honest)
  {
    hide Await, Filter, Kept, HonestIo, Mark, EventRequests, Cycle;
    AwaitTold(e, 0, [], honest);
  }

  lemma RecvTold(w: World, p: Pkt, honest: bool)
    requires Up(w) && Told(w.env, w.port.pending, [p], honest)
    ensures ToldOrDown(Recv(w, p), honest)
  {
    hide SyncRecv, DataReady, WriteReply, Settle, Excp, Told, Down, Logged, LastCredit;
    ExcpIsDown(w);
    if Top(w) == Idle {
      DiscardTold(w.env, w.port.pending, p, honest);
      PopTold(w.(env := w.env.(net := Discard(w.env.net, p))), honest);
    } else if p.cmd == CMD_DATAREADY {
      DataReadyTold(w, p, honest);
    } else if p.cmd == CMD_WRITE {
      WriteReplyTold(w, p, honest);
    } else {
      NoAccount(w.env, w.port.pending, p, honest);
      if p.cmd == CMD_IOCTL {
        SyncRecvTold(Push(w, Sync), p, honest);
      }
    }
  }

  lemma RecvPayloadTold(w: World, p: Pkt, r: Reading, honest: bool)
    requires Up(w) && Told(w.env, w.port.pending, [p], honest)
    ensures ToldOrDown(RecvPayload(w, p, r), honest)
  {
    hide Recv, Sleep, Told, Excp, Down, Logged, LastCredit;
    UpdateTold(w, w.port.pending, [p], honest);
    UpdateLink(w);
    SameLinkUp(w, Sleep(w));
    RecvTold(Sleep(w), p, honest);
    ExcpIsDown(w);
    ExcpIsDown(Sleep(w));
  }

  lemma RecvDespTold(w: World, r: Reading, honest: bool)
    requires Up(w) && Told(w.env, w.port.pending, [], honest)
    ensures ToldOrDown(RecvDesp(w, r), honest)
  {
    hide RecvPayload, UpdateTx, Told, Excp, Down, Logged, LastCredit;
    ExcpIsDown(w);
    if r != Closed && r != ShortHeader && w.env.net.down != [] {
      var p := w.env.net.down[0];
      PopQueueTold(w.env, w.port.pending, honest);
      var w1 := w.(env := w.env.(net := w.env.net.(down := w.env.net.down[1..])));
      SameLinkUp(w, w1);
      UpdateTold(w1, w.port.pending, [p], honest);
      UpdateLink(w1);
      SameLinkUp(w1, UpdateTx(w1));
      RecvPayloadTold(if p.cmd == CMD_DATAREADY then UpdateTx(w1) else w1, p, r, honest);
    }
  }

  // ----- turns

  lemma HearTold(w: World, wake: Wake, honest: bool)
    requires Good(w) && ToldOrDown(w, honest) && wake.Ready?
    ensures ToldOrDown(Hear(w, wake), honest)
  {
    hide RecvDesp, Told, Excp, Logged, LastCredit;
    if Down(w) {
      DownStays(w, wake);
    } else if wake.sk {
      RecvDespTold(w.(lrecv := 0), wake.reading, honest);
    } else {
      ExcpIsDown(w);
    }
  }

  lemma OpenCloseTold(w: World, honest: bool)
    requires Good(w) && ToldOrDown(w, honest) && (honest ==> HonestIo(w.env.io))
    ensures ToldOrDown(OpenClose(w), honest)
  {
    hide NetDownOpen, Close, CommonOpen, Told, HonestIo, Logged, LastCredit;
    if Down(w) {
      NetDownOpenTold(w, honest);
    } else {
      CloseGood(w);
    }
  }

  lemma FollowTold(w: World, honest: bool)
    requires Good(w) && ToldOrDown(w, honest)
    ensures ToldOrDown(Reconcile(w), honest) && ToldOrDown(SendPending(w), honest) && ToldOrDown(TakeCreditBack(w), honest)
  {
    hide CommonIoctl, CommonXmit, SettingsDiffer, Emit, Settle, Excp, Told, Logged, LastCredit;
    if Down(w) {
      DownStays(w, Ready(0, false, false, Closed, false, false));
    } else {
      IoctlTold(w, honest);
      if w.port.pending == 0 && w.port.rx.head != w.port.rx.tail {
        XmitTold(w, honest);
      }
      if Top(w) == NetUp {
        SwapTold(w, 0, Pause, honest);
        ExcpIsDown(Emit(w, CMD_QUEUEFREE, 0, 0, []).0);
      }
    }
  }

  lemma WaitTold(w: World, honest: bool)
    requires Good(w) && ToldOrDown(w, honest)
    ensures ToldOrDown(Event(w).0, honest) && ToldOrDown(Interrupt(w), honest) && ToldOrDown(Sleep(w), honest)
  {
    hide Await, XmitCopy, RecvChars, Told, Excp, Logged, LastCredit;
    if Down(w) {
      DownStays(w, Ready(0, false, false, Closed, false, false));
    } else {
      UpdateTold(w, w.port.pending, [], honest);
      ExcpIsDown(Sleep(w));
      var (e1, io) := Await(w.env);
      CopiesTold(e1, io.takes, w.port.pending, [], honest);
      CopiesTold(XmitCopy(e1), io.takes, w.port.pending, [], honest);
    }
  }

  lemma PollTold(w: World, honest: bool)
    requires Good(w) && ToldOrDown(w, honest)
    ensures ToldOrDown(Poll(w), honest)
  {
    hide Emit, Told, Excp, Logged, LastCredit;
    ExcpIsDown(w);
    if Up(w) && Top(w) != Idle {
      EmitTold(Push(w, Idle), CMD_IOCTL, IOCTL_GET_WAIT_MASK, 0, [], honest);
      ExcpIsDown(Emit(Push(w, Idle), CMD_IOCTL, IOCTL_GET_WAIT_MASK, 0, []).0);
    }
  }

  lemma ResumeTold(w: World, honest: bool)
    requires Good(w) && ToldOrDown(w, honest)
    ensures ToldOrDown(Resume(w), honest)
  {
    hide Emit, Settle, Await, Told, Excp, Logged, LastCredit;
    if Up(w) && Top(w) == Pause {
      UpdateTold(w, w.port.pending, [], honest);
      SwapTold(Sleep(w), 1024, NetUp, honest);
      ExcpIsDown(Sleep(w));
      ExcpIsDown(Emit(Sleep(w), CMD_QUEUEFREE, 0, 1024, []).0);
    }
  }

  lemma RefreshTold(w: World, honest: bool)
    requires ToldOrDown(w, honest)
    ensures ToldOrDown(UpdateRx(w), honest) && ToldOrDown(UpdateTx(w), honest) && ToldOrDown(UpdateAttr(w), honest)
  {
    hide Await, Told;
    UpdateLink(w);
    if !Down(w) {
      UpdateTold(w, w.port.pending, [], honest);
    }
  }

  lemma BeforeTold(w: World, honest: bool)
    requires Good(w) && ToldOrDown(w, honest) && (honest ==> HonestIo(w.env.io))
    ensures ToldOrDown(Before(w).0, honest)
  {
    hide OpenClose, Reconcile, SendPending, TakeCreditBack, Event, Interrupt, Good, ToldOrDown, HonestIo;
    OpenCloseGood(w);
    OpenCloseTold(w, honest);
    var w1 := OpenClose(w);
    LandsGood(w, w1);
    StagesKeep(w1);
    FollowTold(w1, honest);
    var w2 := Reconcile(w1);
    StagesKeep(w2);
    FollowTold(w2, honest);
    var w3 := SendPending(w2);
    StagesKeep(w3);
    FollowTold(w3, honest);
    var w4 := TakeCreditBack(w3);
    StagesKeep(w4);
    WaitTold(w4, honest);
    WaitTold(Event(w4).0, honest);
  }

  lemma LandsGood(w: World, v: World)
    requires Good(w) && Lands(w, v)
    ensures Good(v)
  {
    hide Down, Up;
  }

  lemma AfterTold(w: World, rd: bool, wr: bool, wake: Wake, honest: bool)
    requires Good(w) && ToldOrDown(w, honest)
    ensures ToldOrDown(AfterSelect(w, rd, wr, wake), honest)
  {
    hide Poll, Hear, Resume, UpdateRx, UpdateTx, UpdateAttr, Up, Down, Told;
    match wake
    case Timeout => PollTold(w, honest);
    case Ready(_, pri, _, _, rdReady, wrReady) =>
      UpdateLink(w);
      SameLinkGood(w, UpdateAttr(w));
      RefreshTold(w, honest);
      var w0 := if pri then UpdateAttr(w) else w;
      HearGood(w0, wake);
      HearTold(w0, wake, honest);
      var w1 := Hear(w0, wake);
      UpdateLink(w1);
      SameLinkGood(w1, UpdateRx(w1));
      RefreshTold(w1, honest);
      var w2 := if rd && rdReady then UpdateRx(w1) else w1;
      UpdateLink(w2);
      SameLinkGood(w2, UpdateTx(w2));
      RefreshTold(w2, honest);
      ResumeTold(UpdateTx(w2), honest);
  }

  lemma TurnTold(w: World, t: Tick, honest: bool)
    requires Good(w) && ToldOrDown(w, honest) && (honest ==> HonestIo(t.io))
    ensures ToldOrDown(Turn(w, t), honest)
  {
    hide Before, AfterSelect, Sleep, Linked, Delivered, Owed, Asked, HonestIo;
    var w0 := w.(env := w.env.(io := t.io));
    SameLinkGood(w, w0);
    BeforeGood(w0);
    BeforeTold(w0, honest);
    var (w1, rd, wr) := Before(w0);
    UpdateLink(w1);
    SameLinkGood(w1, Sleep(w1));
    WaitTold(w1, honest);
    AfterTold(Sleep(w1), rd, wr, t.wake, honest);
  }

  // ----- the next WRITE

  /** No connection, or the same state, snapshot and bytes awaiting an answer. */
  predicate Waits(w: World, v: World) {
    Down(v) || (v.port.stk == w.port.stk && v.port.rx == w.port.rx && v.port.pending == w.port.pending
                && |v.env.rx.buf| == |w.env.rx.buf|)
  }

  lemma StagesWait(w: World)
    ensures var v := IoctlBaud(w).0; v.port.stk == w.port.stk && v.port.rx == w.port.rx && v.port.pending == w.port.pending
    ensures var v := IoctlLine(w).0; v.port.stk == w.port.stk && v.port.rx == w.port.rx && v.port.pending == w.port.pending
    ensures var v := IoctlFlow(w).0; v.port.stk == w.port.stk && v.port.rx == w.port.rx && v.port.pending == w.port.pending
    ensures var v := IoctlMs(w).0; v.port.stk == w.port.stk && v.port.rx == w.port.rx && v.port.pending == w.port.pending
    ensures |IoctlBaud(w).0.env.rx.buf| == |IoctlLine(w).0.env.rx.buf| == |w.env.rx.buf|
    ensures |IoctlFlow(w).0.env.rx.buf| == |IoctlMs(w).0.env.rx.buf| == |w.env.rx.buf|
  {
    hide Emit, Send, Le32, ToU32, FlowWords, FlowExt, LineExt, ToByte, Junk, Rts, Dtr, WellFormed, Attr;
  }

  lemma ReconcileWaits(w: World)
    ensures Waits(w, Reconcile(w))
  {
    hide IoctlBaud, IoctlLine, IoctlFlow, IoctlMs, SettingsDiffer, Excp, Down, Logged, LastCredit, WellFormed;
    var w1 := IoctlBaud(w).0;
    var w2 := IoctlLine(w1).0;
    var w3 := IoctlFlow(w2).0;
    StagesWait(w);
    StagesWait(w1);
    StagesWait(w2);
    StagesWait(w3);
    ExcpIsDown(w1);
    ExcpIsDown(w2);
    ExcpIsDown(w3);
    ExcpIsDown(IoctlMs(w3).0);
  }

  lemma XmitWaits(w: World)
    ensures var v := CommonXmit(w);
            Down(v) || (v.port.pending == Min(XMIT_LEN, Length(w.port.rx.head, w.port.rx.tail, |w.env.rx.buf|)) && v.port.stk == w.port.stk)
  {
    hide Send, Excp, Down;
    var len := Min(XMIT_LEN, |SnapContents(w)|);
    ExcpIsDown(Emit(w, CMD_WRITE, len, 0, SnapContents(w)[..len]).0);
  }

  lemma SendsNext(w: World)
    requires Up(w) && Top(w) != Idle && w.port.pending == 0 && w.port.rx.head != w.port.rx.tail
    ensures var v := SendPending(w);
            Down(v) || v.port.pending == Min(XMIT_LEN, Length(w.port.rx.head, w.port.rx.tail, |w.env.rx.buf|)) > 0
  {
    hide CommonXmit, Down, Logged, LastCredit;
    XmitWaits(w);
  }

  lemma PendingStays(w: World)
    ensures TakeCreditBack(w).port.pending == w.port.pending || Down(TakeCreditBack(w))
    ensures Event(w).0.port.pending == w.port.pending || Down(Event(w).0)
    ensures Interrupt(w).port == w.port
  {
    hide Emit, Await, Excp, Down;
    ExcpIsDown(Emit(w, CMD_QUEUEFREE, 0, 0, []).0);
    ExcpIsDown(Sleep(w));
  }

  /**
   Where nothing awaits an answer, the snapshot holds bytes and the daemon is not Idle, the next WRITE goes out before
   `select`, with as many of them as a packet takes, unless the connection ends.
   */
  lemma NextWriteFollows(w: World)
    requires Good(w) && Up(w) && Top(w) != Idle && w.port.pending == 0 && w.port.rx.head != w.port.rx.tail
    ensures var v := Before(w).0;
            Down(v) || v.port.pending == Min(XMIT_LEN, Length(w.port.rx.head, w.port.rx.tail, |w.env.rx.buf|)) > 0
  {
    hide OpenClose, Reconcile, SendPending, TakeCreditBack, Event, Interrupt, Down, Up, Attr;
    OpenCloseGood(w);
    OpenIsKept(w);
    var w1 := OpenClose(w);
    LandsGood(w, w1);
    StagesKeep(w1);
    var w2 := Reconcile(w1);
    if !Down(w1) {
      ReconcileWaits(w1);
    }
    StagesKeep(w2);
    var w3 := SendPending(w2);
    if !Down(w2) {
      SendsNext(w2);
    }
    StagesKeep(w3);
    PendingStays(w3);
    var w4 := TakeCreditBack(w3);
    StagesKeep(w4);
    PendingStays(w4);
    PendingStays(Event(w4).0);
    InterruptLink(Event(w4).0);
    SameLinkGood(Event(w4).0, Interrupt(Event(w4).0));
  }

  lemma OpenIsKept(w: World)
    requires Up(w)
    ensures OpenClose(w) == w || Down(OpenClose(w))
  {
    hide Close, Logged, LastCredit;
    CloseGood(w);
  }
}
