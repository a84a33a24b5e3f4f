/**
 What the daemon says to the device: the packets that each handler adds to those sent on the connection, in plain bytes and
 numbers, and the states it ends in. Handlers and builders are not named in the answers.
 */
module Says {
  import opened Words
  import opened Packets
  import opened Rings
  import opened Attributes
  import opened Worlds
  import opened Handlers
  import opened Control
  import opened Reopening

  /** The next `n` system calls work, whatever else happens. */
  predicate Fine(e: Env, n: nat) { n <= |e.io| && forall i :: 0 <= i < n ==> e.io[i].ok }

  lemma AwaitFine(e: Env, n: nat)
    ensures Fine(e, n + 1) ==> Await(e).1.ok && Fine(Await(e).0, n)
    ensures Fine(e, n + 1) ==> Fine(e, n)
    ensures Await(e).0.io == if e.io == [] then [] else e.io[1..]
  {
    hide Steps;
  }

  /** The packet numbered `i` from here on. */
  function Cmd(w: World, i: nat, cmd: u16, p1: u32, p2: u32, ext: Ext): Pkt {
    Pkt(0x4d414441, (w.port.tid + i) % 0x1_0000_0000, cmd, p1, p2, ext)
  }

  /** `n` working calls lead from `w` to the states `stk`; and if the connection lasts, exactly `ps` have been sent. */
  predicate Sends(w: World, v: World, n: nat, ps: seq<Pkt>, stk: seq<St>) {
    && (Fine(w.env, n) ==> v.port.stk == stk)
    && (v.port.stk != [NetDown] ==>
          && v.port.stk == stk && v.port.tid == w.port.tid + |ps|
          && Packed(v.env.net.sent) == Packed(w.env.net.sent) + ps)
  }

  /** A send of one packet. */
  lemma EmitSays(w: World, cmd: u16, p1: u32, p2: u32, ext: Ext, n: nat)
    ensures var (v, ok) := Emit(w, cmd, p1, p2, ext);
            && (ok ==> Packed(v.env.net.sent) == Packed(w.env.net.sent) + [Cmd(w, 0, cmd, p1, p2, ext)])
            && (Fine(w.env, n + 1) ==> ok && Fine(v.env, n))
            && v.port.stk == w.port.stk
  {
    hide Await, EncodeAll;
    AwaitFine(w.env, n);
  }

  /** The init handler of Net Up and Pause sends nothing. */
  lemma SettleSays(w: World)
    ensures var v := Settle(w);
            && v.port.stk == w.port.stk && v.port.tid == w.port.tid && v.env.net.sent == w.env.net.sent
            && v.port.pending == w.port.pending && v.port.eki == w.port.eki
  {
    hide Await;
  }

  lemma Both(a: seq<Pkt>, p: Pkt, q: Pkt)
    ensures a + [p] + [q] == a + [p, q]
  {
  }

  // ----- events

  /** A subscription, and a question for the modem lines. */
  function Subscription(w: World, i: nat): (ps: seq<Pkt>)
    ensures |ps| == 2
  {
    [Cmd(w, i, 0x0e, 0x11, 0, [0x38, 0x01, 0x00, 0x00]), Cmd(w, i + 1, 0x0e, 0x1a, 0, [])]
  }

  lemma SyncEventSays(w: World, n: nat)
    ensures var (v, ok) := SyncEvent(w);
            && (ok ==> Packed(v.env.net.sent) == Packed(w.env.net.sent) + Subscription(w, 0))
            && (Fine(w.env, n + 2) ==> ok && Fine(v.env, n))
            && (ok ==> v.port == w.port.(tid := w.port.tid + 2))
  {
    hide Emit, Packed;
    var mask := Be32(0x38010000);
    EmitSays(w, CMD_IOCTL, IOCTL_SET_WAIT_MASK, 0, mask, n + 1);
    var (w1, ok1) := Emit(w, CMD_IOCTL, IOCTL_SET_WAIT_MASK, 0, mask);
    assert mask == [0x38, 0x01, 0x00, 0x00];
    if ok1 {
      EmitSays(w1, CMD_IOCTL, IOCTL_GET_MODEMSTATUS, 0, [], n);
      Both(Packed(w.env.net.sent), Cmd(w, 0, 0x0e, 0x11, 0, [0x38, 0x01, 0x00, 0x00]), Cmd(w, 1, 0x0e, 0x1a, 0, []));
    }
  }

  /**
   The answers to the replies that Sync waits for: to an event, a new subscription and a question for the modem lines; to a
   subscription, the wait for an event; to the state of the modem lines, nothing.
   */
  function Answer(w: World, subcmd: u32): seq<Pkt> {
    if subcmd == 0x12 then Subscription(w, 0)
    else if subcmd == 0x11 then [Cmd(w, 0, 0x0e, 0x12, 0, [])]
    else []
  }

  /** How many calls an answer takes: its sends, or telling the driver of the modem lines. */
  function Calls(subcmd: u32): nat { if subcmd == 0x12 then 2 else if subcmd == 0x11 || subcmd == 0x1a then 1 else 0 }

  lemma SyncRecvSays(w: World, p: Pkt)
    requires Top(w) == Sync
    ensures Sends(w, SyncRecv(w, p), Calls(p.p2), Answer(w, p.p2), w.port.stk[..2])
    ensures p.p2 == 0x1a && !Await(w.env).1.ok ==> SyncRecv(w, p).port.stk == [NetDown]
  {
    hide Emit, SyncEvent, Settle, Await, Packed, Excp;
    AwaitFine(w.env, 0);
    if p.p2 == IOCTL_WAIT_ON_MASK {
      SyncEventSays(w, 0);
      SettleSays(Pop(SyncEvent(w).0));
      ExcpKeepsCopy(SyncEvent(w).0);
    } else if p.p2 == IOCTL_SET_WAIT_MASK {
      EmitSays(w, CMD_IOCTL, IOCTL_WAIT_ON_MASK, 0, [], 0);
      SettleSays(Pop(RegSyncEvent(w).0));
      ExcpKeepsCopy(RegSyncEvent(w).0);
    } else {
      SettleSays(Pop(Sleep(w)));
      SettleSays(Pop(w));
      ExcpKeepsCopy(Sleep(w));
      assert Packed(w.env.net.sent) + [] == Packed(w.env.net.sent);
    }
  }

  // ----- the handshake

  /** The modem line commands of the handshake. */
  function RtsCmd(ms: u32): u32 { if ms / 4 % 2 == 1 then 0x0c else 0x0d }
  function DtrCmd(ms: u32): u32 { if ms / 2 % 2 == 1 then 0x09 else 0x0a }

  /** The credit that a new connection gives, by the daemon's copy of the downlink ring. */
  function FirstCredit(w: World, i: nat): Pkt { Cmd(w, i, 0x0900, 0, if w.port.tx.head == w.port.tx.tail then 1024 else 0, []) }

  function SubscriptionAndCredit(w: World, i: nat): (ps: seq<Pkt>)
    ensures |ps| == 3
  {
    Subscription(w, i) + [FirstCredit(w, i + 2)]
  }

  lemma SyncRestSays(w: World)
    requires Top(w) == Sync
    ensures var v := SyncRest(w);
            Sends(w, v, 3, SubscriptionAndCredit(w, 0), w.port.stk[..2])
  {
    hide Emit, SyncEvent, Settle, Packed, Excp, Subscription;
    SyncEventSays(w, 1);
    var (w1, ok1) := SyncEvent(w);
    ExcpKeepsCopy(w1);
    if ok1 {
      var credit := if w1.port.tx.head == w1.port.tx.tail then 1024 else 0;
      EmitSays(w1, CMD_QUEUEFREE, 0, credit, [], 0);
      var w2 := Emit(w1, CMD_QUEUEFREE, 0, credit, []).0;
      ExcpKeepsCopy(w2);
      SettleSays(Pop(w2));
    }
  }

  /** The first packets behind CREATE: the modem lines, the subscription, the credit. */
  function Greeting(w: World, i: nat): (ps: seq<Pkt>)
    ensures |ps| == 5
  {
    [Cmd(w, i, 0x0e, RtsCmd(Attr(w).ms), 0, []), Cmd(w, i + 1, 0x0e, DtrCmd(Attr(w).ms), 0, [])]
    + SubscriptionAndCredit(w, i + 2)
  }

  lemma SyncMsSays(w: World)
    ensures var ((v, ok), ms) := (SyncMs(w, Attr(w).ms), Attr(w).ms);
            && (ok ==> v.port == w.port.(tid := w.port.tid + 2)
                       && Packed(v.env.net.sent) == Packed(w.env.net.sent)
                          + [Cmd(w, 0, 0x0e, RtsCmd(ms), 0, []), Cmd(w, 1, 0x0e, DtrCmd(ms), 0, [])])
            && (Fine(w.env, 5) ==> ok && Fine(v.env, 3))
  {
    hide Emit, Packed;
    var ms := Attr(w).ms;
    EmitSays(w, CMD_IOCTL, RtsCmd(ms), 0, [], 4);
    var (w1, ok1) := Emit(w, CMD_IOCTL, RtsCmd(ms), 0, []);
    if ok1 {
      EmitSays(w1, CMD_IOCTL, DtrCmd(ms), 0, [], 3);
      Both(Packed(w.env.net.sent), Cmd(w, 0, 0x0e, RtsCmd(ms), 0, []), Cmd(w, 1, 0x0e, DtrCmd(ms), 0, []));
    }
  }

  lemma SyncInitSays(w: World)
    requires Top(w) == Sync
    ensures var v := SyncInit(w);
            Sends(w, v, 5, Greeting(w, 0), w.port.stk[..2])
  {
    hide SyncMs, SyncRest, Packed, Excp, RtsCmd, DtrCmd, Rts, Dtr;
    var ms := Attr(w).ms;
    SyncMsSays(w);
    var (w1, ok1) := SyncMs(w, ms);
    ExcpKeepsCopy(w1);
    if ok1 {
      SyncRestSays(w1.(port := w1.port.(eki := w1.port.eki.(ms := ms))));
    }
  }

  /** `v` is connected, and the greeting was all that has been sent on the connection behind CREATE. */
  predicate Greeted(w: World, v: World) {
    && v.port.tid == 6
    && Packed(v.env.net.sent) == [Pkt(0x4d414441, 1, 0, w.port.devid * 0x1_0000, w.port.port, [])] + Greeting(w, 1)
  }

  lemma CreateSays(w: World, n: nat)
    requires w.env.net.sent == []
    ensures var (e, ok) := Send(w.env, [Sent(0, OpenPkt(1, w.port.devid, w.port.port))]);
            && (Fine(w.env, n + 1) ==> ok && Fine(e, n)) && e.att.slots == w.env.att.slots
            && (ok ==> Packed(e.net.sent) == [Pkt(0x4d414441, 1, 0, w.port.devid * 0x1_0000, w.port.port, [])])
  {
    hide Await, EncodeAll;
    AwaitFine(w.env, n);
  }

  lemma CommonOpenSays(w: World, v: World)
    requires |w.port.stk| == 2 && w.env.net.sent == [] && w.port.tid == 0 && Attr(v) == Attr(w)
    requires v.port.tid == 0 && v.port.tx == w.port.tx && v.port.devid == w.port.devid && v.port.port == w.port.port
    ensures var u := CommonOpen(w);
            (Fine(w.env, 6) ==> u.port.stk == w.port.stk) && (u.port.stk != [NetDown] ==> u.port.stk == w.port.stk && Greeted(v, u))
  {
    hide Send, SyncInit, Greeting, Excp, Packed;
    CreateSays(w, 5);
    var (e, ok) := Send(w.env, [Sent(0, OpenPkt(1, w.port.devid, w.port.port))]);
    ExcpKeepsCopy(w.(env := e));
    if ok {
      var w1 := Push(w.(env := e, port := w.port.(tid := 1, eki := w.port.eki.(isOpen := true))), Sync);
      SyncInitSays(w1);
      SameGreeting(v, 1, w1, 0);
    }
  }

  lemma SameGreeting(w: World, i: nat, v: World, j: nat)
    requires v.port.tid + j == w.port.tid + i && Attr(v) == Attr(w) && v.port.tx == w.port.tx
    ensures Greeting(v, j) == Greeting(w, i)
  {
  }

  /**
   A new connection: CREATE with the literal id 1, the device in the upper half of its first word, and the greeting. The
   packet behind CREATE has the id 1 as well, and the credit goes with the state.
   */
  lemma NetDownOpenSays(w: World)
    requires Down(w)
    ensures var v := NetDownOpen(w);
            && (Fine(w.env, 7) ==> v.port.stk == [NetDown, if w.port.tx.head == w.port.tx.tail then NetUp else Pause])
            && (v.port.stk != [NetDown] ==> Greeted(w, v))
  {
    hide Await, CommonOpen, Greeted;
    AwaitFine(w.env, 6);
    var (e, sk) := Connect(w.env);
    if sk >= 0 {
      var w1 := w.(env := e, port := w.port.(sk := sk));
      CommonOpenSays(Push(w1, if w1.port.tx.head == w1.port.tx.tail then NetUp else Pause), w);
    }
  }

  // ----- credit, data, a sign of life

  /** Net Up takes the credit back and pauses. */
  lemma PauseSays(w: World)
    ensures Top(w) == NetUp ==> Sends(w, PauseOp(w), 1, [Cmd(w, 0, 0x0900, 0, 0, [])], [NetDown, Pause])
    ensures Top(w) != NetUp ==> PauseOp(w) == w
  {
    hide Emit, Settle, Excp, Packed;
    EmitSays(w, CMD_QUEUEFREE, 0, 0, [], 0);
    var v := Emit(w, CMD_QUEUEFREE, 0, 0, []).0;
    ExcpKeepsCopy(v);
    if Top(w) == NetUp {
      SettleSays(Rpls(v, Pause));
    }
  }

  /**
   Pause asks for the length of the socket's output queue. If that fails the connection ends; if the queue is not empty
   nothing happens; if it is empty credit is given, and the state becomes Net Up.
   */
  lemma ResumeSays(w: World)
    ensures var (v, io) := (Resume(w), Await(w.env).1);
            && (Top(w) == Pause && !io.ok ==> v.port.stk == [NetDown])
            && (Top(w) == Pause && io.ok && io.val > 0 ==> v == Sleep(w))
            && (Top(w) == Pause && io.ok && io.val == 0 ==> Sends(w, v, 2, [Cmd(w, 0, 0x0900, 0, 1024, [])], [NetDown, NetUp]))
            && (Top(w) != Pause ==> v == w)
  {
    hide Await, Emit, Settle, Excp, Packed;
    AwaitFine(w.env, 1);
    EmitSays(Sleep(w), CMD_QUEUEFREE, 0, 1024, [], 0);
    var v := Emit(Sleep(w), CMD_QUEUEFREE, 0, 1024, []).0;
    ExcpKeepsCopy(v);
    ExcpKeepsCopy(Sleep(w));
    if Top(w) == Pause {
      SettleSays(Rpls(v, NetUp));
    }
  }

  /** A WRITE with the first bytes of the snapshot, at most 1024, which are then awaited. */
  lemma XmitSays(w: World)
    ensures var (v, len) := (Xmit(w), Min(1024, |SnapContents(w)|));
            && (Works(Top(w)) ==> Sends(w, v, 1, [Cmd(w, 0, 0x04, len, 0, SnapContents(w)[..len])], w.port.stk))
            && (Works(Top(w)) && v.port.stk != [NetDown] ==> v.port.pending == len)
            && (!Works(Top(w)) ==> v == w)
  {
    hide Emit, Excp, Packed, SnapContents;
    var len := Min(1024, |SnapContents(w)|);
    EmitSays(w, CMD_WRITE, len, 0, SnapContents(w)[..len], 0);
    ExcpKeepsCopy(Emit(w, CMD_WRITE, len, 0, SnapContents(w)[..len]).0);
  }

  /** A timeout: Net Up and Pause ask for a sign of life and become Idle, Idle gives up. */
  lemma PollSays(w: World)
    ensures Works(Top(w)) ==> Sends(w, Poll(w), 1, [Cmd(w, 0, 0x0e, 0x10, 0, [])], w.port.stk + [Idle])
    ensures Top(w) == Idle ==> Poll(w).port.stk == [NetDown]
    ensures Top(w) == NetDown ==> Poll(w) == w
  {
    hide Emit, Excp, Packed;
    if Works(Top(w)) {
      EmitSays(Push(w, Idle), CMD_IOCTL, IOCTL_GET_WAIT_MASK, 0, [], 0);
      ExcpKeepsCopy(Emit(Push(w, Idle), CMD_IOCTL, IOCTL_GET_WAIT_MASK, 0, []).0);
    }
    ExcpKeepsCopy(w);
  }

  /**
   Opening from a state that is connected already, which the main loop never asks for: Net Up and Pause stay what they are if
   all goes well, and Idle gives way to the state below it.
   */
  lemma OpenSays(w: World)
    requires |w.port.stk| >= 2 && Top(w) != Sync
    ensures Open(w).port.stk == [NetDown] || Open(w).port.stk == w.port.stk[..2]
  {
    hide CommonOpen;
    CommonOpenFollows(if Top(w) == Idle then Pop(w) else w);
  }

  // ----- the end of a connection

  /** A close whose calls all work: six that flush the rings, then PURGE with its four flags, and CLOSE. */
  lemma CloseSays(w: World)
    requires Up(w)
    ensures var v := Close(w);
            && v.port.stk == [NetDown]
            && (Fine(w.env, 8) ==>
                  Packed(v.env.net.sent) == Packed(w.env.net.sent)
                                            + [Cmd(w, 0, 0x0e, 0x13, 0, [0x0f, 0, 0, 0]), Cmd(w, 1, 0x02, 0, 0, [])])
  {
    hide BufClear, Emit, Excp, Packed, Logged, LastCredit;
    FlushSays(w);
    var w1 := BufClear(w);
    assert Le32(0x0000000f) == [0x0f, 0, 0, 0];
    EmitSays(w1, CMD_IOCTL, IOCTL_PURGE, 0, Le32(0x0000000f), 1);
    EmitSays(Purge(w1), CMD_CLOSE, 0, 0, [], 0);
    ExcpKeepsCopy(Emit(Purge(w1), CMD_CLOSE, 0, 0, []).0);
    Both(Packed(w.env.net.sent), Cmd(w, 0, 0x0e, 0x13, 0, [0x0f, 0, 0, 0]), Cmd(w, 1, 0x02, 0, 0, []));
  }

  lemma FlushSays(w: World)
    ensures var v := BufClear(w);
            && v.env.net.sent == w.env.net.sent && v.port == w.port.(rx := v.port.rx)
            && (Fine(w.env, 8) ==> Fine(v.env, 2))
  {
    hide Await, Span, Mark;
    AwaitFine(w.env, 7);
    var e1 := IocClear(w.env);
    AwaitFine(e1, 6);
    var e2 := IocRxHead(e1, 0);
    RefreshSays(w.(env := e2), 4);
    RefreshSays(UpdateRx(w.(env := e2)), 2);
  }

  lemma RefreshSays(w: World, n: nat)
    ensures var v := UpdateRx(w);
            && v.env.net.sent == w.env.net.sent && v.port == w.port.(rx := v.port.rx)
            && (Fine(w.env, n + 2) ==> Fine(v.env, n))
  {
    hide Await;
    AwaitFine(w.env, n + 1);
    AwaitFine(Await(w.env).0, n);
  }
}
