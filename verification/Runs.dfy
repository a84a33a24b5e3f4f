/**
 The main results: what holds after any number of turns of the daemon's main loop, started as `main` starts it, whatever
 the application, the tty, the device and the system calls do.
 */
module Runs {
  import opened Words
  import opened Packets
  import opened Rings
  import opened Worlds
  import opened Handlers
  import opened Control
  import opened Pipes
  import opened PipeRuns
  import opened Ledger
  import opened Receive
  import opened Daemon

  /** The world as `main` enters its loop: no connection, a good snapshot, and a past in which every byte is accounted for. */
  predicate Launched(w: World) {
    && Down(w) && !w.exited && w.lrecv == 0 && w.env.io == [] && SnapOk(w)
    && Conserved(w.env) && Books(w.env)
  }

  predicate Connected(w: World) { |w.port.stk| >= 2 }

  /** The worlds of an execution of the daemon, at the head of its main loop: each is a turn away from the one before. */
  predicate Execution(trace: seq<World>, ticks: seq<Tick>) {
    && |trace| == |ticks| + 1 && Launched(trace[0])
    && forall i {:trigger ticks[i]} :: 0 <= i < |ticks| ==> trace[i + 1] == Turn(trace[i], ticks[i])
  }

  lemma LaunchedIsSound(w: World, honest: bool)
    requires Launched(w)
    ensures Good(w) && Sound(w, honest)
  {
    hide Conserved, Accounted, Bounded, Length;
  }

  /** What holds of the world at launch and survives a turn holds throughout. */
  lemma {:induction false} Throughout(trace: seq<World>, ticks: seq<Tick>, i: nat, honest: bool)
    requires Execution(trace, ticks) && i < |trace| && (honest ==> HonestTicks(ticks))
    ensures Good(trace[i]) && Sound(trace[i], honest) && ToldOrDown(trace[i], honest)
  {
    hide Turn, Sound, Good, Told, HonestIo;
    if i == 0 {
      LaunchedIsSound(trace[0], honest);
    } else {
      Throughout(trace, ticks, i - 1, honest);
      var t := ticks[i - 1];
      TurnGood(trace[i - 1], t);
      TurnSound(trace[i - 1], t, honest);
      TurnTold(trace[i - 1], t, honest);
    }
  }

  /** The worlds that `Run` passes through. */
  function Trace(w: World, ticks: seq<Tick>): (trace: seq<World>)
    ensures |trace| == |ticks| + 1
  {
    seq(|ticks| + 1, i requires 0 <= i <= |ticks| => Run(w, ticks[..i]))
  }

  lemma TraceIsExecution(w: World, ticks: seq<Tick>)
    requires Launched(w)
    ensures Execution(Trace(w, ticks), ticks) && Trace(w, ticks)[|ticks|] == Run(w, ticks)
  {
    hide Turn, Launched, WellFormed;
    var trace := Trace(w, ticks);
    assert ticks[..|ticks|] == ticks;
    forall i | 0 <= i < |ticks| ensures trace[i + 1] == Turn(trace[i], ticks[i]) {
      RunMore(w, ticks[..i], ticks[i]);
      assert ticks[..i + 1] == ticks[..i] + [ticks[i]];
    }
  }

  /** What `main` does before its loop launches the daemon, whatever the driver does meanwhile. */
  lemma StartedIsLaunched(w: World)
    requires w.port.stk == [NetDown] && w.port.sk == -1 && w.port.pending == 0 && !w.exited && w.lrecv == 0
    requires Conserved(w.env) && Books(w.env) && !w.env.rx.clean
    ensures Launched(Started(w))
  {
    hide Await, Conserved, Accounted, Bounded, Length, Span, UpdateRx;
    AwaitBase(w.env, false);
    AwaitBase(Await(w.env).0, false);
    var w1 := UpdateTx(w);
    UpdateRxSolid(w1, false);
    UpdateRxPort(w1);
    UpdateAttrSound(UpdateRx(w1), false);
    ScriptIsIrrelevantHere(UpdateAttr(UpdateRx(w1)));
    UpdatesBook(w);
    UpdatesBook(w1);
    UpdatesBook(UpdateRx(w1));
  }

  /**
   What the daemon knows as it enters its loop: the settings that the driver has at the last request, all that the uplink ring
   held at the last but one, and the tail of the downlink ring.
   */
  lemma StartedMeans(w: World)
    ensures var (v, w1) := (Started(w), UpdateRx(UpdateTx(w)));
            && Attr(v) == Await(w1.env).0.att.attr && v.port.rx == Snap(w1.env.rx.head, w1.env.rx.tail)
            && v.port.tx.tail == v.env.tx.tail && v.port.tx == UpdateTx(w).port.tx
  {
    hide Steps;
  }

  lemma UpdatesBook(w: World)
    requires Books(w.env)
    ensures Books(UpdateTx(w).env) && Books(UpdateRx(w).env) && Books(UpdateAttr(w).env)
  {
    hide Await, Accounted, Bounded;
    AwaitBooks(w.env);
    AwaitBooks(Await(w.env).0);
  }

  lemma UpdateRxPort(w: World)
    ensures var v := UpdateRx(w);
            v == w.(env := v.env, port := w.port.(rx := v.port.rx))
  {
  }

  lemma ScriptIsIrrelevantHere(w: World)
    ensures Conserved(w.env.(io := [])) <==> Conserved(w.env)
  {
  }

  /**
   The state machine stays in its states. At the head of the loop: Sync is never current, the daemon has not exited, and
   Net Down, no socket, and a mirror that says closed are the same thing, with nothing pending and no ids used.
   */
  lemma StatesAgree(trace: seq<World>, ticks: seq<Tick>, i: nat)
    requires Execution(trace, ticks) && i < |trace|
    ensures var v := trace[i];
            && !v.exited && Top(v) != Sync
            && (v.port.stk == [NetDown] || v.port.stk[1..] in {[NetUp], [Pause], [NetUp, Idle], [Pause, Idle]})
            && (Top(v) == NetDown <==> v.port.sk == -1) && (Top(v) == NetDown <==> !v.port.eki.isOpen)
            && (Top(v) == NetDown ==> v.port.pending == 0 && v.port.tid == 0)
  {
    hide Execution, Sound, Logged, LastCredit;
    Throughout(trace, ticks, i, false);
    var stk := trace[i].port.stk;
    if |stk| == 2 {
      assert stk[1..] == [stk[1]];
    } else if |stk| == 3 {
      assert stk[1..] == [stk[1], stk[2]];
    }
  }

  /** The device's last credit is 1024 while the state above Net Down is Net Up, and 0 while it is Pause. */
  lemma CreditAgrees(trace: seq<World>, ticks: seq<Tick>, i: nat)
    requires Execution(trace, ticks) && i < |trace| && Connected(trace[i])
    ensures LastCredit(trace[i].env.net.sent) == if trace[i].port.stk[1] == NetUp then 1024 else 0
  {
    hide Execution, Sound, Logged, LastCredit;
    Throughout(trace, ticks, i, false);
  }

  /**
   The framing rule finds in the bytes of a connection exactly the packets sent: first CREATE, then packets whose numbers
   increase and whose transaction ids are those numbers modulo 2^32.
   */
  lemma WireIsFramed(trace: seq<World>, ticks: seq<Tick>, i: nat)
    requires Execution(trace, ticks) && i < |trace| && Connected(trace[i])
    ensures var (v, sent) := (trace[i], trace[i].env.net.sent);
            && Split(v.env.net.wire) == Packed(sent)
            && |sent| > 0 && sent[0] == Sent(0, OpenPkt(1, v.port.devid, v.port.port))
            && (forall j :: 1 <= j < |sent| ==> sent[j].pkt.tid == sent[j].n % TID_MOD && sent[j].pkt.cmd != CMD_CREATE)
            && (forall j, k :: 0 <= j < k < |sent| ==> sent[j].n < sent[k].n < v.port.tid)
            && (|sent| >= 2 ==> sent[1].n == 1)
  {
    hide Execution, Sound, LastCredit, EncodeAll, Split;
    Throughout(trace, ticks, i, false);
    var v := trace[i];
    SplitExact(Packed(v.env.net.sent));
    NumberedMeans(v.env.net.sent, v.port.tid, CreatePkt(v));
  }

  /**
   Before the counter wraps, two packets of a connection share a transaction id if and only if they are CREATE and the
   packet after it.
   */
  lemma IdsCollideOnce(trace: seq<World>, ticks: seq<Tick>, i: nat, j: nat, k: nat)
    requires Execution(trace, ticks) && i < |trace| && Connected(trace[i])
    requires trace[i].port.tid <= TID_MOD && j < k < |trace[i].env.net.sent|
    ensures var sent := trace[i].env.net.sent;
            sent[j].pkt.tid == sent[k].pkt.tid <==> j == 0 && k == 1
  {
    hide Execution, Sound, LastCredit, EncodeAll, Split;
    WireIsFramed(trace, ticks, i);
    var sent := trace[i].env.net.sent;
    assert sent[0].pkt.tid == 1;
    assert sent[0].n < sent[k].n < TID_MOD;
    if j >= 1 {
      assert sent[j].n < sent[k].n;
    } else if k >= 2 {
      assert sent[1].n < sent[k].n;
    }
  }

  /**
   No byte of either pipe is lost, duplicated or reordered in any run, whatever the device does. Uplink: the bytes that
   left the ring, the ring and the circular buffer are what the application wrote. Downlink: the bytes that left the ring
   and the ring are the payloads accepted. On a connection, bytes leave the uplink ring only by being acknowledged.
   */
  lemma BytesAreConserved(trace: seq<World>, ticks: seq<Tick>, i: nat)
    requires Execution(trace, ticks) && i < |trace|
    ensures var (v, e) := (trace[i], trace[i].env);
            && Bytes(e.hist.upGone) + e.rx.Contents() + e.circ == e.hist.written
            && Bytes(e.hist.downGone) + e.tx.Contents() == e.hist.accepted
            && (Connected(v) ==> Unflushed(e))
  {
    hide Execution, Logged, LastCredit;
    Throughout(trace, ticks, i, false);
  }

  /**
   The daemon's uplink snapshot is always a prefix of the ring, at most that much awaits an answer, and no flush of either
   ring is pending, so that acknowledging never discards.
   */
  lemma SnapshotIsPrefix(trace: seq<World>, ticks: seq<Tick>, i: nat)
    requires Execution(trace, ticks) && i < |trace|
    ensures var v := trace[i];
            && v.port.rx.head == v.env.rx.head && SnapContents(v) <= v.env.rx.Contents()
            && v.port.pending <= v.env.rx.Len() && !v.env.rx.clean && !v.env.tx.clean
  {
    hide Execution, Logged, LastCredit, Conserved;
    Throughout(trace, ticks, i, false);
    SnapPrefix(trace[i]);
  }

  /** Two ways to cut the same bytes: at the acknowledged ones, and at the ones the device has. */
  lemma Recut(gone: seq<Fate>, ring: seq<byte>, circ: seq<byte>, mark: nat, unacked: nat)
    requires mark <= |gone| && unacked <= |ring|
    ensures Bytes(gone[..mark]) + (Bytes(gone[mark..]) + ring[..unacked]) + ring[unacked..] + circ == Bytes(gone) + ring + circ
  {
    BytesConcat(gone[..mark], gone[mark..]);
    assert gone == gone[..mark] + gone[mark..];
    assert ring == ring[..unacked] + ring[unacked..];
  }

  /**
   With a device that answers each request at most once, every byte written is accounted for exactly once: it left
   the ring before this connection, was accepted by the device on this one, or is still to be sent.
   */
  lemma DeviceGetsEachByteOnce(trace: seq<World>, ticks: seq<Tick>, i: nat)
    requires Execution(trace, ticks) && i < |trace| && HonestTicks(ticks) && Connected(trace[i])
    ensures var (v, e) := (trace[i], trace[i].env);
            && e.net.mark <= |e.hist.upGone| && e.net.unacked <= v.port.pending <= e.rx.Len()
            && e.net.taken == Bytes(e.hist.upGone[e.net.mark..]) + e.rx.Contents()[..e.net.unacked]
            && Bytes(e.hist.upGone[..e.net.mark]) + e.net.taken + e.rx.Contents()[e.net.unacked..] + e.circ == e.hist.written
  {
    hide Execution, Logged, LastCredit, Filter, Bytes, Span;
    Throughout(trace, ticks, i, true);
    var e := trace[i].env;
    Recut(e.hist.upGone, e.rx.Contents(), e.circ, e.net.mark, e.net.unacked);
  }

  /**
   With such a device, over all connections and also without one: what the device takes on a connection is a piece of what
   the application wrote, from where the connection started; the bytes retired so far are the connections' shares, one
   behind the other, and each share is a prefix of what the device took on its connection, all of it but at most one WRITE.
   */
  lemma RetiredBytesWereTaken(trace: seq<World>, ticks: seq<Tick>, i: nat) returns (shares: seq<seq<byte>>)
    requires Execution(trace, ticks) && i < |trace| && HonestTicks(ticks)
    ensures var (h, n) := (trace[i].env.hist, trace[i].env.net);
            && |shares| == |h.visits| + 1 && Flatten(shares) == Retired(h.upGone)
            && Share(shares[|h.visits|], n.taken) && Piece(h.written, n.mark, n.taken)
            && forall j :: 0 <= j < |h.visits| ==>
                 Share(shares[j], h.visits[j].taken) && Piece(h.written, h.visits[j].mark, h.visits[j].taken)
  {
    hide Execution, Logged, LastCredit, Conserved, Accounted, Retired, Share, Piece, Filter;
    Throughout(trace, ticks, i, true);
    var (h, n) := (trace[i].env.hist, trace[i].env.net);
    PiecesTaken(trace[i].env);
    shares := AccountedMeans(h.upGone, h.visits, n.mark, n.taken);
    assert forall j :: 0 <= j < |h.visits| ==> IsShare(h.upGone, h.visits, n.mark, j, shares[j]);
  }

  /**
   What a device gets twice. If nothing was flushed between a connection and the next one, then all the device took on the
   first was retired but for at most one WRITE at its end, and exactly these bytes come first on the next connection.
   */
  lemma TakenTwice(trace: seq<World>, ticks: seq<Tick>, i: nat, j: nat)
    requires Execution(trace, ticks) && i < |trace| && HonestTicks(ticks) && j < |trace[i].env.hist.visits|
    ensures var (h, n) := (trace[i].env.hist, trace[i].env.net);
            var (from, to) := (h.visits[j].mark, MarkAfter(h.visits, n.mark, j));
            var (first, next) := (h.visits[j].taken, if j + 1 < |h.visits| then h.visits[j + 1].taken else n.taken);
            && from <= to <= |h.upGone|
            && ((forall k :: from <= k < to ==> h.upGone[k].Passed?) ==>
                 && to - from <= |first| <= to - from + XMIT_LEN
                 && first[..to - from] == Bytes(h.upGone[from..to])
                 && (first[to - from..] <= next || next <= first[to - from..]))
  {
    hide Execution, Logged, LastCredit, Conserved, Books;
    Throughout(trace, ticks, i, true);
    Overlap(trace[i].env, j);
  }

  /**
   With such a device, at most one event registration is under way at any time of a connection, and exactly one as long
   as the device has answered every one and Idle has dropped no answer.
   */
  lemma OneRegistrationUnderWay(trace: seq<World>, ticks: seq<Tick>, i: nat)
    requires Execution(trace, ticks) && i < |trace| && HonestTicks(ticks) && Connected(trace[i])
    ensures var n := trace[i].env.net;
            var underWay := |Filter(n.up, IsMaskRequest)| + |Filter(n.down, IsMaskReply)|;
            underWay <= 1 && (underWay == 1 <==> n.dropped == 0)
  {
    hide Execution, Logged, LastCredit, StopAndWait, Conserved;
    Throughout(trace, ticks, i, true);
  }

  /**
   With such a device, the daemon asks for events in a fixed order on every connection, whatever else it sends: SET_WAIT_MASK,
   GET_MODEMSTATUS, WAIT_ON_MASK, and then again from the start. No SET_WAIT_MASK is without its GET_MODEMSTATUS.
   */
  lemma EventsAreAskedInTurn(trace: seq<World>, ticks: seq<Tick>, i: nat)
    requires Execution(trace, ticks) && i < |trace| && HonestTicks(ticks) && Connected(trace[i])
    ensures var rs := EventRequests(trace[i].env.net.sent);
            && |rs| % 3 != 1
            && (forall j :: 0 <= j < |rs| ==> rs[j] == if j % 3 == 0 then 0x11 else if j % 3 == 1 then 0x1a else 0x12)
  {
    hide Execution, Sound, Logged, LastCredit, Delivered, Owed, Awaited, HonestIo, EventRequests;
    Throughout(trace, ticks, i, true);
  }

  /**
   The downlink is complete but for what Idle reads: the DATAREADY packets the device sent on a connection are those dealt
   with and those still to be read, in order; the bytes accepted on the connection are the payloads of those dealt with,
   in order, without exactly those that Idle read.
   */
  lemma DownlinkIsComplete(trace: seq<World>, ticks: seq<Tick>, i: nat)
    requires Execution(trace, ticks) && i < |trace| && Connected(trace[i])
    ensures var (n, accepted) := (trace[i].env.net, trace[i].env.hist.accepted);
            && n.offered == PacketsOf(n.heard) + Filter(n.down, IsData)
            && n.start <= |accepted| && accepted[n.start..] == Kept(n.heard)
  {
    hide Execution, Sound, Logged, LastCredit, Filter, Kept;
    Throughout(trace, ticks, i, false);
    FilterNothing(IsData);
    var down := Filter(trace[i].env.net.down, IsData);
    assert [] + down == down;
  }

  /**
   With a device that answers at most once, the uplink waits only for something that will come: on a connection, one WRITE
   or one answer to it is under way if and only if bytes await an answer and none was left unanswered or read by Idle.
   */
  lemma UplinkWaitsForAnswers(trace: seq<World>, ticks: seq<Tick>, i: nat)
    requires Execution(trace, ticks) && i < |trace| && HonestTicks(ticks) && Connected(trace[i])
    ensures var n := trace[i].env.net;
            var underWay := |Filter(n.up, IsWrite)| + |n.held| + |Filter(n.down, IsWrite)|;
            underWay <= 1 && n.unheard <= 1 && (underWay == 1 <==> trace[i].port.pending > 0 && n.unheard == 0)
  {
    hide Execution, Sound, Logged, LastCredit, Delivered, HonestIo;
    Throughout(trace, ticks, i, true);
    FilterNothing(IsWrite);
  }

  /**
   The daemon as a program, from its start through any number of turns: the worlds at the head of its loop are an
   execution, so that every theorem above holds of each of them; in particular no byte is unaccounted for at the end.
   */
  method Client(devid: u16, port: u32, env: Env, script: seq<(seq<IoStep>, Wake, Counts)>)
    returns (attr: VcAttr, ghost trace: seq<World>, ghost ticks: seq<Tick>)
    requires Conserved(env) && Books(env) && !env.rx.clean
    requires forall i :: 0 <= i < |script| ==> script[i].2.b1 >= 0
    ensures attr.Valid() && Execution(trace, ticks) && attr.View() == trace[|ticks|]
    ensures |ticks| == |script|
    ensures forall i :: 0 <= i < |script| ==> ticks[i].io == script[i].0 && SeenAs(ticks[i].wake, script[i].1)
    ensures Conserved(attr.env) && !attr.exited
  {
    hide Run, Started, Conserved, Execution, Logged, LastCredit;
    attr := new VcAttr(devid, port, env);
    StartedIsLaunched(attr.View());
    attr.Start();
    ghost var w := attr.View();
    ticks := attr.Serve(script);
    trace := Trace(w, ticks);
    TraceIsExecution(w, ticks);
    Throughout(trace, ticks, |ticks|, false);
  }
}
