/**
 What the packets of the device do to the daemon: for each kind of packet, and each way of reading one, what is sent back,
 what is awaited from then on, and whether the connection lasts.
 */
module Hears {
  import opened Words
  import opened Packets
  import opened Rings
  import opened Worlds
  import opened Handlers
  import opened Control
  import opened Reopening
  import opened Says

  /** After a refresh the snapshot is what the uplink ring holds. */
  lemma UpdateRxMeans(w: World)
    ensures var v := UpdateRx(w); SnapContents(v) == v.env.rx.Contents() && v.port == w.port.(rx := v.port.rx)
  {
    hide Span;
  }

  /** After a refresh the daemon knows the tail of the downlink ring, and the length it had at the first of two requests. */
  lemma UpdateTxMeans(w: World)
    ensures var (v, e) := (UpdateTx(w), Await(w.env).0);
            && v.port.tx.tail == v.env.tx.tail && v.port == w.port.(tx := v.port.tx)
            && Length(v.port.tx.head, v.port.tx.tail, |v.env.tx.buf|) == e.tx.Len()
  {
    hide Steps;
  }

  /** The init handler of Net Up and Pause refreshes both snapshots. */
  lemma SettleMeans(w: World)
    ensures var (v, e) := (Settle(w), Await(UpdateRx(w).env).0);
            && v.port.rx == Snap(UpdateRx(w).env.rx.head, UpdateRx(w).env.rx.tail) && v.port.tx.tail == v.env.tx.tail
            && Length(v.port.tx.head, v.port.tx.tail, |v.env.tx.buf|) == e.tx.Len()
  {
    hide Steps;
  }

  /** The answer to the WRITE that is awaited. */
  predicate IsAnswer(w: World, p: Pkt) { p.pid == 0x4d414441 && p.cmd == 0x04 && p.ext == [] && p.p2 == w.port.pending }

  /**
   Success ends the wait and refreshes the snapshot; busy ends the wait and changes nothing else, so that the same bytes go
   out again; anything else ends the connection.
   */
  lemma WriteReplyMeans(w: World, p: Pkt)
    requires Linked(w)
    ensures var v := WriteReply(w, p);
            && (IsAnswer(w, p) && p.p1 == 0 ==> v.port == w.port.(pending := 0, rx := v.port.rx) && SnapContents(v) == v.env.rx.Contents())
            && (IsAnswer(w, p) && p.p1 == 0x80000011 ==> v == w.(port := w.port.(pending := 0)))
            && (!IsAnswer(w, p) || (p.p1 != 0 && p.p1 != 0x80000011) ==> Down(v) && v.env == w.env)
  {
    hide IocRxHead, UpdateRx, Excp, Down, SnapContents, Logged;
    UpdateRxMeans(w.(env := IocRxHead(w.env, w.port.pending), port := w.port.(pending := 0)));
    ExcpIsDown(w);
  }

  /**
   The packets that Net Up and Pause know. A refused CREATE, a failed command and an unexpected answer to a WRITE end the
   connection; what they do not know they ignore.
   */
  lemma CommonRecvMeans(w: World, p: Pkt)
    requires Linked(w) && Works(Top(w))
    ensures var v := CommonRecv(w, p);
            && (p.cmd == 0 ==>
                  if p.pid == 0x4d414441 && p.ext == [] && p.p1 == 0 && p.p2 == w.port.port then v == w else Down(v))
            && (p.cmd == 0x0e && p.p1 != 0 ==> Down(v))
            && (p.cmd == 0x0e && p.p1 == 0 && p.p2 != 0x11 && p.p2 != 0x12 && p.p2 != 0x1a ==> v == w)
            && (p.cmd == 0x0e && p.p1 == 0 ==> Sends(w, v, Calls(p.p2), Answer(w, p.p2), w.port.stk))
            && (p.cmd == 0x0e && p.p1 == 0 && p.p2 == 0x1a && !Await(w.env).1.ok ==> v.port.stk == [NetDown])
            && (p.cmd == 0x04 ==> v == WriteReply(w, p))
            && (p.cmd == 0x0800 ==> v == DataReady(w, p))
            && (p.cmd != 0 && p.cmd != 0x0e && p.cmd != 0x04 && p.cmd != 0x0800 ==> v == w)
  {
    hide SyncRecv, WriteReply, DataReady, Await, Excp, Down, Logged, Packed;
    ExcpIsDown(w);
    if p.cmd == CMD_IOCTL && p.p1 == STATUS_SUCCESS {
      if IsSyncReply(p.p2) {
        SyncRecvSays(Push(w, Sync), p);
        assert (w.port.stk + [Sync])[..2] == w.port.stk;
      } else {
        assert Packed(w.env.net.sent) + [] == Packed(w.env.net.sent);
      }
    }
  }

  /** What a lost connection leaves untouched. */
  predicate Unheard(w: World, v: World) {
    && Down(v) && v.env.net.sent == w.env.net.sent
    && v.env.hist.accepted == w.env.hist.accepted && v.env.hist.upGone == w.env.hist.upGone
  }

  /** The part behind the header: a packet that is too long or not whole is lost with the connection. */
  lemma RecvPayloadMeans(w: World, p: Pkt, r: Reading)
    requires |w.port.stk| >= 2
    ensures var v := RecvPayload(w, p, r);
            && (|p.ext| > 4076 || (p.ext != [] && r == ShortPayload) ==> Unheard(w, v))
            && (|p.ext| <= 4076 && (p.ext == [] || r != ShortPayload) ==> v == Recv(Sleep(w), p))
  {
    hide Recv, Await, Excp, Down;
    ExcpIsDown(w);
    ExcpIsDown(Sleep(w));
  }

  /** The world in which the next packet is handled: it is read, after a refresh of the downlink snapshot if it is data. */
  function Fetched(w: World): World
    requires w.env.net.down != []
  {
    var w1 := w.(env := w.env.(net := w.env.net.(down := w.env.net.down[1..])));
    Sleep(if w.env.net.down[0].cmd == 0x0800 then UpdateTx(w1) else w1)
  }

  /** The next packet can be read: it is all there, and fits the buffer of 4096 bytes. */
  predicate Readable(w: World, r: Reading) {
    && w.env.net.down != [] && |w.env.net.down[0].ext| <= 4076
    && (r == Whole || (r == ShortPayload && w.env.net.down[0].ext == []))
  }

  /**
   Reading a packet: one that can be read is handled by the state; otherwise the connection ends, and nothing is made of what
   was there.
   */
  lemma RecvDespMeans(w: World, r: Reading)
    requires Linked(w)
    ensures var v := RecvDesp(w, r);
            if Readable(w, r) then v == Recv(Fetched(w), w.env.net.down[0]) else Unheard(w, v)
  {
    hide Recv, RecvPayload, UpdateTx, Sleep, Excp, Down, Logged;
    ExcpIsDown(w);
    if w.env.net.down != [] {
      var p := w.env.net.down[0];
      var w1 := w.(env := w.env.(net := w.env.net.(down := w.env.net.down[1..])));
      RefreshKeeps(w1);
      RecvPayloadMeans(if p.cmd == CMD_DATAREADY then UpdateTx(w1) else w1, p, r);
    }
  }

  lemma FetchedIsLinked(w: World)
    requires Linked(w) && w.env.net.down != []
    ensures var v := Fetched(w); Linked(v) && SameLink(w, v)
  {
    hide UpdateTx, Sleep, Logged, Attr;
    var w1 := w.(env := w.env.(net := w.env.net.(down := w.env.net.down[1..])));
    UpdateLink(w1);
    UpdateLink(if w.env.net.down[0].cmd == 0x0800 then UpdateTx(w1) else w1);
  }

  lemma RefreshKeeps(w: World)
    ensures var v := UpdateTx(w);
            && v.port.stk == w.port.stk && v.env.net.sent == w.env.net.sent
            && v.env.hist.accepted == w.env.hist.accepted && v.env.hist.upGone == w.env.hist.upGone
  {
    hide Steps;
  }

  /**
   The time without a packet: a wakeup without one adds what it took, at least one microsecond; beyond ten seconds the
   connection is given up, and not before. A packet sets the time back.
   */
  lemma HearMeans(w: World, wake: Wake)
    requires wake.Ready?
    ensures var (v, time) := (Hear(w, wake), w.lrecv + if wake.used == 0 then 1 else wake.used);
            && (w.port.sk < 0 ==> v == w)
            && (w.port.sk >= 0 && !wake.sk && time <= 10_000_000 ==> v == w.(lrecv := time))
            && (Linked(w) && !wake.sk && time > 10_000_000 ==> Down(v) && v.env == w.env && v.lrecv == 0)
            && (w.port.sk >= 0 && wake.sk ==> v == RecvDesp(w.(lrecv := 0), wake.reading))
  {
    hide RecvDesp, Excp, Logged;
    ExcpIsDown(w);
  }

  /** What hearing comes to: nothing but time, the end of the connection, or a packet. */
  lemma HearComesTo(w: World, wake: Wake)
    requires Linked(w) && wake.Ready?
    ensures var (v, w0) := (Hear(w, wake), w.(lrecv := 0));
            if wake.sk && Readable(w0, wake.reading) then v == Recv(Fetched(w0), w.env.net.down[0])
            else v.port.stk == [NetDown] || v == w.(lrecv := v.lrecv)
  {
    hide RecvDesp, Recv, Fetched, Excp, Logged;
    HearMeans(w, wake);
    if wake.sk {
      RecvDespMeans(w.(lrecv := 0), wake.reading);
    }
  }

  /** Idle handles a packet by going back to the state below, with both snapshots refreshed. */
  lemma IdleRecvMeans(w: World, p: Pkt)
    requires Top(w) == Idle
    ensures var v := Recv(w, p);
            && v.port.stk == w.port.stk[..2] && v.env.net.sent == w.env.net.sent
            && v == Settle(Pop(w.(env := w.env.(net := Discard(w.env.net, p)))))
  {
    hide Settle;
    SettleSays(Pop(w.(env := w.env.(net := Discard(w.env.net, p)))));
  }
}
