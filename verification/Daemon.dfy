/**
 The daemon in the form of its source: the fields of `struct vc_attr` updated in place, packets built in local buffers, and
 the main loop. Every handler is proved to change the world as the function of `Handlers` says.
 */
module Daemon {
  import opened Words
  import opened Packets
  import opened Rings
  import opened Memory
  import opened Attributes
  import opened Worlds
  import opened Handlers
  import opened PacketBuffer
  import opened Receive
  import opened Stack
  import opened Buffers
  import opened Jobs

  const BUF_SIZE := 1024

  /** What the driver is told about the input pins. */
  datatype Report = NoReport | Modem(value: u32)

  datatype BufId = VcBufRx | VcBufTx | VcBufAttr

  function Fresh(devid: u16, port: u32, env: Env): World {
    Machine(Port([NetDown], -1, 0, 0, ZERO_INFO, 0, Snap(0, 0), Snap(0, 0), devid, port), env, 0, false)
  }

  /** The world when `main` enters its loop; from then on, every turn has a script of its own. */
  function Started(w: World): World {
    var v := NetDownInit(UpdateAttr(UpdateRx(UpdateTx(w))));
    v.(env := v.env.(io := []))
  }

  /** What the init handler of the current state does. */
  function InitOf(w: World): World {
    match Top(w)
    case NetDown => NetDownInit(w)
    case NetUp => Settle(w)
    case Pause => Settle(w)
    case Sync => SyncInit(w)
    case Idle => IdleInit(w)
  }

  /** What a turn makes of the report of `select`: the same, but for how reading a packet went. */
  predicate SeenAs(seen: Wake, wake: Wake) {
    if wake.Timeout? then seen == wake else seen.Ready? && seen == wake.(reading := seen.reading)
  }

  /** An exception forgets the socket, the mirror and the transaction id. */
  lemma ExcpForgets(w: World, v: World)
    requires v == w.(env := v.env, port := w.port.(sk := v.port.sk, eki := v.port.eki, tid := v.port.tid))
    ensures Excp(v) == Excp(w.(env := v.env))
  {
  }

  lemma CloseForgets(w: World, v: World)
    requires v == w.(port := w.port.(eki := v.port.eki))
    ensures Excp(Emit(v, CMD_CLOSE, 0, 0, []).0) == Excp(Emit(w, CMD_CLOSE, 0, 0, []).0)
  {
    hide Send;
  }

  lemma ErrForgetsClock(w: World, lrecv: nat)
    ensures Err(w.(lrecv := lrecv)).(lrecv := 0) == Err(w).(lrecv := 0)
  {
  }

  /** `struct vc_attr`, with the daemon's world, the main loop's `lrecv`, and whether the daemon has called `exit`. */
  class VcAttr {
    const stk: StkVc
    const devid: u16
    const port: u32
    const rbuf: array<byte>
    var sk: int
    var tid: nat
    var xmitPending: nat
    var eki: Info
    var attrPtr: nat
    var rx: Snap
    var tx: Snap
    var env: Env
    var lrecv: nat
    var exited: bool

    ghost function Raw(): Machine
      reads this, stk, stk.stkStat
      requires stk.Valid()
    {
      Machine(Port(stk.Contents(), sk, tid, xmitPending, eki, attrPtr, rx, tx, devid, port), env, lrecv, exited)
    }

    ghost predicate Valid()
      reads this, stk, stk.stkStat
    {
      stk.Valid() && WellFormed(Raw()) && sk >= -1 && xmitPending <= XMIT_LEN && rbuf.Length == RBUF_SIZE
    }

    ghost function View(): World
      reads this, stk, stk.stkStat
      requires Valid()
    {
      Raw()
    }

    /** The state of `main` once Net Down is on the stack. */
    constructor (devid: u16, port: u32, env: Env)
      ensures Valid() && fresh(stk) && fresh(stk.stkStat) && fresh(rbuf)
      ensures View() == Fresh(devid, port, env)
    {
      this.devid, this.port, this.env := devid, port, env;
      rbuf := new byte[RBUF_SIZE];
      stk := new StkVc();
      sk, tid, xmitPending, eki, attrPtr, rx, tx := -1, 0, 0, ZERO_INFO, 0, Snap(0, 0), Snap(0, 0);
      lrecv, exited := 0, false;
      new;
      var ret := stk.Push(NetDown);
      assert stk.Contents() == [NetDown];
    }

    /** `vc_buf_setup`: the first refreshes. */
    method VcBufSetup()
      requires Valid()
      modifies this`env, this`rx, this`tx, this`attrPtr
      ensures Valid() && View() == UpdateAttr(UpdateRx(UpdateTx(old(View()))))
    {
      hide UpdateRx, UpdateTx, UpdateAttr;
      VcBufUpdate(VcBufTx);
      VcBufUpdate(VcBufRx);
      VcBufUpdate(VcBufAttr);
    }

    /** `vc_buf_setup` for the rings and the settings, then the init handler of Net Down. */
    method Start()
      requires Valid() && stk.Curnt() == NetDown
      modifies this
      ensures Valid() && View() == Started(old(View()))
    {
      hide UpdateRx, UpdateTx, UpdateAttr, NetDownInit;
      VcBufSetup();
      NetdownInit();
      env := env.(io := []);
    }

    /** `attr_p`. */
    function AttrP(): (a: PortInfo)
      reads this, stk, stk.stkStat
      requires Valid()
      ensures a == Attr(View())
    {
      env.att.slots[attrPtr]
    }

    // ----- system calls

    /** `fdcheck` and `send`, for a buffer that holds whole packets. */
    method SendAll(pbuf: array<byte>, plen: nat, first: nat, ghost ps: seq<Pkt>) returns (ok: bool)
      requires Valid() && plen <= pbuf.Length && pbuf[..plen] == EncodeAll(ps)
      modifies this`env
      ensures Valid() && (env, ok) == Send(old(env), Number(first, ps))
    {
      hide Await, EncodeAll, Split;
      SplitExact(ps);
      var (e, sent) := Send(env, Number(first, Split(pbuf[..plen])));
      env := e;
      return sent;
    }

    method SendOne(pbuf: array<byte>, plen: nat, ghost p: Pkt) returns (ok: bool)
      requires Valid() && Holds(pbuf[..], 0, plen, p)
      modifies this`env
      ensures Valid() && (env, ok) == Send(old(env), [Sent(tid, p)])
    {
      hide Send, Encode, EncodeAll;
      EncodeOne(p);
      assert pbuf[..][0..plen] == pbuf[..plen];
      assert Number(tid, [p]) == [Sent(tid, p)];
      ok := SendAll(pbuf, plen, tid, [p]);
    }

    /** `vc_buf_update`. */
    method VcBufUpdate(id: BufId)
      requires Valid()
      modifies this`env, this`rx, this`tx, this`attrPtr
      ensures Valid()
      ensures View() == match id
                        case VcBufRx => UpdateRx(old(View()))
                        case VcBufTx => UpdateTx(old(View()))
                        case VcBufAttr => UpdateAttr(old(View()))
    {
      hide Await, Shaped;
      match id {
        case VcBufRx =>
          env := Await(env).0;
          var head := env.rx.head;
          env := Await(env).0;
          var tail := env.rx.tail;
          rx := Snap(head, tail);
        case VcBufTx =>
          env := Await(env).0;
          var head := env.tx.head;
          env := Await(env).0;
          var tail := env.tx.tail;
          tx := Snap(head, tail);
        case VcBufAttr =>
          var (e, ptr) := IocAttrPtr(env);
          env := e;
          attrPtr := ptr;
      }
    }

    /** `vc_buf_clear` with both flags. */
    method VcBufClear()
      requires Valid()
      modifies this`env, this`rx, this`tx, this`attrPtr
      ensures Valid() && View() == BufClear(old(View()))
    {
      hide IocClear, IocRxHead, UpdateRx, UpdateTx, UpdateAttr, Shaped;
      env := IocClear(env);
      env := IocRxHead(env, 0);
      VcBufUpdate(VcBufRx);
      VcBufUpdate(VcBufRx);
    }

    // ----- Net Down, Net Up, Pause: init

    method NetdownInit()
      requires Valid() && stk.Curnt() == NetDown
      modifies this`sk, this`tid, this`xmitPending, this`eki
      ensures Valid() && View() == NetDownInit(old(View()))
    {
      hide Shaped;
      if sk >= 0 {
        sk := -1;
      }
      tid := 0;
      xmitPending := 0;
      eki := ZERO_INFO;
      eki := eki.(stop := STOP_UNDEF);
      eki := eki.(flowctl := FLOW_UNDEF);
      eki := eki.(pair := PAIR_UNDEF);
    }

    /** `vc_netup_init` and `vc_pause_init`. */
    method NetupInit()
      requires Valid()
      modifies this`env, this`rx, this`tx, this`attrPtr
      ensures Valid() && View() == Settle(old(View()))
    {
      hide UpdateRx, UpdateTx, UpdateAttr;
      VcBufUpdate(VcBufRx);
      VcBufUpdate(VcBufTx);
    }

    /** `stk_push`, which has room for every state that may follow. */
    method PushState(current: St)
      requires Valid() && Shaped(stk.Contents() + [current])
      modifies stk`top, stk.stkStat
      ensures Valid() && View() == Handlers.Push(old(View()), current)
    {
      var ret := stk.Push(current);
    }

    /** `stk_excp`, then the init handler of the state it leaves. */
    method ExcpInit()
      requires Valid()
      modifies this, stk`top
      ensures Valid() && View() == Excp(old(View()))
      decreases 0, 2
    {
      hide SyncInit, IdleInit, Settle, NetDownInit;
      var ret := stk.Excp();
      assert stk.Contents() == [NetDown];
      Init();
    }

    /** `stk_curnt(stk)->init(attr)`. */
    method Init()
      requires Valid()
      modifies this, stk`top
      ensures Valid() && View() == InitOf(old(View()))
      decreases stk.top, 1
    {
      hide NetDownInit, Settle, SyncInit, IdleInit;
      match stk.Curnt() {
        case NetDown => NetdownInit();
        case NetUp => NetupInit();
        case Pause => NetupInit();
        case Sync => VcSyncInit();
        case Idle => VcIdleInit();
      }
    }

    /** `stk_pop`, then the init handler of the state below. */
    method PopInit()
      requires Valid() && |stk.Contents()| == 3
      modifies this, stk`top
      ensures Valid() && View() == Settle(Handlers.Pop(old(View())))
      decreases 1, 2
    {
      hide SyncInit, IdleInit, Settle, NetDownInit;
      var ret := stk.Pop();
      Init();
    }

    // ----- Sync

    /** A command without parameters: `_pack_ioctl_param`, `send`, and one more transaction id if it went out. */
    method SendIoctlParam(subcmd: u32) returns (ok: bool)
      requires Valid()
      modifies this`env, this`tid
      ensures Valid() && (View(), ok) == Emit(old(View()), CMD_IOCTL, subcmd, 0, [])
    {
      hide Send, Encode, Shaped;
      var pbuf := new byte[BUF_SIZE](_ => 0);
      var plen := PackIoctlParam(pbuf, 0, tid % TID_MOD, subcmd, BUF_SIZE);
      ok := SendOne(pbuf, plen, IoctlPkt(tid % TID_MOD, subcmd, []));
      if !ok {
        return;
      }
      tid := tid + 1;
    }

    /** `_sync_ms`. */
    method VcSyncMs(uartMs: u32) returns (ok: bool)
      requires Valid()
      modifies this`env, this`tid
      ensures Valid() && (View(), ok) == SyncMs(old(View()), uartMs)
    {
      hide Emit, Shaped;
      var step := 0;
      ghost var w := View();
      while true
        invariant Valid() && 0 <= step <= 2
        invariant step == 0 ==> View() == w
        invariant step == 1 ==> (View(), true) == Emit(w, CMD_IOCTL, if Rts(uartMs) then IOCTL_SET_RTS else IOCTL_CLR_RTS, 0, [])
        invariant step == 2 ==> (View(), true) == SyncMs(w, uartMs)
        decreases 2 - step
      {
        match step {
          case 0 =>
            ok := SendIoctlParam(if Rts(uartMs) then IOCTL_SET_RTS else IOCTL_CLR_RTS);
          case 1 =>
            ok := SendIoctlParam(if Dtr(uartMs) then IOCTL_SET_DTR else IOCTL_CLR_DTR);
          case _ =>
            return true;
        }
        if !ok {
          return;
        }
        step := step + 1;
      }
    }

    /** SET_WAIT_MASK, likewise. */
    method SendWmask(mask: u32) returns (ok: bool)
      requires Valid()
      modifies this`env, this`tid
      ensures Valid() && (View(), ok) == Emit(old(View()), CMD_IOCTL, IOCTL_SET_WAIT_MASK, 0, Be32(mask))
    {
      hide Send, Encode, Shaped, Be32;
      var pbuf := new byte[BUF_SIZE](_ => 0);
      var plen := PackSetwmask(pbuf, 0, tid % TID_MOD, mask, BUF_SIZE);
      ok := SendOne(pbuf, plen, IoctlPkt(tid % TID_MOD, IOCTL_SET_WAIT_MASK, Be32(mask)));
      if !ok {
        return;
      }
      tid := tid + 1;
    }

    /** `_sync_event`. */
    method VcSyncEvent() returns (ok: bool)
      requires Valid()
      modifies this`env, this`tid
      ensures Valid() && (View(), ok) == SyncEvent(old(View()))
    {
      hide Emit, Be32, Shaped;
      var initStep := 0;
      ghost var w := View();
      while true
        invariant Valid() && 0 <= initStep <= 2
        invariant initStep == 0 ==> View() == w
        invariant initStep == 1 ==> (View(), true) == Emit(w, CMD_IOCTL, IOCTL_SET_WAIT_MASK, 0, Be32(0x38010000))
        invariant initStep == 2 ==> (View(), true) == SyncEvent(w)
        decreases 2 - initStep
      {
        match initStep {
          case 0 =>
            ok := SendWmask(0x38010000);
          case 1 =>
            ok := SendIoctlParam(IOCTL_GET_MODEMSTATUS);
          case _ =>
            return true;
        }
        if !ok {
          return;
        }
        initStep := initStep + 1;
      }
    }

    /** `_reg_sync_event`. */
    method VcRegSyncEvent() returns (ok: bool)
      requires Valid()
      modifies this`env, this`tid
      ensures Valid() && (View(), ok) == RegSyncEvent(old(View()))
    {
      ok := SendIoctlParam(IOCTL_WAIT_ON_MASK);
    }

    /** QUEUEFREE with a credit, as `_sync_queue`, `_pause_queue` and `_resume_queue` send it. */
    method SendQfsize(qfsize: u32) returns (ok: bool)
      requires Valid()
      modifies this`env, this`tid
      ensures Valid() && (View(), ok) == Emit(old(View()), CMD_QUEUEFREE, 0, qfsize, [])
    {
      hide Send, Encode, Shaped;
      var pbuf := new byte[BUF_SIZE](_ => 0);
      var plen := PackQfsize(pbuf, 0, tid % TID_MOD, qfsize, BUF_SIZE);
      ok := SendOne(pbuf, plen, QueueFreePkt(tid % TID_MOD, qfsize));
      if !ok {
        return;
      }
      tid := tid + 1;
    }

    /** `_sync_queue`. */
    method VcSyncQueue() returns (ok: bool)
      requires Valid()
      modifies this`env, this`tid
      ensures Valid() && (View(), ok) == SyncQueue(old(View()))
    {
      var qfsize: u32 := if tx.head == tx.tail then 1024 else 0;
      ok := SendQfsize(qfsize);
    }

    /** The second half of `vc_sync_init`. */
    method VcSyncRest()
      requires Valid() && stk.Curnt() == Sync
      modifies this, stk`top
      ensures Valid() && View() == SyncRest(old(View()))
      decreases 1, 3
    {
      hide SyncEvent, SyncQueue, Settle, Excp, Fits;
      var ok := VcSyncEvent();
      if !ok {
        ExcpInit();
        return;
      }
      ok := VcSyncQueue();
      if !ok {
        ExcpInit();
        return;
      }
      PopInit();
    }

    method VcSyncInit()
      requires Valid() && stk.Curnt() == Sync
      modifies this, stk`top
      ensures Valid() && View() == SyncInit(old(View()))
      decreases stk.top, 0
    {
      hide SyncMs, SyncRest, Excp, Fits;
      var uartMs := AttrP().ms;
      var ok := VcSyncMs(uartMs);
      if !ok {
        ExcpInit();
        return;
      }
      eki := eki.(ms := uartMs);
      VcSyncRest();
    }

    /** ADVVCOM_IOCSMCTRL. */
    method TellDriver() returns (ok: bool)
      requires Valid()
      modifies this`env
      ensures Valid() && View() == Sleep(old(View())) && ok == Await(old(env)).1.ok
    {
      hide Await, Shaped;
      var (e, io) := Await(env);
      env := e;
      return io.ok;
    }

    /**
     `vc_sync_recv` on the bytes of a packet; `modem` is the value handed to ADVVCOM_IOCSMCTRL. It is read as the host
     stores words, without a conversion, and without a look at the length of the packet.
     */
    method VcSyncRecv(buf: array<byte>, ghost p: Pkt) returns (modem: Report)
      requires Valid() && stk.Curnt() == Sync && Holds(buf[..], 0, HDR_LEN + |p.ext|, p) && buf.Length == RBUF_SIZE
      modifies this, stk`top
      ensures Valid() && View() == SyncRecv(old(View()), p)
      ensures modem == (if p.p2 == IOCTL_GET_MODEMSTATUS then Modem(FromLe32(buf[20..24])) else NoReport)
      ensures |p.ext| >= 4 ==> buf[20..24] == p.ext[..4]
    {
      hide SyncEvent, RegSyncEvent, Await, Settle, Excp, Holds;
      modem := NoReport;
      FieldsOf(buf[..], p);
      WordBehind(buf[..], p);
      var subcmd := FromBe32(buf[16..20]);
      if subcmd == IOCTL_WAIT_ON_MASK {
        var ok := VcSyncEvent();
        if !ok {
          ExcpInit();
          return;
        }
      } else if subcmd == IOCTL_SET_WAIT_MASK {
        var ok := VcRegSyncEvent();
        if !ok {
          ExcpInit();
          return;
        }
      } else if subcmd == IOCTL_GET_MODEMSTATUS {
        modem := Modem(FromLe32(buf[20..24]));
        var ok := TellDriver();
        if !ok {
          ExcpInit();
          return;
        }
      }
      PopInit();
    }

    // ----- Idle

    method VcIdleInit()
      requires Valid() && stk.Curnt() == Idle
      modifies this, stk`top
      ensures Valid() && View() == IdleInit(old(View()))
      decreases stk.top, 0
    {
      hide Emit;
      var ok := SendIoctlParam(IOCTL_GET_WAIT_MASK);
      if !ok {
        sk := -1;
        ExcpInit();
        return;
      }
    }

    // ----- vc_client_common.c

    /** CREATE, with the literal transaction id 1. */
    method SendOpen() returns (ok: bool)
      requires Valid()
      modifies this`env
      ensures Valid() && (env, ok) == Send(old(env), [Sent(tid, OpenPkt(1, devid, port))])
    {
      hide Send, Encode, Shaped;
      var pbuf := new byte[BUF_SIZE](_ => 0);
      var plen := PackOpen(pbuf, 0, 1, devid, port, BUF_SIZE);
      ok := SendOne(pbuf, plen, OpenPkt(1, devid, port));
    }

    /** The connection counts as open: Sync on top of the current state, and its handshake. */
    method EnterSync()
      requires Valid() && |stk.Contents()| == 2
      modifies this, stk`top, stk.stkStat
      ensures var p := old(View()).port;
              Valid() && View() == SyncInit(Handlers.Push(old(View()).(port := p.(tid := p.tid + 1, eki := p.eki.(isOpen := true))), Sync))
    {
      hide SyncInit, Fits, InRange;
      tid := tid + 1;
      eki := eki.(isOpen := true);
      StartSync();
    }

    method StartSync()
      requires Valid() && |stk.Contents()| == 2
      modifies this, stk`top, stk.stkStat
      ensures Valid() && View() == SyncInit(Handlers.Push(old(View()), Sync))
    {
      hide SyncInit;
      PushState(Sync);
      Init();
    }

    method VcCommonOpen()
      requires Valid() && |stk.Contents()| == 2
      modifies this, stk`top, stk.stkStat
      ensures Valid() && View() == CommonOpen(old(View()))
    {
      hide Send, SyncInit, Excp, Fits, InRange;
      ghost var w := View();
      var ok := SendOpen();
      if !ok {
        sk := -1;
        ExcpForgets(w, View());
        ExcpInit();
        return;
      }
      EnterSync();
    }

    method VcCommonXmit()
      requires Valid()
      modifies this, stk`top
      ensures Valid() && View() == CommonXmit(old(View()))
    {
      hide Send, Encode, Shaped, Settle, Span, Excp, InRange;
      ghost var w := View();
      var pbuf := new byte[XMIT_LEN + HDR_LEN](_ => 0);
      var plen, len := PackRing(pbuf, env.rx.buf, rx.head, rx.tail, tid % TID_MOD);
      var ok := SendOne(pbuf, plen, WritePkt(tid % TID_MOD, SnapContents(View())[..len]));
      if !ok {
        sk := -1;
        ExcpForgets(w, View());
        ExcpInit();
        return;
      }
      xmitPending := len;
      tid := tid + 1;
    }

    /** `_set_ms`: the packets for RTS and DTR, one behind the other. */
    method VcSetMs(pbuf: array<byte>, uartMs: u32) returns (plen: nat)
      requires Valid() && pbuf.Length == BUF_SIZE
      modifies this`tid, pbuf
      ensures Valid()
      ensures var ps := Packed(MsPkts(old(tid), eki.ms, uartMs));
              plen == HDR_LEN * |ps| && Holding(pbuf[..], plen, ps) && tid == old(tid) + |ps|
    {
      hide Encode, EncodeAll, Shaped, Splice, Holds, Holding, Rts, Dtr, InRange;
      var ekiMs := eki.ms;
      var step := 0;
      ghost var ps := [];
      plen := 0;
      NothingHeld(pbuf[..]);
      while true
        invariant Valid() && 0 <= step <= 2 && |ps| <= step
        invariant plen == HDR_LEN * |ps| && Holding(pbuf[..], plen, ps) && tid == old(tid) + |ps|
        invariant step == 0 ==> ps == []
        invariant step == 1 ==> ps == if Rts(ekiMs) == Rts(uartMs) then []
                                      else [IoctlPkt(old(tid) % TID_MOD, if Rts(uartMs) then IOCTL_SET_RTS else IOCTL_CLR_RTS, [])]
        invariant step == 2 ==> ps == Packed(MsPkts(old(tid), ekiMs, uartMs))
        decreases 2 - step
      {
        var len := 0;
        ghost var (before, p) := (pbuf[..], IoctlPkt(0, 0, []));
        match step {
          case 0 =>
            if Rts(ekiMs) != Rts(uartMs) {
              var subcmd := if Rts(uartMs) then IOCTL_SET_RTS else IOCTL_CLR_RTS;
              len := PackIoctlParam(pbuf, plen, tid % TID_MOD, subcmd, BUF_SIZE - plen);
              p := IoctlPkt(tid % TID_MOD, subcmd, []);
            }
          case 1 =>
            if Dtr(ekiMs) != Dtr(uartMs) {
              var subcmd := if Dtr(uartMs) then IOCTL_SET_DTR else IOCTL_CLR_DTR;
              len := PackIoctlParam(pbuf, plen, tid % TID_MOD, subcmd, BUF_SIZE - plen);
              p := IoctlPkt(tid % TID_MOD, subcmd, []);
            }
          case _ =>
            return;
        }
        step := step + 1;
        if len <= 0 {
          continue;
        }
        HoldingMore(before, pbuf[..], plen, ps, p, len);
        ps := ps + [p];
        plen := plen + len;
        tid := tid + 1;
      }
    }

    /** The top of the loop of `vc_common_ioctl`: find a difference, note it as settled, build the command for it. */
    method BuildJob(pbuf: array<byte>) returns (plen: nat)
      requires Valid() && pbuf.Length == BUF_SIZE
      modifies this`eki, this`tid, pbuf
      ensures Valid()
      ensures var job := NextJob(old(View()));
              && eki == job.eki && tid == old(tid) + job.used
              && (plen == 0 <==> job.pkts == []) && (plen == 0 ==> tid == old(tid)) && Holding(pbuf[..], plen, job.pkts)
    {
      hide Encode, EncodeAll, Shaped, Splice, MsPkts, Le32, ToU32, ToByte, Fits;
      var (a, t) := (AttrP(), tid % TID_MOD);
      ghost var job := NextJob(View());
      if eki.baud != a.baud {
        eki := eki.(baud := a.baud);
        plen := PackSbaud(pbuf, 0, t, ToU32(a.baud), BUF_SIZE);
        HoldingOne(pbuf[..], plen, job.pkts[0]);
      } else if eki.pair != a.pair || eki.stop != a.stop || eki.byte != a.byte {
        eki := eki.(pair := a.pair, stop := a.stop, byte := a.byte);
        plen := PackSetlctl(pbuf, 0, t, ToByte(a.pair), ToByte(a.byte), ToByte(a.stop), BUF_SIZE);
        HoldingOne(pbuf[..], plen, job.pkts[0]);
      } else if eki.flowctl != a.flowctl {
        plen := BuildFlow(pbuf, a.flowctl);
        eki := eki.(flowctl := a.flowctl);
        HoldingOne(pbuf[..], plen, job.pkts[0]);
      } else {
        plen := VcSetMs(pbuf, a.ms);
        eki := eki.(ms := a.ms);
      }
    }

    /** SET_HANDFLOW; the last four bytes are what the stack happened to hold, here as the script says. */
    method BuildFlow(pbuf: array<byte>, flowctl: int) returns (plen: nat)
      requires Valid() && pbuf.Length == BUF_SIZE
      modifies pbuf
      ensures plen > 0
      ensures Holds(pbuf[..], 0, plen, IoctlPkt(tid % TID_MOD, IOCTL_SET_HANDFLOW,
                                                FlowExt(FlowWords(flowctl).0, FlowWords(flowctl).1, Junk(env))))
    {
      hide Encode, Shaped, Be32;
      Memcpy(pbuf, 32, Junk(env));
      assert pbuf[..][0 + 32..0 + 36] == Junk(env);
      match flowctl {
        case 2 =>
          plen := PackHflow(pbuf, 0, tid % TID_MOD, 0x09000000, 0x80000080, BUF_SIZE);
        case 1 =>
          plen := PackHflow(pbuf, 0, tid % TID_MOD, 0x01000000, 0x43000080, BUF_SIZE);
        case _ =>
          plen := PackHflow(pbuf, 0, tid % TID_MOD, 0x01000000, 0x40000080, BUF_SIZE);
      }
    }

    /** One turn of the loop of `vc_common_ioctl`; `more` says that a command went out. */
    method SettleOne() returns (more: bool)
      requires Valid()
      modifies this, stk`top
      ensures Valid()
      ensures if more then CommonIoctl(View()) == CommonIoctl(old(View())) && Differences(View()) < Differences(old(View()))
              else View() == CommonIoctl(old(View()))
    {
      hide Send, NextJob, CommonIoctl, Differences, EncodeAll, Number, Shaped, NetDownInit, WellFormed, InRange;
      var pbuf := new byte[BUF_SIZE](_ => 0);
      ghost var w := View();
      JobIsAStage(w);
      var first := tid;
      var plen := BuildJob(pbuf);
      if plen <= 0 {
        return false;
      }
      var ok := SendAll(pbuf, plen, first, NextJob(w).pkts);
      if !ok {
        ExcpForgets(w, View());
        ExcpInit();
        return false;
      }
      tid := tid + 1;
      return true;
    }

    /** `vc_common_ioctl`; its budget of fifteen turns is never used up. */
    method VcCommonIoctl()
      requires Valid()
      modifies this, stk`top
      ensures Valid() && View() == CommonIoctl(old(View()))
    {
      hide CommonIoctl, Differences, Shaped;
      var loopCount := 15;
      FourStages(View());
      while true
        invariant Valid() && CommonIoctl(View()) == CommonIoctl(old(View())) && loopCount >= 11 + Differences(View())
        decreases loopCount
      {
        var more := SettleOne();
        if !more {
          break;
        }
        loopCount := loopCount - 1;
        if loopCount <= 0 {
          assert false;
        }
      }
    }

    /** `check_ioctl_ret`: whether the reply reports success; a reply that Sync waits for is handed to it. */
    method CheckIoctlRet(ghost p: Pkt) returns (ok: bool)
      requires Valid() && |stk.Contents()| == 2 && Holds(rbuf[..], 0, HDR_LEN + |p.ext|, p)
      modifies this, stk`top, stk.stkStat
      ensures Valid() && (ok <==> p.p1 == STATUS_SUCCESS)
      ensures if ok then View() == IoctlReply(old(View()), p) else View() == old(View()) && IoctlReply(View(), p) == Excp(View())
    {
      hide SyncRecv, Encode;
      FieldsOf(rbuf[..], p);
      var status := FromBe32(rbuf[12..16]);
      var subcmd := FromBe32(rbuf[16..20]);
      if status != STATUS_SUCCESS {
        return false;
      }
      if IsSyncReply(subcmd) {
        PushState(Sync);
        var modem := VcSyncRecv(rbuf, p);
      }
      return true;
    }

    /** Write received data beyond the tail of the ring: in one piece, or in two around the end of the buffer. */
    method CopyIn(data: seq<byte>)
      requires Valid() && |data| <= Room(tx.head, tx.tail, |env.tx.buf|)
      modifies this`env
      ensures Valid() && env == old(env).(tx := old(env).tx.(buf := Fill(old(env).tx.buf, tx.tail, data)))
    {
      hide Fill, Splice, Shaped;
      var lroom := LRoom(tx.head, tx.tail, |env.tx.buf|);
      SplicesFill(env.tx.buf, tx.tail, data, Min(lroom, |data|));
      if lroom >= |data| {
        assert data[..|data|] == data && data[|data|..] == [];
        NoSplice(Splice(env.tx.buf, tx.tail, data));
        env := env.(tx := env.tx.(buf := Splice(env.tx.buf, tx.tail, data)));
      } else {
        env := env.(tx := env.tx.(buf := Splice(env.tx.buf, tx.tail, data[..lroom])));
        env := env.(tx := env.tx.(buf := Splice(env.tx.buf, 0, data[lroom..])));
      }
    }

    /** The DATAREADY case of `vc_common_recv`. */
    method RecvData(ghost p: Pkt)
      requires Valid() && Holds(rbuf[..], 0, HDR_LEN + |p.ext|, p)
      modifies this, stk`top
      ensures Valid() && View() == DataReady(old(View()), p)
    {
      hide IocTxTail, Encode, Shaped, Fill, CheckRecv, Excp;
      FieldsOf(rbuf[..], p);
      CheckRecvAt(rbuf[..], p);
      if !CheckRecv(rbuf[..]) {
        ExcpInit();
        return;
      }
      var datalen := FromBe32(rbuf[16..20]);
      if Room(tx.head, tx.tail, |env.tx.buf|) < datalen {
        ExcpInit();
        return;
      }
      var data := rbuf[HDR_LEN..HDR_LEN + datalen];
      assert data == p.ext;
      CopyIn(data);
      env := IocTxTail(env, data);
      DecodeHeld(rbuf[..], p);
      env := env.(net := Accept(env.net, Decode(rbuf[..])));
    }

    /** The WRITE case of `vc_common_recv`. */
    method RecvAck(ghost p: Pkt)
      requires Valid() && Holds(rbuf[..], 0, HDR_LEN + |p.ext|, p)
      modifies this, stk`top
      ensures Valid() && View() == WriteReply(old(View()), p)
    {
      hide IocRxHead, UpdateRx, UpdateTx, UpdateAttr, Encode, Shaped, CheckParam;
      var xmitLen := xmitPending;
      xmitPending := 0;
      CheckParamAt(rbuf[..], p, CMD_WRITE, STATUS_SUCCESS, xmitLen);
      CheckParamAt(rbuf[..], p, CMD_WRITE, STATUS_DEVICE_BUSY, xmitLen);
      if CheckParam(rbuf[..], CMD_WRITE, STATUS_SUCCESS, xmitLen) {
        env := IocRxHead(env, xmitLen);
        VcBufUpdate(VcBufRx);
      } else if CheckParam(rbuf[..], CMD_WRITE, STATUS_DEVICE_BUSY, xmitLen) {
        return;
      } else {
        ExcpInit();
      }
    }

    method VcCommonRecv(ghost p: Pkt)
      requires Valid() && |stk.Contents()| == 2 && Holds(rbuf[..], 0, HDR_LEN + |p.ext|, p)
      modifies this, stk`top, stk.stkStat
      ensures Valid() && View() == CommonRecv(old(View()), p)
    {
      hide IoctlReply, DataReady, WriteReply, Encode, Shaped, CheckParam, Excp;
      FieldsOf(rbuf[..], p);
      var cmd := FromBe16(rbuf[8..10]);
      match cmd {
        case 0x0000 =>
          CheckParamAt(rbuf[..], p, CMD_CREATE, STATUS_SUCCESS, port);
          if !CheckParam(rbuf[..], CMD_CREATE, STATUS_SUCCESS, port) {
            ExcpInit();
          }
        case 0x000e =>
          var ok := CheckIoctlRet(p);
          if !ok {
            ExcpInit();
          }
        case 0x0800 =>
          RecvData(p);
        case 0x0004 =>
          RecvAck(p);
        case _ =>
      }
    }

    /** `vc_common_purge`. */
    method VcCommonPurge(pflags: u32)
      requires Valid()
      modifies this`env, this`tid
      ensures Valid() && View() == Emit(old(View()), CMD_IOCTL, IOCTL_PURGE, 0, Le32(pflags)).0
    {
      hide Send, Encode, Shaped, Le32;
      var pbuf := new byte[BUF_SIZE](_ => 0);
      var plen := PackPurge(pbuf, 0, tid % TID_MOD, pflags, BUF_SIZE);
      var ok := SendOne(pbuf, plen, IoctlPkt(tid % TID_MOD, IOCTL_PURGE, Le32(pflags)));
      if !ok {
        return;
      }
      tid := tid + 1;
    }

    method SendClose() returns (ok: bool)
      requires Valid()
      modifies this`env, this`tid
      ensures Valid() && (View(), ok) == Emit(old(View()), CMD_CLOSE, 0, 0, [])
    {
      hide Send, Encode, Shaped;
      var pbuf := new byte[BUF_SIZE](_ => 0);
      var plen := PackClose(pbuf, 0, tid % TID_MOD, BUF_SIZE);
      ok := SendOne(pbuf, plen, ClosePkt(tid % TID_MOD));
      if !ok {
        return;
      }
      tid := tid + 1;
    }

    /** `vc_common_close`: the exception and the restart lead to the same state. */
    method VcCommonClose()
      requires Valid()
      modifies this, stk`top
      ensures Valid() && View() == CommonClose(old(View()))
    {
      hide Emit, Excp, Shaped;
      ghost var w := View();
      eki := eki.(isOpen := false);
      eki := eki.(stop := STOP_UNDEF);
      eki := eki.(flowctl := FLOW_UNDEF);
      eki := eki.(pair := PAIR_UNDEF);
      CloseForgets(w, View());
      var ok := SendClose();
      if !ok {
        ExcpInit();
        return;
      }
      ExcpInit();
    }

    // ----- the other handlers, by operation; `try_ops` skips a state that has none

    /** `vc_netdown_open`. */
    method VcNetdownOpen()
      requires Valid() && stk.Curnt() == NetDown
      modifies this, stk`top, stk.stkStat
      ensures Valid() && View() == NetDownOpen(old(View()))
      decreases 1
    {
      hide CommonOpen, Connect;
      var (e, ret) := Connect(env);
      env := e;
      sk := ret;
      if ret >= 0 {
        PushState(if tx.head == tx.tail then NetUp else Pause);
        VcOpen();
      } else {
        sk := -1;
      }
    }

    method VcOpen()
      requires Valid()
      modifies this, stk`top, stk.stkStat
      ensures Valid() && View() == Open(old(View()))
      decreases if stk.Curnt() == NetDown || stk.Curnt() == Idle then 2 else 0
    {
      hide CommonOpen, NetDownOpen;
      match stk.Curnt() {
        case NetDown => VcNetdownOpen();
        case NetUp => VcCommonOpen();
        case Pause => VcCommonOpen();
        case Idle =>
          var r := stk.Pop();
          VcOpen();
        case Sync =>
          exited := true;
      }
    }

    /** `vc_netdown_close`. */
    method VcNetdownClose()
      requires Valid() && stk.Curnt() == NetDown
      modifies this
      ensures Valid() && View() == Close(old(View()))
    {
      hide BufClear, CommonClose, Purge;
      VcBufClear();
      if sk > 0 {
        sk := -1;
      }
    }

    /** `vc_netup_close`, `vc_pause_close` and `vc_idle_close`. */
    method VcNetupClose()
      requires Valid()
      modifies this, stk`top
      ensures Valid() && View() == CommonClose(Purge(BufClear(old(View()))))
    {
      hide BufClear, CommonClose, Emit, Le32, Shaped;
      VcBufClear();
      VcCommonPurge(0x0000000f);
      VcCommonClose();
    }

    method VcClose()
      requires Valid()
      modifies this, stk`top
      ensures Valid() && View() == Close(old(View()))
    {
      hide BufClear, CommonClose, Purge;
      match stk.Curnt() {
        case NetDown => VcNetdownClose();
        case Sync =>
          exited := true;
        case _ => VcNetupClose();
      }
    }

    method VcIoctl()
      requires Valid()
      modifies this, stk`top
      ensures Valid() && View() == Ioctl(old(View()))
    {
      hide CommonIoctl;
      if Works(stk.Curnt()) {
        VcCommonIoctl();
      }
    }

    method VcXmit()
      requires Valid()
      modifies this, stk`top
      ensures Valid() && View() == Xmit(old(View()))
    {
      hide CommonXmit;
      if Works(stk.Curnt()) {
        VcCommonXmit();
      }
    }

    /** `stk_rpls`, then the init handler of the new state. */
    method SwapTo(current: St)
      requires Valid() && |stk.Contents()| == 2 && Works(current)
      modifies this, stk`top, stk.stkStat
      ensures Valid() && View() == Settle(Handlers.Rpls(old(View()), current))
    {
      hide Settle;
      stk.Rpls(current);
      assert stk.Contents() == [NetDown, current];
      Init();
    }

    /** Net Up has the one pause handler, `vc_netup_pause`. */
    method VcPause()
      requires Valid()
      modifies this, stk`top, stk.stkStat
      ensures Valid() && View() == PauseOp(old(View()))
    {
      hide Emit, Settle, Excp;
      if stk.Curnt() == NetUp {
        var ok := SendQfsize(0);
        if !ok {
          ExcpInit();
          return;
        }
        SwapTo(Pause);
      }
    }

    /** SIOCINQ and SIOCOUTQ: whether the call succeeds, and the length of a queue of the socket. */
    method QueueLength() returns (ok: bool, buflen: nat)
      requires Valid()
      modifies this`env
      ensures Valid() && View() == Sleep(old(View())) && (ok, buflen) == (Await(old(env)).1.ok, Await(old(env)).1.val)
    {
      hide Await, Shaped;
      var (e, io) := Await(env);
      env := e;
      return io.ok, io.val;
    }

    /** Pause has the one resume handler, `vc_pause_resume`. */
    method VcResume()
      requires Valid()
      modifies this, stk`top, stk.stkStat
      ensures Valid() && View() == Resume(old(View()))
    {
      hide Emit, Settle, Await, Excp;
      if stk.Curnt() == Pause {
        var ok, buflen := QueueLength();
        if !ok {
          ExcpInit();
          return;
        }
        if buflen > 0 {
          return;
        }
        ok := SendQfsize(1024);
        if !ok {
          ExcpInit();
          return;
        }
        SwapTo(NetUp);
      }
    }

    /** `vc_netup_event` and `vc_pause_event`. */
    method VcEvent() returns (rfds: bool, wfds: bool)
      requires Valid()
      modifies this, stk`top
      ensures Valid() && (View(), rfds, wfds) == Event(old(View()))
    {
      hide Settle, Await, Excp;
      rfds, wfds := false, false;
      match stk.Curnt() {
        case NetUp =>
          rfds := xmitPending == 0;
        case Pause =>
          var ok, buflen := QueueLength();
          if !ok {
            ExcpInit();
            return;
          }
          if buflen > 0 {
            return;
          }
          rfds := xmitPending == 0;
          wfds := true;
        case _ =>
      }
    }

    method VcPoll()
      requires Valid()
      modifies this, stk`top, stk.stkStat
      ensures Valid() && View() == Poll(old(View()))
    {
      hide IdleInit, Excp;
      match stk.Curnt() {
        case NetUp =>
          PushState(Idle);
          Init();
        case Pause =>
          PushState(Idle);
          Init();
        case Idle => ExcpInit();
        case _ =>
      }
    }

    method VcErr()
      requires Valid()
      modifies this, stk`top
      ensures Valid() && View() == Err(old(View()))
    {
      if stk.Curnt() != NetDown {
        ExcpInit();
      }
    }

    /** Idle only notes, for the theorems, what it drops. */
    method VcRecv(ghost p: Pkt)
      requires Valid() && Holds(rbuf[..], 0, HDR_LEN + |p.ext|, p)
      modifies this, stk`top, stk.stkStat
      ensures Valid() && View() == Recv(old(View()), p)
    {
      hide SyncRecv, CommonRecv, Settle, Encode;
      match stk.Curnt() {
        case NetDown =>
        case Sync =>
          var modem := VcSyncRecv(rbuf, p);
        case Idle =>
          DecodeHeld(rbuf[..], p);
          env := env.(net := Discard(env.net, Decode(rbuf[..])));
          PopInit();
        case _ => VcCommonRecv(p);
      }
    }

    // ----- vcom_client.c

    /**
     `vc_recv_desp`, on the bytes of the socket. `counts` is what its calls of `recv` return; `reading` says how that
     looks to `Handlers.RecvDesp`.
     */
    method VcRecvDesp(counts: Counts) returns (ghost reading: Reading)
      requires Valid() && counts.b1 >= 0
      modifies this, stk`top, stk.stkStat, rbuf
      ensures Valid() && View() == RecvDesp(old(View()), reading)
      ensures reading == HowRead(Input(old(rbuf[..]), EncodeAll(old(env).net.down)), counts)
    {
      hide RecvPayload, UpdateTx, UpdateRx, UpdateAttr, Excp, Err, Header, HowRead, RestRead, EncodeAll, Encode, Shaped, Fits;
      var down := env.net.down;
      ghost var i := Input(rbuf[..], EncodeAll(down));
      var sock := new Sock(EncodeAll(down));
      var how := sock.RecvHeader(rbuf, counts);
      reading := HowRead(i, counts);
      HeaderOfQueue(i, down, counts);
      if how == Closed {
        ExcpInit();
        return;
      }
      if how == ShortHeader {
        VcErr();
        return;
      }
      RecvNext(sock, counts);
    }

    /** What follows the header: the packet leaves the queue, and is read to its end and handled. */
    method RecvNext(sock: Sock, counts: Counts)
      requires Valid() && counts.b1 >= 0 && env.net.down != [] && sock.stream == env.net.down[0].ext + EncodeAll(env.net.down[1..])
      requires rbuf[..HDR_LEN] == Encode(env.net.down[0])[..HDR_LEN] && FromBe16(rbuf[8..10]) == env.net.down[0].cmd
      modifies this, stk`top, stk.stkStat, rbuf, sock
      ensures Valid()
      ensures var w := old(View());
              var (p, w1) := (w.env.net.down[0], w.(env := w.env.(net := w.env.net.(down := w.env.net.down[1..]))));
              View() == RecvPayload(if p.cmd == CMD_DATAREADY then UpdateTx(w1) else w1, p,
                                    RestRead(Input(old(rbuf[..]), old(sock.stream)), |p.ext|, counts))
    {
      hide RecvPayload, UpdateTx, UpdateRx, UpdateAttr, RestRead, EncodeAll, Encode, FromBe16, Shaped, Fits;
      var down := env.net.down;
      env := env.(net := env.net.(down := down[1..]));
      Prepare(down[0]);
      RecvRest(sock, counts, down[0], EncodeAll(down[1..]));
    }

    /** Before a DATAREADY packet, the downlink snapshot is refreshed. */
    method Prepare(ghost p: Pkt)
      requires Valid() && FromBe16(rbuf[8..10]) == p.cmd
      modifies this`env, this`rx, this`tx, this`attrPtr
      ensures Valid() && View() == if p.cmd == CMD_DATAREADY then UpdateTx(old(View())) else old(View())
    {
      hide UpdateTx, UpdateRx, UpdateAttr;
      var cmd := FromBe16(rbuf[8..10]);
      if cmd == CMD_DATAREADY {
        VcBufUpdate(VcBufTx);
      }
    }

    /** The rest of `vc_recv_desp`, once the header is read. */
    method RecvRest(sock: Sock, counts: Counts, ghost p: Pkt, ghost rest: seq<byte>)
      requires Valid() && counts.b1 >= 0
      requires rbuf[..HDR_LEN] == Encode(p)[..HDR_LEN] && sock.stream == p.ext + rest
      modifies this, stk`top, stk.stkStat, rbuf, sock
      ensures Valid()
      ensures View() == RecvPayload(old(View()), p, RestRead(Input(old(rbuf[..]), old(sock.stream)), |p.ext|, counts))
      ensures |p.ext| <= RBUF_SIZE - HDR_LEN && RestRead(Input(old(rbuf[..]), old(sock.stream)), |p.ext|, counts) == Whole ==>
                sock.stream == rest
    {
      hide Payload, Await, Err, Recv, Encode, Shaped;
      ghost var i := Input(rbuf[..], sock.stream);
      LenOfHeader(p, rbuf[..]);
      assert rbuf[..][10..12] == rbuf[10..12];
      var packetLen := FromBe16(rbuf[10..12]);
      if packetLen > RBUF_SIZE - HDR_LEN {
        VcErr();
        return;
      }
      env := Await(env).0;
      var how := sock.RecvPayload(rbuf, packetLen, counts);
      if how == ShortPayload {
        ShortOnlyIfSome(i, counts);
        VcErr();
        return;
      }
      PayloadAligned(i, p.ext, rest, counts);
      HeldAgain(rbuf[..], i.buf, p);
      VcRecv(p);
    }

    /** The first comparisons of the main loop: open or close, then the other settings. */
    method FollowAttr()
      requires Valid()
      modifies this, stk`top, stk.stkStat
      ensures Valid() && View() == Reconcile(OpenClose(old(View())))
    {
      hide Open, Close, Ioctl, Shaped;
      if eki.isOpen != AttrP().isOpen {
        if AttrP().isOpen {
          VcOpen();
        } else {
          VcClose();
        }
      }
      if AttrP().(isOpen := true) != eki.(isOpen := true) {
        VcIoctl();
      }
    }

    /** Then the rings. */
    method FollowRings()
      requires Valid()
      modifies this, stk`top, stk.stkStat
      ensures Valid() && View() == TakeCreditBack(SendPending(old(View())))
    {
      hide Xmit, PauseOp, Shaped;
      if xmitPending == 0 {
        if rx.head != rx.tail {
          VcXmit();
        }
      }
      if tx.head != tx.tail {
        VcPause();
      }
    }

    /** The part of a turn of the main loop before `select`. */
    method BeforeSelect() returns (rfds: bool, wfds: bool)
      requires Valid()
      modifies this, stk`top, stk.stkStat
      ensures Valid() && (View(), rfds, wfds) == Before(old(View()))
    {
      hide OpenClose, Reconcile, SendPending, TakeCreditBack, Event, IocInter, Shaped;
      FollowAttr();
      FollowRings();
      rfds, wfds := VcEvent();
      env := IocInter(env);
    }

    /** A wakeup without a packet; too much time without one ends the connection. */
    method CountTime(used: nat)
      requires Valid()
      modifies this, stk`top
      ensures Valid()
      ensures var (w, l) := (old(View()), old(lrecv) + if used > 0 then used else 1);
              View() == if l > VC_PULL_TIME then Err(w).(lrecv := 0) else w.(lrecv := l)
    {
      hide Err, Shaped;
      ghost var w := View();
      lrecv := lrecv + if used > 0 then used else 1;
      if lrecv > VC_PULL_TIME {
        ErrForgetsClock(w, lrecv);
        VcErr();
        lrecv := 0;
      }
    }

    /** The part of a turn that deals with the socket: a packet, or time without one. */
    method Listen(wake: Wake, counts: Counts) returns (ghost reading: Reading)
      requires Valid() && wake.Ready? && counts.b1 >= 0
      modifies this, stk`top, stk.stkStat, rbuf
      ensures Valid() && View() == Hear(old(View()), wake.(reading := reading))
      ensures sk >= 0 && wake.sk ==> reading == HowRead(Input(old(rbuf[..]), EncodeAll(old(env).net.down)), counts)
    {
      hide RecvDesp, Err, Shaped, HowRead, EncodeAll;
      reading := Closed;
      if sk >= 0 {
        if wake.sk {
          lrecv := 0;
          reading := VcRecvDesp(counts);
        } else {
          CountTime(wake.used);
        }
      }
    }

    /** The part of a turn after `select`. */
    method React(rfds: bool, wfds: bool, wake: Wake, counts: Counts) returns (ghost seen: Wake)
      requires Valid() && counts.b1 >= 0
      modifies this, stk`top, stk.stkStat, rbuf
      ensures Valid() && View() == AfterSelect(old(View()), rfds, wfds, seen)
      ensures SeenAs(seen, wake)
    {
      hide Hear, Resume, Poll, UpdateRx, UpdateTx, UpdateAttr, Shaped, HowRead, EncodeAll;
      seen := wake;
      match wake {
        case Timeout => VcPoll();
        case Ready(_, pri, _, _, rdReady, wrReady) =>
          if pri {
            VcBufUpdate(VcBufAttr);
          }
          ghost var reading := Listen(wake, counts);
          seen := wake.(reading := reading);
          if rfds && rdReady {
            VcBufUpdate(VcBufRx);
          }
          if wfds && wrReady {
            VcBufUpdate(VcBufTx);
            VcResume();
          }
      }
    }

    /**
     One turn of the main loop. `script` says how its system calls go, `wake` what `select` reports, `counts` what `recv`
     returns; `tick` is the turn that `Handlers.Turn` sees.
     */
    method Turn(script: seq<IoStep>, wake: Wake, counts: Counts) returns (ghost tick: Tick)
      requires Valid() && counts.b1 >= 0
      modifies this, stk`top, stk.stkStat, rbuf
      ensures Valid() && View() == Handlers.Turn(old(View()), tick) && tick.io == script && SeenAs(tick.wake, wake)
    {
      hide Before, AfterSelect, Await, Shaped;
      env := env.(io := script);
      var rfds, wfds := BeforeSelect();
      env := Await(env).0;
      ghost var seen := React(rfds, wfds, wake, counts);
      tick := Tick(script, seen);
    }

    /** The main loop, for any number of turns. */
    method Serve(script: seq<(seq<IoStep>, Wake, Counts)>) returns (ghost ticks: seq<Tick>)
      requires Valid() && forall i :: 0 <= i < |script| ==> script[i].2.b1 >= 0
      modifies this, stk`top, stk.stkStat, rbuf
      ensures Valid() && View() == Run(old(View()), ticks)
      ensures |ticks| == |script|
      ensures forall i :: 0 <= i < |script| ==> ticks[i].io == script[i].0 && SeenAs(ticks[i].wake, script[i].1)
    {
      hide Handlers.Turn;
      ticks := [];
      ghost var w := View();
      for i := 0 to |script|
        invariant Valid() && View() == Run(w, ticks)
        invariant |ticks| == i
        invariant forall j :: 0 <= j < i ==> ticks[j].io == script[j].0 && SeenAs(ticks[j].wake, script[j].1)
      {
        ghost var tick := Turn(script[i].0, script[i].1, script[i].2);
        RunMore(w, ticks, tick);
        ticks := ticks + [tick];
      }
    }
  }
}
