/**
 The kernel driver in the form of its source: the state of one port, updated in place by the operations of the serial core
 and by the daemon's ioctls. Each is proved to change the world as the function of `Worlds` of the same name says.
 A ring is named as the daemon names it: the driver's transmit ring is `rx`.
 */
module Driver {
  import opened Words
  import opened Rings
  import opened Attributes
  import opened UartDriver
  import opened Worlds

  /** A system call that finds the world as it is, and the tty willing to take so much. */
  function Calling(e: Env, takes: seq<nat>): Env { e.(io := [IoStep([], true, 0, 0, takes, [0, 0, 0, 0])]) }

  /** The `n` bytes behind the tail of a ring, around the end of its buffer. */
  function Behind(r: Ring, n: nat): (data: seq<byte>)
    requires r.Ok()
    ensures |data| == n
  {
    seq(n, i requires 0 <= i < n => r.buf[(r.tail + i) % |r.buf|])
  }

  /** What the daemon staged is what it publishes. */
  lemma StagedIsBehind(r: Ring, data: seq<byte>)
    requires r.Ok() && r.Staged(data)
    ensures Behind(r, |data|) == data
  {
    forall i | 0 <= i < |data| ensures Behind(r, |data|)[i] == data[i] {
      ModOnce(r.tail + i, |r.buf|);
    }
  }

  /** `struct adv_vcom` with its uart port; `hist` and `net` are kept for the theorems. */
  class AdvVcom {
    const rx: RingBuf
    const tx: RingBuf
    const xmit: CircBuf
    const attr: AdvPortAtt
    var throttled: bool
    ghost var hist: Hist
    ghost var net: Net

    ghost predicate Valid()
      reads this, rx, tx, xmit, attr
    {
      && rx.Valid() && tx.Valid() && xmit.Valid() && attr.Valid() && !tx.clean
      && rx != tx && rx.data != tx.data && xmit.buf != rx.data && xmit.buf != tx.data
    }

    ghost function View(): Env
      reads this, rx, rx.data, tx, tx.data, xmit, xmit.buf, attr, attr.data
      requires Valid()
    {
      Env(rx.View(), tx.View(), xmit.Contents(), attr.View(), throttled, net, hist, [])
    }

    /** `adv_main_init`, with an empty circular buffer of the serial core. */
    constructor (size: nat, circSize: nat)
      requires size > 0 && circSize > 0
      ensures Valid() && fresh({rx, tx, xmit, attr}) && fresh({rx.data, tx.data, xmit.buf}) && fresh(attr.data)
      ensures var e := View();
              && e.rx.Contents() == e.tx.Contents() == e.circ == [] && e.hist == Hist([], [], [], [], [])
              && !e.rx.clean && !e.throttled && e.att == AttrBuf(ZERO_INFO, [ZERO_INFO, ZERO_INFO], 0, true)
    {
      rx := new RingBuf(size);
      tx := new RingBuf(size);
      xmit := new CircBuf(circSize);
      attr := new AdvPortAtt();
      throttled, hist, net := false, Hist([], [], [], [], []), NO_NET;
    }

    // ----- the serial core's operations: adv_uart.c

    method StopTx()
      requires Valid()
      modifies rx`enabled
      ensures Valid() && View() == Step(old(View()), EnvStep.StopTx)
    {
      rx.enabled := false;
    }

    method StartTx()
      requires Valid()
      modifies rx`enabled, rx`tail, rx.data, xmit`tail
      ensures Valid() && View() == Step(old(View()), EnvStep.StartTx)
    {
      hide Span, Room, Fill, Length;
      rx.enabled := true;
      ghost var e := View();
      assert e == old(View()).(rx := old(View()).rx.(enabled := true));
      AdvUartXmit(xmit, rx);
    }

    method StopRx()
      requires Valid()
      modifies tx`enabled
      ensures Valid() && View() == Step(old(View()), EnvStep.StopRx)
    {
      tx.enabled := false;
    }

    method Startup()
      requires Valid()
      modifies this`throttled, rx`enabled, tx`enabled, attr`attr
      ensures Valid() && View() == Step(old(View()), EnvStep.Startup)
    {
      attr.attr := attr.attr.(isOpen := true);
      throttled := false;
      tx.enabled := true;
      rx.enabled := true;
    }

    method Shutdown()
      requires Valid()
      modifies attr`attr
      ensures Valid() && View() == Step(old(View()), EnvStep.Shutdown)
    {
      attr.attr := attr.attr.(isOpen := false);
    }

    method SetTermios(t: Termios)
      requires Valid()
      modifies attr`attr
      ensures Valid() && View() == Step(old(View()), EnvStep.SetTermios(t))
    {
      hide TermiosInfo, Span;
      attr.attr := ReadTermios(attr.attr, t);
    }

    method SetMctrl(rts: bool, dtr: bool)
      requires Valid()
      modifies attr`attr
      ensures Valid() && View() == Step(old(View()), EnvStep.SetMctrl(rts, dtr))
    {
      var status: int := 0;
      if rts {
        status := status + MS_RTS;
      }
      if dtr {
        status := status + MS_DTR;
      }
      attr.attr := attr.attr.(ms := status);
    }

    method Throttle()
      requires Valid()
      modifies this`throttled
      ensures Valid() && View() == Step(old(View()), EnvStep.Throttle)
    {
      throttled := true;
    }

    method Unthrottle(takes: seq<nat>)
      requires Valid()
      modifies this`throttled, this`hist, tx`head, tx`clean
      ensures Valid() && View() == Step(old(View()), EnvStep.Unthrottle(takes))
    {
      hide Taken, Span;
      throttled := false;
      Deliver(takes);
    }

    /** `adv_uart_recv_chars`. */
    method Deliver(takes: seq<nat>)
      requires Valid()
      modifies this`hist, tx`head, tx`clean
      ensures Valid() && View() == RecvChars(old(View()), takes)
    {
      hide Taken, Span;
      var delivered := AdvUartRecvChars(tx, throttled, takes);
      hist := hist.(downGone := hist.downGone + Mark(delivered, true));
    }

    // ----- the daemon's requests: adv_main.c

    /** ADVVCOM_IOCSTXTAIL: the bytes published are those the daemon left behind the tail. */
    method SetTxTail(tmp: nat, takes: seq<nat>)
      requires Valid()
      modifies this`hist, tx`head, tx`tail, tx`clean
      ensures Valid() && View() == IocTxTail(Calling(old(View()), takes), Behind(old(View()).tx, tmp))
    {
      hide Taken, Span, Behind;
      ghost var data := Behind(tx.View(), tmp);
      tx.MoveTail(tmp);
      hist := hist.(accepted := hist.accepted + data);
      Deliver(takes);
    }

    /** ADVVCOM_IOCSRXHEAD. */
    method SetRxHead(tmp: nat)
      requires Valid()
      modifies this`hist, this`net, rx`head, rx`clean
      ensures Valid() && View() == IocRxHead(old(View()), tmp)
    {
      hide Span;
      ghost var e := View();
      rx.MoveHead(tmp);
      hist, net := IocRxHead(e, tmp).hist, IocRxHead(e, tmp).net;
    }

    /** ADVVCOM_IOCGATTRPTR. */
    method GetAttrPtr() returns (tmp: nat)
      requires Valid()
      modifies attr`newbie, attr`usrPtr, attr.data
      ensures Valid() && (View(), tmp) == IocAttrPtr(old(View()))
    {
      tmp := attr.FlushAttrInfo();
    }

    /** ADVVCOM_IOCSINTER with both flags: `adv_uart_update_xmit`, then `adv_uart_recv_chars`. */
    method SetInter(takes: seq<nat>)
      requires Valid()
      modifies this`hist, tx`head, tx`clean, rx`tail, rx.data, xmit`tail
      ensures Valid() && View() == IocInter(Calling(old(View()), takes))
    {
      hide Taken, Span, Room, Fill;
      if attr.attr.isOpen {
        if rx.head == rx.tail {
          AdvUartXmit(xmit, rx);
        }
      }
      Deliver(takes);
    }

    /** ADVVCOM_IOCSCLR with both flags: the uplink ring is marked, the downlink ring is flushed at once. */
    method SetClr()
      requires Valid()
      modifies this`hist, rx`clean, tx`head, tx`clean
      ensures Valid() && View() == IocClear(old(View()))
    {
      hide Span;
      ghost var e := View();
      rx.clean := true;
      tx.ClearNow();
      hist := IocClear(e).hist;
    }

    /** `adv_proc_poll`: readable, writable, and a priority event. */
    method Poll() returns (pollIn: bool, pollOut: bool, pollPri: bool)
      requires Valid()
      ensures pollIn <==> rx.enabled && View().rx.Contents() != []
      ensures pollOut <==> tx.enabled && View().tx.Contents() == [] && !throttled
      ensures pollPri <==> var (a, slot) := (View().att.attr, View().att.slots[View().att.ptr]);
                           a != slot && (a.isOpen || slot.isOpen)
    {
      pollIn, pollOut, pollPri := false, false, false;
      if rx.enabled {
        pollIn := rx.head != rx.tail;
      }
      if tx.enabled {
        pollOut := tx.head == tx.tail;
      }
      if throttled {
        pollOut := false;
      }
      var attrUsr := attr.data[attr.usrPtr];
      if attr.attr != attrUsr {
        if attr.attr.isOpen {
          pollPri := true;
        } else if attr.attr.isOpen != attrUsr.isOpen {
          pollPri := true;
        }
      }
    }
  }
}
