/**
 What the driver does, on the contents of its rings: the operations of the serial core and the daemon's requests, without the
 ring arithmetic and without naming the functions that copy.
 */
module Requests {
  import opened Words
  import opened Rings
  import opened Attributes
  import opened Worlds
  import opened Pipes

  // ----- delivery to the tty

  /** The driver hands received data to the tty only while the port is not throttled and its ring is enabled. */
  predicate Delivers(e: Env) { !e.throttled && e.tx.enabled }

  /** A tty that takes all it is offered, twice. */
  predicate Eager(takes: seq<nat>, size: nat) { |takes| >= 2 && takes[0] >= size && takes[1] >= size }

  /** From `held` to what is left: nothing goes while nothing is delivered, all goes to an eager tty, and always a prefix. */
  predicate Handed(e: Env, held: seq<byte>, takes: seq<nat>, f: Env) {
    && |f.tx.Contents()| <= |held| && f.tx.Contents() == held[|held| - |f.tx.Contents()|..]
    && (!Delivers(e) ==> f.tx.Contents() == held)
    && (Delivers(e) && Eager(takes, |e.tx.buf|) ==> f.tx.Contents() == [])
    && (Delivers(e) && |takes| >= 1 && takes[0] == 0 ==> f.tx.Contents() == held)
  }

  /** A delivery of three partial offers. */
  lemma PartsAreHanded(e: Env, a: nat, b: nat, c: nat, more: seq<nat>)
    requires Delivers(e) && a > 0 && b > 0 && c > 0 && a + b + c <= LLength(e.tx.head, e.tx.tail, |e.tx.buf|)
    ensures RecvChars(e, [a, b, c] + more).tx.Contents() == e.tx.Contents()[a + b + c..]
  {
    hide Span, Mark, Taken;
    ThreeOffers(e.tx, a, b, c, more);
    PopContents(e.tx, a + b + c);
  }

  lemma RecvCharsMeans(e: Env, takes: seq<nat>)
    ensures Handed(e, e.tx.Contents(), takes, RecvChars(e, takes))
  {
    hide Span, Mark;
    var n := if e.throttled || !e.tx.enabled then 0 else Taken(e.tx, takes, 3);
    PopContents(e.tx, n);
    assert |e.tx.Contents()| == e.tx.Len();
    if Eager(takes, |e.tx.buf|) {
      EagerTtyEmptiesRing(e.tx, takes, 3);
    }
  }

  /** A tty that takes a part of each offer is offered the rest, three times in all. */
  lemma ThreeOffers(r: Ring, a: nat, b: nat, c: nat, more: seq<nat>)
    requires r.Ok() && !r.clean && a > 0 && b > 0 && c > 0 && a + b + c <= LLength(r.head, r.tail, |r.buf|)
    ensures Taken(r, [a, b, c] + more, 3) == a + b + c
  {
    PopContents(r, a);
    var s := r.MoveHead(a);
    PopContents(s, b);
    var t := s.MoveHead(b);
    PopContents(t, c);
    assert ([a, b, c] + more)[1..] == [b, c] + more && ([b, c] + more)[1..] == [c] + more;
    assert Taken(t.MoveHead(c), ([c] + more)[1..], 0) == 0;
    assert Taken(t, [c] + more, 1) == c;
    assert Taken(s, [b, c] + more, 2) == b + c;
  }

  /** An offer of which the tty takes nothing is the last one. */
  lemma RefusalEndsIt(r: Ring, more: seq<nat>, tries: nat)
    requires r.Ok() && !r.clean
    ensures Taken(r, [0] + more, tries) == 0
  {
  }

  /** ADVVCOM_IOCSTXTAIL: the bytes left behind the tail are published, and the tty gets what it takes. */
  lemma TailMoveDelivers(e: Env, data: seq<byte>)
    requires e.tx.Staged(data) && Conserved(e)
    ensures var ((e1, io), f) := (Await(e), IocTxTail(e, data));
            Handed(e1, e1.tx.Contents() + data, io.takes, f) && f.hist.accepted == e1.hist.accepted + data
  {
    hide Await, Span, RecvChars, Mark;
    AwaitBase(e, false);
    var (e1, io) := Await(e);
    PublishContents(e1.tx, data);
    var e2 := e1.(tx := e1.tx.MoveTail(|data|), hist := e1.hist.(accepted := e1.hist.accepted + data));
    RecvCharsMeans(e2, io.takes);
    AcceptedStays(e2, io.takes);
  }

  /** ADVVCOM_IOCSINTER: the tty gets what it takes. */
  lemma InterDelivers(e: Env)
    ensures var ((e1, io), f) := (Await(e), IocInter(e));
            Handed(e1, e1.tx.Contents(), io.takes, f)
  {
    hide Await, Span, XmitCopy, RecvChars;
    var (e1, io) := Await(e);
    RecvCharsMeans(e1, io.takes);
    RecvCharsMeans(XmitCopy(e1), io.takes);
    CopyKeepsDownlink(e1);
  }

  lemma CopyKeepsDownlink(e: Env)
    ensures XmitCopy(e).tx == e.tx && XmitCopy(e).throttled == e.throttled
  {
    hide Fill;
  }

  // ----- the operations of the serial core

  /** Opening and closing, and the switches of the two rings. */
  lemma SwitchesMean(e: Env)
    ensures var f := Step(e, Startup); f.att.attr.isOpen && !f.throttled && f.rx.enabled && f.tx.enabled
    ensures Step(e, Shutdown) == e.(att := e.att.(attr := e.att.attr.(isOpen := false)))
    ensures Step(e, Throttle) == e.(throttled := true)
    ensures Step(e, StopTx) == e.(rx := e.rx.(enabled := false)) && Step(e, StopRx) == e.(tx := e.tx.(enabled := false))
    ensures Step(e, Startup).(att := e.att, throttled := e.throttled, rx := e.rx, tx := e.tx) == e
    ensures Step(e, Startup).rx.(enabled := e.rx.enabled) == e.rx && Step(e, Startup).tx.(enabled := e.tx.enabled) == e.tx
  {
  }

  /** Starting transmission copies as much of the circular buffer as the uplink ring has room for. */
  lemma StartTxFills(e: Env)
    ensures var (f, n) := (Step(e, StartTx), Min(|e.circ|, |e.rx.buf| - 1 - |e.rx.Contents()|));
            f.rx.enabled && f.rx.Contents() == e.rx.Contents() + e.circ[..n] && f.circ == e.circ[n..]
  {
    hide Span;
    var e1 := e.(rx := e.rx.(enabled := true));
    PushContents(e1.rx, e1.circ[..Min(|e1.circ|, e1.rx.Free())]);
  }

  /** Unthrottling delivers. */
  lemma UnthrottleDelivers(e: Env, takes: seq<nat>)
    ensures var f := Step(e, Unthrottle(takes));
            !f.throttled && Handed(e.(throttled := false), e.tx.Contents(), takes, f)
  {
    hide RecvChars, Span;
    RecvCharsMeans(e.(throttled := false), takes);
    ThrottleStays(e.(throttled := false), takes);
  }

  lemma ThrottleStays(e: Env, takes: seq<nat>)
    ensures RecvChars(e, takes).throttled == e.throttled
  {
  }
}
