/**
 What every step of the world and every system call of the daemon keeps about the two byte pipes: no byte is lost,
 duplicated or reordered, and the device and the daemon agree on what has been accepted.
 */
module Pipes {
  import opened Words
  import opened Packets
  import opened Rings
  import opened Worlds

  /** Every byte that entered a pipe has left it or is still in it, in order. */
  predicate Conserved(e: Env) {
    && Bytes(e.hist.upGone) + e.rx.Contents() + e.circ == e.hist.written
    && Bytes(e.hist.downGone) + e.tx.Contents() == e.hist.accepted
  }

  // ----- devices that answer each request at most once, and nothing else

  predicate Honest(s: EnvStep) { s.DevInject? ==> s.pkt.cmd != CMD_WRITE && s.pkt.cmd != CMD_IOCTL }

  predicate HonestSteps(ss: seq<EnvStep>) { forall i :: 0 <= i < |ss| ==> Honest(ss[i]) }

  predicate HonestIo(io: seq<IoStep>) { forall i :: 0 <= i < |io| ==> HonestSteps(io[i].env) }

  /** The packets of a queue that are of some kind, in order. */
  function Filter(ps: seq<Pkt>, kind: Pkt -> bool): seq<Pkt> {
    if ps == [] then [] else (if kind(ps[0]) then [ps[0]] else []) + Filter(ps[1..], kind)
  }

  lemma {:induction false} FilterConcat(a: seq<Pkt>, b: seq<Pkt>, kind: Pkt -> bool)
    ensures Filter(a + b, kind) == Filter(a, kind) + Filter(b, kind)
  {
    if a == [] {
      assert a + b == b;
    } else {
      FilterConcat(a[1..], b, kind);
      HeadAndTail(a, b);
      Assoc(if kind(a[0]) then [a[0]] else [], Filter(a[1..], kind), Filter(b, kind));
    }
  }

  /** A queue of one packet holds it or nothing of each kind. */
  lemma FilterOne(p: Pkt, kind: Pkt -> bool)
    ensures Filter([p], kind) == if kind(p) then [p] else []
  {
    assert Filter([p][1..], kind) == [];
  }

  lemma FilterAdd(ps: seq<Pkt>, p: Pkt, kind: Pkt -> bool)
    ensures Filter(ps + [p], kind) == Filter(ps, kind) + if kind(p) then [p] else []
  {
    FilterConcat(ps, [p], kind);
    FilterOne(p, kind);
  }

  /**
   The stop-and-wait protocol, with `k` bytes awaiting an answer. At most one WRITE is under way, held by the device, or
   answered; a WRITE carries the first `k` bytes of the ring; an answer tells truly whether the device took them. What the
   device took on this connection is what was retired on it, followed by the bytes taken but not yet retired.
   */
  predicate StopAndWait(e: Env, k: nat) {
    var (u, d, n) := (Filter(e.net.up, IsWrite), Filter(e.net.down, IsWrite), e.net);
    && k <= e.rx.Len() && |u| + |n.held| + |d| <= 1
    && (k == 0 ==> u == n.held == d == []) && (n.unacked == 0 || n.unacked == k)
    && (|u| == 1 ==> u[0].ext == e.rx.Contents()[..k] && n.unacked == 0)
    && (|n.held| == 1 ==> IsWrite(n.held[0]) && |n.held[0].ext| == k && n.unacked == k)
    && (|d| == 1 ==> d[0].pid == MAGIC && d[0].ext == [] && d[0].p2 == k
                     && (d[0].p1 == STATUS_SUCCESS <==> n.unacked == k))
    && n.mark <= |e.hist.upGone|
    && n.taken == Bytes(e.hist.upGone[n.mark..]) + e.rx.Contents()[..n.unacked]
  }

  /** Since the connection was made, bytes have left the uplink ring only by being acknowledged. */
  predicate Unflushed(e: Env) {
    forall i :: e.net.mark <= i < |e.hist.upGone| ==> e.hist.upGone[i].Passed?
  }

  /** Event registrations under way: requests on their way to the device, answers on their way back, and lost ones. */
  function Registrations(n: Net): nat {
    |Filter(n.up, IsMaskRequest)| + |Filter(n.down, IsMaskReply)| + n.dropped
  }

  // ----- the driver's copies

  /** A producer step: the uplink ring grows at its end, the downlink ring shrinks at its front. */
  predicate Advances(e: Env, f: Env) {
    && e.rx.Contents() <= f.rx.Contents()
    && f.tx.Len() <= e.tx.Len() && f.tx.Contents() == e.tx.Contents()[e.tx.Len() - f.tx.Len()..]
  }

  lemma BytesConcat(a: seq<Fate>, b: seq<Fate>)
    ensures Bytes(a + b) == Bytes(a) + Bytes(b)
  {
  }

  lemma BytesMark(bs: seq<byte>, passed: bool)
    ensures Bytes(Mark(bs, passed)) == bs
  {
  }

  lemma XmitCopyFlows(e: Env)
    requires Conserved(e)
    ensures Conserved(XmitCopy(e)) && Advances(e, XmitCopy(e))
  {
    var k := Min(|e.circ|, e.rx.Free());
    PushContents(e.rx, e.circ[..k]);
    assert e.circ == e.circ[..k] + e.circ[k..];
  }

  lemma RecvCharsFlows(e: Env, takes: seq<nat>)
    requires Conserved(e)
    ensures Conserved(RecvChars(e, takes)) && Advances(e, RecvChars(e, takes))
  {
    hide Span, Taken, Mark, Bytes, Wrap;
    var n := if e.throttled || !e.tx.enabled then 0 else Taken(e.tx, takes, 3);
    PopContents(e.tx, n);
    var out := e.tx.Contents()[..n];
    BytesConcat(e.hist.downGone, Mark(out, true));
    BytesMark(out, true);
    assert e.tx.Contents() == out + e.tx.Contents()[n..];
  }

  lemma StepConserves(e: Env, s: EnvStep)
    requires Conserved(e)
    ensures Conserved(Step(e, s)) && Advances(e, Step(e, s))
  {
    hide XmitCopy, RecvChars, Span, Bytes, DevStep, Length;
    match s
    case AppWrite(bytes) => Assoc(Bytes(e.hist.upGone) + e.rx.Contents(), e.circ, bytes);
    case StartTx => XmitCopyFlows(e.(rx := e.rx.(enabled := true)));
    case Unthrottle(takes) => RecvCharsFlows(e.(throttled := false), takes);
    case _ =>
  }

  // ----- the device's steps

  /** The protocol does not notice that the ring grows. */
  lemma GrowthIsSafe(e: Env, f: Env, k: nat)
    requires StopAndWait(e, k) && f.net == e.net && f.hist.upGone == e.hist.upGone && e.rx.Contents() <= f.rx.Contents()
    ensures StopAndWait(f, k)
  {
    hide Filter, Span, Bytes;
    assert f.rx.Contents()[..k] == e.rx.Contents()[..k];
    assert f.rx.Contents()[..e.net.unacked] == e.rx.Contents()[..e.net.unacked];
  }

  /** The oldest request leaves the queue. */
  lemma Dequeue(ps: seq<Pkt>, kind: Pkt -> bool)
    requires ps != []
    ensures Filter(ps, kind) == (if kind(ps[0]) then [ps[0]] else []) + Filter(ps[1..], kind)
  {
  }

  lemma ReplyKinds(q: Pkt, status: u32, ext: Ext)
    ensures Filter(Reply(q, status, ext), IsWrite) == if IsWrite(q) then [Pkt(MAGIC, q.tid, CMD_WRITE, status, |q.ext|, [])] else []
    ensures |Filter(Reply(q, status, ext), IsMaskReply)| == if IsMaskRequest(q) then 1 else 0
  {
    forall p: Pkt, kind: Pkt -> bool ensures Filter([p], kind) == if kind(p) then [p] else [] {
      FilterOne(p, kind);
    }
  }

  /** A request leaves the queue, wherever it stands. */
  lemma TakenOut(ps: seq<Pkt>, at: nat, kind: Pkt -> bool)
    requires at < |ps|
    ensures |Filter(ps, kind)| == |Filter(Without(ps, at), kind)| + if kind(ps[at]) then 1 else 0
    ensures !kind(ps[at]) ==> Filter(ps, kind) == Filter(Without(ps, at), kind)
    ensures kind(ps[at]) && |Filter(ps, kind)| == 1 ==> Filter(ps, kind) == [ps[at]]
  {
    hide Filter;
    var (before, after, one) := (ps[..at], ps[at + 1..], [ps[at]]);
    assert ps == before + (one + after);
    FilterConcat(before, one + after, kind);
    FilterConcat(one, after, kind);
    FilterConcat(before, after, kind);
    FilterOne(ps[at], kind);
  }

  lemma DevAnswerIsSafe(e: Env, at: nat, status: u32, ext: Ext, k: nat)
    requires StopAndWait(e, k) && at < |e.net.up|
    ensures var f := Step(e, DevAnswer(at, status, ext));
            StopAndWait(f, k) && Registrations(f.net) == Registrations(e.net)
  {
    hide Filter, Span, Bytes, Reply, Without;
    var n := e.net;
    var q := n.up[at];
    TakenOut(n.up, at, IsWrite);
    TakenOut(n.up, at, IsMaskRequest);
    ReplyKinds(q, status, ext);
    FilterConcat(n.down, Reply(q, status, ext), IsWrite);
    FilterConcat(n.down, Reply(q, status, ext), IsMaskReply);
  }

  lemma DevSilentIsSafe(e: Env, at: nat, take: bool, k: nat)
    requires StopAndWait(e, k) && at < |e.net.up|
    ensures var f := Step(e, DevSilent(at, take));
            StopAndWait(f, k) && Registrations(f.net) == Registrations(e.net)
  {
    hide Filter, Span, Bytes, Without;
    TakenOut(e.net.up, at, IsWrite);
    TakenOut(e.net.up, at, IsMaskRequest);
  }

  lemma DevTakeIsSafe(e: Env, at: nat, k: nat)
    requires StopAndWait(e, k) && at < |e.net.up| && IsWrite(e.net.up[at])
    ensures var f := Step(e, DevTake(at));
            StopAndWait(f, k) && Registrations(f.net) == Registrations(e.net)
  {
    hide Filter, Span, Bytes, Without;
    TakenOut(e.net.up, at, IsWrite);
    TakenOut(e.net.up, at, IsMaskRequest);
  }

  lemma DevReportIsSafe(e: Env, at: nat, k: nat)
    requires StopAndWait(e, k) && at < |e.net.held|
    ensures var f := Step(e, DevReport(at));
            StopAndWait(f, k) && Registrations(f.net) == Registrations(e.net)
  {
    hide Filter, Span, Bytes, Reply;
    var (n, q) := (e.net, e.net.held[at]);
    ReplyKinds(q, STATUS_SUCCESS, []);
    FilterConcat(n.down, Reply(q, STATUS_SUCCESS, []), IsWrite);
    FilterConcat(n.down, Reply(q, STATUS_SUCCESS, []), IsMaskReply);
  }

  lemma DevStepIsSafe(e: Env, s: EnvStep, k: nat)
    requires StopAndWait(e, k) && Honest(s)
    requires IsDevStep(s)
    ensures StopAndWait(Step(e, s), k) && Registrations(Step(e, s).net) == Registrations(e.net)
  {
    hide Filter, Span, Bytes, Reply, Take, Without;
    var n := e.net;
    match s
    case DevAnswer(at, status, ext) =>
      if at < |n.up| {
        DevAnswerIsSafe(e, at, status, ext, k);
      }
    case DevSilent(at, take) =>
      if at < |n.up| {
        DevSilentIsSafe(e, at, take, k);
      }
    case DevTake(at) =>
      if at < |n.up| && IsWrite(n.up[at]) {
        DevTakeIsSafe(e, at, k);
      }
    case DevReport(at) =>
      if at < |n.held| {
        DevReportIsSafe(e, at, k);
      }
    case DevData(payload) =>
      var p := Pkt(MAGIC, 0, CMD_DATAREADY, STATUS_SUCCESS, |payload|, payload);
      FilterAdd(n.down, p, IsWrite);
      FilterAdd(n.down, p, IsMaskReply);
    case DevInject(pkt) =>
      FilterAdd(n.down, pkt, IsWrite);
      FilterAdd(n.down, pkt, IsMaskReply);
  }

  // ----- over all connections

  /** The bytes that left a ring by being passed on. */
  function Retired(gone: seq<Fate>): seq<byte> {
    if gone == [] then []
    else
      var (earlier, last) := (gone[..|gone| - 1], gone[|gone| - 1]);
      Retired(earlier) + if last.Passed? then [last.b] else []
  }

  /** What was retired on a connection is a prefix of what the device took on it, all of it but one WRITE at most. */
  predicate Share(share: seq<byte>, taken: seq<byte>) { share <= taken && |taken| <= |share| + XMIT_LEN }

  /**
   The bytes retired on the connection that starts at `mark` are the device's share of it, and likewise for each
   connection before.
   */
  predicate Accounted(gone: seq<Fate>, visits: seq<Visit>, mark: nat, taken: seq<byte>)
    decreases |visits|
  {
    && mark <= |gone| && Share(Retired(gone[mark..]), taken)
    && if visits == [] then mark == 0
       else
         var last := visits[|visits| - 1];
         last.mark <= mark && Accounted(gone[..mark], visits[..|visits| - 1], last.mark, last.taken)
  }

  lemma {:induction false} RetiredConcat(a: seq<Fate>, b: seq<Fate>)
    ensures Retired(a + b) == Retired(a) + Retired(b)
  {
    if b == [] {
      assert a + b == a;
    } else {
      var n := |b| - 1;
      assert (a + b)[..|a| + n] == a + b[..n] && (a + b)[|a| + n] == b[n];
      RetiredConcat(a, b[..n]);
      Assoc(Retired(a), Retired(b[..n]), if b[n].Passed? then [b[n].b] else []);
    }
  }

  lemma {:induction false} RetiredMark(bs: seq<byte>, passed: bool)
    ensures Retired(Mark(bs, passed)) == if passed then bs else []
  {
    if bs != [] {
      var n := |bs| - 1;
      assert Mark(bs, passed)[..n] == Mark(bs[..n], passed);
      RetiredMark(bs[..n], passed);
      assert bs == bs[..n] + [bs[n]];
    }
  }

  lemma {:induction false} RetiredPassed(gone: seq<Fate>)
    requires forall i :: 0 <= i < |gone| ==> gone[i].Passed?
    ensures Retired(gone) == Bytes(gone)
  {
    if gone != [] {
      var n := |gone| - 1;
      RetiredPassed(gone[..n]);
      assert Bytes(gone) == Bytes(gone[..n]) + [gone[n].b];
    }
  }

  function Flatten(ss: seq<seq<byte>>): seq<byte> {
    if ss == [] then [] else Flatten(ss[..|ss| - 1]) + ss[|ss| - 1]
  }

  /** How much had left the uplink ring when connection `j` was followed by the next one. */
  function MarkAfter(visits: seq<Visit>, mark: nat, j: nat): nat {
    if j + 1 < |visits| then visits[j + 1].mark else mark
  }

  /** Connection `j` retired `share`, what left the uplink ring between its mark and the next, and was not flushed. */
  predicate IsShare(gone: seq<Fate>, visits: seq<Visit>, mark: nat, j: nat, share: seq<byte>)
    requires j < |visits|
  {
    var (from, to) := (visits[j].mark, MarkAfter(visits, mark, j));
    from <= to <= |gone| && share == Retired(gone[from..to]) && Share(share, visits[j].taken)
  }

  /** The retired bytes, cut at the ends of the connections. */
  lemma {:induction false} AccountedMeans(gone: seq<Fate>, visits: seq<Visit>, mark: nat, taken: seq<byte>)
    returns (shares: seq<seq<byte>>)
    requires Accounted(gone, visits, mark, taken)
    ensures |shares| == |visits| + 1 && Flatten(shares) == Retired(gone)
    ensures mark <= |gone| && shares[|visits|] == Retired(gone[mark..]) && Share(shares[|visits|], taken)
    ensures forall j :: 0 <= j < |visits| ==> IsShare(gone, visits, mark, j, shares[j])
    decreases |visits|
  {
    hide Retired, Share, IsShare;
    var share := Retired(gone[mark..]);
    var earlier := [];
    if visits == [] {
      assert gone[0..] == gone;
    } else {
      var n := |visits| - 1;
      earlier := AccountedMeans(gone[..mark], visits[..n], visits[n].mark, visits[n].taken);
      SharesMore(gone, visits, mark, earlier);
      assert gone == gone[..mark] + gone[mark..];
      RetiredConcat(gone[..mark], gone[mark..]);
    }
    shares := earlier + [share];
    assert shares[..|shares| - 1] == earlier;
  }

  lemma SharesMore(gone: seq<Fate>, visits: seq<Visit>, mark: nat, shares: seq<seq<byte>>)
    requires visits != [] && |shares| == |visits| && mark <= |gone|
    requires var n := |visits| - 1;
             && visits[n].mark <= mark && shares[n] == Retired(gone[..mark][visits[n].mark..]) && Share(shares[n], visits[n].taken)
             && forall j :: 0 <= j < n ==> IsShare(gone[..mark], visits[..n], visits[n].mark, j, shares[j])
    ensures forall j :: 0 <= j < |visits| ==> IsShare(gone, visits, mark, j, shares[j])
  {
    hide Retired, Share;
    var n := |visits| - 1;
    forall j | 0 <= j < |visits| ensures IsShare(gone, visits, mark, j, shares[j]) {
      var to := MarkAfter(visits, mark, j);
      if j < n {
        assert IsShare(gone[..mark], visits[..n], visits[n].mark, j, shares[j]);
        assert gone[..mark][visits[j].mark..to] == gone[visits[j].mark..to];
      } else {
        assert gone[..mark][visits[n].mark..] == gone[visits[n].mark..mark];
      }
    }
  }

  lemma ShareMore(share: seq<byte>, more: seq<byte>, taken: seq<byte>, taken2: seq<byte>)
    requires Share(share, taken) && taken <= taken2 && |taken2| <= |share| + XMIT_LEN
    requires more == [] || share + more <= taken2
    ensures Share(share + more, taken2)
  {
    assert share + [] == share;
  }

  /** More taken, and more gone, as long as what is retired was taken. */
  lemma {:induction false} AccountedMore(gone: seq<Fate>, visits: seq<Visit>, mark: nat, taken: seq<byte>, more: seq<Fate>, taken2: seq<byte>)
    requires Accounted(gone, visits, mark, taken) && taken <= taken2
    requires Retired(more) == [] || Retired((gone + more)[mark..]) <= taken2
    requires |taken2| <= |Retired(gone[mark..])| + XMIT_LEN
    ensures Accounted(gone + more, visits, mark, taken2)
  {
    hide Retired, Share;
    assert (gone + more)[mark..] == gone[mark..] + more && (gone + more)[..mark] == gone[..mark];
    RetiredConcat(gone[mark..], more);
    ShareMore(Retired(gone[mark..]), Retired(more), taken, taken2);
  }

  /** A new connection closes the account of the one before. */
  lemma AccountedVisit(gone: seq<Fate>, visits: seq<Visit>, mark: nat, taken: seq<byte>)
    requires Accounted(gone, visits, mark, taken)
    ensures Accounted(gone, visits + [Visit(mark, taken)], |gone|, [])
  {
    var all := visits + [Visit(mark, taken)];
    assert gone[|gone|..] == [] && gone[..|gone|] == gone && all[..|all| - 1] == visits;
  }

  /** `taken` is a piece of what was written, from position `mark` on. */
  predicate Piece(written: seq<byte>, mark: nat, taken: seq<byte>) { mark <= |written| && taken <= written[mark..] }

  /** What the device has taken and can still take, when `ws` are the WRITEs on their way to it. */
  function Reach(taken: seq<byte>, ws: seq<Pkt>): seq<byte> { if ws == [] then taken else taken + ws[0].ext }

  /**
   On every connection the device takes a piece of what the application wrote, from the connection's mark on. At most one
   WRITE is on its way, and with it the piece goes beyond what is retired by no more than a packet's worth.
   */
  predicate Bounded(h: seq<byte>, gone: seq<Fate>, visits: seq<Visit>, mark: nat, taken: seq<byte>, ws: seq<Pkt>) {
    && |ws| <= 1 && mark <= |gone| && Piece(h, mark, Reach(taken, ws))
    && |Reach(taken, ws)| <= |Retired(gone[mark..])| + XMIT_LEN
    && forall v :: v in visits ==> Piece(h, v.mark, v.taken)
  }

  /** The account of a world. */
  predicate Books(e: Env) {
    && Accounted(e.hist.upGone, e.hist.visits, e.net.mark, e.net.taken)
    && Bounded(e.hist.written, e.hist.upGone, e.hist.visits, e.net.mark, e.net.taken, Filter(e.net.up, IsWrite))
  }

  /** The device takes what was on its way, and nothing else. */
  lemma DevStepReach(n: Net, s: EnvStep)
    requires |Filter(n.up, IsWrite)| <= 1
    ensures var f := DevStep(n, s);
            && |Filter(f.up, IsWrite)| <= 1 && n.taken <= f.taken && f.mark == n.mark
            && Reach(f.taken, Filter(f.up, IsWrite)) <= Reach(n.taken, Filter(n.up, IsWrite))
  {
    hide Filter, Reply, Without;
    match s
    case DevAnswer(at, _, _) => if at < |n.up| { TakenOut(n.up, at, IsWrite); }
    case DevSilent(at, _) => if at < |n.up| { TakenOut(n.up, at, IsWrite); }
    case DevTake(at) => if at < |n.up| { TakenOut(n.up, at, IsWrite); }
    case _ =>
  }

  /** More written, more gone, and no more to take. */
  lemma BoundedMore(h: seq<byte>, gone: seq<Fate>, visits: seq<Visit>, mark: nat, taken: seq<byte>, ws: seq<Pkt>,
                    h2: seq<byte>, more: seq<Fate>, taken2: seq<byte>, ws2: seq<Pkt>)
    requires Bounded(h, gone, visits, mark, taken, ws) && h <= h2
    requires |ws2| <= 1 && Reach(taken2, ws2) <= Reach(taken, ws)
    ensures Bounded(h2, gone + more, visits, mark, taken2, ws2)
  {
    hide Retired;
    assert (gone + more)[mark..] == gone[mark..] + more;
    RetiredConcat(gone[mark..], more);
  }

  lemma StepBooks(e: Env, s: EnvStep)
    requires Books(e)
    ensures Books(Step(e, s))
  {
    hide Accounted, Bounded, Step, Filter;
    BooksAreSlim(e);
    StepFrame(e, s);
    StepReach(e, s);
    BookMore(e, Step(e, s), []);
    assert e.hist.upGone + [] == e.hist.upGone;
  }

  lemma StepReach(e: Env, s: EnvStep)
    requires |Filter(e.net.up, IsWrite)| <= 1
    ensures Reaches(e, Step(e, s))
  {
    hide Filter, XmitCopy, RecvChars, DevStep;
    if IsDevStep(s) {
      DevStepReach(e.net, s);
    } else {
      OtherStepsSpareNet(e, s);
      WrittenGrows(e, s);
    }
  }

  lemma WrittenGrows(e: Env, s: EnvStep)
    ensures e.hist.written <= Step(e, s).hist.written
  {
  }

  /** Between two moments of a connection, the device takes no more than what was on its way. */
  predicate Reaches(e: Env, f: Env) {
    && e.hist.written <= f.hist.written && e.net.taken <= f.net.taken && |Filter(f.net.up, IsWrite)| <= 1
    && Reach(f.net.taken, Filter(f.net.up, IsWrite)) <= Reach(e.net.taken, Filter(e.net.up, IsWrite))
  }

  /** Bytes leave the ring; what is retired of them the device has taken. */
  lemma BookMore(e: Env, f: Env, more: seq<Fate>)
    requires Books(e) && Reaches(e, f)
    requires f.hist.upGone == e.hist.upGone + more && f.hist.visits == e.hist.visits && f.net.mark == e.net.mark
    requires Retired(more) == [] || Retired(f.hist.upGone[e.net.mark..]) <= f.net.taken
    ensures Books(f)
  {
    hide Accounted, Filter, Retired;
    BoundedMore(e.hist.written, e.hist.upGone, e.hist.visits, e.net.mark, e.net.taken, Filter(e.net.up, IsWrite),
                f.hist.written, more, f.net.taken, Filter(f.net.up, IsWrite));
    AccountedMore(e.hist.upGone, e.hist.visits, e.net.mark, e.net.taken, more, f.net.taken);
  }

  lemma StepsBooks(e: Env, ss: seq<EnvStep>)
    requires Books(e)
    ensures Books(Steps(e, ss))
    decreases |ss|
  {
    hide Books, Step;
    if ss != [] {
      StepBooks(e, ss[0]);
      StepsBooks(Step(e, ss[0]), ss[1..]);
    }
  }

  lemma AwaitBooks(e: Env)
    requires Books(e)
    ensures Books(Await(e).0)
  {
    hide Accounted, Bounded, Steps;
    if e.io != [] {
      StepsBooks(e.(io := e.io[1..]), e.io[0].env);
    }
  }

  /** What the device took on a connection, beyond what was retired on it, comes first on the next one. */
  lemma Overlap(e: Env, j: nat)
    requires Books(e) && j < |e.hist.visits|
    ensures var (h, n) := (e.hist, e.net);
            var (from, to) := (h.visits[j].mark, MarkAfter(h.visits, n.mark, j));
            var (first, next) := (h.visits[j].taken, if j + 1 < |h.visits| then h.visits[j + 1].taken else n.taken);
            && from <= to <= |h.upGone|
            && ((forall k :: from <= k < to ==> h.upGone[k].Passed?) ==>
                 && to - from <= |first| <= to - from + XMIT_LEN
                 && first[..to - from] == Bytes(h.upGone[from..to])
                 && (first[to - from..] <= next || next <= first[to - from..]))
  {
    hide Accounted, Retired, Filter, Bytes, Share, Piece, Bounded;
    var (h, n) := (e.hist, e.net);
    var (from, to) := (h.visits[j].mark, MarkAfter(h.visits, n.mark, j));
    var shares := AccountedMeans(h.upGone, h.visits, n.mark, n.taken);
    assert IsShare(h.upGone, h.visits, n.mark, j, shares[j]);
    PiecesTaken(e);
    if forall k :: from <= k < to ==> h.upGone[k].Passed? {
      var next := if j + 1 < |h.visits| then h.visits[j + 1].taken else n.taken;
      BeyondShare(h.written, h.upGone, from, to, h.visits[j].taken, next);
    }
  }

  lemma BeyondShare(written: seq<byte>, gone: seq<Fate>, from: nat, to: nat, first: seq<byte>, next: seq<byte>)
    requires from <= to <= |gone| && (forall k :: from <= k < to ==> gone[k].Passed?)
    requires Share(Retired(gone[from..to]), first) && Piece(written, from, first) && Piece(written, to, next)
    ensures to - from <= |first| <= to - from + XMIT_LEN && first[..to - from] == Bytes(gone[from..to])
    ensures first[to - from..] <= next || next <= first[to - from..]
  {
    hide Retired, Bytes;
    RetiredPassed(gone[from..to]);
    OverlapAgrees(written, from, first, to, next);
  }

  lemma PiecesTaken(e: Env)
    requires Books(e)
    ensures Piece(e.hist.written, e.net.mark, e.net.taken)
    ensures forall j :: 0 <= j < |e.hist.visits| ==> Piece(e.hist.written, e.hist.visits[j].mark, e.hist.visits[j].taken)
  {
    hide Accounted, Filter, Retired;
    assert e.net.taken <= Reach(e.net.taken, Filter(e.net.up, IsWrite));
  }

  /** Two pieces of the same bytes agree where they overlap. */
  lemma OverlapAgrees(written: seq<byte>, from: nat, first: seq<byte>, to: nat, next: seq<byte>)
    requires from <= to <= from + |first| && Piece(written, from, first) && Piece(written, to, next)
    ensures first[to - from..] <= next || next <= first[to - from..]
  {
    var again := first[to - from..];
    assert again == written[to..][..|again|] && next == written[to..][..|next|];
    if |again| <= |next| {
      assert again == next[..|again|];
    } else {
      assert next == again[..|next|];
    }
  }

  /** While a connection has not been flushed, what was retired on it is what the device took and the daemon knows of. */
  lemma RetiredWasTaken(e: Env, k: nat)
    requires StopAndWait(e, k) && Unflushed(e)
    ensures Retired(e.hist.upGone[e.net.mark..]) <= e.net.taken
  {
    hide Filter, Span, Bytes;
    RetiredPassed(e.hist.upGone[e.net.mark..]);
  }

  // ----- flows: what holds at every moment of a connection

  /** Bytes are conserved; if `honest`, the rest of the script is, and every byte retired was taken by the device. */
  predicate Base(e: Env, honest: bool) {
    Conserved(e) && (honest ==> HonestIo(e.io) && Books(e))
  }

  /** Besides, `k` bytes of the ring await an answer, and `c` event registrations are under way. */
  predicate Flow(e: Env, k: nat, c: nat, honest: bool) {
    && Base(e, honest) && k <= e.rx.Len() && Unflushed(e)
    && (honest ==> StopAndWait(e, k) && Registrations(e.net) == c)
  }

  lemma CopiesSpareNet(e: Env, takes: seq<nat>)
    ensures XmitCopy(e).net == e.net && RecvChars(e, takes).net == e.net
  {
  }

  lemma OtherStepsSpareNet(e: Env, s: EnvStep)
    requires !IsDevStep(s)
    ensures Step(e, s).net == e.net
  {
    hide XmitCopy, RecvChars;
    match s
    case StartTx => CopiesSpareNet(e.(rx := e.rx.(enabled := true)), []);
    case Unthrottle(takes) => CopiesSpareNet(e.(throttled := false), takes);
    case _ =>
  }

  lemma StepsFlow(e: Env, ss: seq<EnvStep>, k: nat, c: nat, honest: bool)
    requires Flow(e, k, c, honest) && (honest ==> HonestSteps(ss))
    ensures Flow(Steps(e, ss), k, c, honest) && Advances(e, Steps(e, ss))
    decreases |ss|
  {
    hide Accounted, Bounded, StopAndWait, Registrations, Conserved, Step, Span;
    if ss != [] {
      var s := ss[0];
      StepFlow(e, s, k, c, honest);
      StepsFlow(Step(e, s), ss[1..], k, c, honest);
    } else {
      assert e.tx.Contents()[0..] == e.tx.Contents();
    }
  }

  lemma StepFlow(e: Env, s: EnvStep, k: nat, c: nat, honest: bool)
    requires Flow(e, k, c, honest) && (honest ==> Honest(s))
    ensures Flow(Step(e, s), k, c, honest) && Advances(e, Step(e, s))
  {
    hide Accounted, Bounded, Step, StopAndWait, Registrations, Conserved, Span;
    StepConserves(e, s);
    StepFrame(e, s);
    assert |e.rx.Contents()| == e.rx.Len() && |Step(e, s).rx.Contents()| == Step(e, s).rx.Len();
    if honest {
      StepBooks(e, s);
      if IsDevStep(s) {
        DevStepIsSafe(e, s, k);
      } else {
        OtherStepsSpareNet(e, s);
        GrowthIsSafe(e, Step(e, s), k);
      }
    }
  }

  lemma StepsBase(e: Env, ss: seq<EnvStep>, honest: bool)
    requires Base(e, honest)
    ensures Base(Steps(e, ss), honest) && Advances(e, Steps(e, ss))
    decreases |ss|
  {
    hide Accounted, Bounded, Conserved, Step, Span;
    if ss != [] {
      StepConserves(e, ss[0]);
      StepFrame(e, ss[0]);
      if honest {
        StepBooks(e, ss[0]);
      }
      StepsBase(Step(e, ss[0]), ss[1..], honest);
    } else {
      assert e.tx.Contents()[0..] == e.tx.Contents();
    }
  }

  // ----- the daemon's system calls

  lemma ScriptIsIrrelevant(e: Env, io: seq<IoStep>, k: nat)
    ensures Conserved(e.(io := io)) == Conserved(e) && StopAndWait(e.(io := io), k) == StopAndWait(e, k)
  {
  }

  lemma AwaitFlow(e: Env, k: nat, c: nat, honest: bool)
    requires Flow(e, k, c, honest)
    ensures Flow(Await(e).0, k, c, honest) && Advances(e, Await(e).0)
  {
    hide Accounted, Bounded, StopAndWait, Registrations, Conserved, Steps, Span;
    if e.io != [] {
      var rest := e.(io := e.io[1..]);
      ScriptIsIrrelevant(e, e.io[1..], k);
      StepsFlow(rest, e.io[0].env, k, c, honest);
    } else {
      assert e.tx.Contents()[0..] == e.tx.Contents();
    }
  }

  lemma AwaitBase(e: Env, honest: bool)
    requires Base(e, honest)
    ensures Base(Await(e).0, honest) && Advances(e, Await(e).0)
  {
    hide Accounted, Bounded, StopAndWait, Conserved, Steps, Span;
    if e.io != [] {
      ScriptIsIrrelevant(e, e.io[1..], 0);
      StepsBase(e.(io := e.io[1..]), e.io[0].env, honest);
    } else {
      assert e.tx.Contents()[0..] == e.tx.Contents();
    }
  }

  lemma FilterNone(ps: seq<Pkt>, kind: Pkt -> bool)
    requires forall i :: 0 <= i < |ps| ==> !kind(ps[i])
    ensures Filter(ps, kind) == []
  {
  }

  /** Packets that are neither WRITE nor event registrations change nothing. */
  lemma SendFlow(e: Env, ps: seq<Sent>, k: nat, c: nat, honest: bool)
    requires Flow(e, k, c, honest)
    requires forall i :: 0 <= i < |ps| ==> !IsWrite(ps[i].pkt) && !IsMaskRequest(ps[i].pkt)
    ensures Flow(Send(e, ps).0, k, c, honest)
  {
    hide Accounted, Bounded, Await, Filter, EncodeAll, Span, Bytes;
    AwaitFlow(e, k, c, honest);
    var (e1, io) := Await(e);
    FilterConcat(e1.net.up, Packed(ps), IsWrite);
    FilterConcat(e1.net.up, Packed(ps), IsMaskRequest);
    FilterNone(Packed(ps), IsWrite);
    FilterNone(Packed(ps), IsMaskRequest);
    assert Filter(e1.net.up, IsWrite) + [] == Filter(e1.net.up, IsWrite);
  }

  /** An event registration is one more under way, if it goes out. */
  lemma SendRegistration(e: Env, p: Sent, k: nat, c: nat, honest: bool)
    requires Flow(e, k, c, honest) && IsMaskRequest(p.pkt)
    ensures Flow(Send(e, [p]).0, k, if Send(e, [p]).1 then c + 1 else c, honest)
  {
    hide Accounted, Bounded, Await, Filter, EncodeAll, Span, Bytes;
    AwaitFlow(e, k, c, honest);
    var (e1, io) := Await(e);
    assert Packed([p]) == [p.pkt];
    FilterAdd(e1.net.up, p.pkt, IsWrite);
    FilterAdd(e1.net.up, p.pkt, IsMaskRequest);
    assert Filter(e1.net.up, IsWrite) + [] == Filter(e1.net.up, IsWrite);
  }

  /** The device can take the WRITE that follows what it has taken. */
  lemma WriteIsBounded(e: Env, p: Pkt)
    requires Conserved(e) && Books(e) && Unflushed(e) && StopAndWait(e, 0) && p.ext <= e.rx.Contents() && |p.ext| <= XMIT_LEN
    ensures Bounded(e.hist.written, e.hist.upGone, e.hist.visits, e.net.mark, e.net.taken, [p])
  {
    hide Accounted, Filter, Span, Bytes;
    var (gone, mark, ring) := (e.hist.upGone, e.net.mark, e.rx.Contents());
    RetiredPassed(gone[mark..]);
    BytesConcat(gone[..mark], gone[mark..]);
    assert gone == gone[..mark] + gone[mark..];
    assert e.net.taken == Bytes(gone[mark..]) by {
      assert ring[..0] == [] && Bytes(gone[mark..]) + [] == Bytes(gone[mark..]);
    }
    assert e.hist.written[mark..] == Bytes(gone[mark..]) + ring + e.circ;
    assert ring == p.ext + ring[|p.ext|..];
  }

  /** With nothing awaiting an answer, a WRITE of the ring's first bytes makes them await one, if it goes out. */
  lemma SendWrite(e: Env, p: Sent, c: nat, honest: bool)
    requires Flow(e, 0, c, honest) && IsWrite(p.pkt) && p.pkt.ext != [] && p.pkt.ext <= e.rx.Contents()
    requires |p.pkt.ext| <= XMIT_LEN
    ensures Flow(Send(e, [p]).0, if Send(e, [p]).1 then |p.pkt.ext| else 0, c, honest)
  {
    hide Accounted, Bounded, Await, Filter, EncodeAll, Span, Bytes;
    AwaitFlow(e, 0, c, honest);
    var (e1, io) := Await(e);
    assert Packed([p]) == [p.pkt];
    FilterAdd(e1.net.up, p.pkt, IsWrite);
    FilterAdd(e1.net.up, p.pkt, IsMaskRequest);
    assert p.pkt.ext == e1.rx.Contents()[..|p.pkt.ext|];
    assert |e1.rx.Contents()| == e1.rx.Len();
    if honest {
      WriteIsBounded(e1, p.pkt);
      assert [] + [p.pkt] == [p.pkt];
    }
  }

  /** Of a new connection, nothing is taken yet. */
  lemma VisitIsBounded(e: Env)
    requires Conserved(e) && Books(e)
    ensures var visits := e.hist.visits + [Visit(e.net.mark, e.net.taken)];
            Bounded(e.hist.written, e.hist.upGone, visits, |e.hist.upGone|, [], [])
  {
    hide Accounted, Filter, Retired, Span;
    assert |Bytes(e.hist.upGone)| <= |e.hist.written|;
  }

  /** A new connection starts with nothing under way. */
  lemma ConnectFlow(e: Env, honest: bool)
    requires Base(e, honest)
    ensures Base(Connect(e).0, honest)
    ensures Connect(e).1 >= 0 ==> Flow(Connect(e).0, 0, 0, honest)
  {
    hide Accounted, Bounded, Await, Span, Bytes;
    AwaitBase(e, honest);
    var e1 := Connect(e).0;
    if honest {
      var e0 := Await(e).0;
      AccountedVisit(e0.hist.upGone, e0.hist.visits, e0.net.mark, e0.net.taken);
      VisitIsBounded(e0);
    }
    assert Bytes(e1.hist.upGone[|e1.hist.upGone|..]) + e1.rx.Contents()[..0] == [];
  }

  /** With no WRITE and no answer to one under way, only the daemon can change what is accepted but not retired. */
  predicate NoWriteUnderWay(n: Net) {
    Filter(n.up, IsWrite) == n.held == Filter(n.down, IsWrite) == []
  }

  lemma StepQuiet(e: Env, s: EnvStep)
    requires NoWriteUnderWay(e.net) && Honest(s)
    ensures NoWriteUnderWay(Step(e, s).net) && Step(e, s).net.unacked == e.net.unacked
  {
    hide Filter, Reply, Without, XmitCopy, RecvChars;
    var n := e.net;
    match s
    case DevAnswer(at, status, ext) =>
      if at < |n.up| {
        TakenOut(n.up, at, IsWrite);
        ReplyKinds(n.up[at], status, ext);
        FilterConcat(n.down, Reply(n.up[at], status, ext), IsWrite);
      }
    case DevSilent(at, take) =>
      if at < |n.up| {
        TakenOut(n.up, at, IsWrite);
      }
    case DevTake(at) =>
      if at < |n.up| {
        TakenOut(n.up, at, IsWrite);
      }
    case DevReport(at) =>
    case DevData(payload) =>
      FilterAdd(n.down, Pkt(MAGIC, 0, CMD_DATAREADY, STATUS_SUCCESS, |payload|, payload), IsWrite);
    case DevInject(pkt) =>
      FilterAdd(n.down, pkt, IsWrite);
    case _ =>
      OtherStepsSpareNet(e, s);
  }

  lemma StepsQuiet(e: Env, ss: seq<EnvStep>)
    requires NoWriteUnderWay(e.net) && HonestSteps(ss)
    ensures NoWriteUnderWay(Steps(e, ss).net) && Steps(e, ss).net.unacked == e.net.unacked
    decreases |ss|
  {
    hide Step, Filter;
    if ss != [] {
      StepQuiet(e, ss[0]);
      StepsQuiet(Step(e, ss[0]), ss[1..]);
    }
  }

  lemma AwaitQuiet(e: Env)
    requires NoWriteUnderWay(e.net) && HonestIo(e.io)
    ensures NoWriteUnderWay(Await(e).0.net) && Await(e).0.net.unacked == e.net.unacked
  {
    hide Steps, Filter;
    if e.io != [] {
      StepsQuiet(e.(io := e.io[1..]), e.io[0].env);
    }
  }

  /** The move of the head itself, once nothing else can come between. */
  lemma RetireNow(e: Env, k: nat)
    requires Conserved(e) && k <= e.rx.Len() && !e.rx.clean
    ensures var f := e.(rx := e.rx.MoveHead(k), hist := e.hist.(upGone := e.hist.upGone + Mark(e.rx.Contents()[..k], true)));
            && Conserved(f) && f.rx.Contents()[..0] == [] && (Unflushed(e) ==> Unflushed(f))
            && (StopAndWait(e, k) && NoWriteUnderWay(e.net) && e.net.unacked == k ==>
                StopAndWait(f.(net := f.net.(unacked := 0)), 0))
  {
    hide Filter, Span, Bytes, Mark;
    var all := e.rx.Contents();
    PopContents(e.rx, k);
    RetireBytes(e.hist.upGone, all[..k], e.net.mark);
    assert all == all[..k] + all[k..];
  }

  /** Retiring acknowledged bytes: exactly they leave the ring, marked as passed. */
  lemma RetireFlow(e: Env, k: nat, c: nat, honest: bool)
    requires Flow(e, k, c, honest) && !e.rx.clean
    requires honest ==> NoWriteUnderWay(e.net) && e.net.unacked == k
    ensures var f := IocRxHead(e, k);
            && Flow(f, 0, c, honest) && !f.rx.clean
            && f.hist.upGone == e.hist.upGone + Mark(e.rx.Contents()[..k], true)
  {
    hide Accounted, Bounded, Await, Conserved, StopAndWait, Filter, Span, Bytes, Mark;
    AwaitFlow(e, k, c, honest);
    if honest {
      AwaitQuiet(e);
    }
    var e1 := Await(e).0;
    assert e1.rx.Contents()[..k] == e.rx.Contents()[..k];
    RetireNow(e1, k);
    var f := IocRxHead(e, k);
    GhostIsIrrelevant(f, e1.net);
    if honest {
      RetiredWasTaken(f, 0);
      BooksAreSlim(e1);
      BookMore(e1, f, Mark(e1.rx.Contents()[..k], true));
    }
  }

  lemma GhostIsIrrelevant(e: Env, n: Net)
    ensures Conserved(e.(net := n)) == Conserved(e)
  {
  }

  lemma RetireBytes(gone: seq<Fate>, out: seq<byte>, mark: nat)
    ensures Bytes(gone + Mark(out, true)) == Bytes(gone) + out
    ensures mark <= |gone| ==> Bytes((gone + Mark(out, true))[mark..]) == Bytes(gone[mark..]) + out
    ensures forall i :: |gone| <= i < |gone| + |out| ==> (gone + Mark(out, true))[i].Passed?
  {
  }

  /** The downlink ring is flushed, and the uplink ring marked for it. */
  lemma MarkedBase(e: Env, honest: bool)
    requires Base(e, honest)
    ensures Base(IocClear(e), honest) && IocClear(e).rx.clean && IocClear(e).hist.accepted == e.hist.accepted
  {
    hide Accounted, Bounded, Await, Span, Bytes, Mark;
    AwaitBase(e, honest);
    var e1 := Await(e).0;
    BytesConcat(e1.hist.downGone, Mark(e1.tx.Contents(), false));
    BytesMark(e1.tx.Contents(), false);
    assert IocClear(e).tx.Contents() == [];
  }

  /** The uplink ring is flushed by the next move of its head. */
  lemma FlushBase(e: Env, honest: bool)
    requires Base(e, honest) && e.rx.clean
    ensures var f := IocRxHead(e, 0);
            && Base(f, honest) && !f.rx.clean && f.rx.Contents() == [] && f.hist.accepted == e.hist.accepted
  {
    hide Accounted, Bounded, Await, Span, Bytes, Mark;
    AwaitBase(e, honest);
    var e1 := Await(e).0;
    CleanDiscards(e1.rx, 0);
    BytesConcat(e1.hist.upGone, Mark(e1.rx.Contents(), false));
    BytesMark(e1.rx.Contents(), false);
    if honest {
      FlushBooks(e1, IocRxHead(e, 0));
    }
  }

  lemma FlushBooks(e: Env, f: Env)
    requires Books(e) && f.hist == e.hist.(upGone := e.hist.upGone + Mark(e.rx.Contents(), false))
    requires f.net.mark == e.net.mark && f.net.taken == e.net.taken && f.net.up == e.net.up
    ensures Books(f)
  {
    hide Accounted, Bounded, Span, Mark, Filter, Retired;
    RetiredMark(e.rx.Contents(), false);
    BooksAreSlim(e);
    BookMore(e, f, Mark(e.rx.Contents(), false));
  }

  lemma BooksAreSlim(e: Env)
    requires Books(e)
    ensures |Filter(e.net.up, IsWrite)| <= 1
  {
  }

  /** Flushing both rings: what they held is marked as flushed, nothing else is touched. */
  lemma ClearBase(e: Env, honest: bool)
    requires Base(e, honest) && !e.rx.clean
    ensures var f := IocRxHead(IocClear(e), 0);
            && Base(f, honest) && !f.rx.clean && f.rx.Contents() == [] && f.hist.accepted == e.hist.accepted
  {
    hide Base, IocClear, IocRxHead, Span;
    MarkedBase(e, honest);
    FlushBase(IocClear(e), honest);
  }

  lemma InterBase(e: Env, honest: bool)
    requires Base(e, honest)
    ensures var f := IocInter(e);
            Base(f, honest) && f.rx.head == e.rx.head && f.rx.clean == e.rx.clean && e.rx.Len() <= f.rx.Len()
  {
    hide Accounted, Bounded, Await, Conserved, Span, RecvChars, XmitCopy;
    AwaitBase(e, honest);
    var (e1, io) := Await(e);
    XmitCopyFlows(e1);
    CopyFrame(e1, io.takes);
    var e2 := if e1.att.attr.isOpen && e1.rx.head == e1.rx.tail then XmitCopy(e1) else e1;
    RecvCharsFlows(e2, io.takes);
    CopyFrame(e2, io.takes);
    assert |e.rx.Contents()| <= |e1.rx.Contents()| <= |e2.rx.Contents()|;
  }

  lemma InterFlow(e: Env, k: nat, c: nat, honest: bool)
    requires Flow(e, k, c, honest)
    ensures Flow(IocInter(e), k, c, honest)
  {
    hide Accounted, Bounded, Await, StopAndWait, Conserved, Span, RecvChars, XmitCopy;
    AwaitFlow(e, k, c, honest);
    var (e1, io) := Await(e);
    CopyFlow(e1, io.takes, k, c, honest);
    var e2 := if e1.att.attr.isOpen && e1.rx.head == e1.rx.tail then XmitCopy(e1) else e1;
    CopyFlow(e2, io.takes, k, c, honest);
  }

  /** What the driver's copies do not touch. */
  lemma CopyFrame(e: Env, takes: seq<nat>)
    ensures XmitCopy(e).io == e.io && XmitCopy(e).rx.head == e.rx.head && XmitCopy(e).rx.clean == e.rx.clean
    ensures RecvChars(e, takes).io == e.io && RecvChars(e, takes).rx == e.rx
    ensures XmitCopy(e).hist == e.hist && RecvChars(e, takes).hist.upGone == e.hist.upGone
    ensures RecvChars(e, takes).hist.visits == e.hist.visits && RecvChars(e, takes).hist.written == e.hist.written
    ensures XmitCopy(e).net == e.net && RecvChars(e, takes).net == e.net
  {
  }

  lemma CopyFlow(e: Env, takes: seq<nat>, k: nat, c: nat, honest: bool)
    requires Flow(e, k, c, honest)
    ensures Flow(XmitCopy(e), k, c, honest) && Flow(RecvChars(e, takes), k, c, honest)
  {
    hide Accounted, Bounded, StopAndWait, Conserved, Span, Registrations, XmitCopy, RecvChars;
    XmitCopyFlows(e);
    RecvCharsFlows(e, takes);
    CopyFrame(e, takes);
    CopiesSpareNet(e, takes);
    assert |e.rx.Contents()| <= |XmitCopy(e).rx.Contents()|;
    if honest {
      GrowthIsSafe(e, XmitCopy(e), k);
      GrowthIsSafe(e, RecvChars(e, takes), k);
    }
  }

  /** Publishing staged bytes: exactly they are accepted, whatever the driver drains meanwhile. */
  lemma PublishFlow(e: Env, data: seq<byte>, k: nat, c: nat, honest: bool)
    requires Flow(e, k, c, honest) && e.tx.Staged(data)
    ensures Flow(IocTxTail(e, data), k, c, honest) && IocTxTail(e, data).hist.accepted == e.hist.accepted + data
    ensures IocTxTail(e, data).rx == Await(e).0.rx
  {
    hide Accounted, Bounded, Await, StopAndWait, Span, Bytes, RecvChars, Registrations;
    AwaitFlow(e, k, c, honest);
    var (e1, io) := Await(e);
    PublishContents(e1.tx, data);
    var e2 := e1.(tx := e1.tx.MoveTail(|data|), hist := e1.hist.(accepted := e1.hist.accepted + data));
    assert Conserved(e2);
    if honest {
      GrowthIsSafe(e1, e2, k);
    }
    CopyFlow(e2, io.takes, k, c, honest);
    CopyFrame(e2, io.takes);
    AcceptedStays(e2, io.takes);
  }

  lemma AcceptedStays(e: Env, takes: seq<nat>)
    ensures RecvChars(e, takes).hist.accepted == e.hist.accepted
  {
  }

  /** Staging a payload in the free part of the downlink ring disturbs nothing. */
  lemma StageFlow(e: Env, data: seq<byte>, k: nat, c: nat, honest: bool)
    requires Flow(e, k, c, honest) && |data| <= e.tx.Free()
    ensures Flow(e.(tx := e.tx.Stage(data)), k, c, honest) && e.tx.Stage(data).Staged(data)
  {
    hide Accounted, Bounded, StopAndWait, Span, Bytes, Registrations, Fill;
    StageKeepsContents(e.tx, data);
    if honest {
      GrowthIsSafe(e, e.(tx := e.tx.Stage(data)), k);
    }
  }

  /** The next packet leaves the queue from the device: what it tells about the bytes awaiting an answer is true. */
  lemma PopFlow(e: Env, k: nat, c: nat, honest: bool)
    requires Flow(e, k, c, honest) && e.net.down != []
    ensures var p, f := e.net.down[0], e.(net := e.net.(down := e.net.down[1..]));
            && Flow(f, k, Registrations(f.net), honest)
            && (honest ==> Registrations(f.net) + (if IsMaskReply(p) then 1 else 0) == c)
            && (honest && IsWrite(p) ==> Answers(f, p, k))
  {
    hide Accounted, Bounded, Filter, Span, Bytes;
    Dequeue(e.net.down, IsWrite);
    Dequeue(e.net.down, IsMaskReply);
  }

  /** `p` is the device's answer to the WRITE of `k` bytes. */
  predicate Answers(e: Env, p: Pkt, k: nat) {
    && NoWriteUnderWay(e.net) && p.pid == MAGIC && p.ext == [] && p.p2 == k
    && (p.p1 == STATUS_SUCCESS <==> e.net.unacked == k)
  }
}
