/**
 The loop of `vc_common_ioctl`. It finds one difference in each of its turns, while `Handlers.CommonIoctl` goes through the
 settings once; the lemmas here show that the two amount to the same.
 */
module Jobs {
  import opened Words
  import opened Packets
  import opened Attributes
  import opened Worlds
  import opened Handlers

  /** Packets numbered from `first` on. */
  function Number(first: nat, ps: seq<Pkt>): (ss: seq<Sent>)
    ensures |ss| == |ps| && Packed(ss) == ps
  {
    seq(|ps|, i requires 0 <= i < |ps| => Sent(first + i, ps[i]))
  }

  /** One turn of the loop: the mirror after it, the packets it sends, and the ids that building them uses. */
  datatype Job = Job(eki: Info, pkts: seq<Pkt>, used: nat)

  function NextJob(w: World): Job {
    var (a, eki, t) := (Attr(w), w.port.eki, w.port.tid % TID_MOD);
    if eki.baud != a.baud then
      Job(eki.(baud := a.baud), [IoctlPkt(t, IOCTL_SET_BAUD_RATE, Le32(ToU32(a.baud)))], 0)
    else if !SameLine(eki, a) then
      Job(eki.(pair := a.pair, stop := a.stop, byte := a.byte),
          [IoctlPkt(t, IOCTL_SET_LINE_CONTROL, LineExt(ToByte(a.pair), ToByte(a.byte), ToByte(a.stop)))], 0)
    else if eki.flowctl != a.flowctl then
      Job(eki.(flowctl := a.flowctl),
          [IoctlPkt(t, IOCTL_SET_HANDFLOW, FlowExt(FlowWords(a.flowctl).0, FlowWords(a.flowctl).1, Junk(w.env)))], 0)
    else
      var ps := MsPkts(w.port.tid, eki.ms, a.ms);
      Job(eki.(ms := a.ms), Packed(ps), |ps|)
  }

  /** The turns that still have something to send. */
  function Differences(w: World): nat {
    var (a, eki) := (Attr(w), w.port.eki);
    (if eki.baud != a.baud then 1 else 0)
    + (if SameLine(eki, a) then 0 else 1)
    + (if eki.flowctl != a.flowctl then 1 else 0)
    + (if Rts(eki.ms) == Rts(a.ms) && Dtr(eki.ms) == Dtr(a.ms) then 0 else 1)
  }

  lemma FourStages(w: World)
    ensures Differences(w) <= 4
  {
  }

  function SendJob(w: World): (r: (Env, bool))
    ensures SameSizes(w.env, r.0) && r.0.att.slots == w.env.att.slots
  {
    Send(w.env, Number(w.port.tid, NextJob(w).pkts))
  }

  /** The world after a turn, if its packets went out. */
  function AfterJob(w: World): World {
    w.(env := SendJob(w).0, port := w.port.(eki := NextJob(w).eki, tid := w.port.tid + NextJob(w).used + 1))
  }

  /** What a turn of the loop means for the whole: nothing to send, a send that fails, or one step closer. */
  predicate IsStage(w: World) {
    hide SendJob, NextJob, CommonIoctl, Shaped;
    if NextJob(w).pkts == [] then CommonIoctl(w) == w.(port := w.port.(eki := NextJob(w).eki))
    else if !SendJob(w).1 then CommonIoctl(w) == Excp(w.(env := SendJob(w).0))
    else CommonIoctl(w) == CommonIoctl(AfterJob(w)) && Differences(AfterJob(w)) < Differences(w)
  }

  lemma OneNumbered(tid: nat, p: Pkt)
    ensures Number(tid, [p]) == [Sent(tid, p)]
  {
  }

  lemma BaudIsAStage(w: World)
    requires w.port.eki.baud != Attr(w).baud
    ensures IsStage(w)
  {
    hide Send, IoctlLine, IoctlFlow, IoctlMs, Le32, ToU32, Rts, Dtr, Shaped;
    OneNumbered(w.port.tid, NextJob(w).pkts[0]);
  }

  lemma LineIsAStage(w: World)
    requires w.port.eki.baud == Attr(w).baud
    requires var (a, eki) := (Attr(w), w.port.eki); !SameLine(eki, a)
    ensures IsStage(w)
  {
    hide Send, IoctlFlow, IoctlMs, LineExt, ToByte, Rts, Dtr, Shaped;
    OneNumbered(w.port.tid, NextJob(w).pkts[0]);
  }

  lemma FlowIsAStage(w: World)
    requires var (a, eki) := (Attr(w), w.port.eki);
             eki.baud == a.baud && SameLine(eki, a) && eki.flowctl != a.flowctl
    ensures IsStage(w)
  {
    hide Send, IoctlMs, FlowExt, FlowWords, Rts, Dtr, Shaped;
    OneNumbered(w.port.tid, NextJob(w).pkts[0]);
  }

  lemma MsNumbered(tid: nat, from: u32, to: u32)
    ensures Number(tid, Packed(MsPkts(tid, from, to))) == MsPkts(tid, from, to)
    ensures MsPkts(tid, from, to) == [] <==> Rts(from) == Rts(to) && Dtr(from) == Dtr(to)
  {
  }

  lemma MsIsAStage(w: World)
    requires var (a, eki) := (Attr(w), w.port.eki);
             eki.baud == a.baud && SameLine(eki, a) && eki.flowctl == a.flowctl
    ensures IsStage(w)
  {
    hide Send, MsPkts, Rts, Dtr, Shaped, Number, WellFormed, InRange;
    MsNumbered(w.port.tid, w.port.eki.ms, Attr(w).ms);
    MsNumbered(w.port.tid + NextJob(w).used + 1, Attr(w).ms, Attr(w).ms);
  }

  /** A turn with nothing to send is the last; one that sends does not change what the whole loop amounts to. */
  lemma JobIsAStage(w: World)
    ensures IsStage(w)
  {
    hide IsStage;
    var (a, eki) := (Attr(w), w.port.eki);
    if eki.baud != a.baud {
      BaudIsAStage(w);
    } else if !SameLine(eki, a) {
      LineIsAStage(w);
    } else if eki.flowctl != a.flowctl {
      FlowIsAStage(w);
    } else {
      MsIsAStage(w);
    }
  }
}
