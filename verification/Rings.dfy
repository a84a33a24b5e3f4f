/**
 The ring arithmetic of `advvcom.h` on values. A ring of `size` bytes holds at most `size - 1`; what it
 holds is the span of its buffer from `head` up to `tail`, wrapping at the end.
 */
module Rings {
  import opened Words
  import opened Memory

  function Min(a: int, b: int): int { if a < b then a else b }

  /** `get_rb_length`. */
  function Length(head: nat, tail: nat, size: nat): nat
    requires head < size && tail < size
  {
    if tail >= head then tail - head else size - head + tail
  }

  /** `get_rb_llength`: the bytes that can be read before the end of the buffer. */
  function LLength(head: nat, tail: nat, size: nat): nat
    requires head < size && tail < size
  {
    Min(size - head, Length(head, tail, size))
  }

  /** `get_rb_room`. */
  function Room(head: nat, tail: nat, size: nat): nat
    requires head < size && tail < size
  {
    size - Length(head, tail, size) - 1
  }

  /** `get_rb_lroom`: the bytes that can be written before the end of the buffer. */
  function LRoom(head: nat, tail: nat, size: nat): nat
    requires head < size && tail < size
  {
    Min(size - tail, Room(head, tail, size))
  }

  /** An index at most one lap too far, brought back into the buffer. */
  function Wrap(i: nat, size: nat): nat {
    if i < size then i else i - size
  }

  /** The bytes of `buf` from `head` up to `tail`. */
  function Span(buf: seq<byte>, head: nat, tail: nat): (s: seq<byte>)
    requires head < |buf| && tail < |buf|
    ensures |s| == Length(head, tail, |buf|)
  {
    seq(Length(head, tail, |buf|), i requires 0 <= i < Length(head, tail, |buf|) => buf[Wrap(head + i, |buf|)])
  }

  /** `buf` after `data` is written from `at` on, wrapping at the end. */
  function Fill(buf: seq<byte>, at: nat, data: seq<byte>): (r: seq<byte>)
    requires at < |buf| && |data| <= |buf|
    ensures |r| == |buf|
  {
    seq(|buf|, i requires 0 <= i < |buf| =>
      var k := Length(at, i, |buf|);
      if k < |data| then data[k] else buf[i])
  }

  datatype Ring = Ring(buf: seq<byte>, head: nat, tail: nat, enabled: bool, clean: bool) {
    predicate Ok() { head < |buf| && tail < |buf| }

    function Len(): nat
      requires Ok()
    {
      Length(head, tail, |buf|)
    }

    function Free(): nat
      requires Ok()
    {
      Room(head, tail, |buf|)
    }

    function Contents(): seq<byte>
      requires Ok()
    {
      Span(buf, head, tail)
    }

    /** `move_rb_head`: a pending clean request turns the move into a flush. */
    function MoveHead(n: nat): (r: Ring)
      requires Ok()
      ensures r.Ok()
    {
      if clean then this.(head := tail, clean := false)
      else this.(head := (head + n) % |buf|)
    }

    /** `move_rb_tail`. */
    function MoveTail(n: nat): (r: Ring)
      requires Ok()
      ensures r.Ok()
    {
      this.(tail := (tail + n) % |buf|)
    }

    /** The bytes beyond the tail are `data`, ready to be published by moving the tail. */
    ghost predicate Staged(data: seq<byte>)
      requires Ok()
    {
      && |data| <= Free()
      && forall i :: 0 <= i < |data| ==> buf[Wrap(tail + i, |buf|)] == data[i]
    }

    function Stage(data: seq<byte>): (r: Ring)
      requires Ok() && |data| <= |buf|
      ensures r.Ok()
    {
      this.(buf := Fill(buf, tail, data))
    }

    /** What a producer does: write the bytes, then move the tail past them. */
    function Push(data: seq<byte>): (r: Ring)
      requires Ok() && |data| <= |buf|
      ensures r.Ok()
    {
      Stage(data).MoveTail(|data|)
    }
  }

  lemma ModOnce(i: nat, size: nat)
    requires 0 < size && i < 2 * size
    ensures i % size == Wrap(i, size)
  {
    var q, rest := i / size, i % size;
    assert i == q * size + rest && 0 <= rest < size;
    assert q < 2;
  }

  /** Moving the head pops a prefix: it never uncovers, reorders or drops another byte. */
  lemma PopContents(r: Ring, n: nat)
    requires r.Ok() && !r.clean && n <= r.Len()
    ensures r.MoveHead(n).Contents() == r.Contents()[n..]
    ensures r.MoveHead(n).Len() == r.Len() - n && r.MoveHead(n).head == Wrap(r.head + n, |r.buf|)
  {
    ModOnce(r.head + n, |r.buf|);
    var popped := r.MoveHead(n);
    assert popped.Len() == r.Len() - n;
    forall i | 0 <= i < popped.Len() ensures popped.Contents()[i] == r.Contents()[n..][i] {
      assert Wrap(popped.head + i, |r.buf|) == Wrap(r.head + (n + i), |r.buf|);
    }
  }

  /** With a clean request pending, an ordinary head move discards the whole ring. */
  lemma CleanDiscards(r: Ring, n: nat)
    requires r.Ok() && r.clean
    ensures r.MoveHead(n).Contents() == [] && r.MoveHead(n).tail == r.tail && !r.MoveHead(n).clean
  {
  }

  /** The free part of a ring begins at its tail. */
  lemma StagedAt(r: Ring, data: seq<byte>, i: nat)
    requires r.Ok() && |data| <= r.Free() && i < |data|
    ensures Wrap(r.tail + i, |r.buf|) < |r.buf| && r.Stage(data).buf[Wrap(r.tail + i, |r.buf|)] == data[i]
  {
    assert Length(r.tail, Wrap(r.tail + i, |r.buf|), |r.buf|) == i;
  }

  /** What a ring holds is behind its free part. */
  lemma HeldAt(r: Ring, data: seq<byte>, i: nat)
    requires r.Ok() && |data| <= r.Free() && i < r.Len()
    ensures r.Stage(data).Contents()[i] == r.Contents()[i]
  {
    assert Length(r.tail, Wrap(r.head + i, |r.buf|), |r.buf|) >= |data|;
  }

  /** Writing into the free part of the ring leaves the contents alone. */
  lemma StageKeepsContents(r: Ring, data: seq<byte>)
    requires r.Ok() && |data| <= r.Free()
    ensures r.Stage(data).Contents() == r.Contents() && r.Stage(data).Staged(data)
  {
    hide Fill, Span;
    var s := r.Stage(data);
    forall i | 0 <= i < |data| ensures s.buf[Wrap(r.tail + i, |r.buf|)] == data[i] {
      StagedAt(r, data, i);
    }
    forall i | 0 <= i < r.Len() ensures s.Contents()[i] == r.Contents()[i] {
      HeldAt(r, data, i);
    }
  }

  /** Publishing staged bytes appends exactly them. */
  lemma PublishContents(r: Ring, data: seq<byte>)
    requires r.Ok() && r.Staged(data)
    ensures r.MoveTail(|data|).Contents() == r.Contents() + data
    ensures r.MoveTail(|data|).tail == Wrap(r.tail + |data|, |r.buf|)
  {
    ModOnce(r.tail + |data|, |r.buf|);
    var p := r.MoveTail(|data|);
    assert p.Len() == r.Len() + |data|;
    forall i | 0 <= i < p.Len() ensures p.Contents()[i] == (r.Contents() + data)[i] {
      if i >= r.Len() {
        assert Wrap(r.head + i, |r.buf|) == Wrap(r.tail + (i - r.Len()), |r.buf|);
      }
    }
  }

  lemma PushContents(r: Ring, data: seq<byte>)
    requires r.Ok() && |data| <= r.Free()
    ensures r.Push(data).Contents() == r.Contents() + data
  {
    StageKeepsContents(r, data);
    PublishContents(r.Stage(data), data);
  }

  /** Pushing in two chunks is pushing the concatenation. */
  lemma PushPush(r: Ring, a: seq<byte>, b: seq<byte>)
    requires r.Ok() && |a| + |b| <= r.Free()
    ensures r.Push(a).Push(b) == r.Push(a + b)
  {
    var size := |r.buf|;
    ModOnce(r.tail + |a|, size);
    ModOnce(r.tail + |a| + |b|, size);
    var p := r.Push(a);
    ModOnce(p.tail + |b|, size);
    assert p.Push(b).buf == r.Push(a + b).buf;
  }

  /** A copy that stops at the end of the buffer and, if needed, a second one from its start, fill the ring. */
  lemma SplicesFill(buf: seq<byte>, at: nat, data: seq<byte>, first: nat)
    requires at < |buf| && |data| <= |buf| && first <= |data|
    requires at + first == |buf| || (first == |data| && at + first <= |buf|)
    ensures Splice(Splice(buf, at, data[..first]), 0, data[first..]) == Fill(buf, at, data)
  {
  }

  /**
   A stale copy of the tail still describes a prefix of what the ring holds, as long as the head is the ring's own
   and the copy is not longer than the ring.
   */
  lemma SnapshotPrefix(buf: seq<byte>, head: nat, stale: nat, tail: nat)
    requires head < |buf| && stale < |buf| && tail < |buf|
    requires Length(head, stale, |buf|) <= Length(head, tail, |buf|)
    ensures Span(buf, head, stale) == Span(buf, head, tail)[..Length(head, stale, |buf|)]
  {
  }

  /** No producer step changes a byte of a region that a stale snapshot covers. */
  lemma SnapshotStable(r: Ring, stale: nat, data: seq<byte>)
    requires r.Ok() && stale < |r.buf| && Length(r.head, stale, |r.buf|) <= r.Len() && |data| <= r.Free()
    ensures Span(r.Push(data).buf, r.head, stale) == Span(r.buf, r.head, stale)
    ensures Length(r.head, stale, |r.buf|) <= r.Push(data).Len()
  {
    PushContents(r, data);
    assert |r.Push(data).Contents()| == r.Len() + |data|;
    SnapshotPrefix(r.buf, r.head, stale, r.tail);
    SnapshotPrefix(r.Push(data).buf, r.head, stale, r.Push(data).tail);
  }

  lemma PushNothing(r: Ring)
    requires r.Ok()
    ensures r.Push([]) == r
  {
    ModOnce(r.tail, |r.buf|);
    assert r.Stage([]).buf == r.buf;
  }

  lemma MoveHeadTwice(r: Ring, a: nat, b: nat)
    requires r.Ok() && !r.clean && a + b <= r.Len()
    ensures r.MoveHead(a).MoveHead(b) == r.MoveHead(a + b)
  {
    ModOnce(r.head + a, |r.buf|);
    ModOnce(r.head + a + b, |r.buf|);
    ModOnce(r.MoveHead(a).head + b, |r.buf|);
  }

  // ----- the drain loop of adv_uart_recv_chars

  /**
   How many bytes the tty takes in at most `tries` offers: each offer is the contiguous part of the ring, the tty takes
   up to `takes[0]` bytes of it, and an offer of which nothing is taken is the last one.
   */
  function Taken(r: Ring, takes: seq<nat>, tries: nat): (n: nat)
    requires r.Ok() && !r.clean
    ensures n <= r.Len()
    decreases tries
  {
    if tries == 0 || takes == [] then 0
    else
      var t := Min(takes[0], LLength(r.head, r.tail, |r.buf|));
      if t == 0 then 0
      else
        PopContents(r, t);
        t + Taken(r.MoveHead(t), takes[1..], tries - 1)
  }

  /** A tty that takes everything offered empties the ring in two offers, so the bound of three is never what stops it. */
  lemma EagerTtyEmptiesRing(r: Ring, takes: seq<nat>, tries: nat)
    requires r.Ok() && !r.clean && tries >= 2 && |takes| >= 2
    requires takes[0] >= |r.buf| && takes[1] >= |r.buf|
    ensures Taken(r, takes, tries) == r.Len()
  {
    var t := LLength(r.head, r.tail, |r.buf|);
    if t > 0 {
      PopContents(r, t);
      var s := r.MoveHead(t);
      assert s.Len() == LLength(s.head, s.tail, |r.buf|);
      if s.Len() > 0 {
        PopContents(s, s.Len());
        assert Taken(s.MoveHead(s.Len()), takes[1..][1..], tries - 2) == 0;
      }
    }
  }
}
