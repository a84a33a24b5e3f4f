/** The C library copies used by the driver and the daemon, on arrays. */
module Memory {

  /** A buffer after a plain copy of `data` to `at`. */
  function Splice<T>(buf: seq<T>, at: nat, data: seq<T>): (r: seq<T>)
    requires at + |data| <= |buf|
    ensures |r| == |buf|
  {
    buf[..at] + data + buf[at + |data|..]
  }

  /** Two copies side by side are one. */
  lemma SpliceTwice<T>(buf: seq<T>, at: nat, x: seq<T>, y: seq<T>)
    requires at + |x| + |y| <= |buf|
    ensures Splice(Splice(buf, at, x), at + |x|, y) == Splice(buf, at, x + y)
  {
  }

  lemma SpliceOneMore<T>(buf: seq<T>, at: nat, data: seq<T>, i: nat)
    requires at + |data| <= |buf| && i < |data|
    ensures Splice(buf, at, data[..i])[at + i := data[i]] == Splice(buf, at, data[..i + 1])
  {
  }

  /** What is outside the copy is unchanged, and what is inside is the data. */
  lemma SpliceFrame<T>(buf: seq<T>, at: nat, data: seq<T>, from: nat, to: nat)
    requires at + |data| <= |buf| && from <= to <= |buf| && (to <= at || at + |data| <= from)
    ensures Splice(buf, at, data)[from..to] == buf[from..to]
  {
  }

  lemma SplicePart<T>(buf: seq<T>, at: nat, data: seq<T>, n: nat)
    requires at + |data| <= |buf| && n <= |data|
    ensures Splice(buf, at, data)[at..at + n] == data[..n]
  {
  }

  /** `memcpy(&dst[at], bytes, |bytes|)`. */
  method Memcpy<T>(dst: array<T>, at: nat, bytes: seq<T>)
    requires at + |bytes| <= dst.Length
    modifies dst
    ensures dst[..] == Splice(old(dst[..]), at, bytes)
  {
    assert Splice(dst[..], at, bytes[..0]) == dst[..];
    for i := 0 to |bytes|
      invariant dst[..] == Splice(old(dst[..]), at, bytes[..i])
    {
      hide Splice;
      ghost var before := dst[..];
      dst[at + i] := bytes[i];
      assert dst[..] == before[at + i := bytes[i]];
      SpliceOneMore(old(dst[..]), at, bytes, i);
    }
    assert bytes[..|bytes|] == bytes;
  }

  /** `memmove(&a[to], &a[from], n)`: the source is read before the destination is written. */
  method Memmove<T>(a: array<T>, to: nat, from: nat, n: nat)
    requires to + n <= a.Length && from + n <= a.Length
    modifies a
    ensures a[..] == Splice(old(a[..]), to, old(a[..])[from..from + n])
  {
    var moved := a[from..from + n];
    assert moved == a[..][from..from + n];
    Memcpy(a, to, moved);
  }
}
