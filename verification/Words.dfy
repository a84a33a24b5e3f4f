/** Machine words and their byte orders: `htonl`, `htons` and `htole32` as sequences of bytes. */
module Words {
  type byte = n: int | 0 <= n < 0x100
  type u16 = n: int | 0 <= n < 0x1_0000
  type u32 = n: int | 0 <= n < 0x1_0000_0000

  /** Conversion to `unsigned int`: two's complement, modulo 2^32. */
  function ToU32(x: int): u32 { x % 0x1_0000_0000 }

  /** Conversion to `unsigned char`. */
  function ToByte(x: int): byte { x % 0x100 }

  function Be16(n: u16): (b: seq<byte>)
    ensures |b| == 2
  {
    [n / 0x100, n % 0x100]
  }

  function Be32(n: u32): (b: seq<byte>)
    ensures |b| == 4
  {
    Be16(n / 0x1_0000) + Be16(n % 0x1_0000)
  }

  function Le32(n: u32): (b: seq<byte>)
    ensures |b| == 4
  {
    var b := Be32(n);
    [b[3], b[2], b[1], b[0]]
  }

  function FromBe16(b: seq<byte>): u16
    requires |b| == 2
  {
    var (high: int, low: int) := (b[0], b[1]);
    high * 0x100 + low
  }

  function FromBe32(b: seq<byte>): u32
    requires |b| == 4
  {
    var (high: int, low: int) := (FromBe16(b[..2]), FromBe16(b[2..]));
    high * 0x1_0000 + low
  }

  function FromLe32(b: seq<byte>): u32
    requires |b| == 4
  {
    FromBe32([b[3], b[2], b[1], b[0]])
  }

  lemma Be16RoundTrip(n: u16, b: seq<byte>)
    requires |b| == 2
    ensures FromBe16(Be16(n)) == n
    ensures Be16(FromBe16(b)) == b
  {
    assert Be16(FromBe16(b)) == [b[0], b[1]];
  }

  lemma Be32RoundTrip(n: u32, b: seq<byte>)
    requires |b| == 4
    ensures FromBe32(Be32(n)) == n
    ensures Be32(FromBe32(b)) == b
    ensures FromLe32(Le32(n)) == n
  {
    assert Be32(n)[..2] == Be16(n / 0x1_0000) && Be32(n)[2..] == Be16(n % 0x1_0000);
    assert [Le32(n)[3], Le32(n)[2], Le32(n)[1], Le32(n)[0]] == Be32(n);
    Be16RoundTrip(FromBe16(b[..2]), b[..2]);
    Be16RoundTrip(FromBe16(b[2..]), b[2..]);
    assert b == b[..2] + b[2..];
  }
}
