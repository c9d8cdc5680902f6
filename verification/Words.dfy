// Machine words as the x86 build of the bridge stores them: bytes, 32-bit
// words that wrap, and the little-endian layout of a word in memory.
module Words {

  datatype Option<+T> = None | Some(value: T)

  const TWO_32: int := 0x1_0000_0000

  type byte = x: int | 0 <= x < 0x100
  type u32 = x: int | 0 <= x < 0x1_0000_0000

  function Wrap(x: int): (w: u32)
    ensures 0 <= x < TWO_32 ==> w == x
  {
    x % TWO_32
  }

  /** 32-bit addition. */
  function Add32(x: u32, y: u32): (sum: u32)
    ensures sum == Wrap(x + y)
  {
    if x + y < TWO_32 then x + y else x + y - TWO_32
  }

  /** A run written over part of a sequence. */
  function Overwrite<T>(s: seq<T>, start: nat, run: seq<T>): (r: seq<T>)
    requires start + |run| <= |s|
    ensures |r| == |s|
    ensures forall i :: 0 <= i < |s| ==> r[i] == if start <= i < start + |run| then run[i - start] else s[i]
  {
    s[..start] + run + s[start + |run|..]
  }

  function WordBytes(w: u32): (s: seq<byte>)
    ensures |s| == 4
  {
    [w % 0x100, w / 0x100 % 0x100, w / 0x1_0000 % 0x100, w / 0x100_0000]
  }

  function WordAt(s: seq<byte>, i: nat): u32
    requires i + 4 <= |s|
  {
    var b0: int, b1: int, b2: int, b3: int := s[i], s[i + 1], s[i + 2], s[i + 3];
    b0 + 0x100 * b1 + 0x1_0000 * b2 + 0x100_0000 * b3
  }

  lemma WordRoundTrip(w: u32)
    ensures WordAt(WordBytes(w), 0) == w
  {
    var q := w / 0x100;
    assert w == 0x100 * q + w % 0x100;
    var p := q / 0x100;
    assert q == 0x100 * p + q % 0x100;
    assert w / 0x1_0000 == p;
    var o := p / 0x100;
    assert p == 0x100 * o + p % 0x100;
    assert w / 0x100_0000 == o;
  }

  /** An array of words as it lies in memory. */
  function Bytes(words: seq<u32>): (s: seq<byte>)
    ensures |s| == 4 * |words|
  {
    if words == [] then [] else WordBytes(words[0]) + Bytes(words[1..])
  }

  /** Reads `n` words from the front of a memory block. */
  function ReadWords(s: seq<byte>, n: nat): (words: seq<u32>)
    requires 4 * n <= |s|
    ensures |words| == n
  {
    if n == 0 then [] else [WordAt(s, 0)] + ReadWords(s[4..], n - 1)
  }

  lemma {:induction false} WordsRoundTrip(words: seq<u32>)
    ensures ReadWords(Bytes(words), |words|) == words
  {
    if words != [] {
      WordRoundTrip(words[0]);
      var s := Bytes(words);
      assert s[..4] == WordBytes(words[0]);
      assert s[4..] == Bytes(words[1..]);
      WordsRoundTrip(words[1..]);
    }
  }

  // ---- Bit operations -------------------------------------------------------

  function Pow2(n: nat): (p: nat)
    ensures p >= 1
  {
    if n == 0 then 1 else 2 * Pow2(n - 1)
  }

  function BitOr(x: nat, y: nat): nat {
    if x == 0 then y
    else if y == 0 then x
    else 2 * BitOr(x / 2, y / 2) + (if x % 2 == 1 || y % 2 == 1 then 1 else 0)
  }

  lemma {:induction false} BitOrBound(x: nat, y: nat, n: nat)
    requires x < Pow2(n) && y < Pow2(n)
    ensures BitOr(x, y) < Pow2(n)
  {
    if x != 0 && y != 0 {
      BitOrBound(x / 2, y / 2, n - 1);
    }
  }

  lemma Pow2At32()
    ensures Pow2(32) == TWO_32
  {
    assert Pow2(2) == 0x4;
    assert Pow2(4) == 0x10;
    assert Pow2(6) == 0x40;
    assert Pow2(8) == 0x100;
    assert Pow2(10) == 0x400;
    assert Pow2(12) == 0x1000;
    assert Pow2(14) == 0x4000;
    assert Pow2(16) == 0x10000;
    assert Pow2(18) == 0x40000;
    assert Pow2(20) == 0x100000;
    assert Pow2(22) == 0x400000;
    assert Pow2(24) == 0x1000000;
    assert Pow2(26) == 0x4000000;
    assert Pow2(28) == 0x10000000;
    assert Pow2(30) == 0x40000000;
    assert Pow2(32) == 0x100000000;
  }

  lemma OrHalf(x: nat, y: nat, x2: nat, y2: nat)
    requires x2 == 2 * x && y2 == y / 2
    ensures BitOr(x2, y) == 2 * BitOr(x, y2) + y % 2
    ensures y == 2 * y2 + y % 2
  {
  }

  lemma OrNibble(x: nat, y: nat, x16: nat, y16: nat)
    requires x16 == 0x10 * x && y16 == y / 0x10
    ensures BitOr(x16, y) == 0x10 * BitOr(x, y16) + y % 0x10
  {
    var y1, y2, y3 := y / 2, y / 2 / 2, y / 2 / 2 / 2;
    OrHalf(8 * x, y, x16, y1);
    OrHalf(4 * x, y1, 8 * x, y2);
    OrHalf(2 * x, y2, 4 * x, y3);
    OrHalf(x, y3, 2 * x, y16);
  }

  /** `(high << 8) | low` on 32-bit words. */
  function Pack(high: u32, low: u32): u32 {
    Pow2At32();
    BitOrBound(Wrap(0x100 * high), low, 32);
    BitOr(Wrap(0x100 * high), low)
  }

  lemma ShiftByte(high: u32)
    ensures Wrap(0x100 * high) == 0x100 * (high % 0x100_0000)
  {
    var q, h := high / 0x100_0000, high % 0x100_0000;
    assert 0x100 * high == TWO_32 * q + 0x100 * h;
  }

  lemma PackHalves(high: u32, low: u32)
    ensures Pack(high, low) / 0x100 == BitOr(high % 0x100_0000, low / 0x100)
    ensures Pack(high, low) % 0x100 == low % 0x100
  {
    var h := high % 0x100_0000;
    ShiftByte(high);
    OrNibble(0x10 * h, low, 0x100 * h, low / 0x10);
    OrNibble(h, low / 0x10, 0x10 * h, low / 0x100);
  }

  /** Shifting right by 8 and masking with 0xFF recover both halves exactly when
      the low half fits a byte and the high half fits the other 24 bits. */
  lemma PackRoundTrip(high: u32, low: u32)
    ensures Pack(high, low) / 0x100 == high && Pack(high, low) % 0x100 == low
       <==> high < 0x100_0000 && low < 0x100
  {
    PackHalves(high, low);
    if low < 0x100 {
      assert BitOr(high % 0x100_0000, 0) == high % 0x100_0000;
    }
  }
}
