/** The keystreams applied to request buffers: a linear congruential generator in 32-bit arithmetic, XORed over the
    bytes. */
module Keystream {
  import opened Bytes

  const WRAP: nat := 0x1_0000_0000

  /** `uint32_t`. */
  type Word = k: nat | k < WRAP

  function Next(k: Word): Word
  {
    (k * 1664525 + 1013904223) % WRAP
  }

  function Power(bits: nat): (p: nat)
    ensures p > 0
  {
    if bits == 0 then 1 else 2 * Power(bits - 1)
  }

  /** `(unsigned char)(k >> shift)`. */
  function ByteOf(k: Word, shift: nat): Byte
  {
    (k / Power(shift) % 256) as Byte
  }

  /** The generator's state after n steps. */
  function KeyAt(k: Word, n: nat): Word
  {
    if n == 0 then k else Next(KeyAt(k, n - 1))
  }

  /** 1664525^n, and the sum of its powers below n. */
  function Factor(n: nat): nat
  {
    if n == 0 then 1 else 1664525 * Factor(n - 1)
  }

  function Series(n: nat): nat
  {
    if n == 0 then 0 else 1664525 * Series(n - 1) + 1
  }

  lemma DropMultiple(y: nat, x: nat)
    ensures (x * 0x1_0000_0000 + y) % 0x1_0000_0000 == y % 0x1_0000_0000
  {
  }

  lemma WrapsOnce(a: nat)
    ensures (1664525 * (a % 0x1_0000_0000) + 1013904223) % 0x1_0000_0000 == (1664525 * a + 1013904223) % 0x1_0000_0000
  {
    var q, r := a / 0x1_0000_0000, a % 0x1_0000_0000;
    var x, y := 1664525 * q, 1664525 * r + 1013904223;
    assert 1664525 * a + 1013904223 == x * 0x1_0000_0000 + y;
    DropMultiple(y, x);
  }

  /** The state after n steps in closed form: exact arithmetic, reduced once. */
  lemma {:induction false} KeyAtIs(k: Word, n: nat)
    ensures KeyAt(k, n) == (Factor(n) * k + 1013904223 * Series(n)) % 0x1_0000_0000
    decreases n
  {
    if n > 0 {
      KeyAtIs(k, n - 1);
      var f, s := Factor(n - 1), Series(n - 1);
      WrapsOnce(f * k + 1013904223 * s);
      assert 1664525 * (f * k) == (1664525 * f) * k;
      assert 1664525 * (f * k + 1013904223 * s) + 1013904223 == Factor(n) * k + 1013904223 * Series(n);
    }
  }

  function XorStream(b: seq<Byte>, k: Word, shift: nat): (r: seq<Byte>)
    ensures |r| == |b|
  {
    seq(|b|, i requires 0 <= i < |b| => b[i] ^ ByteOf(KeyAt(k, i + 1), shift))
  }

  /** Applying the same keystream twice gives the bytes back, so a client can undo it. */
  lemma {:induction false} Involution(b: seq<Byte>, k: Word, shift: nat)
    ensures XorStream(XorStream(b, k, shift), k, shift) == b
  {
    hide ByteOf, KeyAt;
    forall i | 0 <= i < |b| ensures XorStream(XorStream(b, k, shift), k, shift)[i] == b[i] {
      XorTwice(b[i], ByteOf(KeyAt(k, i + 1), shift));
    }
  }

  /** The in-place loop of `transform` and `seqmask`. */
  method XorInPlace(b: array<Byte>, k0: Word, shift: nat)
    modifies b
    ensures b[..] == XorStream(old(b[..]), k0, shift)
  {
    hide Next, ByteOf;
    var k := k0;
    for i := 0 to b.Length
      invariant k == KeyAt(k0, i)
      invariant forall j :: i <= j < b.Length ==> b[j] == old(b[j])
      invariant forall j :: 0 <= j < i ==> b[j] == old(b[j]) ^ ByteOf(KeyAt(k0, j + 1), shift)
    {
      k := Next(k);
      b[i] := b[i] ^ ByteOf(k, shift);
    }
  }

  function Transform(b: seq<Byte>): (r: seq<Byte>)
    ensures |r| == |b|
  {
    XorStream(b, 0x9e3779b9, 17)
  }

  function SeqMask(b: seq<Byte>, s: Word): (r: seq<Byte>)
    ensures |r| == |b|
  {
    XorStream(b, s, 13)
  }

  lemma {:induction false} StreamAt(b: seq<Byte>, k: Word, shift: nat, i: nat)
    requires i < |b|
    ensures XorStream(b, k, shift)[i] == b[i] ^ (KeyAt(k, i + 1) / Power(shift) % 256) as Byte
  {
    hide KeyAt, Power;
  }

  lemma Powers()
    ensures Power(17) == 0x2_0000 && Power(13) == 0x2000
  {
  }

  /** Byte by byte, what the two do: the generator's closed form, started from the constant or from the counter. */
  lemma {:induction false} TransformIs(b: seq<Byte>, i: nat)
    requires i < |b|
    ensures var k := (Factor(i + 1) * 0x9e3779b9 + 1013904223 * Series(i + 1)) % 0x1_0000_0000;
      Transform(b)[i] == b[i] ^ (k / 0x2_0000 % 256) as Byte
  {
    hide Factor, Series, KeyAt, Power, Next, XorStream;
    KeyAtIs(0x9e3779b9, i + 1);
    Powers();
    StreamAt(b, 0x9e3779b9, 17, i);
  }

  lemma {:induction false} SeqMaskIs(b: seq<Byte>, s: Word, i: nat)
    requires i < |b|
    ensures var k := (Factor(i + 1) * s + 1013904223 * Series(i + 1)) % 0x1_0000_0000;
      SeqMask(b, s)[i] == b[i] ^ (k / 0x2000 % 256) as Byte
  {
    hide Factor, Series, KeyAt, Power, Next, XorStream;
    KeyAtIs(s, i + 1);
    Powers();
    StreamAt(b, s, 13, i);
  }
}
