/**
 What the order-dependent mask tells apart: two replies of one connection to the same bytes are equal exactly when their
 numbers agree modulo 2^21, the period of the bits of the generator that the mask shows.
 */
module ReplyMasks {
  import opened Bytes
  import opened Keystream
  import opened Rings
  import opened TcoServer

  const PERIOD: int := 0x20_0000
  const UNIT: int := 0x2000

  // ---------- Remainders ----------

  lemma RemainderIs(a: nat, n: nat, q: int, r: nat)
    requires r < n && a == q * n + r
    ensures a % n == r
  {
    assert a == (a / n) * n + a % n;
    Ring<nat>.NoMultiple(a / n - q, n);
    Ring<nat>.NoMultiple(q - a / n, n);
    assert (a / n - q) * n == r - a % n && (q - a / n) * n == a % n - r;
  }

  /** The low bits of a 32-bit word. */
  lemma LowOfWord(a: nat)
    ensures a % WRAP % PERIOD == a % PERIOD
  {
    var q, r := a / WRAP, a % WRAP;
    assert r == (r / PERIOD) * PERIOD + r % PERIOD;
    RemainderIs(a, PERIOD, q * 2048 + r / PERIOD, r % PERIOD);
  }

  /** The low bits of a key, on which its mask byte and those of all later keys depend. */
  function Low(k: nat): (r: nat)
    ensures r < PERIOD
  {
    k % PERIOD
  }

  // ---------- One step of the generator ----------

  /** The low bits go their own way: up to a multiple of the period, their difference grows by the factor. */
  lemma {:induction false} LowStep(s: Word, t: Word) returns (q: int)
    ensures Low(Next(s)) - Low(Next(t)) == 1664525 * (Low(s) - Low(t)) - q * PERIOD
  {
    var a, b := s * 1664525 + 1013904223, t * 1664525 + 1013904223;
    LowOfWord(a);
    LowOfWord(b);
    assert s == (s / PERIOD) * PERIOD + s % PERIOD && t == (t / PERIOD) * PERIOD + t % PERIOD;
    assert a == (a / PERIOD) * PERIOD + a % PERIOD && b == (b / PERIOD) * PERIOD + b % PERIOD;
    q := a / PERIOD - b / PERIOD - 1664525 * (s / PERIOD - t / PERIOD);
  }

  /** A multiple of the period that is smaller than it is none. */
  lemma NoPeriod(x: int, m: int)
    requires x == m * PERIOD && -PERIOD < x < PERIOD
    ensures x == 0
  {
  }

  /** The factor is odd. */
  lemma StepIsInjective(d: int, q: int)
    requires 1664525 * d == q * PERIOD && -PERIOD < d < PERIOD
    ensures d == 0
  {
    NoPeriod(d, 22725 * q - 18037 * d);
  }

  /** No difference of low bits stays near for four steps: these four combinations of the differences are multiples of
      the period, but too small. */
  lemma NotForLong(d: int, e: int, f: int, g: int, p: int, q: int, r: int)
    requires e == 1664525 * d - p * PERIOD && f == 1664525 * e - q * PERIOD && g == 1664525 * f - r * PERIOD
    requires -UNIT < d < UNIT && -UNIT < e < UNIT && -UNIT < f < UNIT && -UNIT < g < UNIT
    ensures d == 0
  {
    var h, k := 1664525 * p + q, 1664525 * (1664525 * p + q) + r;
    NoPeriod(-5 * d - 22 * e + 14 * f + 17 * g, 37384381017910 * d + 22 * p - 14 * h - 17 * k);
    NoPeriod(35 * d - 18 * e + 9 * f - 2 * g, -4398148406395 * d + 18 * p - 9 * h + 2 * k);
    NoPeriod(20 * d + 7 * e - 26 * f + 15 * g, 32986167875410 * d - 7 * p + 26 * h - 15 * k);
    NoPeriod(-6 * d + 26 * e + 40 * f + 28 * g, 61574296999547 * d - 26 * p - 40 * h - 28 * k);
  }

  // ---------- The mask ----------

  lemma MiddleBits(k: nat)
    ensures k / UNIT % 256 == Low(k) / UNIT
  {
    var q, r := k / PERIOD, k % PERIOD;
    var u, v := r / UNIT, r % UNIT;
    assert k == q * PERIOD + r && r == u * UNIT + v;
    assert k == (q * 256 + u) * UNIT + v;
    assert k / UNIT == q * 256 + u;
    RemainderIs(k / UNIT, 256, q, u);
  }

  /** What a mask byte shows of a key, its bits 13 to 20. */
  lemma {:induction false} ByteShows(k: Word)
    ensures ByteOf(k, 13) == (Low(k) / UNIT) as Byte && Low(k) / UNIT < 256
  {
    assert Power(13) == UNIT;
    MiddleBits(k);
  }

  lemma {:induction false} SameByteIsNear(k: Word, l: Word)
    requires ByteOf(k, 13) == ByteOf(l, 13)
    ensures -UNIT < Low(k) - Low(l) < UNIT
  {
    hide ByteOf, Low;
    ByteShows(k);
    ByteShows(l);
    Injective(Low(k) / UNIT, Low(l) / UNIT);
  }

  lemma {:induction false} KeyStep(s: Word, t: Word, n: nat) returns (q: int)
    ensures Low(KeyAt(s, n + 1)) - Low(KeyAt(t, n + 1))
         == 1664525 * (Low(KeyAt(s, n)) - Low(KeyAt(t, n))) - q * PERIOD
  {
    hide Next, Low;
    q := LowStep(KeyAt(s, n), KeyAt(t, n));
  }

  lemma KeyAtZero(s: Word)
    ensures KeyAt(s, 0) == s
  {
  }

  /** Four mask bytes show the low bits. */
  lemma {:induction false} FourShow(s: Word, t: Word)
    requires ByteOf(KeyAt(s, 1), 13) == ByteOf(KeyAt(t, 1), 13) && ByteOf(KeyAt(s, 2), 13) == ByteOf(KeyAt(t, 2), 13)
    requires ByteOf(KeyAt(s, 3), 13) == ByteOf(KeyAt(t, 3), 13) && ByteOf(KeyAt(s, 4), 13) == ByteOf(KeyAt(t, 4), 13)
    ensures Low(s) == Low(t)
  {
    hide KeyAt, ByteOf, Low;
    SameByteIsNear(KeyAt(s, 1), KeyAt(t, 1));
    SameByteIsNear(KeyAt(s, 2), KeyAt(t, 2));
    SameByteIsNear(KeyAt(s, 3), KeyAt(t, 3));
    SameByteIsNear(KeyAt(s, 4), KeyAt(t, 4));
    var o := KeyStep(s, t, 0);
    var p := KeyStep(s, t, 1);
    var q := KeyStep(s, t, 2);
    var r := KeyStep(s, t, 3);
    NotForLong(Low(KeyAt(s, 1)) - Low(KeyAt(t, 1)), Low(KeyAt(s, 2)) - Low(KeyAt(t, 2)),
               Low(KeyAt(s, 3)) - Low(KeyAt(t, 3)), Low(KeyAt(s, 4)) - Low(KeyAt(t, 4)), p, q, r);
    StepIsInjective(Low(KeyAt(s, 0)) - Low(KeyAt(t, 0)), o);
    KeyAtZero(s);
    KeyAtZero(t);
  }

  lemma {:induction false} LowDecides(s: Word, t: Word, n: nat)
    requires Low(s) == Low(t)
    ensures Low(KeyAt(s, n)) == Low(KeyAt(t, n))
    decreases n
  {
    if n > 0 {
      LowDecides(s, t, n - 1);
      var q := KeyStep(s, t, n - 1);
      hide KeyAt, Low;
      NoPeriod(Low(KeyAt(s, n)) - Low(KeyAt(t, n)), -q);
    }
  }

  lemma {:induction false} MaskAt(b: seq<Byte>, s: Word, i: nat)
    requires i < |b|
    ensures SeqMask(b, s)[i] == b[i] ^ ByteOf(KeyAt(s, i + 1), 13)
  {
    hide ByteOf, KeyAt;
  }

  lemma {:induction false} SameLowSameMask(b: seq<Byte>, s: Word, t: Word)
    requires Low(s) == Low(t)
    ensures SeqMask(b, s) == SeqMask(b, t)
  {
    hide *;
    forall i: nat | i < |b| ensures SeqMask(b, s)[i] == SeqMask(b, t)[i] {
      MaskAt(b, s, i);
      MaskAt(b, t, i);
      LowDecides(s, t, i + 1);
      ByteShows(KeyAt(s, i + 1));
      ByteShows(KeyAt(t, i + 1));
    }
  }

  lemma {:induction false} SameByteAt(b: seq<Byte>, s: Word, t: Word, n: nat)
    requires n < |b| && SeqMask(b, s) == SeqMask(b, t)
    ensures ByteOf(KeyAt(s, n + 1), 13) == ByteOf(KeyAt(t, n + 1), 13)
  {
    hide *;
    MaskAt(b, s, n);
    MaskAt(b, t, n);
    Unmasked(b[n], ByteOf(KeyAt(s, n + 1), 13), ByteOf(KeyAt(t, n + 1), 13));
  }

  /** Two masks of at least four bytes are equal exactly when the counters agree in their low 21 bits. */
  lemma {:induction false} MaskShowsCounter(b: seq<Byte>, s: Word, t: Word)
    requires |b| >= 4
    ensures SeqMask(b, s) == SeqMask(b, t) <==> Low(s) == Low(t)
  {
    hide *;
    if Low(s) == Low(t) {
      SameLowSameMask(b, s, t);
    } else if SeqMask(b, s) == SeqMask(b, t) {
      SameByteAt(b, s, t, 0);
      SameByteAt(b, s, t, 1);
      SameByteAt(b, s, t, 2);
      SameByteAt(b, s, t, 3);
      FourShow(s, t);
    }
  }

  // ---------- Replies ----------

  /** The counter after n requests. */
  lemma {:induction false} CounterWraps(n: nat)
    ensures SeqNo(n) == n % WRAP
    decreases n
  {
    if n > 0 {
      CounterWraps(n - 1);
    }
  }

  /** The replies to one request under two numbers are equal in stateless mode, and in stateful mode exactly when the
      numbers agree modulo 2^21: whoever misses or repeats fewer requests than that is found out by the next reply. */
  lemma {:induction false} RepliesTellNumbers(cfg: Config, req: seq<Byte>, m: nat, n: nat)
    requires |req| == REQ
    ensures Reply(cfg, req, m) == Reply(cfg, req, n) <==> !cfg.stateful || m % PERIOD == n % PERIOD
  {
    if cfg.stateful {
      CounterWraps(m);
      CounterWraps(n);
      LowOfWord(m);
      LowOfWord(n);
      MaskShowsCounter(Transform(req), SeqNo(m), SeqNo(n));
      hide SeqMask, SeqNo, Transform;
    }
  }
}
