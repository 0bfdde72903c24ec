/** The variable-length integers of the Stream Processing Offload Protocol and the frames built from them, as the
    agent's code writes and reads them (section 3.1 of HAProxy's SPOE.txt). */
module SpopVarint {

  type Byte = x: int | 0 <= x < 256

  const WRAP: int := 0x1_0000_0000_0000_0000

  type U64 = x: int | 0 <= x < WRAP

  // ---------- The format ----------

  /** All bytes but the last are at least 128. */
  predicate CompleteTail(bs: seq<Byte>)
  {
    |bs| > 0 && if bs[0] < 128 then |bs| == 1 else CompleteTail(bs[1..])
  }

  /** One byte below 240, or a byte from 240 on with a complete tail. */
  predicate Complete(bs: seq<Byte>)
  {
    |bs| > 0 && if bs[0] < 240 then |bs| == 1 else CompleteTail(bs[1..])
  }

  function TailValue(bs: seq<Byte>): nat
  {
    if |bs| == 0 then 0 else bs[0] + 128 * TailValue(bs[1..])
  }

  function Value(bs: seq<Byte>): nat
  {
    if |bs| == 0 then 0 else bs[0] + 16 * TailValue(bs[1..])
  }

  // ---------- The encoder ----------

  function EncodeTail(v: nat): (bs: seq<Byte>)
    ensures CompleteTail(bs) && TailValue(bs) == v
  {
    if v < 128 then [v] else [128 + v % 128] + EncodeTail((v - 128) / 128)
  }

  function Encode(v: nat): (bs: seq<Byte>)
    ensures Complete(bs) && Value(bs) == v
  {
    if v < 240 then [v] else [240 + v % 16] + EncodeTail((v - 240) / 16)
  }

  lemma {:induction false} TailReencodes(bs: seq<Byte>)
    requires CompleteTail(bs)
    ensures EncodeTail(TailValue(bs)) == bs
    decreases |bs|
  {
    if bs[0] < 128 {
      assert bs == [bs[0]] && TailValue(bs[1..]) == 0;
    } else {
      TailReencodes(bs[1..]);
      var v, rest := TailValue(bs), TailValue(bs[1..]);
      assert v == bs[0] + 128 * rest;
      assert (v - 128) / 128 == rest && 128 + v % 128 == bs[0];
      assert bs == [bs[0]] + bs[1..];
    }
  }

  /** The format has one representation per value: encoding is a bijection between numbers and complete varints. */
  lemma {:induction false} Reencodes(bs: seq<Byte>)
    requires Complete(bs)
    ensures Encode(Value(bs)) == bs
  {
    var rest := TailValue(bs[1..]);
    if bs[0] < 240 {
      assert bs == [bs[0]] && rest == 0;
    } else {
      TailReencodes(bs[1..]);
      var v := Value(bs);
      assert (v - 240) / 16 == rest && 240 + v % 16 == bs[0];
      assert bs == [bs[0]] + bs[1..];
    }
  }

  function Pow128(n: nat): nat
  {
    if n == 0 then 1 else 128 * Pow128(n - 1)
  }

  lemma {:induction false} TailLength(v: nat, n: nat)
    requires v < Pow128(n + 1)
    ensures |EncodeTail(v)| <= n + 1
    decreases n
  {
    assert Pow128(1) == 128 * Pow128(0);
    if v >= 128 && n > 0 {
      TailLength((v - 128) / 128, n - 1);
    }
  }

  /** Ten bytes suffice for 64 bits. */
  lemma {:induction false} EncodeLength(v: U64)
    ensures 1 <= |Encode(v)| <= 10
  {
    if v >= 240 {
      assert Pow128(3) == 0x20_0000 by {
        assert Pow128(1) == 128 && Pow128(2) == 128 * Pow128(1);
      }
      assert Pow128(6) == 0x400_0000_0000 by {
        assert Pow128(5) == 128 * Pow128(4) && Pow128(4) == 128 * Pow128(3);
      }
      assert Pow128(9) == 0x8000_0000_0000_0000 by {
        assert Pow128(8) == 128 * Pow128(7) && Pow128(7) == 128 * Pow128(6);
      }
      TailLength((v - 240) / 16, 8);
    }
  }

  // ---------- The decoder ----------

  /** The bytes of the tail at the front of s. */
  function TailSpan(s: seq<Byte>): (n: nat)
    ensures n <= |s|
  {
    if |s| == 0 then 0 else if s[0] < 128 then 1 else 1 + TailSpan(s[1..])
  }

  /** The bytes of the varint at the front of s. */
  function Span(s: seq<Byte>): (n: nat)
    ensures n <= |s|
  {
    if |s| == 0 then 0 else if s[0] < 240 then 1 else 1 + TailSpan(s[1..])
  }

  /** A whole varint is at the front of s, of at most ten bytes, so that no shift reaches the word's width. */
  predicate Decodable(s: seq<Byte>)
  {
    Complete(s[..Span(s)]) && Span(s) <= 10
  }

  lemma {:induction false} TailSpanOf(bs: seq<Byte>, rest: seq<Byte>)
    requires CompleteTail(bs)
    ensures TailSpan(bs + rest) == |bs|
    decreases |bs|
  {
    if bs[0] >= 128 {
      assert (bs + rest)[1..] == bs[1..] + rest;
      TailSpanOf(bs[1..], rest);
    }
  }

  /** Varints are prefix-free: whatever follows a complete one, its end is found. */
  lemma {:induction false} SpanOf(bs: seq<Byte>, rest: seq<Byte>)
    requires Complete(bs)
    ensures Span(bs + rest) == |bs| && (bs + rest)[..|bs|] == bs
  {
    if bs[0] >= 240 {
      assert (bs + rest)[1..] == bs[1..] + rest;
      TailSpanOf(bs[1..], rest);
    }
  }

  /** Decoding an encoding, with anything behind it, gives the value and its length. */
  lemma {:induction false} DecodesEncoding(v: U64, rest: seq<Byte>)
    ensures var s := Encode(v) + rest;
      Decodable(s) && Span(s) == |Encode(v)| && Value(s[..Span(s)]) % WRAP == v
  {
    SpanOf(Encode(v), rest);
    EncodeLength(v);
  }

  // ---------- The code ----------

  /** Bitwise or. */
  function Or(x: nat, y: nat): nat
    decreases x + y
  {
    if x == 0 && y == 0 then 0 else (if x % 2 == 1 || y % 2 == 1 then 1 else 0) + 2 * Or(x / 2, y / 2)
  }

  lemma {:induction false} OrZero(x: nat)
    ensures Or(x, 0) == x
    decreases x
  {
    if x > 0 {
      OrZero(x / 2);
    }
  }

  lemma OrBit(x: nat, q: nat, b: nat, m: nat)
    requires x == 2 * q + b && b < 2
    ensures Or(x, 2 * m) == b + 2 * Or(q, m) && Or(x, 2 * m + 1) == 1 + 2 * Or(q, m)
  {
  }

  /** The bits of four-bit number r. */
  lemma FourBits(r: nat) returns (a: nat, b: nat, c: nat, d: nat)
    requires r < 16
    ensures a < 2 && b < 2 && c < 2 && d < 2 && r == a + 2 * b + 4 * c + 8 * d && r % 8 == a + 2 * b + 4 * c
  {
    d := if r >= 8 then 1 else 0;
    c := if r - 8 * d >= 4 then 1 else 0;
    b := if r - 8 * d - 4 * c >= 2 then 1 else 0;
    a := r - 8 * d - 4 * c - 2 * b;
  }

  lemma OrFour(q: nat, a: nat, b: nat, c: nat, d: nat, m: nat)
    requires a < 2 && b < 2 && c < 2 && d < 2
    ensures var x := 16 * q + 8 * d + 4 * c + 2 * b + a;
      && Or(x, 16 * m) == a + 2 * b + 4 * c + 8 * d + 16 * Or(q, m)
      && Or(x, 16 * m + 8) == a + 2 * b + 4 * c + 8 + 16 * Or(q, m)
      && Or(x, 16 * m + 15) == 15 + 16 * Or(q, m)
  {
    hide Or;
    var x3 := 2 * q + d;
    var x2 := 2 * x3 + c;
    var x1 := 2 * x2 + b;
    var x := 2 * x1 + a;
    OrBit(x3, q, d, m);
    OrBit(x2, x3, c, 2 * m);
    OrBit(x2, x3, c, 2 * m + 1);
    OrBit(x1, x2, b, 4 * m);
    OrBit(x1, x2, b, 4 * m + 2);
    OrBit(x1, x2, b, 4 * m + 3);
    OrBit(x, x1, a, 8 * m);
    OrBit(x, x1, a, 8 * m + 4);
    OrBit(x, x1, a, 8 * m + 7);
  }

  /** Four bits of x with four bits that are clear, or the highest of them set, or all. */
  lemma OrNibble(x: nat, q: nat, r: nat, m: nat)
    requires x == 16 * q + r && r < 16
    ensures Or(x, 16 * m) == r + 16 * Or(q, m)
    ensures Or(x, 16 * m + 8) == 8 + r % 8 + 16 * Or(q, m)
    ensures Or(x, 16 * m + 15) == 15 + 16 * Or(q, m)
  {
    hide Or;
    var a, b, c, d := FourBits(r);
    OrFour(q, a, b, c, d, m);
  }

  lemma Residues(v: nat, q: nat, r: nat)
    ensures v == 256 * q + r && r < 256 ==> v % 256 == r
    ensures v == 128 * q + r && r < 128 ==> v % 128 == r
  {
  }

  /** The low byte of `v | 240` and of `v | 128`: the high bits are set, the others are those of v. */
  lemma {:induction false} OrByte(v: nat)
    ensures Or(v, 240) % 256 == 240 + v % 16
    ensures Or(v, 128) % 256 == 128 + v % 128
  {
    var q, r := v / 16, v % 16;
    var p, t := q / 16, q % 16;
    OrNibble(v, q, r, 15);
    OrNibble(v, q, r, 8);
    OrNibble(q, p, t, 0);
    OrZero(p);
    hide Or;
    Residues(Or(v, 240), p, 240 + r);
    Residues(Or(v, 128), p, 128 + 16 * (t % 8) + r);
    Residues(v, 2 * p + t / 8, 16 * (t % 8) + r);
  }

  /** The encoder's first byte, and its further bytes. */
  function FirstByte(v: nat): (b: Byte)
    ensures b == 240 + v % 16
  {
    OrByte(v);
    Or(v, 240) % 256
  }

  function NextByte(v: nat): (b: Byte)
    ensures b == 128 + v % 128
  {
    OrByte(v);
    Or(v, 128) % 256
  }

  lemma TailUnfolds(v: nat)
    ensures EncodeTail(v) == if v < 128 then [v] else [128 + v % 128] + EncodeTail((v - 128) / 128)
  {
  }

  /** The loop of `enc_varint` and the byte after it. */
  method PutTail(o: array<Byte>, at: nat, value: nat) returns (n: nat)
    requires at + |EncodeTail(value)| <= o.Length
    modifies o
    ensures n == |EncodeTail(value)| && o[at..at + n] == EncodeTail(value)
    ensures forall k :: 0 <= k < o.Length && !(at <= k < at + n) ==> o[k] == old(o[k])
  {
    hide EncodeTail, CompleteTail, TailValue, NextByte;
    var v := value;
    n := 0;
    ghost var done: seq<Byte> := [];
    while v >= 128
      invariant |done| == n && at + n <= o.Length && o[at..at + n] == done && done + EncodeTail(v) == EncodeTail(value)
      invariant forall k :: 0 <= k < o.Length && !(at <= k < at + n) ==> o[k] == old(o[k])
      decreases v
    {
      var b := NextByte(v);
      ghost var rest := EncodeTail((v - 128) / 128);
      TailUnfolds(v);
      assert EncodeTail(value) == (done + [b]) + rest;
      PutByte(o, at, n, b);
      done := done + [b];
      v := (v - 128) / 128;
      n := n + 1;
    }
    TailUnfolds(v);
    assert EncodeTail(value) == done + [v];
    PutByte(o, at, n, v);
    n := n + 1;
  }

  /** `o[i++] = b`, i counting from `at`. */
  method PutByte(o: array<Byte>, at: nat, n: nat, b: Byte)
    requires at + n < o.Length
    modifies o
    ensures o[at..at + n + 1] == old(o[at..at + n]) + [b]
    ensures forall k :: 0 <= k < o.Length && k != at + n ==> o[k] == old(o[k])
  {
    o[at + n] := b;
  }

  /** `enc_varint` at position `at` of the buffer. */
  method EncVarint(o: array<Byte>, at: nat, v: U64) returns (n: nat)
    requires at + |Encode(v)| <= o.Length
    modifies o
    ensures n == |Encode(v)| && o[at..at + n] == Encode(v)
    ensures forall k :: 0 <= k < o.Length && !(at <= k < at + n) ==> o[k] == old(o[k])
  {
    hide EncodeTail, CompleteTail, TailValue, Complete, Value, FirstByte;
    if v < 240 {
      o[at] := v;
      return 1;
    }
    o[at] := FirstByte(v);
    n := PutTail(o, at + 1, (v - 240) / 16);
    n := n + 1;
    assert o[at..at + n] == [o[at]] + o[at + 1..at + n];
  }

  function Power(r: nat): nat
  {
    if r == 0 then 1 else 2 * Power(r - 1)
  }

  lemma PowerSeven(r: nat)
    ensures Power(r + 7) == 128 * Power(r)
  {
    assert Power(r + 7) == 2 * Power(r + 6) && Power(r + 6) == 2 * Power(r + 5) && Power(r + 5) == 2 * Power(r + 4);
    assert Power(r + 4) == 2 * Power(r + 3) && Power(r + 3) == 2 * Power(r + 2) && Power(r + 2) == 2 * Power(r + 1);
  }

  /** Wrapping at every step is wrapping at the end. */
  lemma Wraps(a: nat, b: nat)
    ensures (a % WRAP + b % WRAP) % WRAP == (a + b) % WRAP
  {
    assert a + b == a % WRAP + b % WRAP + WRAP * (a / WRAP + b / WRAP);
  }

  /** One digit of a tail, shifted. */
  lemma Digit(r: nat, x: nat, rest: nat)
    ensures Power(r) * (x + 128 * rest) == x * Power(r) + Power(r + 7) * rest
  {
    PowerSeven(r);
    var p := Power(r);
    assert p * (x + 128 * rest) == x * p + (128 * p) * rest;
  }

  /** The loop of `dec_varint` over the tail that ends at `end`, after a first byte b0. */
  method GetTail(b: array<Byte>, at: nat, b0: Byte, ghost end: nat) returns (v: U64, off: nat)
    requires at <= end <= b.Length && CompleteTail(b[at..end])
    ensures off == end && v == (b0 + 16 * TailValue(b[at..end])) % WRAP
  {
    ghost var rest := b[at..end];
    ghost var acc: nat := b0;
    assert Power(4) == 16 by {
      assert Power(4) == 2 * Power(3) && Power(3) == 2 * Power(2) && Power(2) == 2 * Power(1);
    }
    hide Power;
    v, off := b0, at;
    var r := 4;
    var more := true;
    while more
      invariant at <= off <= end && rest == b[off..end] && v == acc % WRAP && more == (|rest| > 0)
      invariant more ==> CompleteTail(rest)
      invariant b0 + 16 * TailValue(b[at..end]) == acc + Power(r) * TailValue(rest)
      decreases |rest|
    {
      var x := b[off];
      Digit(r, x, TailValue(rest[1..]));
      Wraps(acc, x * Power(r));
      acc := acc + x * Power(r);
      rest := rest[1..];
      v := (v + x * Power(r) % WRAP) % WRAP;
      off := off + 1;
      r := r + 7;
      more := x >= 128;
    }
    assert rest == [];
  }

  /** `dec_varint` at position `at` of the buffer: 64-bit addition of shifted bytes. */
  method DecVarint(b: array<Byte>, at: nat) returns (v: U64, off: nat)
    requires at < b.Length && Decodable(b[at..])
    ensures off == at + Span(b[at..]) && v == Value(b[at..off]) % WRAP
  {
    ghost var bs := b[at..][..Span(b[at..])];
    ghost var end := at + |bs|;
    assert bs == b[at..end];
    var b0 := b[at];
    if b0 < 240 {
      v, off := b0, at + 1;
    } else {
      assert bs[1..] == b[at + 1..end];
      v, off := GetTail(b, at + 1, b0, end);
    }
  }

  // ---------- Frames ----------

  const FT_ACK := 103
  const FLAG_FIN := 1

  /** `htonl` and a copy: most significant byte first. */
  function Be32(n: nat): (bs: seq<Byte>)
    requires n < 0x1_0000_0000
    ensures |bs| == 4
  {
    [n / 256 / 256 / 256, n / 256 / 256 % 256, n / 256 % 256, n % 256]
  }

  function FromBe32(bs: seq<Byte>): nat
    requires |bs| == 4
  {
    ((bs[0] as int * 256 + bs[1]) * 256 + bs[2]) * 256 + bs[3]
  }

  /** The four bytes are the number, */
  lemma {:induction false} Be32RoundTrip(n: nat)
    requires n < 0x1_0000_0000
    ensures FromBe32(Be32(n)) == n
  {
    var a, b := n / 256, n / 256 / 256;
    assert n == a * 256 + n % 256 && a == b * 256 + a % 256 && b == b / 256 * 256 + b % 256;
  }

  /** and the only ones that are. */
  lemma {:induction false} Be32Unique(bs: seq<Byte>)
    requires |bs| == 4
    ensures FromBe32(bs) < 0x1_0000_0000 && Be32(FromBe32(bs)) == bs
  {
    var n := FromBe32(bs);
    var a := (bs[0] as int * 256 + bs[1]) * 256 + bs[2];
    assert n / 256 == a && n % 256 == bs[3];
    assert a / 256 == bs[0] as int * 256 + bs[1] && a % 256 == bs[2];
    assert Be32(n) == [bs[0], bs[1], bs[2], bs[3]];
  }

  function Payload(frameType: Byte, sid: U64, fid: U64): seq<Byte>
  {
    [frameType] + Be32(FLAG_FIN) + Encode(sid) + Encode(fid)
  }

  function AckFrame(sid: U64, fid: U64): (f: seq<Byte>)
    ensures |f| <= 29
  {
    EncodeLength(sid);
    EncodeLength(fid);
    Be32(|Payload(FT_ACK, sid, fid)|) + Payload(FT_ACK, sid, fid)
  }

  /** What a receiver finds at the front of a payload: type, flags, stream id, frame id, and where they end. */
  datatype Header = Header(frameType: Byte, sid: U64, fid: U64, end: nat)

  predicate HasHeader(pl: seq<Byte>)
  {
    |pl| >= 5 && Decodable(pl[5..]) && Decodable(pl[5 + Span(pl[5..])..])
  }

  function ReadHeader(pl: seq<Byte>): Header
    requires HasHeader(pl)
  {
    var s := pl[5..];
    var t := pl[5 + Span(s)..];
    Header(pl[0], Value(s[..Span(s)]) % WRAP, Value(t[..Span(t)]) % WRAP, 5 + Span(s) + Span(t))
  }

  /** The receiver recovers type and ids from a payload, whatever follows them; between them stand the flags, of which
      only the one for a complete frame is set, most significant byte first. */
  lemma {:induction false} PayloadRoundTrip(frameType: Byte, sid: U64, fid: U64, rest: seq<Byte>)
    ensures var pl := Payload(frameType, sid, fid) + rest;
      && HasHeader(pl) && ReadHeader(pl) == Header(frameType, sid, fid, |Payload(frameType, sid, fid)|)
      && pl[..5] == [frameType, 0, 0, 0, 1]
  {
    hide Encode, EncodeTail, Span, TailSpan, Complete, CompleteTail, Value, TailValue, Decodable;
    var pl := Payload(frameType, sid, fid) + rest;
    DecodesEncoding(sid, Encode(fid) + rest);
    DecodesEncoding(fid, rest);
    assert pl[5..] == Encode(sid) + (Encode(fid) + rest);
    assert pl[5 + |Encode(sid)|..] == Encode(fid) + rest;
  }

  /** An acknowledgement on the wire: the length prefix is right, and the ids come back. */
  lemma {:induction false} AckRoundTrip(sid: U64, fid: U64)
    ensures var f := AckFrame(sid, fid);
      && |f| >= 4 && FromBe32(f[..4]) == |f| - 4
      && HasHeader(f[4..]) && ReadHeader(f[4..]) == Header(FT_ACK, sid, fid, |f| - 4)
      && f[4..][..5] == [103, 0, 0, 0, 1]
  {
    var pl := Payload(FT_ACK, sid, fid);
    EncodeLength(sid);
    EncodeLength(fid);
    PayloadRoundTrip(FT_ACK, sid, fid, []);
    assert pl + [] == pl;
    assert AckFrame(sid, fid)[4..] == pl && AckFrame(sid, fid)[..4] == Be32(|pl|);
  }

  lemma AckIds(sid: U64, fid: U64)
    ensures |AckFrame(sid, fid)| >= 9 && AckFrame(sid, fid)[9..] == Encode(sid) + Encode(fid)
  {
    hide Encode;
    var f := AckFrame(sid, fid);
    assert f == Be32(|f| - 4) + [FT_ACK] + Be32(FLAG_FIN) + (Encode(sid) + Encode(fid));
  }

  /** The bytes of the varint at the front of s. */
  function Front(s: seq<Byte>): seq<Byte>
  {
    s[..Span(s)]
  }

  lemma FrontReencodes(s: seq<Byte>)
    requires Decodable(s) && Value(Front(s)) < WRAP
    ensures Encode(Value(Front(s)) % WRAP) == Front(s)
  {
    hide Encode, Span, Complete, Value;
    Reencodes(Front(s));
  }

  /** The acknowledgement of a request repeats the request's id bytes verbatim, provided both ids fit in 64 bits. */
  lemma {:induction false} AckEchoesIds(pl: seq<Byte>)
    requires HasHeader(pl)
    requires Value(Front(pl[5..])) < WRAP && Value(Front(pl[5 + Span(pl[5..])..])) < WRAP
    ensures var h := ReadHeader(pl); |AckFrame(h.sid, h.fid)| >= 9 && AckFrame(h.sid, h.fid)[9..] == pl[5..h.end]
  {
    hide Encode, Span, Decodable, Value, AckFrame;
    var h := ReadHeader(pl);
    var s, t := pl[5..], pl[5 + Span(pl[5..])..];
    FrontReencodes(s);
    FrontReencodes(t);
    AckIds(h.sid, h.fid);
    assert pl[5..h.end] == Front(s) + Front(t);
  }

  method PutBe32(o: array<Byte>, at: nat, n: nat)
    requires n < 0x1_0000_0000 && at + 4 <= o.Length
    modifies o
    ensures o[at..at + 4] == Be32(n)
    ensures forall k :: 0 <= k < o.Length && !(at <= k < at + 4) ==> o[k] == old(o[k])
  {
    o[at], o[at + 1], o[at + 2], o[at + 3] := n / 256 / 256 / 256, n / 256 / 256 % 256, n / 256 % 256, n % 256;
  }

  /** The payload that `send_ack` builds in its 64-byte buffer. */
  method BuildPayload(sid: U64, fid: U64) returns (p: array<Byte>, n: nat)
    ensures fresh(p) && p.Length == 64 && n == |Payload(FT_ACK, sid, fid)| <= 25 && p[..n] == Payload(FT_ACK, sid, fid)
  {
    hide Encode;
    EncodeLength(sid);
    EncodeLength(fid);
    p := new Byte[64];
    p[0] := FT_ACK;
    PutBe32(p, 1, FLAG_FIN);
    ghost var head := [FT_ACK] + Be32(FLAG_FIN);
    assert p[..5] == p[..1] + p[1..5] == head;
    var k := EncVarint(p, 5, sid);
    assert p[..5 + k] == p[..5] + p[5..5 + k] && p[..5] == head;
    ghost var front := p[..5 + k];
    var m := EncVarint(p, 5 + k, fid);
    n := 5 + k + m;
    assert p[..n] == front + Encode(fid);
  }

  /** `send_ack` up to the write: the first `len` bytes of the 80-byte buffer are the frame. */
  method SendAck(sid: U64, fid: U64) returns (frame: array<Byte>, len: nat)
    ensures fresh(frame) && len <= frame.Length == 80 && frame[..len] == AckFrame(sid, fid)
  {
    var p, n := BuildPayload(sid, fid);
    hide Payload;
    frame := new Byte[80];
    PutBe32(frame, 0, n);
    forall k | 0 <= k < n {
      frame[4 + k] := p[k];
    }
    len := 4 + n;
    assert frame[..4] == Be32(n) && frame[4..len] == p[..n];
    assert frame[..len] == frame[..4] + frame[4..len];
  }

  lemma WholeIsThere(s: seq<Byte>, at: nat)
    requires at <= |s| && Decodable(s[at..])
    ensures at < |s| && at + Span(s[at..]) <= |s| && s[at..at + Span(s[at..])] == s[at..][..Span(s[at..])]
  {
  }

  /** The header parse of a received payload, bounds supplied by the sender: the code itself does not check them. */
  method ParseHeader(pl: array<Byte>) returns (frameType: Byte, sid: U64, fid: U64, off: nat)
    requires HasHeader(pl[..])
    ensures Header(frameType, sid, fid, off) == ReadHeader(pl[..])
  {
    ghost var s := pl[..];
    WholeIsThere(s, 5);
    ghost var mid := 5 + Span(s[5..]);
    WholeIsThere(s, mid);
    hide Span, Value, Decodable;
    assert pl[5..] == s[5..] && pl[mid..] == s[mid..];
    frameType := pl[0];
    sid, off := DecVarint(pl, 5);
    assert pl[5..mid] == s[5..mid];
    fid, off := DecVarint(pl, off);
    assert pl[mid..off] == s[mid..off];
  }

  /** `enc_str`: a length and the bytes. */
  function EncodeString(s: seq<Byte>): seq<Byte>
  {
    Encode(|s|) + s
  }

  /** The receiver finds the string behind its length. */
  lemma {:induction false} StringRoundTrip(s: seq<Byte>, rest: seq<Byte>)
    requires |s| < WRAP
    ensures var bs := EncodeString(s) + rest;
      var k := Span(bs);
      Decodable(bs) && var n := Value(bs[..k]) % WRAP; k + n <= |bs| && bs[k..k + n] == s && bs[k + n..] == rest
  {
    DecodesEncoding(|s|, s + rest);
    assert EncodeString(s) + rest == Encode(|s|) + (s + rest);
  }

  method EncStr(o: array<Byte>, at: nat, s: seq<Byte>) returns (n: nat)
    requires |s| < WRAP && at + |EncodeString(s)| <= o.Length
    modifies o
    ensures n == |EncodeString(s)| && o[at..at + n] == EncodeString(s)
    ensures forall k :: 0 <= k < o.Length && !(at <= k < at + n) ==> o[k] == old(o[k])
  {
    hide Encode;
    var k := EncVarint(o, at, |s|);
    n := CopyBytes(o, at + k, s);
    n := k + n;
    assert o[at..at + n] == o[at..at + k] + o[at + k..at + n];
  }

  method CopyBytes(o: array<Byte>, at: nat, s: seq<Byte>) returns (n: nat)
    requires at + |s| <= o.Length
    modifies o
    ensures n == |s| && o[at..at + n] == s
    ensures forall k :: 0 <= k < o.Length && !(at <= k < at + n) ==> o[k] == old(o[k])
  {
    n := |s|;
    forall i | 0 <= i < |s| {
      o[at + i] := s[i];
    }
  }
}
