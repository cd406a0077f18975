/** UTF-8 (RFC 3629) as the key-value store relies on it: encoding, decoding the last rune of a
    string, and the order of encoded strings. */
module Utf8 {
  import opened Wrappers

  const MAX_RUNE := 0x10ffff
  const RUNE_ERROR: Rune := 0xfffd

  type Rune = r: int | 0 <= r < 0xd800 || 0xe000 <= r <= MAX_RUNE
  type Byte = b: int | 0 <= b < 256
  type Text = seq<Rune>

  function Encode(r: Rune): (bs: seq<Byte>)
    ensures 1 <= |bs| <= 4
  {
    if r < 0x80 then [r]
    else if r < 0x800 then [0xc0 + r / 64, 0x80 + r % 64]
    else if r < 0x10000 then [0xe0 + r / 4096, 0x80 + r / 64 % 64, 0x80 + r % 64]
    else [0xf0 + r / 262144, 0x80 + r / 4096 % 64, 0x80 + r / 64 % 64, 0x80 + r % 64]
  }

  /** How many bytes a rune takes, what they begin with, and what they carry: the table of section 3
      of RFC 3629. */
  lemma EncodeTable(r: Rune)
    ensures var bs: seq<int> := Encode(r);
            && |bs| == (if r <= 0x7f then 1 else if r <= 0x7ff then 2 else if r <= 0xffff then 3 else 4)
            && (forall i :: 1 <= i < |bs| ==> 0x80 <= bs[i] <= 0xbf)
            && (|bs| == 1 ==> bs[0] <= 0x7f && r == bs[0])
            && (|bs| == 2 ==> 0xc0 <= bs[0] <= 0xdf && r == (bs[0] - 0xc0) * 64 + (bs[1] - 0x80))
            && (|bs| == 3 ==> 0xe0 <= bs[0] <= 0xef && r == (bs[0] - 0xe0) * 4096 + (bs[1] - 0x80) * 64 + (bs[2] - 0x80))
            && (|bs| == 4 ==> 0xf0 <= bs[0] <= 0xf7
                              && r == (bs[0] - 0xf0) * 262144 + (bs[1] - 0x80) * 4096 + (bs[2] - 0x80) * 64 + (bs[3] - 0x80))
  {
    Digits(r);
  }

  function EncodeAll(t: Text): seq<Byte> {
    if t == [] then [] else Encode(t[0]) + EncodeAll(t[1..])
  }

  /** The order of strings by their first difference: of bytes as the database compares them, and
      of runes. */
  predicate Less(a: seq<int>, b: seq<int>) {
    b != [] && (a == [] || a[0] < b[0] || (a[0] == b[0] && Less(a[1..], b[1..])))
  }

  // ---------------------------------------------------------------- decoding

  predicate Tail(b: Byte) {
    0x80 <= b < 0xc0
  }

  /** The range the second byte of a sequence must be in, given the first: it is what rules out
      overlong forms, surrogates and numbers past the last rune. */
  predicate Second(b0: Byte, b1: Byte) {
    if b0 == 0xe0 then 0xa0 <= b1 < 0xc0
    else if b0 == 0xed then 0x80 <= b1 < 0xa0
    else if b0 == 0xf0 then 0x90 <= b1 < 0xc0
    else if b0 == 0xf4 then 0x80 <= b1 < 0x90
    else Tail(b1)
  }

  /** The first rune of s and its size; RUNE_ERROR and 1 for anything that is not one. */
  function Decode(s: seq<Byte>): (r: (Rune, nat))
    requires s != []
    ensures 1 <= r.1 <= |s| && r.1 <= 4
  {
    var b0 := s[0];
    if b0 < 0x80 then (b0, 1)
    else if 0xc2 <= b0 < 0xe0 && |s| >= 2 && Tail(s[1]) then
      ((b0 as int - 0xc0) * 64 + (s[1] as int - 0x80), 2)
    else if 0xe0 <= b0 < 0xf0 && |s| >= 3 && Second(b0, s[1]) && Tail(s[2]) then
      ((b0 as int - 0xe0) * 4096 + (s[1] as int - 0x80) * 64 + (s[2] as int - 0x80), 3)
    else if 0xf0 <= b0 < 0xf5 && |s| >= 4 && Second(b0, s[1]) && Tail(s[2]) && Tail(s[3]) then
      ((b0 as int - 0xf0) * 262144 + (s[1] as int - 0x80) * 4096 + (s[2] as int - 0x80) * 64 + (s[3] as int - 0x80), 4)
    else (RUNE_ERROR, 1)
  }

  /** Back from the end of s over at most three continuation bytes. */
  function LastStart(s: seq<Byte>, back: nat): (start: nat)
    requires 1 <= back <= |s|
    ensures start <= |s| - back
    decreases |s| - back
  {
    if back >= 4 || back == |s| || !Tail(s[|s| - back]) then |s| - back else LastStart(s, back + 1)
  }

  /** utf8.DecodeLastRuneInString: the last rune of s and its size. */
  function DecodeLast(s: seq<Byte>): (r: (Rune, nat))
    requires s != []
    ensures 1 <= r.1 <= |s|
  {
    var start := LastStart(s, 1);
    var (r, size) := Decode(s[start..]);
    if start + size == |s| then (r, size) else (RUNE_ERROR, 1)
  }

  /** A number is its six-bit digits. */
  lemma Digits(r: nat)
    ensures r == r / 64 * 64 + r % 64
    ensures r / 64 == r / 4096 * 64 + r / 64 % 64
    ensures r / 4096 == r / 262144 * 64 + r / 4096 % 64
  {
  }

  /** Decoding inverts encoding, whatever follows. */
  lemma DecodeEncode(r: Rune, rest: seq<Byte>)
    ensures Decode(Encode(r) + rest) == (r, |Encode(r)|)
  {
    var s := Encode(r) + rest;
    Digits(r);
    if r < 0x80 {
      assert s[0] == r;
    } else if r < 0x800 {
      assert s[0] == 0xc0 + r / 64 && s[1] == 0x80 + r % 64;
    } else if r < 0x10000 {
      DecodeThree(r, s);
    } else {
      DecodeFour(r, s);
    }
  }

  lemma DecodeThree(r: Rune, s: seq<Byte>)
    requires 0x800 <= r < 0x10000 && 3 <= |s|
    requires s[0] == 0xe0 + r / 4096 && s[1] == 0x80 + r / 64 % 64 && s[2] == 0x80 + r % 64
    ensures Decode(s) == (r, 3)
  {
    Digits(r);
    var b1 := r / 64 % 64;
    assert 0 <= b1 < 64 && 0 <= r % 64 < 64;
    assert s[0] == 0xe0 ==> b1 >= 0x20;
    assert s[0] == 0xed ==> b1 < 0x20;
  }

  lemma DecodeFour(r: Rune, s: seq<Byte>)
    requires 0x10000 <= r && 4 <= |s|
    requires s[0] == 0xf0 + r / 262144 && s[1] == 0x80 + r / 4096 % 64 && s[2] == 0x80 + r / 64 % 64 && s[3] == 0x80 + r % 64
    ensures Decode(s) == (r, 4)
  {
    Digits(r);
    var b1 := r / 4096 % 64;
    assert 0 <= b1 < 64 && 0 <= r / 64 % 64 < 64 && 0 <= r % 64 < 64;
    assert s[0] == 0xf0 ==> b1 >= 0x10;
    assert s[0] == 0xf4 ==> b1 < 0x10;
  }

  lemma EncodeShape(r: Rune)
    ensures !Tail(Encode(r)[0])
    ensures forall i :: 1 <= i < |Encode(r)| ==> Tail(Encode(r)[i])
  {
  }

  /** The last rune comes off the end of what it was appended to. */
  lemma DecodeLastEncode(before: seq<Byte>, r: Rune)
    ensures DecodeLast(before + Encode(r)) == (r, |Encode(r)|)
  {
    var s := before + Encode(r);
    var n := |Encode(r)|;
    EncodeShape(r);
    assert s[|before|..] == Encode(r) + [];
    DecodeEncode(r, []);
    assert !Tail(s[|s| - n]);
    forall i {:trigger s[|s| - i]} | 1 <= i < n
      ensures Tail(s[|s| - i])
    {
      assert s[|s| - i] == Encode(r)[n - i];
    }
    assert LastStart(s, n) == |before|;
    if n >= 2 {
      assert LastStart(s, n - 1) == |before|;
    }
    if n >= 3 {
      assert LastStart(s, n - 2) == |before|;
    }
    if n >= 4 {
      assert LastStart(s, n - 3) == |before|;
    }
  }

  // ---------------------------------------------------------------- order

  lemma EncodeAllAppend(t: Text, u: Text)
    ensures EncodeAll(t + u) == EncodeAll(t) + EncodeAll(u)
  {
    if t == [] {
      assert t + u == u;
    } else {
      assert (t + u)[1..] == t[1..] + u;
      EncodeAllAppend(t[1..], u);
    }
  }

  /** a and b first differ at position k, where a is smaller. */
  predicate DiffersAt(a: seq<int>, b: seq<int>, k: nat) {
    k < |a| && k < |b| && a[..k] == b[..k] && a[k] < b[k]
  }

  lemma {:induction false} DiffLess(a: seq<int>, b: seq<int>, k: nat)
    requires DiffersAt(a, b, k)
    ensures Less(a, b)
  {
    if k > 0 {
      assert a[0] == a[..k][0] == b[..k][0] == b[0];
      assert a[1..][..k - 1] == a[..k][1..] == b[..k][1..] == b[1..][..k - 1];
      DiffLess(a[1..], b[1..], k - 1);
    }
  }

  lemma OrderThree(r: Rune, q: Rune) returns (k: nat)
    requires 0x800 <= r < q < 0x10000
    ensures DiffersAt(Encode(r), Encode(q), k)
  {
    Digits(r);
    Digits(q);
    k := if r / 4096 < q / 4096 then 0 else if r / 64 < q / 64 then 1 else 2;
  }

  lemma OrderFour(r: Rune, q: Rune) returns (k: nat)
    requires 0x10000 <= r < q
    ensures DiffersAt(Encode(r), Encode(q), k)
  {
    Digits(r);
    Digits(q);
    k := if r / 262144 < q / 262144 then 0 else if r / 4096 < q / 4096 then 1 else if r / 64 < q / 64 then 2 else 3;
  }

  /** Of two runes the smaller has the smaller encoding, and neither is a prefix of the other. */
  lemma EncodeOrder(r: Rune, q: Rune) returns (k: nat)
    requires r < q
    ensures DiffersAt(Encode(r), Encode(q), k)
  {
    if r >= 0x10000 {
      k := OrderFour(r, q);
    } else if r >= 0x800 && q < 0x10000 {
      k := OrderThree(r, q);
    } else {
      k := if r < 0x80 || q >= 0x800 || r / 64 < q / 64 then 0 else 1;
    }
  }

  lemma LessIrreflexive(a: seq<int>)
    ensures !Less(a, a)
  {
  }

  lemma {:induction false} LessAsymmetric(a: seq<int>, b: seq<int>)
    requires Less(a, b)
    ensures !Less(b, a)
  {
    if a != [] && a[0] == b[0] {
      LessAsymmetric(a[1..], b[1..]);
    }
  }

  lemma {:induction false} LessAfter(c: seq<int>, a: seq<int>, b: seq<int>)
    ensures Less(c + a, c + b) <==> Less(a, b)
  {
    if c == [] {
      assert c + a == a && c + b == b;
    } else {
      assert (c + a)[1..] == c[1..] + a && (c + b)[1..] == c[1..] + b;
      LessAfter(c[1..], a, b);
    }
  }

  lemma SmallerFirst(s: Text, t: Text)
    requires s != [] && t != [] && s[0] < t[0]
    ensures Less(EncodeAll(s), EncodeAll(t))
  {
    var k := EncodeOrder(s[0], t[0]);
    var a, b := EncodeAll(s), EncodeAll(t);
    assert a[..k] == Encode(s[0])[..k];
    assert b[..k] == Encode(t[0])[..k];
    DiffLess(a, b, k);
  }

  /** UTF-8 sorts in code point order. */
  lemma {:induction false} OrderAgrees(s: Text, t: Text)
    ensures Less(EncodeAll(s), EncodeAll(t)) <==> Less(s, t)
  {
    if s != [] && t != [] {
      if s[0] < t[0] {
        SmallerFirst(s, t);
      } else if t[0] < s[0] {
        SmallerFirst(t, s);
        LessAsymmetric(EncodeAll(t), EncodeAll(s));
      } else {
        LessAfter(Encode(s[0]), EncodeAll(s[1..]), EncodeAll(t[1..]));
        OrderAgrees(s[1..], t[1..]);
      }
    }
  }

  /** A string starts with a prefix byte for byte exactly when it does rune for rune. */
  /** Encodings of different first runes are no prefixes of each other. */
  lemma FirstDecides(p: Text, t: Text)
    requires p != [] && t != [] && p[0] != t[0]
    ensures !(EncodeAll(p) <= EncodeAll(t))
  {
    if EncodeAll(p) <= EncodeAll(t) {
      DecodeEncode(t[0], EncodeAll(t[1..]));
      var rest := EncodeAll(t)[|Encode(p[0])|..];
      assert EncodeAll(t) == Encode(p[0]) + rest by {
        assert EncodeAll(t)[..|EncodeAll(p)|] == EncodeAll(p);
      }
      DecodeEncode(p[0], rest);
    }
  }

  lemma {:induction false} PrefixAgrees(p: Text, t: Text)
    ensures EncodeAll(p) <= EncodeAll(t) <==> p <= t
  {
    if p != [] && t != [] {
      if p[0] == t[0] {
        PrefixAgrees(p[1..], t[1..]);
        var c := Encode(p[0]);
        assert EncodeAll(p) == c + EncodeAll(p[1..]) && EncodeAll(t) == c + EncodeAll(t[1..]);
        assert EncodeAll(p)[|c|..] == EncodeAll(p[1..]) && EncodeAll(t)[|c|..] == EncodeAll(t[1..]);
        assert p <= t <==> p[1..] <= t[1..] by {
          assert p == [p[0]] + p[1..] && t == [t[0]] + t[1..];
        }
        if EncodeAll(p) <= EncodeAll(t) {
          assert EncodeAll(t)[..|EncodeAll(p)|][|c|..] == EncodeAll(t[1..])[..|EncodeAll(p[1..])|];
        }
      } else {
        FirstDecides(p, t);
      }
    }
  }

  // ---------------------------------------------------------------- valid strings

  /** The runes of s, if it is valid UTF-8. */
  function DecodeAll(s: seq<Byte>): Option<Text> {
    if s == [] then Some([])
    else
      var (r, size) := Decode(s);
      if r == RUNE_ERROR && size == 1 then None
      else match DecodeAll(s[size..])
           case None => None
           case Some(rest) => Some([r] + rest)
  }

  predicate ValidUtf8(s: seq<Byte>) {
    DecodeAll(s).Some?
  }

  lemma {:induction false} DecodeAllEncode(t: Text)
    ensures DecodeAll(EncodeAll(t)) == Some(t)
  {
    if t != [] {
      var s := EncodeAll(t);
      DecodeEncode(t[0], EncodeAll(t[1..]));
      assert s[|Encode(t[0])|..] == EncodeAll(t[1..]);
      DecodeAllEncode(t[1..]);
      assert t == [t[0]] + t[1..];
    }
  }

  lemma EncodeDecodeThree(b0: Byte, b1: Byte, b2: Byte)
    requires 0xe0 <= b0 < 0xf0 && Second(b0, b1) && Tail(b2)
    ensures Encode((b0 - 0xe0) as int * 4096 + (b1 - 0x80) as int * 64 + (b2 - 0x80) as int) == [b0, b1, b2]
  {
    var hi, mid, lo := b0 as int - 0xe0, b1 as int - 0x80, b2 as int - 0x80;
    var r := hi * 4096 + mid * 64 + lo;
    assert r / 64 == hi * 64 + mid && r / 4096 == hi;
  }

  lemma EncodeDecodeFour(b0: Byte, b1: Byte, b2: Byte, b3: Byte)
    requires 0xf0 <= b0 < 0xf5 && Second(b0, b1) && Tail(b2) && Tail(b3)
    ensures Encode((b0 - 0xf0) as int * 262144 + (b1 - 0x80) as int * 4096 + (b2 - 0x80) as int * 64 + (b3 - 0x80) as int)
         == [b0, b1, b2, b3]
  {
    var top, hi, mid, lo := b0 as int - 0xf0, b1 as int - 0x80, b2 as int - 0x80, b3 as int - 0x80;
    var r := top * 262144 + hi * 4096 + mid * 64 + lo;
    assert r / 64 == top * 4096 + hi * 64 + mid && r / 4096 == top * 64 + hi && r / 262144 == top;
  }

  /** Encoding inverts decoding, where there was a rune to decode. */
  lemma EncodeDecode(s: seq<Byte>)
    requires s != [] && Decode(s) != (RUNE_ERROR, 1)
    ensures s == Encode(Decode(s).0) + s[Decode(s).1..]
  {
    var (r, size) := Decode(s);
    if size == 2 {
      assert r / 64 == s[0] as int - 0xc0;
    } else if size == 3 {
      EncodeDecodeThree(s[0], s[1], s[2]);
    } else if size == 4 {
      EncodeDecodeFour(s[0], s[1], s[2], s[3]);
    }
    assert s[..size] == Encode(r);
    assert s == s[..size] + s[size..];
  }

  lemma {:induction false} EncodeDecodeAll(s: seq<Byte>)
    requires ValidUtf8(s)
    ensures EncodeAll(DecodeAll(s).value) == s
  {
    if s != [] {
      EncodeDecode(s);
      EncodeDecodeAll(s[Decode(s).1..]);
    }
  }
}
