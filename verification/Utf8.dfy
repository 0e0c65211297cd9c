/**
 Text as Python holds it, one code point per element, its UTF-8 encoding after
 section 3 of RFC 3629, and what is left of it when the bytes are cut. Encoding
 replaces a lone surrogate by '?'; decoding replaces what it cannot read by
 U+FFFD, one for each longest prefix of a well-formed sequence.
 */
module Utf8 {
  type Rune = c: nat | c < 0x11_0000
  type Octet = b: nat | b < 256
  type Text = seq<Rune>
  type Octets = seq<Octet>

  const REPLACEMENT: Rune := 0xFFFD

  predicate IsSurrogate(c: Rune) {
    0xD800 <= c < 0xE000
  }

  /** The code point that survives encoding. */
  function Shown(c: Rune): Rune {
    if IsSurrogate(c) then 0x3F else c
  }

  function EncodeRune(c: Rune): (s: Octets)
    ensures 1 <= |s| <= 4
  {
    var r := Shown(c);
    if r < 0x80 then [r]
    else if r < 0x800 then [0xC0 + r / 64, 0x80 + r % 64]
    else if r < 0x1_0000 then [0xE0 + r / 4096, 0x80 + r / 64 % 64, 0x80 + r % 64]
    else [0xF0 + r / 262144, 0x80 + r / 4096 % 64, 0x80 + r / 64 % 64, 0x80 + r % 64]
  }

  function Encode(t: Text): Octets {
    if t == [] then [] else EncodeRune(t[0]) + Encode(t[1..])
  }

  predicate IsTail(b: Octet) {
    0x80 <= b < 0xC0
  }

  /** The octets that may follow a lead octet. */
  predicate IsSecond(lead: Octet, b: Octet) {
    if lead == 0xE0 then 0xA0 <= b < 0xC0
    else if lead == 0xED then 0x80 <= b < 0xA0
    else if lead == 0xF0 then 0x90 <= b < 0xC0
    else if lead == 0xF4 then 0x80 <= b < 0x90
    else IsTail(b)
  }

  /** The length of the sequence a lead octet opens; 0 if it opens none. */
  function SequenceLength(lead: Octet): nat {
    if lead < 0x80 then 1
    else if 0xC2 <= lead < 0xE0 then 2
    else if 0xE0 <= lead < 0xF0 then 3
    else if 0xF0 <= lead < 0xF5 then 4
    else 0
  }

  /** How many octets at the front are a prefix of a well-formed sequence, at least one. */
  function Readable(s: Octets): (n: nat)
    requires s != []
    ensures 1 <= n <= |s|
  {
    var len := SequenceLength(s[0]);
    if len <= 1 || |s| < 2 || !IsSecond(s[0], s[1]) then 1
    else if len == 2 || |s| < 3 || !IsTail(s[2]) then 2
    else if len == 3 || |s| < 4 || !IsTail(s[3]) then 3
    else 4
  }

  /** The code point of a complete sequence. */
  function Value(s: Octets): Rune
    requires s != [] && SequenceLength(s[0]) == |s| && Readable(s) == |s|
  {
    var a: int := s[0];
    if |s| == 1 then a
    else
      var b: int := s[1];
      if |s| == 2 then (a - 0xC0) * 64 + (b - 0x80)
      else
        var c: int := s[2];
        if |s| == 3 then (a - 0xE0) * 4096 + (b - 0x80) * 64 + (c - 0x80)
        else
          var d: int := s[3];
          (a - 0xF0) * 262144 + (b - 0x80) * 4096 + (c - 0x80) * 64 + (d - 0x80)
  }

  function DecodeOne(s: Octets): Rune
    requires s != []
  {
    var n := Readable(s);
    if n == SequenceLength(s[0]) then ReadablePrefix(s); Value(s[..n]) else REPLACEMENT
  }

  function Decode(s: Octets): Text {
    if s == [] then [] else [DecodeOne(s)] + Decode(s[Readable(s)..])
  }

  lemma ReadablePrefix(s: Octets)
    requires s != [] && Readable(s) == SequenceLength(s[0])
    ensures Readable(s[..Readable(s)]) == Readable(s)
  {
  }

  /** Cutting after n octets: whole characters while they fit, then U+FFFD for a cut one. */
  function Cut(t: Text, n: nat): Text {
    if t == [] || n == 0 then []
    else if |EncodeRune(t[0])| <= n then [Shown(t[0])] + Cut(t[1..], n - |EncodeRune(t[0])|)
    else [REPLACEMENT]
  }

  // ---- Decoding undoes encoding, and a cut costs one character ----

  lemma DecodeRune(c: Rune, rest: Octets)
    ensures EncodeRune(c) + rest != []
    ensures Readable(EncodeRune(c) + rest) == |EncodeRune(c)|
    ensures DecodeOne(EncodeRune(c) + rest) == Shown(c)
  {
    var r := Shown(c);
    var s := EncodeRune(c) + rest;
    SplitRune(r);
    assert s[..|EncodeRune(c)|] == EncodeRune(c);
  }

  lemma SplitRune(r: Rune)
    ensures r == r / 64 * 64 + r % 64
    ensures r == r / 4096 * 4096 + r / 64 % 64 * 64 + r % 64
    ensures r == r / 262144 * 262144 + r / 4096 % 64 * 4096 + r / 64 % 64 * 64 + r % 64
  {
    assert r / 4096 == r / 64 / 64;
    assert r / 262144 == r / 4096 / 64;
  }

  /** An unfinished character at the end reads as one U+FFFD. */
  lemma DecodeCutRune(c: Rune, n: nat)
    requires 0 < n < |EncodeRune(c)|
    ensures Decode(EncodeRune(c)[..n]) == [REPLACEMENT]
  {
    var s := EncodeRune(c)[..n];
    assert Readable(s) == n && SequenceLength(s[0]) == |EncodeRune(c)|;
    assert s[n..] == [];
  }

  /** Encoding, cutting the octets and decoding is Cut, for every text and every cut. */
  lemma {:induction false} DecodeOfCut(t: Text, n: nat)
    requires n <= |Encode(t)|
    ensures Decode(Encode(t)[..n]) == Cut(t, n)
  {
    if t == [] || n == 0 {
    } else {
      var e, rest := EncodeRune(t[0]), Encode(t[1..]);
      if |e| <= n {
        assert Encode(t)[..n] == e + rest[..n - |e|];
        DecodeRune(t[0], rest[..n - |e|]);
        assert (e + rest[..n - |e|])[|e|..] == rest[..n - |e|];
        DecodeOfCut(t[1..], n - |e|);
      } else {
        assert Encode(t)[..n] == e[..n];
        DecodeCutRune(t[0], n);
      }
    }
  }

  predicate NoSurrogates(t: Text) {
    forall i :: 0 <= i < |t| ==> !IsSurrogate(t[i])
  }

  lemma {:induction false} CutOfWhole(t: Text)
    ensures Cut(t, |Encode(t)|) == t <==> NoSurrogates(t)
  {
    if t != [] {
      CutOfWhole(t[1..]);
      assert t == [t[0]] + t[1..];
      assert NoSurrogates(t) <==> !IsSurrogate(t[0]) && NoSurrogates(t[1..]) by {
        forall i | 0 <= i < |t| - 1 ensures t[1..][i] == t[i + 1] {}
        if !IsSurrogate(t[0]) && NoSurrogates(t[1..]) {
          forall i | 0 <= i < |t| ensures !IsSurrogate(t[i]) {
            if i > 0 { assert t[i] == t[1..][i - 1]; }
          }
        }
      }
      assert Cut(t, |Encode(t)|) == [Shown(t[0])] + Cut(t[1..], |Encode(t[1..])|);
    }
  }

  /** Decoding undoes encoding exactly for texts without lone surrogates. */
  lemma DecodeUndoesEncode(t: Text)
    ensures Decode(Encode(t)) == t <==> NoSurrogates(t)
  {
    DecodeOfCut(t, |Encode(t)|);
    assert Encode(t)[..|Encode(t)|] == Encode(t);
    CutOfWhole(t);
  }

  predicate IsAscii(t: Text) {
    forall i :: 0 <= i < |t| ==> t[i] < 0x80
  }

  lemma {:induction false} AsciiLength(t: Text)
    requires IsAscii(t)
    ensures |Encode(t)| == |t|
  {
    if t != [] { AsciiLength(t[1..]); }
  }

  /** A cut text takes at most two octets more than the cut allows; if more, it ends in U+FFFD. */
  lemma {:induction false} CutSize(t: Text, n: nat)
    ensures |Encode(Cut(t, n))| <= n + 2
    ensures |Encode(Cut(t, n))| > n ==> Cut(t, n) != [] && Cut(t, n)[|Cut(t, n)| - 1] == REPLACEMENT
  {
    if t != [] && n > 0 {
      var w := |EncodeRune(t[0])|;
      if w <= n {
        CutSize(t[1..], n - w);
        ConsEncode(Shown(t[0]), Cut(t[1..], n - w));
      } else {
        OnlyReplacement();
      }
    }
  }

  /** How many octets of a character the cut leaves, when it falls inside one. */
  function Torn(t: Text, n: nat): nat {
    if t == [] || n == 0 then 0
    else if |EncodeRune(t[0])| <= n then Torn(t[1..], n - |EncodeRune(t[0])|)
    else n
  }

  /** The exact size of a cut text: three octets stand for a torn character. It is too long if one or two were left. */
  lemma {:induction false} CutSizeExactly(t: Text, n: nat)
    requires n <= |Encode(t)|
    ensures Torn(t, n) <= 3 && Torn(t, n) <= n
    ensures |Encode(Cut(t, n))| == n - Torn(t, n) + if Torn(t, n) > 0 then 3 else 0
    ensures |Encode(Cut(t, n))| > n <==> 1 <= Torn(t, n) <= 2
  {
    if t != [] && n > 0 {
      var w := |EncodeRune(t[0])|;
      if w <= n {
        CutSizeExactly(t[1..], n - w);
        ConsEncode(Shown(t[0]), Cut(t[1..], n - w));
      } else {
        OnlyReplacement();
      }
    }
  }

  lemma OnlyReplacement()
    ensures |Encode([REPLACEMENT])| == 3
  {
    assert [REPLACEMENT][1..] == [];
  }

  /** A cut ASCII text keeps to the cut. */
  lemma {:induction false} AsciiCutSize(t: Text, n: nat)
    requires IsAscii(t)
    ensures |Encode(Cut(t, n))| <= n && IsAscii(Cut(t, n))
  {
    if t != [] && n > 0 {
      AsciiCutSize(t[1..], n - 1);
      ConsEncode(t[0], Cut(t[1..], n - 1));
    }
  }

  lemma {:induction false} EncodeBehindAscii(a: Text, b: Text)
    requires IsAscii(a)
    ensures |Encode(a + b)| == |a| + |Encode(b)|
    decreases |a|
  {
    if a == [] {
      assert a + b == b;
    } else {
      assert (a + b)[1..] == a[1..] + b;
      EncodeBehindAscii(a[1..], b);
    }
  }

  lemma AsciiRune(c: Rune)
    requires c < 0x80
    ensures |EncodeRune(c)| == 1 && Shown(c) == c
  {
  }

  lemma {:induction false} CutBehindAscii(a: Text, b: Text, n: nat)
    requires IsAscii(a) && n >= |a|
    ensures Cut(a + b, n) == a + Cut(b, n - |a|)
    decreases |a|
  {
    if a == [] {
      assert a + b == b && a + Cut(b, n) == Cut(b, n);
    } else {
      assert (a + b)[1..] == a[1..] + b;
      AsciiRune(a[0]);
      CutBehindAscii(a[1..], b, n - 1);
      assert [a[0]] + (a[1..] + Cut(b, n - |a|)) == a + Cut(b, n - |a|);
    }
  }

  lemma {:induction false} CutInsideAscii(a: Text, b: Text, n: nat)
    requires IsAscii(a) && n <= |a|
    ensures Cut(a + b, n) == a[..n]
    decreases |a|
  {
    if n > 0 {
      assert (a + b)[1..] == a[1..] + b;
      CutInsideAscii(a[1..], b, n - 1);
      assert [a[0]] + a[1..][..n - 1] == a[..n];
    }
  }

  lemma ConsEncode(c: Rune, t: Text)
    ensures Encode([c] + t) == EncodeRune(c) + Encode(t)
  {
    assert ([c] + t)[1..] == t;
  }

  /** A text that ends in U+FFFD does not grow when it is cut again. */
  lemma {:induction false} CutAgain(t: Text, n: nat)
    requires t != [] && t[|t| - 1] == REPLACEMENT && n <= |Encode(t)|
    ensures |Encode(Cut(t, n))| <= |Encode(t)|
  {
    if n > 0 {
      var w := |EncodeRune(t[0])|;
      if w <= n {
        ConsEncode(Shown(t[0]), Cut(t[1..], n - w));
        if |t| > 1 { CutAgain(t[1..], n - w); }
      } else {
        OnlyReplacement();
        if |t| > 1 { CutAgain(t[1..], 0); EncodeNotEmpty(t[1..]); }
      }
    }
  }

  lemma {:induction false} EncodeNotEmpty(t: Text)
    requires t != [] && t[|t| - 1] == REPLACEMENT
    ensures |Encode(t)| >= 3
  {
    if |t| > 1 { EncodeNotEmpty(t[1..]); }
  }
}
