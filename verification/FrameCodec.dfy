/** Building a frame around its CRC tag and parsing it back. Texts are their UTF-8 bytes. */
module FrameCodec {
  import opened Options
  import opened Crc
  import opened Frame

  predicate StartsWith(s: Bytes, pat: Bytes) {
    At(s, pat, 0)
  }

  predicate IsDigit(b: byte) {
    b in DIGITS
  }

  function DigitRun(s: Bytes): (n: nat)
    ensures n <= |s| && forall i :: 0 <= i < n ==> IsDigit(s[i])
    ensures n < |s| ==> !IsDigit(s[n])
  {
    if s == [] || !IsDigit(s[0]) then 0 else 1 + DigitRun(s[1..])
  }

  /** The length of the CRC tag at the front, or 0. */
  function TagLength(s: Bytes): (n: nat)
    ensures n <= |s|
  {
    if !StartsWith(s, CRC_OPEN) then 0
    else
      var k := DigitRun(s[5..]);
      if k > 0 && StartsWith(s[5 + k..], CRC_END) then 5 + k + 6 else 0
  }

  /** strip_crc_tag: one pass that drops every CRC tag it meets. */
  function Strip(s: Bytes): Bytes
    decreases |s|
  {
    if s == [] then []
    else if TagLength(s) > 0 then Strip(s[TagLength(s)..])
    else [s[0]] + Strip(s[1..])
  }

  /** No CRC tag starts anywhere in the text. */
  predicate NoCrcTag(s: Bytes) {
    s == [] || (TagLength(s) == 0 && NoCrcTag(s[1..]))
  }

  function CrcNumber(data: Bytes): (n: nat)
    ensures n < 65536
  {
    FeedKeeps16(INIT, data);
    Below16Bits(CrcOf(data));
    (CrcOf(data) as bv16) as int
  }

  lemma Below16Bits(c: bv32)
    requires Is16Bit(c)
    ensures c < 0x1_0000
  {
  }

  /** The last digits of a number, with leading zeros. */
  function Decimal(n: nat, width: nat): (ds: Bytes)
    ensures |ds| == width
    decreases width, n
  {
    if width == 0 then [] else Decimal(n / 10, width - 1) + [DIGITS[n % 10]]
  }

  /** The CRC as the format 05d prints it; a CRC has no more than five digits. */
  function FiveDigits(n: nat): (ds: Bytes)
    requires n < 100000
    ensures |ds| == 5
  {
    Decimal(n, 5)
  }

  function DigitValue(b: byte): (v: nat)
    requires IsDigit(b)
    ensures v < 10 && DIGITS[v] == b
  {
    if b == 0x30 then 0 else if b == 0x31 then 1 else if b == 0x32 then 2 else if b == 0x33 then 3
    else if b == 0x34 then 4 else if b == 0x35 then 5 else if b == 0x36 then 6 else if b == 0x37 then 7
    else if b == 0x38 then 8 else 9
  }

  predicate AllDigits(ds: Bytes) {
    forall i :: 0 <= i < |ds| ==> IsDigit(ds[i])
  }

  /** The decimal number the digits stand for. */
  function ReadNumber(ds: Bytes): nat
    requires AllDigits(ds)
  {
    if ds == [] then 0 else 10 * ReadNumber(ds[..|ds| - 1]) + DigitValue(ds[|ds| - 1])
  }

  function CrcTag(n: nat): (tag: Bytes)
    requires n < 100000
    ensures |tag| == 16
  {
    CRC_OPEN + FiveDigits(n) + CRC_END
  }

  /** build_frame with the trailing CRLF. */
  function Build(inner: Bytes): Bytes {
    FRAME_OPEN + Strip(inner) + CrcTag(CrcNumber(Strip(inner))) + FRAME_END + [CR, LF]
  }

  /** parse_frame: the inner bytes without CRC tags, or None for anything that is not one frame. */
  function ParseFrame(bytes: Bytes): Option<Bytes> {
    var r := TrimRight(bytes);
    if |r| >= 15 && StartsWith(r, FRAME_OPEN) && At(r, FRAME_END, |r| - 8) then Some(Strip(r[7..|r| - 8])) else None
  }

  // ---- The tag that build_frame appends is the tag that stripping removes ----

  lemma DigitOf(v: nat)
    requires v < 10
    ensures IsDigit(DIGITS[v]) && DigitValue(DIGITS[v]) == v
  {
    assert DIGITS[v] in DIGITS;
  }

  lemma {:induction false} DecimalReadsBack(n: nat, width: nat)
    ensures AllDigits(Decimal(n, width))
    ensures n < Pow10(width) ==> ReadNumber(Decimal(n, width)) == n
    decreases width
  {
    if width > 0 {
      DecimalReadsBack(n / 10, width - 1);
      DigitOf(n % 10);
      assert Decimal(n, width)[..width - 1] == Decimal(n / 10, width - 1);
    }
  }

  function Pow10(k: nat): nat {
    if k == 0 then 1 else 10 * Pow10(k - 1)
  }

  lemma FiveDigitsReadBack(n: nat)
    requires n < 100000
    ensures AllDigits(FiveDigits(n))
    ensures ReadNumber(FiveDigits(n)) == n
  {
    assert Pow10(5) == 10 * Pow10(4) && Pow10(4) == 10 * Pow10(3) && Pow10(3) == 1000;
    DecimalReadsBack(n, 5);
  }

  lemma {:induction false} DigitRunStops(ds: Bytes, rest: Bytes)
    requires AllDigits(ds)
    requires rest != [] && !IsDigit(rest[0])
    ensures DigitRun(ds + rest) == |ds|
  {
    if ds == [] {
      assert ds + rest == rest;
    } else {
      assert (ds + rest)[1..] == ds[1..] + rest;
      DigitRunStops(ds[1..], rest);
    }
  }

  lemma TagIsTag(n: nat, rest: Bytes)
    requires n < 100000
    ensures TagLength(CrcTag(n) + rest) == 16
  {
    var s := CrcTag(n) + rest;
    FiveDigitsReadBack(n);
    assert s[..5] == CRC_OPEN;
    assert s[5..] == FiveDigits(n) + (CRC_END + rest);
    DigitRunStops(FiveDigits(n), CRC_END + rest);
    assert s[10..] == CRC_END + rest;
    assert s[10..][..6] == CRC_END;
  }

  lemma {:induction false} DigitRunAppend(s: Bytes, tag: Bytes)
    requires tag != [] && !IsDigit(tag[0])
    ensures DigitRun(s + tag) == DigitRun(s)
  {
    if s == [] {
      assert s + tag == tag;
    } else {
      assert (s + tag)[1..] == s[1..] + tag;
      if IsDigit(s[0]) { DigitRunAppend(s[1..], tag); }
    }
  }

  lemma AtBytes(s: Bytes, pat: Bytes, i: int)
    requires At(s, pat, i)
    ensures forall p :: i <= p < i + |pat| ==> s[p] == pat[p - i]
  {
    forall p | i <= p < i + |pat| ensures s[p] == pat[p - i] {
      assert s[p] == s[i..i + |pat|][p - i];
    }
  }

  /** A pattern whose only '<' is its first byte cannot run over from one text into a tag. */
  lemma NoStraddle(s: Bytes, tag: Bytes, pat: Bytes, i: nat)
    requires i < |s| && tag != [] && tag[0] == LT
    requires pat != [] && forall k :: 1 <= k < |pat| ==> pat[k] != LT
    ensures At(s + tag, pat, i) <==> At(s, pat, i)
  {
    assert (s + tag)[|s|] == LT;
    if i + |pat| <= |s| {
      assert (s + tag)[i..i + |pat|] == s[i..i + |pat|];
    } else if At(s + tag, pat, i) {
      AtBytes(s + tag, pat, i);
    }
  }

  lemma TagEndAppend(left: Bytes, tag: Bytes)
    requires |tag| >= 2 && tag[0] == LT && tag[1] != 0x2F
    ensures StartsWith(left + tag, CRC_END) <==> StartsWith(left, CRC_END)
  {
    if left == [] {
      assert left + tag == tag;
      if StartsWith(tag, CRC_END) { AtBytes(tag, CRC_END, 0); }
    } else {
      NoStraddle(left, tag, CRC_END, 0);
    }
  }

  /** A text is followed by a tag: the tag at its front, if any, is the same. */
  lemma TagLengthAppend(s: Bytes, tag: Bytes)
    requires s != [] && |tag| >= 2 && tag[0] == LT && tag[1] != 0x2F
    ensures TagLength(s + tag) == TagLength(s)
  {
    NoStraddle(s, tag, CRC_OPEN, 0);
    if StartsWith(s, CRC_OPEN) {
      assert (s + tag)[5..] == s[5..] + tag;
      DigitRunAppend(s[5..], tag);
      var k := DigitRun(s[5..]);
      assert (s + tag)[5 + k..] == s[5 + k..] + tag;
      TagEndAppend(s[5 + k..], tag);
    }
  }

  lemma {:induction false} StripAppendedTag(s: Bytes, n: nat)
    requires n < 100000
    ensures Strip(s + CrcTag(n)) == Strip(s)
    decreases |s|
  {
    var tag := CrcTag(n);
    if s == [] {
      TagIsTag(n, []);
      assert s + tag == tag && tag + [] == tag;
      assert tag[16..] == [];
    } else {
      TagLengthAppend(s, tag);
      if TagLength(s) > 0 {
        assert (s + tag)[TagLength(s)..] == s[TagLength(s)..] + tag;
        StripAppendedTag(s[TagLength(s)..], n);
      } else {
        assert (s + tag)[1..] == s[1..] + tag;
        StripAppendedTag(s[1..], n);
      }
    }
  }

  lemma {:induction false} StripShortens(s: Bytes)
    ensures |Strip(s)| <= |s|
    ensures |Strip(s)| == |s| ==> NoCrcTag(s)
    ensures NoCrcTag(s) <==> Strip(s) == s
    decreases |s|
  {
    if s != [] {
      if TagLength(s) > 0 {
        StripShortens(s[TagLength(s)..]);
      } else {
        StripShortens(s[1..]);
      }
    }
  }

  // ---- Round trip of one frame ----

  /** The parts of a built frame, each where it starts. */
  lemma BuildParts(inner: Bytes)
    ensures var y := Strip(inner);
            && Build(inner) == FRAME_OPEN + (y + (CrcTag(CrcNumber(y)) + FRAME_END + [CR, LF]))
            && |Build(inner)| == 7 + |y| + 26
  {
  }

  lemma {:induction false} TrimBuilt(inner: Bytes)
    ensures TrimRight(Build(inner)) == FRAME_OPEN + (Strip(inner) + CrcTag(CrcNumber(Strip(inner)))) + FRAME_END
  {
    var body := FRAME_OPEN + (Strip(inner) + CrcTag(CrcNumber(Strip(inner)))) + FRAME_END;
    assert Build(inner) == (body + [CR]) + [LF];
    TrimRightOne(body + [CR], LF);
    TrimRightOne(body, CR);
    assert body[|body| - 1] == 0x3E;
  }

  /** What parsing a built frame gives, for every text. */
  lemma ParseOfBuild(inner: Bytes)
    ensures ParseFrame(Build(inner)) == Some(Strip(Strip(inner)))
  {
    var y := Strip(inner);
    var middle := y + CrcTag(CrcNumber(y));
    TrimBuilt(inner);
    var r := FRAME_OPEN + middle + FRAME_END;
    assert r[..7] == FRAME_OPEN && r[|r| - 8..] == FRAME_END && r[7..|r| - 8] == middle;
    assert r[|r| - 8..|r|] == r[|r| - 8..];
    StripAppendedTag(y, CrcNumber(y));
  }

  /** The round trip holds exactly for texts without a CRC tag. */
  lemma RoundTripIffNoTag(inner: Bytes)
    ensures ParseFrame(Build(inner)) == Some(inner) <==> NoCrcTag(inner)
  {
    ParseOfBuild(inner);
    StripShortens(inner);
    StripShortens(Strip(inner));
  }

  /** A slice of the tail that follows a text in a frame. */
  lemma SliceOfTail(y: Bytes, tail: Bytes, i: nat, k: nat)
    requires i <= k <= |tail|
    ensures (FRAME_OPEN + (y + tail))[7..7 + |y|] == y
    ensures (FRAME_OPEN + (y + tail))[7 + |y| + i..7 + |y| + k] == tail[i..k]
  {
  }

  /** The five digits in the frame read back as the CRC of the text they protect. */
  lemma CrcTagReadsBack(inner: Bytes)
    ensures var y := Strip(inner);
            var at := 7 + |y| + 5;
            && Build(inner)[7..7 + |y|] == y
            && AllDigits(Build(inner)[at..at + 5])
            && ReadNumber(Build(inner)[at..at + 5]) == CrcNumber(y)
  {
    var y := Strip(inner);
    var tail := CrcTag(CrcNumber(y)) + FRAME_END + [CR, LF];
    BuildParts(inner);
    FiveDigitsReadBack(CrcNumber(y));
    assert tail[5..10] == FiveDigits(CrcNumber(y));
    SliceOfTail(y, tail, 5, 10);
  }

  // ---- Round trip of a stream of frames ----

  lemma NoEndInTag(n: nat, j: int)
    requires n < 100000 && 0 <= j < 16
    ensures !At(CrcTag(n) + FRAME_END + [CR, LF], FRAME_END, j)
  {
    var s := CrcTag(n) + FRAME_END + [CR, LF];
    FiveDigitsReadBack(n);
    assert s[1] == 0x43 && s[12] == 0x43 && s[16] == LT;
    assert forall k :: 0 <= k < 5 ==> s[k] == CRC_OPEN[k];
    assert forall k :: 5 <= k < 10 ==> s[k] == FiveDigits(n)[k - 5];
    assert forall k :: 10 <= k < 16 ==> s[k] == CRC_END[k - 10];
    assert forall k :: 5 <= k < 10 ==> IsDigit(s[k]);
    assert !IsDigit(LT);
    assert s[j] != LT || s[j + 1] != 0x2F || s[j + 2] != 0x46;
    if At(s, FRAME_END, j) {
      AtBytes(s, FRAME_END, j);
    }
  }

  lemma NoEndInOpen(x: Bytes, j: int)
    requires 0 <= j < 7
    ensures !At(FRAME_OPEN + x, FRAME_END, j)
  {
    var s := FRAME_OPEN + x;
    assert s[j] == FRAME_OPEN[j] && s[1] == 0x46;
    if At(s, FRAME_END, j) { AtBytes(s, FRAME_END, j); }
  }

  lemma NoEndInBody(y: Bytes, n: nat, rest: Bytes, j: int)
    requires NoEnd(y) && n < 100000 && 0 <= j < |y| + 16
    ensures !At(y + (CrcTag(n) + FRAME_END + [CR, LF] + rest), FRAME_END, j)
  {
    var tail := CrcTag(n) + FRAME_END + [CR, LF];
    if j < |y| {
      NoStraddle(y, tail + rest, FRAME_END, j);
    } else {
      AtSuffix(y, tail + rest, j - |y|);
      NoEndInTag(n, j - |y|);
      AtPrefix(tail, rest, j - |y|);
    }
  }

  function Body(y: Bytes, n: nat, rest: Bytes): Bytes
    requires n < 100000
  {
    y + (CrcTag(n) + FRAME_END + [CR, LF] + rest)
  }

  lemma BodyHasEnd(y: Bytes, n: nat, rest: Bytes)
    requires n < 100000
    ensures At(FRAME_OPEN + Body(y, n, rest), FRAME_END, 7 + |y| + 16)
  {
    var tail := CrcTag(n) + FRAME_END + [CR, LF] + rest;
    assert tail[16..24] == FRAME_END;
    AtSuffix(y, tail, 16);
    AtSuffix(FRAME_OPEN, y + tail, |y| + 16);
  }

  lemma BuildIsBody(inner: Bytes, rest: Bytes)
    ensures Build(inner) + rest == FRAME_OPEN + Body(Strip(inner), CrcNumber(Strip(inner)), rest)
  {
    BuildParts(inner);
  }

  /** The end tag of a built frame is the first one when the text holds none. */
  lemma BuiltEnd(inner: Bytes, rest: Bytes)
    requires NoEnd(Strip(inner))
    ensures FirstEnd(Build(inner) + rest, 7 + |Strip(inner)| + 16)
  {
    var y, n := Strip(inner), CrcNumber(Strip(inner));
    BuildIsBody(inner, rest);
    BodyHasEnd(y, n, rest);
    forall j | 0 <= j < 7 + |y| + 16 ensures !At(FRAME_OPEN + Body(y, n, rest), FRAME_END, j) {
      if j < 7 {
        NoEndInOpen(Body(y, n, rest), j);
      } else {
        AtSuffix(FRAME_OPEN, Body(y, n, rest), j - 7);
        NoEndInBody(y, n, rest, j - 7);
      }
    }
  }

  lemma ExtractBuilt(inner: Bytes, rest: Bytes)
    requires NoEnd(Strip(inner))
    ensures Extract(Build(inner) + rest) == (Some(Build(inner)), rest)
  {
    var s := Build(inner) + rest;
    var e := 7 + |Strip(inner)| + 24;
    BuiltEnd(inner, rest);
    FindIsFirst(s, e - 8);
    BuildParts(inner);
    assert Build(inner)[e] == CR && Build(inner)[e + 1] == LF;
    assert s[..e + 2] == Build(inner) && s[e + 2..] == rest;
  }

  function BuildAll(inners: seq<Bytes>): seq<Bytes> {
    if inners == [] then [] else [Build(inners[0])] + BuildAll(inners[1..])
  }

  function ParseAll(frames: seq<Bytes>): seq<Option<Bytes>> {
    if frames == [] then [] else [ParseFrame(frames[0])] + ParseAll(frames[1..])
  }

  /** Concatenated built frames come out of one buffer as they went in, and nothing is left. */
  lemma {:induction false} StreamOfBuilt(inners: seq<Bytes>)
    requires forall x :: x in inners ==> NoEnd(Strip(x))
    ensures Drain(Concat(BuildAll(inners))) == (BuildAll(inners), [])
  {
    if inners != [] {
      var rest := Concat(BuildAll(inners[1..]));
      StreamOfBuilt(inners[1..]);
      ExtractBuilt(inners[0], rest);
      assert BuildAll(inners)[1..] == BuildAll(inners[1..]);
    }
  }

  /** Texts without end tag and CRC tag survive build, concatenation, extraction and parsing. */
  lemma {:induction false} StreamRoundTrip(inners: seq<Bytes>)
    requires forall x :: x in inners ==> NoEnd(x) && NoCrcTag(x)
    ensures var (frames, left) := Drain(Concat(BuildAll(inners)));
            && left == []
            && |frames| == |inners|
            && forall i :: 0 <= i < |inners| ==> ParseFrame(frames[i]) == Some(inners[i])
  {
    forall x | x in inners ensures Strip(x) == x && ParseFrame(Build(x)) == Some(x) {
      StripShortens(x);
      RoundTripIffNoTag(x);
    }
    StreamOfBuilt(inners);
    BuildAllAt(inners);
  }

  lemma {:induction false} BuildAllAt(inners: seq<Bytes>)
    ensures |BuildAll(inners)| == |inners|
    ensures forall i :: 0 <= i < |inners| ==> BuildAll(inners)[i] == Build(inners[i])
  {
    if inners != [] { BuildAllAt(inners[1..]); }
  }

  lemma EndTagShiftsFrame(inner: Bytes, j: int)
    requires 0 <= j && At(Strip(inner), FRAME_END, j)
    ensures At(Build(inner), FRAME_END, 7 + j)
  {
    var y := Strip(inner);
    var tail := CrcTag(CrcNumber(y)) + FRAME_END + [CR, LF];
    BuildParts(inner);
    AtPrefix(y, tail, j);
    AtSuffix(FRAME_OPEN, y + tail, j);
  }

  /** Extraction gives a built frame back whole exactly when its text, once stripped, holds no end tag. */
  lemma WholeIffNoEndTag(inner: Bytes)
    ensures Extract(Build(inner)) == (Some(Build(inner)), []) <==> NoEnd(Strip(inner))
  {
    if NoEnd(Strip(inner)) {
      ExtractBuilt(inner, []);
      assert Build(inner) + [] == Build(inner);
    } else {
      var j :| 0 <= j && At(Strip(inner), FRAME_END, j);
      EndTagShiftsFrame(inner, j);
      assert FindEnd(Build(inner)) <= 7 + j;
      TerminatorBytes(Build(inner), FindEnd(Build(inner)) + 8);
    }
  }
}
