/**
 Frames on the wire: building one around its CRC tag, parsing it back, and taking
 complete frames out of a byte stream that arrives in arbitrary chunks.
 */
module Frame {
  import opened Options
  import opened Crc

  const LT: byte := 0x3C
  const CR: byte := 0x0D
  const LF: byte := 0x0A
  // <Frame>  </Frame>  <CRC>  </CRC>  0123456789
  const FRAME_OPEN: Bytes := [0x3C, 0x46, 0x72, 0x61, 0x6D, 0x65, 0x3E]
  const FRAME_END: Bytes := [0x3C, 0x2F, 0x46, 0x72, 0x61, 0x6D, 0x65, 0x3E]
  const CRC_OPEN: Bytes := [0x3C, 0x43, 0x52, 0x43, 0x3E]
  const CRC_END: Bytes := [0x3C, 0x2F, 0x43, 0x52, 0x43, 0x3E]
  const DIGITS: Bytes := [0x30, 0x31, 0x32, 0x33, 0x34, 0x35, 0x36, 0x37, 0x38, 0x39]

  // ---- Searching ----

  predicate At(s: Bytes, pat: Bytes, i: int) {
    0 <= i && i + |pat| <= |s| && s[i..i + |pat|] == pat
  }

  /** The first index of the pattern from i on, or -1. */
  function FindFrom(s: Bytes, pat: Bytes, i: nat): (r: int)
    ensures r == -1 || (i <= r && At(s, pat, r))
    ensures r == -1 ==> forall j :: i <= j ==> !At(s, pat, j)
    ensures r >= 0 ==> forall j :: i <= j < r ==> !At(s, pat, j)
    decreases |s| - i
  {
    if i + |pat| > |s| then -1
    else if At(s, pat, i) then i
    else FindFrom(s, pat, i + 1)
  }

  function FindEnd(s: Bytes): int {
    FindFrom(s, FRAME_END, 0)
  }

  /** The end tag stands first at i. */
  predicate FirstEnd(s: Bytes, i: int) {
    At(s, FRAME_END, i) && forall j :: 0 <= j < i ==> !At(s, FRAME_END, j)
  }

  ghost predicate NoEnd(s: Bytes) {
    forall j :: 0 <= j ==> !At(s, FRAME_END, j)
  }

  // ---- Extraction ----

  predicate IsCrLf(b: byte) {
    b == CR || b == LF
  }

  /** How many terminator bytes follow position e; None while a CR may still become a CRLF. */
  function Terminator(buf: Bytes, e: nat): Option<nat> {
    if e >= |buf| then Some(0)
    else if e + 1 < |buf| && buf[e] == CR && buf[e + 1] == LF then Some(2)
    else if buf[e] == LF then Some(1)
    else if buf[e] == CR then (if |buf| < e + 2 then None else Some(1))
    else Some(0)
  }

  /** The first complete frame, if there is one, and what stays in the buffer. */
  function Extract(buf: Bytes): (r: (Option<Bytes>, Bytes))
    ensures r.0.Some? ==> r.0.value + r.1 == buf && |r.1| < |buf|
    ensures r.0.None? ==> r.1 == buf
  {
    var i := FindEnd(buf);
    if i < 0 then (None, buf)
    else
      match Terminator(buf, i + |FRAME_END|)
      case None => (None, buf)
      case Some(t) =>
        var n := i + |FRAME_END| + t;
        (Some(buf[..n]), buf[n..])
  }

  function Drain(buf: Bytes): (seq<Bytes>, Bytes)
    decreases |buf|
  {
    var (f, rest) := Extract(buf);
    if f.None? then ([], buf)
    else
      var (fs, left) := Drain(rest);
      ([f.value] + fs, left)
  }

  function Concat(parts: seq<Bytes>): Bytes {
    if parts == [] then [] else parts[0] + Concat(parts[1..])
  }

  /** Feeding chunk after chunk, taking out all complete frames after each. */
  function FeedAll(chunks: seq<Bytes>): (seq<Bytes>, Bytes) {
    if chunks == [] then ([], [])
    else
      var (fs, buf) := FeedAll(chunks[..|chunks| - 1]);
      var (gs, left) := Drain(buf + chunks[|chunks| - 1]);
      (fs + gs, left)
  }

  /** The receive buffer, from which frames are removed in place. */
  class FrameBuffer {
    var data: Bytes

    constructor ()
      ensures data == []
    {
      data := [];
    }

    method Extend(chunk: Bytes)
      modifies this
      ensures data == old(data) + chunk
    {
      data := data + chunk;
    }

    method ExtractFrame() returns (frame: Option<Bytes>)
      modifies this
      ensures (frame, data) == Extract(old(data))
    {
      var end := FindFrom(data, FRAME_END, 0);
      if end < 0 { return None; }
      var frameEnd := end + |FRAME_END|;
      if |data| > frameEnd {
        if frameEnd + 2 <= |data| && data[frameEnd..frameEnd + 2] == [CR, LF] {
          frameEnd := frameEnd + 2;
        } else if data[frameEnd] == LF || data[frameEnd] == CR {
          if data[frameEnd] == CR && |data| < frameEnd + 2 { return None; }
          frameEnd := frameEnd + 1;
        }
      }
      frame := Some(data[..frameEnd]);
      data := data[frameEnd..];
    }

    /** The receive loop: extract until nothing complete is left. */
    method ExtractAll() returns (frames: seq<Bytes>)
      modifies this
      ensures (frames, data) == Drain(old(data))
    {
      frames := [];
      assert frames + Drain(data).0 == Drain(data).0;
      var more := true;
      while more
        invariant more ==> Drain(old(data)) == (frames + Drain(data).0, Drain(data).1)
        invariant !more ==> Drain(old(data)) == (frames, data)
        decreases more, |data|
      {
        ghost var rest := Drain(data).0;
        var frame := ExtractFrame();
        if frame.None? {
          assert frames + [] == frames;
          more := false;
        } else {
          assert frames + rest == frames + [frame.value] + Drain(data).0;
          frames := frames + [frame.value];
        }
      }
    }
  }

  // ---- Reassembly does not depend on the chunks ----

  function TrimRight(s: Bytes): Bytes {
    if s != [] && IsCrLf(s[|s| - 1]) then TrimRight(s[..|s| - 1]) else s
  }

  function TrimLeft(s: Bytes): Bytes {
    if s != [] && IsCrLf(s[0]) then TrimLeft(s[1..]) else s
  }

  function Trim(s: Bytes): Bytes {
    TrimLeft(TrimRight(s))
  }

  function TrimAll(fs: seq<Bytes>): seq<Bytes> {
    if fs == [] then [] else [Trim(fs[0])] + TrimAll(fs[1..])
  }

  /** The frames of a stream, each cut right after its end tag and trimmed: no chunks involved. */
  function Canonical(s: Bytes): seq<Bytes>
    decreases |s|
  {
    var i := FindEnd(s);
    if i < 0 then [] else [Trim(s[..i + |FRAME_END|])] + Canonical(s[i + |FRAME_END|..])
  }

  /** One end tag, followed by terminator bytes only. */
  ghost predicate WellCut(f: Bytes) {
    exists i :: FirstEnd(f, i) && forall k :: i + |FRAME_END| <= k < |f| ==> IsCrLf(f[k])
  }

  /** No complete frame, or one whose terminator may be incomplete. */
  ghost predicate Stuck(s: Bytes) {
    NoEnd(s) || EndsOpen(s)
  }

  /** The stream ends in an end tag and a CR. */
  predicate EndsOpen(s: Bytes) {
    |s| >= |FRAME_END| + 1 && s[|s| - |FRAME_END| - 1..] == FRAME_END + [CR]
  }

  lemma AtPrefix(s: Bytes, x: Bytes, i: int)
    requires 0 <= i && i + |FRAME_END| <= |s|
    ensures At(s + x, FRAME_END, i) <==> At(s, FRAME_END, i)
  {
    assert (s + x)[i..i + |FRAME_END|] == s[i..i + |FRAME_END|];
  }

  lemma AtSuffix(x: Bytes, s: Bytes, i: int)
    requires 0 <= i
    ensures At(x + s, FRAME_END, |x| + i) <==> At(s, FRAME_END, i)
  {
    if i + |FRAME_END| <= |s| {
      assert (x + s)[|x| + i..|x| + i + |FRAME_END|] == s[i..i + |FRAME_END|];
    }
  }

  lemma FindIsFirst(s: Bytes, i: int)
    requires FirstEnd(s, i)
    ensures FindEnd(s) == i
  {
  }

  lemma {:induction false} TrimRightOne(s: Bytes, c: byte)
    requires IsCrLf(c)
    ensures TrimRight(s + [c]) == TrimRight(s)
  {
    assert (s + [c])[..|s|] == s;
  }

  lemma {:induction false} TrimLeftOne(s: Bytes, c: byte)
    requires IsCrLf(c)
    ensures Trim([c] + s) == Trim(s)
    decreases |s|
  {
    if s != [] && IsCrLf(s[|s| - 1]) {
      TrimLeftOne(s[..|s| - 1], c);
      assert ([c] + s)[..|s|] == [c] + s[..|s| - 1];
    } else if s == [] {
      assert [c][..0] == [];
      assert [c] + s == [c];
    } else {
      assert ([c] + s)[1..] == s;
      assert ([c] + s)[|s|] == s[|s| - 1];
    }
  }

  lemma {:induction false} TrimTail(s: Bytes, t: Bytes)
    requires forall k :: 0 <= k < |t| ==> IsCrLf(t[k])
    ensures Trim(s + t) == Trim(s)
    decreases |t|
  {
    if t == [] {
      assert s + t == s;
    } else {
      var t', c := t[..|t| - 1], t[|t| - 1];
      assert s + t == (s + t') + [c];
      TrimRightOne(s + t', c);
      TrimTail(s, t');
    }
  }

  lemma FindSkip(c: byte, s: Bytes)
    requires IsCrLf(c)
    ensures FindEnd([c] + s) == if FindEnd(s) < 0 then -1 else FindEnd(s) + 1
  {
    var cs := [c] + s;
    if At(cs, FRAME_END, 0) { EndTagBytes(cs, 0); }
    forall j | 0 < j ensures At(cs, FRAME_END, j) <==> At(s, FRAME_END, j - 1) {
      AtSuffix([c], s, j - 1);
    }
    if FindEnd(s) >= 0 { FindIsFirst(cs, FindEnd(s) + 1); }
  }

  /** Only the first byte of an end tag is a '<'. */
  lemma EndTagBytes(s: Bytes, i: int)
    requires At(s, FRAME_END, i)
    ensures s[i] == LT
    ensures forall p :: i < p < i + |FRAME_END| ==> s[p] != LT
  {
    forall p | i <= p < i + |FRAME_END| ensures s[p] == FRAME_END[p - i] {
      assert s[p] == s[i..i + |FRAME_END|][p - i];
    }
  }

  /** Terminator bytes in front of a stream belong to its first frame and are trimmed away. */
  lemma CanonicalSkip(c: byte, s: Bytes)
    requires IsCrLf(c)
    ensures Canonical([c] + s) == Canonical(s)
  {
    FindSkip(c, s);
    var n := FindEnd(s) + |FRAME_END|;
    if FindEnd(s) >= 0 {
      assert ([c] + s)[..n + 1] == [c] + s[..n];
      assert ([c] + s)[n + 1..] == s[n..];
      TrimLeftOne(s[..n], c);
    }
  }

  lemma {:induction false} CanonicalSkipAll(t: Bytes, s: Bytes)
    requires forall k :: 0 <= k < |t| ==> IsCrLf(t[k])
    ensures Canonical(t + s) == Canonical(s)
    decreases |t|
  {
    if t == [] {
      assert t + s == s;
    } else {
      assert t + s == [t[0]] + (t[1..] + s);
      CanonicalSkip(t[0], t[1..] + s);
      CanonicalSkipAll(t[1..], s);
    }
  }

  /** A well-cut frame in front of a stream is its first canonical frame. */
  lemma CanonicalCons(f: Bytes, s: Bytes)
    requires WellCut(f)
    ensures Canonical(f + s) == [Trim(f)] + Canonical(s)
  {
    var i :| FirstEnd(f, i) && forall k :: i + |FRAME_END| <= k < |f| ==> IsCrLf(f[k]);
    var n := i + |FRAME_END|;
    forall j | 0 <= j <= i ensures At(f + s, FRAME_END, j) <==> At(f, FRAME_END, j) {
      AtPrefix(f, s, j);
    }
    assert FirstEnd(f + s, i);
    FindIsFirst(f + s, i);
    assert (f + s)[..n] == f[..n];
    assert (f + s)[n..] == f[n..] + s;
    CanonicalSkipAll(f[n..], s);
    TrimTail(f[..n], f[n..]);
    assert f == f[..n] + f[n..];
  }

  lemma {:induction false} CanonicalOfFrames(fs: seq<Bytes>, s: Bytes)
    requires forall f :: f in fs ==> WellCut(f)
    ensures Canonical(Concat(fs) + s) == TrimAll(fs) + Canonical(s)
  {
    if fs == [] {
      assert Concat(fs) + s == s;
    } else {
      assert Concat(fs) + s == fs[0] + (Concat(fs[1..]) + s);
      CanonicalCons(fs[0], Concat(fs[1..]) + s);
      CanonicalOfFrames(fs[1..], s);
    }
  }

  lemma ExtractCuts(buf: Bytes)
    ensures Extract(buf).0.Some? ==> WellCut(Extract(buf).0.value)
    ensures Extract(buf).0.None? ==> Stuck(buf)
  {
    var i := FindEnd(buf);
    if i >= 0 {
      var e := i + |FRAME_END|;
      var t := Terminator(buf, e);
      if t.Some? {
        var f := buf[..e + t.value];
        forall j | 0 <= j <= i ensures At(f, FRAME_END, j) <==> At(buf, FRAME_END, j) {
          assert f + buf[e + t.value..] == buf;
          AtPrefix(f, buf[e + t.value..], j);
        }
        assert FirstEnd(f, i);
      } else {
        assert buf[i..] == FRAME_END + [CR];
      }
    }
  }

  lemma {:induction false} DrainCuts(buf: Bytes)
    ensures forall f :: f in Drain(buf).0 ==> WellCut(f)
    ensures Stuck(Drain(buf).1)
    ensures Concat(Drain(buf).0) + Drain(buf).1 == buf
    decreases |buf|
  {
    ExtractCuts(buf);
    var (f, rest) := Extract(buf);
    if f.Some? {
      DrainCuts(rest);
      ConsConcat(f.value, Drain(rest).0, Drain(rest).1);
    }
  }

  lemma ConsConcat(f: Bytes, fs: seq<Bytes>, left: Bytes)
    ensures Concat([f] + fs) + left == f + (Concat(fs) + left)
  {
    assert ([f] + fs)[1..] == fs;
  }

  lemma {:induction false} ConcatAppend(a: seq<Bytes>, b: seq<Bytes>)
    ensures Concat(a + b) == Concat(a) + Concat(b)
  {
    if a == [] {
      assert a + b == b;
    } else {
      assert (a + b)[1..] == a[1..] + b;
      ConcatAppend(a[1..], b);
    }
  }

  lemma ConcatInit(chunks: seq<Bytes>)
    requires chunks != []
    ensures Concat(chunks) == Concat(chunks[..|chunks| - 1]) + chunks[|chunks| - 1]
  {
    var before, last := chunks[..|chunks| - 1], chunks[|chunks| - 1];
    ConcatAppend(before, [last]);
    assert chunks == before + [last];
    assert [last][1..] == [] && Concat([last]) == last + [];
  }

  lemma {:induction false} FeedCuts(chunks: seq<Bytes>)
    ensures forall f :: f in FeedAll(chunks).0 ==> WellCut(f)
    ensures Stuck(FeedAll(chunks).1)
    decreases |chunks|
  {
    if chunks != [] {
      FeedCuts(chunks[..|chunks| - 1]);
      DrainCuts(FeedAll(chunks[..|chunks| - 1]).1 + chunks[|chunks| - 1]);
    }
  }

  lemma ConcatAssoc(a: Bytes, b: Bytes, c: Bytes)
    ensures (a + b) + c == a + (b + c)
  {
  }

  /** Nothing is lost or invented: frames and leftover concatenate to the bytes fed. */
  lemma {:induction false} FeedConserves(chunks: seq<Bytes>)
    ensures Concat(FeedAll(chunks).0) + FeedAll(chunks).1 == Concat(chunks)
    decreases |chunks|
  {
    if chunks != [] {
      var before, last := chunks[..|chunks| - 1], chunks[|chunks| - 1];
      var (fs, buf) := FeedAll(before);
      var (gs, left) := Drain(buf + last);
      FeedConserves(before);
      DrainCuts(buf + last);
      ConcatAppend(fs, gs);
      ConcatInit(chunks);
      ConcatAssoc(Concat(fs), Concat(gs), left);
      ConcatAssoc(Concat(fs), buf, last);
    }
  }

  lemma SuffixEndsOpen(x: Bytes, s: Bytes)
    requires EndsOpen(s)
    ensures EndsOpen(x + s)
  {
    assert (x + s)[|x + s| - |FRAME_END| - 1..] == s[|s| - |FRAME_END| - 1..];
  }

  lemma NoEndHasNoFrames(s: Bytes)
    requires NoEnd(s)
    ensures Canonical(s) == []
  {
  }

  /**
   Unless the stream ends in an end tag and a lone CR, every way of cutting it
   yields the frames of the uncut stream, up to terminator bytes at their ends.
   */
  lemma FramesDoNotDependOnChunks(chunks: seq<Bytes>)
    requires !EndsOpen(Concat(chunks))
    ensures TrimAll(FeedAll(chunks).0) == Canonical(Concat(chunks))
    ensures |FeedAll(chunks).0| == |Canonical(Concat(chunks))|
  {
    var (fs, left) := FeedAll(chunks);
    FeedConserves(chunks);
    FeedCuts(chunks);
    if EndsOpen(left) { SuffixEndsOpen(Concat(fs), left); }
    NoEndHasNoFrames(left);
    CanonicalOfFrames(fs, left);
    TrimAllLength(fs);
  }

  lemma {:induction false} TrimAllLength(fs: seq<Bytes>)
    ensures |TrimAll(fs)| == |fs|
  {
    if fs != [] { TrimAllLength(fs[1..]); }
  }

  /** Where the end tag of an open end stands. */
  lemma OpenEndTag(s: Bytes)
    requires EndsOpen(s)
    ensures var last := |s| - |FRAME_END| - 1;
            At(s, FRAME_END, last) && s[last] == LT && s[|s| - 1] == CR
  {
    var last := |s| - |FRAME_END| - 1;
    var end := s[last..];
    assert s[last..last + |FRAME_END|] == end[..|FRAME_END|];
    assert s[last] == end[0] && s[|s| - 1] == end[|FRAME_END|];
  }

  /** An open end stays in the buffer. */
  lemma {:induction false} DrainKeepsOpenEnd(buf: Bytes)
    requires EndsOpen(buf)
    ensures EndsOpen(Drain(buf).1)
    decreases |buf|
  {
    var i := FindEnd(buf);
    var last := |buf| - |FRAME_END| - 1;
    OpenEndTag(buf);
    if i < last {
      ExtractKeepsOpenEnd(buf);
      DrainKeepsOpenEnd(Extract(buf).1);
    }
  }

  lemma ExtractKeepsOpenEnd(buf: Bytes)
    requires EndsOpen(buf) && FindEnd(buf) < |buf| - |FRAME_END| - 1
    ensures Extract(buf).0.Some? && EndsOpen(Extract(buf).1)
  {
    var i, last := FindEnd(buf), |buf| - |FRAME_END| - 1;
    OpenEndTag(buf);
    EndTagsDoNotOverlap(buf, i, last);
    TerminatorBytes(buf, i + |FRAME_END|);
    var rest := Extract(buf).1;
    assert |buf| - |rest| <= last;
    assert rest[|rest| - |FRAME_END| - 1..] == buf[last..];
  }

  lemma EndTagsDoNotOverlap(s: Bytes, i: int, j: int)
    requires At(s, FRAME_END, i) && At(s, FRAME_END, j) && i < j
    ensures i + |FRAME_END| <= j
  {
    EndTagBytes(s, i);
    EndTagBytes(s, j);
  }

  lemma TerminatorBytes(buf: Bytes, e: nat)
    ensures Terminator(buf, e).Some? ==>
              forall p :: e <= p < e + Terminator(buf, e).value ==> p < |buf| && IsCrLf(buf[p])
  {
  }

  lemma FeedOne(s: Bytes)
    ensures FeedAll([s]) == Drain(s) && Concat([s]) == s
  {
    assert [s][..0] == [] && [s][1..] == [];
    assert [] + s == s;
    assert [] + Drain(s).0 == Drain(s).0;
    assert Concat([s]) == s + [];
  }

  lemma FeedTwo(a: Bytes, b: Bytes)
    ensures FeedAll([a, b]) == (Drain(a).0 + Drain(Drain(a).1 + b).0, Drain(Drain(a).1 + b).1)
    ensures Concat([a, b]) == a + b
  {
    FeedOne(a);
    FeedOne(b);
    assert [a, b][..1] == [a] && [a, b][1..] == [b];
  }

  /** In one chunk the last frame waits for its LF. */
  lemma OpenEndInOneChunk(s: Bytes)
    requires EndsOpen(s)
    ensures |Drain(s).0| < |Canonical(s)|
  {
    var (fs, left) := Drain(s);
    DrainCuts(s);
    DrainKeepsOpenEnd(s);
    CanonicalOfFrames(fs, left);
    OpenEndHasFrame(left);
    TrimAllLength(fs);
  }

  lemma LastBytes(s: Bytes)
    requires EndsOpen(s)
    ensures s[|s| - 2] == 0x3E && s[|s| - 1] == CR
  {
    var end := s[|s| - |FRAME_END| - 1..];
    assert s[|s| - 2] == end[|FRAME_END| - 1] && s[|s| - 1] == end[|FRAME_END|];
  }

  /** Without its CR an open end is not open. */
  lemma ClosedWithoutCr(s0: Bytes)
    requires EndsOpen(s0 + [CR])
    ensures !EndsOpen(s0)
  {
    LastBytes(s0 + [CR]);
    assert (s0 + [CR])[|s0| - 1] == s0[|s0| - 1];
    if EndsOpen(s0) { LastBytes(s0); }
  }

  lemma RestHasNoEnd(s: Bytes)
    requires !EndsOpen(s)
    ensures NoEnd(Drain(s).1)
  {
    var (fs, left) := Drain(s);
    DrainCuts(s);
    if EndsOpen(left) { SuffixEndsOpen(Concat(fs), left); }
  }

  lemma CountWithCr(s0: Bytes, fs: seq<Bytes>, left: Bytes)
    requires (fs, left) == Drain(s0) && NoEnd(left)
    ensures |fs| == |Canonical(s0 + [CR])|
  {
    DrainCuts(s0);
    NoEndPlusCr(left);
    CanonicalOfFrames(fs, left + [CR]);
    ConcatAssoc(Concat(fs), left, [CR]);
    TrimAllLength(fs);
  }

  /** Without the CR the last frame leaves at once. */
  lemma OpenEndInTwoChunks(s0: Bytes)
    requires EndsOpen(s0 + [CR])
    ensures NoEnd(Drain(s0).1) && |Drain(s0).0| == |Canonical(s0 + [CR])|
  {
    ClosedWithoutCr(s0);
    RestHasNoEnd(s0);
    CountWithCr(s0, Drain(s0).0, Drain(s0).1);
  }

  /** And only then: with an open end, holding back the CR yields one frame more. */
  lemma OpenEndDependsOnChunks(s: Bytes)
    requires EndsOpen(s)
    ensures Concat([s]) == Concat([s[..|s| - 1], [CR]])
    ensures |FeedAll([s]).0| < |FeedAll([s[..|s| - 1], [CR]]).0|
  {
    var s0 := s[..|s| - 1];
    assert s0 + [CR] == s by { assert s[|s| - 1] == s[|s| - |FRAME_END| - 1..][|FRAME_END|]; }
    FeedOne(s);
    FeedTwo(s0, [CR]);
    OpenEndInOneChunk(s);
    OpenEndInTwoChunks(s0);
    NoEndPlusCr(Drain(s0).1);
  }

  /** Every two ways of cutting the stream into chunks give the same frames, up to CR and LF around them. */
  ghost predicate ChunksDoNotMatter(s: Bytes) {
    forall a, b :: Concat(a) == s && Concat(b) == s ==> TrimAll(FeedAll(a).0) == TrimAll(FeedAll(b).0)
  }

  lemma ChunksMatterIffEndsOpen(s: Bytes)
    ensures ChunksDoNotMatter(s) <==> !EndsOpen(s)
  {
    if EndsOpen(s) {
      var a, b := [s], [s[..|s| - 1], [CR]];
      FeedOne(s);
      OpenEndDependsOnChunks(s);
      TrimAllLength(FeedAll(a).0);
      TrimAllLength(FeedAll(b).0);
      assert Concat(a) == s && Concat(b) == s;
    } else {
      forall a, b | Concat(a) == s && Concat(b) == s
        ensures TrimAll(FeedAll(a).0) == TrimAll(FeedAll(b).0)
      {
        FramesDoNotDependOnChunks(a);
        FramesDoNotDependOnChunks(b);
      }
    }
  }

  lemma OpenEndHasFrame(s: Bytes)
    requires EndsOpen(s)
    ensures Canonical(s) != []
  {
    OpenEndTag(s);
  }

  lemma NoEndPlusCr(s: Bytes)
    requires NoEnd(s)
    ensures NoEnd(s + [CR]) && Canonical(s + [CR]) == [] && Drain(s + [CR]) == ([], s + [CR])
  {
    forall j | 0 <= j ensures !At(s + [CR], FRAME_END, j) {
      if j + |FRAME_END| <= |s| {
        AtPrefix(s, [CR], j);
      } else if At(s + [CR], FRAME_END, j) {
        EndTagLast(s + [CR], j);
      }
    }
  }

  lemma EndTagLast(s: Bytes, i: int)
    requires At(s, FRAME_END, i)
    ensures s[i + |FRAME_END| - 1] == 0x3E
  {
    assert s[i + |FRAME_END| - 1] == s[i..i + |FRAME_END|][|FRAME_END| - 1];
  }
}
