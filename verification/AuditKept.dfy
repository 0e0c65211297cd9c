/** Which text a record keeps, said without the functions that cut it. */
module AuditKept {
  import opened Utf8
  import opened AuditBudget

  /** The first i characters are the longest run that takes at most n octets. */
  predicate IsLongestFit(t: Text, i: nat, n: nat) {
    i <= |t| && |Encode(t[..i])| <= n && (i < |t| ==> |Encode(t[..i + 1])| > n)
  }

  /** The first i characters as they are shown, and U+FFFD behind them if octets of another one were left. */
  predicate ShowsFirst(kept: Text, t: Text, i: nat, torn: bool) {
    && i <= |t| && |kept| == i + (if torn then 1 else 0)
    && (forall k :: 0 <= k < i ==> kept[k] == Shown(t[k]))
    && (torn ==> kept[i] == REPLACEMENT)
  }

  /** The text cut after n octets. */
  ghost predicate IsCut(kept: Text, t: Text, n: nat) {
    exists i: nat :: IsLongestFit(t, i, n) && ShowsFirst(kept, t, i, i < |t| && |Encode(t[..i])| < n)
  }

  lemma PrefixEncode(t: Text, i: nat)
    requires 0 < i <= |t|
    ensures |Encode(t[..i])| == |EncodeRune(t[0])| + |Encode(t[1..][..i - 1])|
  {
    assert t[..i][1..] == t[1..][..i - 1];
  }

  lemma FirstFits(t: Text, n: nat, k: nat)
    requires t != [] && |EncodeRune(t[0])| <= n && IsLongestFit(t[1..], k, n - |EncodeRune(t[0])|)
    ensures IsLongestFit(t, k + 1, n)
    ensures |Encode(t[..k + 1])| == |EncodeRune(t[0])| + |Encode(t[1..][..k])|
  {
    PrefixEncode(t, k + 1);
    if k + 1 < |t| { PrefixEncode(t, k + 2); }
  }

  lemma FirstShown(t: Text, rest: Text, k: nat, torn: bool)
    requires t != [] && ShowsFirst(rest, t[1..], k, torn)
    ensures ShowsFirst([Shown(t[0])] + rest, t, k + 1, torn)
  {
    forall j | 0 <= j < k + 1 ensures ([Shown(t[0])] + rest)[j] == Shown(t[j]) {
      if j > 0 { assert t[j] == t[1..][j - 1]; }
    }
  }

  lemma NothingFits(t: Text, n: nat)
    requires t == [] || |EncodeRune(t[0])| > n
    ensures IsLongestFit(t, 0, n) && ShowsFirst(Cut(t, n), t, 0, 0 < |t| && |Encode(t[..0])| < n)
  {
    if t != [] {
      PrefixEncode(t, 1);
      assert Encode(t[1..][..0]) == [];
    }
  }

  lemma {:induction false} CutFits(t: Text, n: nat) returns (i: nat)
    ensures IsLongestFit(t, i, n) && ShowsFirst(Cut(t, n), t, i, i < |t| && |Encode(t[..i])| < n)
  {
    if t == [] || |EncodeRune(t[0])| > n {
      i := 0;
      NothingFits(t, n);
    } else {
      var w := |EncodeRune(t[0])|;
      var k := CutFits(t[1..], n - w);
      i := k + 1;
      FirstFits(t, n, k);
      FirstShown(t, Cut(t[1..], n - w), k, k < |t[1..]| && |Encode(t[1..][..k])| < n - w);
    }
  }

  lemma {:induction false} LongerTakesMore(t: Text, i: nat, j: nat)
    requires i <= j <= |t|
    ensures |Encode(t[..i])| <= |Encode(t[..j])|
  {
    if i > 0 {
      PrefixEncode(t, i);
      PrefixEncode(t, j);
      LongerTakesMore(t[1..], i - 1, j - 1);
    }
  }

  lemma OneLongestFit(t: Text, i: nat, j: nat, n: nat)
    requires IsLongestFit(t, i, n) && IsLongestFit(t, j, n)
    ensures i == j
  {
    if i < j { LongerTakesMore(t, i + 1, j); }
    if j < i { LongerTakesMore(t, j + 1, i); }
  }

  lemma SameShown(a: Text, b: Text, t: Text, i: nat, torn: bool)
    requires ShowsFirst(a, t, i, torn) && ShowsFirst(b, t, i, torn)
    ensures a == b
  {
  }

  /** There is exactly one text cut after n octets. */
  lemma CutIsTheCut(kept: Text, t: Text, n: nat)
    ensures IsCut(kept, t, n) <==> kept == Cut(t, n)
  {
    var i := CutFits(t, n);
    if IsCut(kept, t, n) {
      var j: nat :| IsLongestFit(t, j, n) && ShowsFirst(kept, t, j, j < |t| && |Encode(t[..j])| < n);
      OneLongestFit(t, i, j, n);
      SameShown(kept, Cut(t, n), t, i, i < |t| && |Encode(t[..i])| < n);
    }
  }

  /** Cutting a cut text again is cutting once, where the first cut is the longer one. */
  lemma {:induction false} CutTwice(t: Text, m: nat, n: nat)
    requires n <= m
    ensures Cut(Cut(t, m), n) == Cut(t, n)
  {
    if t != [] && n > 0 {
      var w := |EncodeRune(t[0])|;
      if w <= m {
        var rest := Cut(t[1..], m - w);
        assert Cut(t, m)[1..] == rest;
        if w <= n { CutTwice(t[1..], m - w, n - w); }
      } else {
        assert Cut(t, m)[1..] == [];
      }
    }
  }

  /** A cut text that is too long for its cut stays as it is when it is cut a little later. */
  lemma {:induction false} CutInTheOverhang(t: Text, m: nat, n: nat)
    requires m <= n < |Encode(Cut(t, m))|
    ensures Cut(Cut(t, m), n) == Cut(t, m)
  {
    if t == [] || m == 0 {
    } else {
      var w := |EncodeRune(t[0])|;
      if w <= m {
        ConsEncode(Shown(t[0]), Cut(t[1..], m - w));
        CutInTheOverhang(t[1..], m - w, n - w);
        assert Cut(t, m)[1..] == Cut(t[1..], m - w);
      } else {
        OnlyReplacement();
        assert Cut(t, m) == [REPLACEMENT];
      }
    }
  }

  /** What the audit id has used up when the record is made: nothing if it is not tracked or was idle too long. */
  function UsedBefore(s: Tracking, r: Record): nat {
    if r.id in s.rawBytes && (r.isStep || !(r.id in s.lastSeen && r.now - s.lastSeen[r.id] > 300.0))
    then s.rawBytes[r.id] else 0
  }

  function RoomFor(s: Tracking, r: Record): nat {
    if UsedBefore(s, r) >= 65536 then 0 else 65536 - UsedBefore(s, r)
  }

  /** The octets a record may take: the field cap, or what is left of the total. */
  function Allowance(s: Tracking, r: Record): nat {
    if RoomFor(s, r) < 16384 then RoomFor(s, r) else 16384
  }

  lemma SettingUp(s: Tracking, r: Record)
    requires !(r.isStep && r.text == [])
    ensures var s1 := Cleanup(if r.isStep then Touch(s, r.id, r.now) else s, r.now);
            && OnRecord(s, r) == Apply(if r.isStep then Touch(s, r.id, r.now) else s, r.id, r.text, r.now)
            && Used(s1, r.id) == UsedBefore(s, r) && Remaining(s1, r.id) == RoomFor(s, r)
            && OnRecord(s, r).1 == StoredText(s1, r.id, r.text)
  {
  }

  /**
   A record keeps its text unchanged if that takes no more octets than allowed,
   and otherwise the longest run of whole characters that does, followed by one
   U+FFFD if the cut falls inside a character. Its size is added to the total.
   */
  lemma KeptText(s: Tracking, r: Record)
    requires !(r.isStep && r.text == [])
    ensures var (after, kept) := OnRecord(s, r);
            && (|Encode(r.text)| <= Allowance(s, r) ==> kept == r.text)
            && (|Encode(r.text)| > Allowance(s, r) ==> IsCut(kept, r.text, Allowance(s, r)))
            && r.id in after.rawBytes && after.rawBytes[r.id] == UsedBefore(s, r) + |Encode(kept)|
            && r.id in after.lastSeen && after.lastSeen[r.id] == r.now
  {
    SettingUp(s, r);
    var room, kept := RoomFor(s, r), OnRecord(s, r).1;
    StoredIsCut(Cleanup(if r.isStep then Touch(s, r.id, r.now) else s, r.now), r.id, r.text);
    CutIsTheCut(kept, r.text, Allowance(s, r));
  }

  lemma StoredIsCut(s: Tracking, id: string, text: Text)
    ensures var m := if Remaining(s, id) < MAX_RAW then Remaining(s, id) else MAX_RAW;
            StoredText(s, id, text) == if |Encode(text)| <= m then text else Cut(text, m)
  {
    var room := Remaining(s, id);
    if |Encode(text)| <= MAX_RAW {
      if |Encode(text)| > room { DecodeOfCut(text, room); }
    } else {
      var once := Cut(text, MAX_RAW);
      DecodeOfCut(text, MAX_RAW);
      CutSizeExactly(text, MAX_RAW);
      if |Encode(once)| > room {
        DecodeOfCut(once, room);
        if room <= MAX_RAW { CutTwice(text, MAX_RAW, room); } else { CutInTheOverhang(text, MAX_RAW, room); }
      }
    }
  }

  /** A step record without a text keeps none and only shows that its audit id is alive. */
  lemma EmptyStep(s: Tracking, r: Record)
    requires r.isStep && r.text == []
    ensures OnRecord(s, r).1 == []
    ensures OnRecord(s, r).0 == if r.id in s.rawBytes then s.(lastSeen := s.lastSeen[r.id := r.now]) else s
  {
  }

  /** Any other record forgets exactly the other audit ids that were idle too long. */
  lemma OthersForgotten(s: Tracking, r: Record, other: string)
    requires !(r.isStep && r.text == []) && other != r.id
    ensures var after, idle := OnRecord(s, r).0, other in s.lastSeen && r.now - s.lastSeen[other] > 300.0;
            && (other in after.rawBytes <==> other in s.rawBytes && !idle)
            && (other in after.lastSeen <==> other in s.lastSeen && !idle)
            && (other in after.rawBytes ==> after.rawBytes[other] == s.rawBytes[other])
            && (other in after.lastSeen ==> after.lastSeen[other] == s.lastSeen[other])
  {
  }

  /** The text within the field cap: the text itself, or its cut after 16384 octets. */
  ghost predicate IsWithinField(once: Text, text: Text) {
    if |Encode(text)| <= 16384 then once == text else IsCut(once, text, 16384)
  }

  /**
   The condition under which _apply_raw_text_limits reports a record as capped
   is that its text, cut to the field cap, takes more than is left of the total.
   */
  lemma CappedIff(s: Tracking, r: Record, once: Text)
    requires !(r.isStep && r.text == []) && IsWithinField(once, r.text)
    ensures var s1 := Cleanup(if r.isStep then Touch(s, r.id, r.now) else s, r.now);
            |Encode(TruncateRaw(r.text))| > Remaining(s1, r.id) <==> |Encode(once)| > RoomFor(s, r)
  {
    SettingUp(s, r);
    if |Encode(r.text)| > 16384 {
      CutIsTheCut(once, r.text, 16384);
      DecodeOfCut(r.text, 16384);
    }
  }
}
