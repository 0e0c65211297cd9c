/**
 The byte budget of audit texts: a cap per record, a cap per audit id, and the
 tracking that forgets an audit id which was idle for too long.
 */
module AuditBudget {
  import opened Utf8

  const MAX_RAW: nat := 16 * 1024
  const MAX_TOTAL: nat := 64 * 1024
  const TTL: real := 300.0

  /** The two tracking dictionaries. */
  datatype Tracking = Tracking(rawBytes: map<string, nat>, lastSeen: map<string, real>)

  /** truncate_raw_text. */
  function TruncateRaw(text: Text): Text {
    if |Encode(text)| <= MAX_RAW then text else Decode(Encode(text)[..MAX_RAW])
  }

  /** _truncate_utf8_text. */
  function TruncateTo(text: Text, limit: nat): Text {
    if limit == 0 then [] else if limit >= |Encode(text)| then Decode(Encode(text)) else Decode(Encode(text)[..limit])
  }

  predicate IsStale(s: Tracking, id: string, now: real) {
    id in s.lastSeen && now - s.lastSeen[id] > TTL
  }

  function Stale(s: Tracking, now: real): set<string> {
    set id | id in s.lastSeen && IsStale(s, id, now)
  }

  function Cleanup(s: Tracking, now: real): Tracking {
    Tracking(s.rawBytes - Stale(s, now), s.lastSeen - Stale(s, now))
  }

  function Touch(s: Tracking, id: string, now: real): Tracking {
    if id in s.rawBytes then s.(lastSeen := s.lastSeen[id := now]) else s
  }

  function Used(s: Tracking, id: string): nat {
    if id in s.rawBytes then s.rawBytes[id] else 0
  }

  function Remaining(s: Tracking, id: string): nat {
    if Used(s, id) >= MAX_TOTAL then 0 else MAX_TOTAL - Used(s, id)
  }

  /** The text a record keeps, given what is tracked after clean-up. */
  function StoredText(s: Tracking, id: string, text: Text): Text {
    var t := TruncateRaw(text);
    if |Encode(t)| > Remaining(s, id) then TruncateTo(t, Remaining(s, id)) else t
  }

  /** _apply_raw_text_limits. */
  function Apply(s: Tracking, id: string, text: Text, now: real): (Tracking, Text) {
    var s1 := Cleanup(s, now);
    var t := StoredText(s1, id, text);
    (Tracking(s1.rawBytes[id := Used(s1, id) + |Encode(t)|], s1.lastSeen[id := now]), t)
  }

  class AuditTracking {
    var rawBytes: map<string, nat>
    var lastSeen: map<string, real>

    constructor ()
      ensures View() == Tracking(map[], map[])
    {
      rawBytes, lastSeen := map[], map[];
    }

    ghost function View(): Tracking
      reads this
    {
      Tracking(rawBytes, lastSeen)
    }

    method CleanupAuditTracking(now: real)
      modifies this
      ensures View() == Cleanup(old(View()), now)
    {
      var expired := set id | id in lastSeen && now - lastSeen[id] > TTL;
      assert expired == Stale(View(), now);
      ghost var done: set<string> := {};
      while expired != {}
        invariant expired + done == Stale(old(View()), now) && expired !! done
        invariant rawBytes == old(rawBytes) - done && lastSeen == old(lastSeen) - done
        decreases expired
      {
        var id :| id in expired;
        lastSeen := lastSeen - {id};
        rawBytes := rawBytes - {id};
        expired, done := expired - {id}, done + {id};
      }
    }

    method TouchAuditTracking(id: string, now: real)
      modifies this
      ensures View() == Touch(old(View()), id, now)
    {
      if id in rawBytes { lastSeen := lastSeen[id := now]; }
    }

    method ApplyRawTextLimits(id: string, rawText: Text, now: real) returns (stored: Text, capped: bool)
      modifies this
      ensures (View(), stored) == Apply(old(View()), id, rawText, now)
      ensures capped == (|Encode(TruncateRaw(rawText))| > Remaining(Cleanup(old(View()), now), id))
    {
      CleanupAuditTracking(now);
      stored := TruncateRaw(rawText);
      var storedBytes := |Encode(stored)|;
      var usedBytes := if id in rawBytes then rawBytes[id] else 0;
      var remainingBytes := if usedBytes >= MAX_TOTAL then 0 else MAX_TOTAL - usedBytes;
      capped := storedBytes > remainingBytes;
      if capped {
        stored := TruncateTo(stored, remainingBytes);
        storedBytes := |Encode(stored)|;
      }
      rawBytes := rawBytes[id := usedBytes + storedBytes];
      lastSeen := lastSeen[id := now];
    }
  }

  // ---- One record ----

  lemma TruncateRawSize(text: Text)
    ensures var t := TruncateRaw(text);
            && |Encode(t)| <= MAX_RAW + 2
            && (|Encode(t)| > MAX_RAW ==> t != [] && t[|t| - 1] == REPLACEMENT)
            && (IsAscii(text) ==> |Encode(t)| <= MAX_RAW && IsAscii(t))
  {
    if |Encode(text)| > MAX_RAW {
      DecodeOfCut(text, MAX_RAW);
      CutSize(text, MAX_RAW);
      if IsAscii(text) { AsciiCutSize(text, MAX_RAW); }
    }
  }

  lemma TruncateToSize(t: Text, limit: nat)
    requires |Encode(t)| > limit
    ensures |Encode(TruncateTo(t, limit))| <= limit + 2
    ensures limit == 0 ==> TruncateTo(t, limit) == []
    ensures t != [] && t[|t| - 1] == REPLACEMENT ==> |Encode(TruncateTo(t, limit))| <= |Encode(t)|
    ensures IsAscii(t) ==> |Encode(TruncateTo(t, limit))| <= limit
  {
    if limit > 0 {
      DecodeOfCut(t, limit);
      CutSize(t, limit);
      if t != [] && t[|t| - 1] == REPLACEMENT { CutAgain(t, limit); }
      if IsAscii(t) { AsciiCutSize(t, limit); }
    }
  }

  /** No record keeps more than the field cap and two octets; what it adds keeps the total cap and two. */
  lemma RecordSize(s: Tracking, id: string, text: Text)
    ensures var n := |Encode(StoredText(s, id, text))|;
            && n <= MAX_RAW + 2
            && (Used(s, id) <= MAX_TOTAL + 2 ==> Used(s, id) + n <= MAX_TOTAL + 2)
            && (IsAscii(text) ==> n <= MAX_RAW)
            && (IsAscii(text) && Used(s, id) <= MAX_TOTAL ==> Used(s, id) + n <= MAX_TOTAL)
  {
    var t := TruncateRaw(text);
    TruncateRawSize(text);
    if |Encode(t)| > Remaining(s, id) { TruncateToSize(t, Remaining(s, id)); }
  }

  // ---- Any sequence of records ----

  /** A record being made: a step record first refreshes its audit id, and an empty text is not counted. */
  datatype Record = Record(id: string, text: Text, isStep: bool, now: real)

  function OnRecord(s: Tracking, r: Record): (Tracking, Text) {
    var s1 := if r.isStep then Touch(s, r.id, r.now) else s;
    if r.isStep && r.text == [] then (s1, []) else Apply(s1, r.id, r.text, r.now)
  }

  function After(records: seq<Record>): Tracking {
    if records == [] then Tracking(map[], map[])
    else OnRecord(After(records[..|records| - 1]), records[|records| - 1]).0
  }

  /** The octets that the records of one audit id keep in all. */
  function KeptBytes(records: seq<Record>, id: string): nat {
    if records == [] then 0
    else
      var before, r := records[..|records| - 1], records[|records| - 1];
      KeptBytes(before, id) + if r.id == id then |Encode(OnRecord(After(before), r).1)| else 0
  }

  predicate WithinBudget(s: Tracking, cap: nat) {
    s.rawBytes.Keys == s.lastSeen.Keys && forall id :: id in s.rawBytes ==> s.rawBytes[id] <= cap
  }

  lemma RecordKeepsBudget(s: Tracking, r: Record)
    requires WithinBudget(s, MAX_TOTAL + 2)
    ensures WithinBudget(OnRecord(s, r).0, MAX_TOTAL + 2)
    ensures |Encode(OnRecord(s, r).1)| <= MAX_RAW + 2
    ensures IsAscii(r.text) && WithinBudget(s, MAX_TOTAL) ==>
              WithinBudget(OnRecord(s, r).0, MAX_TOTAL) && |Encode(OnRecord(s, r).1)| <= MAX_RAW
  {
    var s1 := if r.isStep then Touch(s, r.id, r.now) else s;
    RecordSize(Cleanup(s1, r.now), r.id, r.text);
  }

  /** Over any records: the two dictionaries have the same keys and no total passes the cap by more than two. */
  lemma {:induction false} BudgetHolds(records: seq<Record>)
    ensures WithinBudget(After(records), MAX_TOTAL + 2)
    ensures (forall r :: r in records ==> IsAscii(r.text)) ==> WithinBudget(After(records), MAX_TOTAL)
  {
    if records != [] {
      BudgetHolds(records[..|records| - 1]);
      RecordKeepsBudget(After(records[..|records| - 1]), records[|records| - 1]);
    }
  }

  /** And every record keeps at most the field cap and two octets. */
  lemma RecordsAreShort(records: seq<Record>, k: nat)
    requires k < |records|
    ensures |Encode(OnRecord(After(records[..k]), records[k]).1)| <= MAX_RAW + 2
  {
    BudgetHolds(records[..k]);
    RecordKeepsBudget(After(records[..k]), records[k]);
  }

  // ---- What an audit id keeps in all ----

  predicate Monotone(records: seq<Record>) {
    forall i, j :: 0 <= i < j < |records| ==> records[i].now <= records[j].now
  }

  /** The last moment the audit id had a record; only meaningful if it had one. */
  function LastOf(records: seq<Record>, id: string): real {
    if records == [] then 0.0
    else if records[|records| - 1].id == id then records[|records| - 1].now
    else LastOf(records[..|records| - 1], id)
  }

  function OwnCount(records: seq<Record>, id: string): nat {
    if records == [] then 0
    else OwnCount(records[..|records| - 1], id) + if records[|records| - 1].id == id then 1 else 0
  }

  /** The record comes more than the tracking time after the last one of the audit id. */
  predicate IsLate(before: seq<Record>, r: Record, id: string) {
    OwnCount(before, id) > 0 && r.now - LastOf(before, id) > TTL
  }

  /** Since the last record of the audit id another record came so late that its clean-up may drop the total. */
  predicate SweptSince(records: seq<Record>, id: string) {
    if records == [] then false
    else
      var before, r := records[..|records| - 1], records[|records| - 1];
      r.id != id && (SweptSince(before, id) || IsLate(before, r, id))
  }

  /** The own record starts a new total: a clean-up came before it, or it is late and does not refresh its id. */
  predicate Restarts(before: seq<Record>, r: Record, id: string) {
    SweptSince(before, id) || (!r.isStep && IsLate(before, r, id))
  }

  /** Some record of the audit id starts a new total after an earlier one. */
  predicate SweptBetween(records: seq<Record>, id: string) {
    if records == [] then false
    else
      var before, r := records[..|records| - 1], records[|records| - 1];
      SweptBetween(before, id) || (r.id == id && Restarts(before, r, id))
  }

  /** The tracked total is all that the audit id kept, unless it was restarted. */
  predicate Tallied(s: Tracking, id: string, kept: nat, count: nat, last: real, since: bool, between: bool) {
    && kept <= count * 16386
    && (!between ==> kept <= 65538)
    && (since ==> count > 0)
    && if id in s.rawBytes then
         count > 0 && id in s.lastSeen && s.lastSeen[id] == last && (!between && !since ==> s.rawBytes[id] == kept)
       else
         !between && !since ==> kept == 0
  }

  ghost predicate TalliedAfter(records: seq<Record>, id: string) {
    Tallied(After(records), id, KeptBytes(records, id), OwnCount(records, id), LastOf(records, id),
            SweptSince(records, id), SweptBetween(records, id))
  }

  lemma OwnTallied(s: Tracking, r: Record, kept: nat, count: nat, last: real, since: bool, between: bool, n: nat)
    requires WithinBudget(s, MAX_TOTAL + 2) && Tallied(s, r.id, kept, count, last, since, between)
    requires n == |Encode(OnRecord(s, r).1)|
    ensures Tallied(OnRecord(s, r).0, r.id, kept + n, count + 1, r.now, false,
                    between || since || (!r.isStep && count > 0 && r.now - last > TTL))
  {
    RecordKeepsBudget(s, r);
    assert (count + 1) * 16386 == count * 16386 + 16386;
  }

  lemma OtherTallied(s: Tracking, r: Record, id: string, kept: nat, count: nat, last: real, since: bool, between: bool)
    requires r.id != id && s.rawBytes.Keys == s.lastSeen.Keys && Tallied(s, id, kept, count, last, since, between)
    ensures Tallied(OnRecord(s, r).0, id, kept, count, last, since || (count > 0 && r.now - last > TTL), between)
  {
  }

  lemma {:induction false} TalliesAll(records: seq<Record>, id: string)
    ensures TalliedAfter(records, id)
  {
    if records != [] {
      var before, r := records[..|records| - 1], records[|records| - 1];
      TalliesAll(before, id);
      BudgetHolds(before);
      if r.id == id {
        OwnTallied(After(before), r, KeptBytes(before, id), OwnCount(before, id), LastOf(before, id),
                   SweptSince(before, id), SweptBetween(before, id), |Encode(OnRecord(After(before), r).1)|);
      } else {
        OtherTallied(After(before), r, id, KeptBytes(before, id), OwnCount(before, id), LastOf(before, id),
                     SweptSince(before, id), SweptBetween(before, id));
      }
    }
  }

  // ---- Records that fill the budget ----

  /** A text that its cut at the field cap gives back with two octets too many. */
  predicate IsFull(text: Text) {
    && text != [] && TruncateRaw(text) == text && |Encode(text)| == 16386
    && |Encode(TruncateTo(text, 16378))| == 16378
  }

  /** What m full texts leave in the tracked total. */
  function Filled(m: nat): nat {
    if m <= 3 then 16386 * m else 65536
  }

  lemma FullRecord(s: Tracking, id: string, text: Text, m: nat)
    requires IsFull(text) && Used(s, id) == Filled(m)
    ensures |Encode(StoredText(s, id, text))| == Filled(m + 1) - Filled(m)
  {
    if m > 3 { TruncateToSize(text, 0); }
  }

  /** The full records of the audit id since its total was last restarted. */
  function SinceRestart(records: seq<Record>, id: string): nat {
    if records == [] then 0
    else
      var before, r := records[..|records| - 1], records[|records| - 1];
      if r.id == id then (if Restarts(before, r, id) then 0 else SinceRestart(before, id)) + 1
      else if SweptSince(records, id) then 0
      else SinceRestart(before, id)
  }

  /**
   The total of m full records is tracked; the closed totals hold at least what
   c - m records fill; and once restarted, four records pass the cap.
   */
  predicate FullyTracked(s: Tracking, id: string, kept: nat, c: nat, m: nat, last: real, since: bool, between: bool) {
    && m <= c && (since ==> c > 0 && m == 0) && (between ==> m < c)
    && (m > 0 <==> id in s.rawBytes) && Used(s, id) == Filled(m)
    && (c > 0 && !since ==> m > 0) && (m > 0 ==> id in s.lastSeen && s.lastSeen[id] == last)
    && kept >= Filled(m) + Filled(c - m)
    && (c <= 3 ==> kept == 16386 * c)
    && (between && c >= 4 ==> kept >= 65544)
  }

  ghost predicate FullyTrackedAfter(records: seq<Record>, id: string) {
    FullyTracked(After(records), id, KeptBytes(records, id), OwnCount(records, id), SinceRestart(records, id),
                 LastOf(records, id), SweptSince(records, id), SweptBetween(records, id))
  }

  lemma OwnFull(s: Tracking, r: Record, kept: nat, c: nat, m: nat, last: real, since: bool, between: bool, n: nat)
    requires FullyTracked(s, r.id, kept, c, m, last, since, between)
    requires IsFull(r.text) && n == |Encode(OnRecord(s, r).1)|
    ensures var restarts := since || (!r.isStep && c > 0 && r.now - last > TTL);
            FullyTracked(OnRecord(s, r).0, r.id, kept + n, c + 1, (if restarts then 0 else m) + 1, r.now,
                         false, between || restarts)
  {
    var restarts := since || (!r.isStep && c > 0 && r.now - last > TTL);
    var s1 := Cleanup(if r.isStep then Touch(s, r.id, r.now) else s, r.now);
    var m1 := if restarts then 0 else m;
    assert Used(s1, r.id) == Filled(m1);
    FullRecord(s1, r.id, r.text, m1);
  }

  lemma OtherFull(s: Tracking, r: Record, id: string, kept: nat, c: nat, m: nat, last: real, since: bool, between: bool)
    requires r.id != id && r.text != [] && FullyTracked(s, id, kept, c, m, last, since, between)
    ensures var swept := since || (c > 0 && r.now - last > TTL);
            FullyTracked(OnRecord(s, r).0, id, kept, c, if swept then 0 else m, last, swept, between)
  {
  }

  lemma FullOwn(records: seq<Record>, id: string)
    requires records != [] && records[|records| - 1].id == id && IsFull(records[|records| - 1].text)
    requires FullyTrackedAfter(records[..|records| - 1], id)
    ensures FullyTrackedAfter(records, id)
  {
    var before, r := records[..|records| - 1], records[|records| - 1];
    OwnFull(After(before), r, KeptBytes(before, id), OwnCount(before, id), SinceRestart(before, id),
            LastOf(before, id), SweptSince(before, id), SweptBetween(before, id),
            |Encode(OnRecord(After(before), r).1)|);
  }

  lemma FullOther(records: seq<Record>, id: string)
    requires records != [] && records[|records| - 1].id != id && records[|records| - 1].text != []
    requires FullyTrackedAfter(records[..|records| - 1], id)
    ensures FullyTrackedAfter(records, id)
  {
    var before, r := records[..|records| - 1], records[|records| - 1];
    OtherFull(After(before), r, id, KeptBytes(before, id), OwnCount(before, id), SinceRestart(before, id),
              LastOf(before, id), SweptSince(before, id), SweptBetween(before, id));
  }

  lemma {:induction false} FullRecords(records: seq<Record>, id: string)
    requires forall r :: r in records ==> IsFull(r.text)
    ensures FullyTrackedAfter(records, id)
  {
    if records != [] {
      assert records[|records| - 1] in records;
      FullRecords(records[..|records| - 1], id);
      if records[|records| - 1].id == id { FullOwn(records, id); } else { FullOther(records, id); }
    }
  }

  const FULL_TEXT: Text := seq(16383, i => 0x41) + [REPLACEMENT]

  lemma FullTextIsFull()
    ensures IsFull(FULL_TEXT)
  {
    var a: Text, b: Text := seq(16383, i => 0x41), [REPLACEMENT];
    assert FULL_TEXT == a + b;
    OnlyReplacement();
    EncodeBehindAscii(a, b);
    CutBehindAscii(a, b, MAX_RAW);
    CutInsideAscii(a, b, 16378);
    DecodeOfCut(a + b, MAX_RAW);
    DecodeOfCut(a + b, 16378);
    AsciiLength(a[..16378]);
    assert Cut(b, 1) == b;
  }

  // ---- When the total cap holds ----

  /** The same ids, kinds and times, with any texts. */
  predicate SameSchedule(records: seq<Record>, others: seq<Record>) {
    && |records| == |others|
    && forall i :: 0 <= i < |records| ==>
         records[i].id == others[i].id && records[i].isStep == others[i].isStep && records[i].now == others[i].now
  }

  lemma {:induction false} ScheduleDecides(records: seq<Record>, others: seq<Record>, id: string)
    requires SameSchedule(records, others)
    ensures OwnCount(records, id) == OwnCount(others, id) && LastOf(records, id) == LastOf(others, id)
    ensures SweptSince(records, id) == SweptSince(others, id) && SweptBetween(records, id) == SweptBetween(others, id)
    decreases |records|
  {
    if records != [] { ScheduleDecides(records[..|records| - 1], others[..|others| - 1], id); }
  }

  predicate CapHoldsFor(records: seq<Record>, others: seq<Record>, id: string) {
    SameSchedule(records, others) ==> KeptBytes(others, id) <= MAX_TOTAL + 2
  }

  lemma FullTextsPassCap(records: seq<Record>, others: seq<Record>, id: string)
    requires SameSchedule(records, others) && forall r :: r in others ==> IsFull(r.text)
    requires SweptBetween(records, id) && OwnCount(records, id) >= 4
    ensures !CapHoldsFor(records, others, id)
  {
    FullRecords(others, id);
    ScheduleDecides(records, others, id);
  }

  /**
   A schedule of records keeps all the texts of an audit id within the total cap
   and two octets, whatever the texts, if and only if its total is not restarted
   between two of its records or it has at most three records.
   */
  lemma TotalCapIff(records: seq<Record>, id: string)
    ensures (forall others :: CapHoldsFor(records, others, id))
            <==> !SweptBetween(records, id) || OwnCount(records, id) <= 3
  {
    if !SweptBetween(records, id) || OwnCount(records, id) <= 3 {
      forall others ensures CapHoldsFor(records, others, id) {
        if SameSchedule(records, others) {
          ScheduleDecides(records, others, id);
          TalliesAll(others, id);
        }
      }
    } else {
      var others := seq(|records|, i requires 0 <= i < |records| => records[i].(text := FULL_TEXT));
      FullTextIsFull();
      FullTextsPassCap(records, others, id);
    }
  }

  /** The records of the audit id follow each other within the tracking time. */
  predicate NeverIdle(records: seq<Record>, id: string) {
    if records == [] then true
    else
      var before, r := records[..|records| - 1], records[|records| - 1];
      NeverIdle(before, id) && (r.id == id ==> !IsLate(before, r, id))
  }

  lemma {:induction false} NeverIdleNeverSwept(records: seq<Record>, id: string)
    requires Monotone(records) && NeverIdle(records, id)
    ensures !SweptBetween(records, id)
    ensures SweptSince(records, id) ==>
              OwnCount(records, id) > 0 && records[|records| - 1].now - LastOf(records, id) > TTL
  {
    if records != [] { NeverIdleNeverSwept(records[..|records| - 1], id); }
  }

  /**
   While the records of an audit id follow each other within the tracking time,
   the texts they keep stay within the total cap and two octets, all together.
   */
  lemma TotalKept(records: seq<Record>, id: string)
    requires Monotone(records) && NeverIdle(records, id)
    ensures TalliedAfter(records, id)
    ensures KeptBytes(records, id) <= MAX_TOTAL + 2
  {
    NeverIdleNeverSwept(records, id);
    TalliesAll(records, id);
  }

  // ---- What restarts a total ----

  /** A step record refreshes its own audit id first, so however late it comes it adds to the total. */
  lemma OwnStepNeverRestarts(s: Tracking, r: Record)
    requires r.isStep && r.id in s.rawBytes
    ensures Used(OnRecord(s, r).0, r.id) == Used(s, r.id) + |Encode(OnRecord(s, r).1)|
  {
  }

  /** An incoming record of another id that finds this one idle makes its next step record start from nothing. */
  lemma OtherRecordRestarts(s: Tracking, other: Record, r: Record)
    requires other.id != r.id && !other.isStep && r.isStep && IsStale(s, r.id, other.now)
    ensures r.id !in OnRecord(s, other).0.rawBytes
    ensures Used(OnRecord(OnRecord(s, other).0, r).0, r.id) == |Encode(OnRecord(OnRecord(s, other).0, r).1)|
    ensures OnRecord(OnRecord(s, other).0, r).1 == TruncateRaw(r.text)
  {
    TruncateRawSize(r.text);
  }

  /** Every record but the first of its audit id is a step record. */
  predicate IncomingFirst(records: seq<Record>) {
    forall i, j :: 0 <= i < j < |records| && records[i].id == records[j].id ==> records[j].isStep
  }

  lemma {:induction false} AppendRecord(before: seq<Record>, r: Record, id: string)
    ensures OwnCount(before + [r], id) == OwnCount(before, id) + if r.id == id then 1 else 0
    ensures LastOf(before + [r], id) == if r.id == id then r.now else LastOf(before, id)
    ensures SweptSince(before + [r], id) == (r.id != id && (SweptSince(before, id) || IsLate(before, r, id)))
    ensures SweptBetween(before + [r], id) == (SweptBetween(before, id) || (r.id == id && Restarts(before, r, id)))
  {
    assert (before + [r])[..|before|] == before;
  }

  /**
   Three records of an audit id at one moment, 301 seconds later the incoming
   record of a new id, and one more step record of the first: they keep more
   than the total cap and two octets.
   */
  lemma LateStepExceedsTotal(first: seq<Record>, other: Record, last: Record)
    requires first == [Record("aud", FULL_TEXT, false, 0.0), Record("aud", FULL_TEXT, true, 0.0),
                       Record("aud", FULL_TEXT, true, 0.0)]
    requires other == Record("new", FULL_TEXT, false, 301.0) && last == Record("aud", FULL_TEXT, true, 301.0)
    ensures var records := first + [other] + [last];
            && Monotone(records) && IncomingFirst(records)
            && KeptBytes(records, "aud") == 65544 && KeptBytes(records, "aud") > MAX_TOTAL + 2
  {
    var records := first + [other] + [last];
    IncomingComesFirst(records);
    ThreeThenLate(first, other, last);
    FullTextIsFull();
    FourFullTexts(records, "aud");
  }

  lemma IncomingComesFirst(records: seq<Record>)
    requires |records| == 5 && records[3].id != "aud" && !records[3].isStep && records[3].now == records[4].now == 301.0
    requires forall i :: i in {0, 1, 2, 4} ==> records[i].id == "aud" && (i > 0 ==> records[i].isStep)
    requires forall i :: 0 <= i < 3 ==> records[i].now == 0.0
    ensures Monotone(records) && IncomingFirst(records)
  {
  }

  lemma FourFullTexts(records: seq<Record>, id: string)
    requires forall r :: r in records ==> IsFull(r.text)
    requires SweptBetween(records, id) && OwnCount(records, id) == 4
    ensures KeptBytes(records, id) == 65544
  {
    FullRecords(records, id);
    TalliesAll(records, id);
  }

  lemma ThreeThenLate(first: seq<Record>, other: Record, last: Record)
    requires |first| == 3 && forall r :: r in first ==> r.id == "aud" && r.now == 0.0
    requires other.id != "aud" && other.now == 301.0 && last.id == "aud"
    ensures SweptBetween(first + [other] + [last], "aud") && OwnCount(first + [other] + [last], "aud") == 4
  {
    var none: seq<Record> := [];
    assert first == none + [first[0]] + [first[1]] + [first[2]];
    AppendRecord(none, first[0], "aud");
    AppendRecord(none + [first[0]], first[1], "aud");
    AppendRecord(none + [first[0]] + [first[1]], first[2], "aud");
    AppendRecord(first, other, "aud");
    AppendRecord(first + [other], last, "aud");
  }
}
