/** What tracking, marking, matching and expiry do to the cloud settings and to the trail, exactly. */
module TwinTracked {
  import opened Options
  import opened SettingsAudit
  import opened TwinState
  import opened CloudStore
  import opened TwinModel
  import opened TwinInvariants
  import opened TwinRuns
  import TwinLimits
  import TwinProgress
  import TwinTrace

  /** The records of one audit id, in order. */
  function RecordsOf(trail: seq<AuditRecord>, auditId: string): seq<AuditRecord> {
    if trail == [] then []
    else
      RecordsOf(trail[..|trail| - 1], auditId)
      + (if trail[|trail| - 1].auditId == auditId then [trail[|trail| - 1]] else [])
  }

  lemma RecordsAppend(trail: seq<AuditRecord>, r: AuditRecord, auditId: string)
    ensures RecordsOf(trail + [r], auditId)
         == RecordsOf(trail, auditId) + if r.auditId == auditId then [r] else []
  {
    assert (trail + [r])[..|trail|] == trail;
  }

  /** A terminal step may still enter the ledger. */
  predicate MayEnter(s: Twin, auditId: string, step: SettingStep) {
    auditId !in s.ledger || AckPrecedence(s.ledger[auditId]) < AckPrecedence(step)
  }

  // ---- Expiry ----

  /** The time of an entry is up: it runs from its Reason=Setting once that was seen. */
  predicate IsDue(p: CloudPending, now: real, timeout: real) {
    now - (if p.reasonSeen && p.reasonAt.Some? then p.reasonAt.value else p.trackedAt) >= timeout
  }

  function Undue(entries: seq<CloudPending>, now: real, timeout: real): seq<CloudPending> {
    if entries == [] then []
    else (if IsDue(entries[0], now, timeout) then [] else [entries[0]]) + Undue(entries[1..], now, timeout)
  }

  lemma {:induction false} KeptIsUndue(entries: seq<CloudPending>, now: real, timeout: real)
    ensures Kept(entries, Expired(now, timeout)) == Undue(entries, now, timeout)
  {
    if entries != [] { KeptIsUndue(entries[1..], now, timeout); }
  }

  /** Expiry keeps the entries that are not due, in order, and touches nothing but store, trail and ledger. */
  lemma ExpiryKeepsUndue(s: Twin, now: real)
    ensures Entries(ExpireCloud(s, now).cloud) == Undue(Entries(s.cloud), now, s.timeout)
    ensures var r := ExpireCloud(s, now); r == s.(cloud := r.cloud, trail := r.trail, ledger := r.ledger)
  {
    PruneEntries(s.cloud, Expired(now, s.timeout));
    KeptIsUndue(Entries(s.cloud), now, s.timeout);
  }

  lemma {:induction false} UndueMembers(entries: seq<CloudPending>, now: real, timeout: real)
    ensures forall p :: p in Undue(entries, now, timeout) <==> p in entries && !IsDue(p, now, timeout)
  {
    if entries != [] {
      UndueMembers(entries[1..], now, timeout);
      assert forall p :: p in entries <==> p == entries[0] || p in entries[1..];
    }
  }

  /** The record of an entry whose time is up. */
  function DueRecord(p: CloudPending): AuditRecord {
    if p.reasonSeen then
      AuditRecord(p.setting.auditId, p.deviceId, p.setting.table, p.setting.key, AckReasonSetting, Confirmed, "")
    else
      AuditRecord(p.setting.auditId, p.deviceId, p.setting.table, p.setting.key, Timeout, Failed, "")
  }

  /** Nothing about the audit id differs. */
  predicate SameAbout(s: Twin, r: Twin, auditId: string) {
    && RecordsOf(r.trail, auditId) == RecordsOf(s.trail, auditId)
    && (auditId in r.ledger <==> auditId in s.ledger)
    && (auditId in s.ledger ==> r.ledger[auditId] == s.ledger[auditId])
  }

  /** The audit id got one record more, and its step entered the ledger. */
  predicate GainsRecord(s: Twin, r: Twin, rec: AuditRecord) {
    && RecordsOf(r.trail, rec.auditId) == RecordsOf(s.trail, rec.auditId) + [rec]
    && rec.auditId in r.ledger && r.ledger[rec.auditId] == rec.step
  }

  lemma OtherExpiry(s: Twin, p: CloudPending, auditId: string)
    requires p.setting.auditId != auditId
    ensures SameAbout(s, RecordExpiry(s, p), auditId)
  {
    RecordsAppend(s.trail, StepRecord(p.setting, p.deviceId, AckReasonSetting, Some(Confirmed), ""), auditId);
    RecordsAppend(s.trail, StepRecord(p.setting, p.deviceId, Timeout, None, ""), auditId);
  }

  lemma OwnExpiry(s: Twin, p: CloudPending)
    requires s.collector && p.setting.auditId != "" && (p.reasonSeen ==> p.reasonAt.Some?)
    ensures MayEnter(s, p.setting.auditId, DueRecord(p).step) ==> GainsRecord(s, RecordExpiry(s, p), DueRecord(p))
    ensures !MayEnter(s, p.setting.auditId, DueRecord(p).step) ==> SameAbout(s, RecordExpiry(s, p), p.setting.auditId)
  {
    RecordsAppend(s.trail, DueRecord(p), p.setting.auditId);
  }

  lemma {:induction false} OtherExpiries(s: Twin, ps: seq<CloudPending>, auditId: string)
    requires NoneWithId(ps, auditId)
    ensures SameAbout(s, RecordExpiries(s, ps), auditId)
    decreases |ps|
  {
    if ps != [] {
      var before, p := ps[..|ps| - 1], ps[|ps| - 1];
      OtherExpiries(s, before, auditId);
      assert p in ps;
      OtherExpiry(RecordExpiries(s, before), p, auditId);
    }
  }

  lemma {:induction false} OwnExpiries(s: Twin, ps: seq<CloudPending>, p: CloudPending)
    requires DistinctIds(ps) && p in ps && s.collector && p.setting.auditId != ""
    requires p.reasonSeen ==> p.reasonAt.Some?
    ensures MayEnter(s, p.setting.auditId, DueRecord(p).step) ==> GainsRecord(s, RecordExpiries(s, ps), DueRecord(p))
    ensures !MayEnter(s, p.setting.auditId, DueRecord(p).step) ==>
              SameAbout(s, RecordExpiries(s, ps), p.setting.auditId)
    decreases |ps|
  {
    var before, last := ps[..|ps| - 1], ps[|ps| - 1];
    assert ps == before + [last] && last in [last];
    DistinctConcat(before, [last]);
    var e := RecordExpiries(s, before);
    if p == last && p !in before {
      forall q | q in before ensures q.setting.auditId != p.setting.auditId {
        assert NoneWithId([last], q.setting.auditId);
      }
      OtherExpiries(s, before, p.setting.auditId);
      OwnExpiry(e, p);
    } else {
      OwnExpiries(s, before, p);
      assert NoneWithId([last], p.setting.auditId);
      OtherExpiry(e, last, p.setting.auditId);
    }
  }

  lemma {:induction false} HitDistinct(entries: seq<CloudPending>, sweep: Sweep)
    requires DistinctIds(entries)
    ensures DistinctIds(Hit(entries, sweep))
  {
    if entries != [] {
      HitDistinct(entries[1..], sweep);
      HitMembers(entries[1..], sweep);
      var rest := Hit(entries[1..], sweep);
      if sweep.Hits(entries[0]) {
        assert ([entries[0]] + rest)[1..] == rest;
      } else {
        assert [] + rest == rest;
      }
    }
  }

  /**
   An expiry check removes a tracked entry exactly when its time is up. Then the
   audit id gets one record, a confirmation if Reason=Setting was seen and a
   timeout otherwise, unless the ledger holds a step that is as strong.
   */
  lemma ExpiryReports(s: Twin, p: CloudPending, clock: real, now: real)
    requires CloudOk(s.cloud, s.timeout, clock) && DistinctIds(Entries(s.cloud))
    requires p in Entries(s.cloud) && s.collector && p.setting.auditId != ""
    ensures var r, due := ExpireCloud(s, now), IsDue(p, now, s.timeout);
            && (p in Entries(r.cloud) <==> !due)
            && (due && MayEnter(s, p.setting.auditId, DueRecord(p).step) ==> GainsRecord(s, r, DueRecord(p)))
            && (!due || !MayEnter(s, p.setting.auditId, DueRecord(p).step) ==> SameAbout(s, r, p.setting.auditId))
  {
    var es, sweep := Entries(s.cloud), Expired(now, s.timeout);
    ExpiryKeepsUndue(s, now);
    UndueMembers(es, now, s.timeout);
    HitMembers(es, sweep);
    HitDistinct(es, sweep);
    CloudOkFiled(s.cloud, s.timeout, clock);
    if IsDue(p, now, s.timeout) {
      OwnExpiries(s, Hit(es, sweep), p);
    } else {
      TwinProgress.DistinctMembers(es);
      OtherExpiries(s, Hit(es, sweep), p.setting.auditId);
    }
  }

  // ---- Marking ----

  /** Entry i is tracked longest among those of the device, the first of them at that time. */
  predicate IsOldestOf(entries: seq<CloudPending>, deviceId: string, i: nat) {
    && i < |entries| && entries[i].deviceId == deviceId
    && forall j :: 0 <= j < |entries| && entries[j].deviceId == deviceId ==>
         entries[i].trackedAt <= entries[j].trackedAt && (j < i ==> entries[i].trackedAt < entries[j].trackedAt)
  }

  lemma {:induction false} OldestIndex(entries: seq<CloudPending>, deviceId: string) returns (i: nat)
    requires Oldest(ForDevice(entries, Some(deviceId))).Some?
    ensures IsOldestOf(entries, deviceId, i) && Oldest(ForDevice(entries, Some(deviceId))) == Some(entries[i])
  {
    var rest := ForDevice(entries[1..], Some(deviceId));
    ForDeviceMembers(entries[1..], Some(deviceId));
    OldestSpec(rest);
    if entries[0].deviceId == deviceId {
      assert ([entries[0]] + rest)[1..] == rest;
    } else {
      assert [] + rest == rest;
    }
    if entries[0].deviceId == deviceId
       && (Oldest(rest).None? || entries[0].trackedAt <= Oldest(rest).value.trackedAt) {
      i := 0;
      forall j | 0 < j < |entries| && entries[j].deviceId == deviceId
        ensures entries[0].trackedAt <= entries[j].trackedAt
      {
        assert entries[j] == entries[1..][j - 1] && entries[1..][j - 1] in rest;
      }
    } else {
      var k := OldestIndex(entries[1..], deviceId);
      i := k + 1;
      forall j | 0 <= j < |entries| && entries[j].deviceId == deviceId
        ensures entries[i].trackedAt <= entries[j].trackedAt && (j < i ==> entries[i].trackedAt < entries[j].trackedAt)
      {
        if j > 0 { assert entries[j] == entries[1..][j - 1]; }
      }
    }
  }

  lemma {:induction false} ReplaceFirstAt(entries: seq<CloudPending>, i: nat, p': CloudPending)
    requires i < |entries| && forall j :: 0 <= j < i ==> entries[j] != entries[i]
    ensures ReplaceFirst(entries, entries[i], p') == entries[i := p']
    decreases i
  {
    if i == 0 {
      assert entries[0 := p'] == [p'] + entries[1..];
    } else {
      assert entries[0] != entries[i] && entries[1..][i - 1] == entries[i];
      forall j | 0 <= j < i - 1 ensures entries[1..][j] != entries[1..][i - 1] {
        assert entries[j + 1] != entries[i];
      }
      ReplaceFirstAt(entries[1..], i - 1, p');
      assert entries[i := p'] == [entries[0]] + entries[1..][i - 1 := p'];
    }
  }

  lemma PutInFront(p: CloudPending, a: seq<CloudPending>, b: seq<CloudPending>)
    ensures [p] + (a + b) == ([p] + a) + b
  {
  }

  lemma {:induction false} ReplaceFirstConcat(a: seq<CloudPending>, b: seq<CloudPending>,
                                              p: CloudPending, p': CloudPending)
    ensures ReplaceFirst(a + b, p, p') == if p in a then ReplaceFirst(a, p, p') + b else a + ReplaceFirst(b, p, p')
  {
    if a == [] {
      assert a + b == b && a + ReplaceFirst(b, p, p') == ReplaceFirst(b, p, p');
    } else {
      assert (a + b)[1..] == a[1..] + b && (a + b)[0] == a[0];
      if a[0] == p {
        assert [p'] + (a[1..] + b) == ([p'] + a[1..]) + b;
      } else {
        ReplaceFirstConcat(a[1..], b, p, p');
        assert p in a <==> p in a[1..];
        PutInFront(a[0], ReplaceFirst(a[1..], p, p'), b);
        PutInFront(a[0], a[1..], ReplaceFirst(b, p, p'));
        assert a == [a[0]] + a[1..];
      }
    }
  }

  /** The update in place changes the first equal entry of the whole store. */
  lemma {:induction false} ReplaceTakesFirst(cloud: seq<CloudQueue>, p: CloudPending, p': CloudPending)
    requires Filed(cloud) && p in Entries(cloud)
    ensures Entries(Replace(cloud, p, p')) == ReplaceFirst(Entries(cloud), p, p')
  {
    var q, rest := cloud[0], cloud[1..];
    assert cloud == [q] + rest;
    FiledTail(cloud);
    Unfold(q, rest);
    ReplaceFirstConcat(q.entries, Entries(rest), p, p');
    if q.id != p.Id() {
      assert p !in q.entries;
      ReplaceTakesFirst(rest, p, p');
      Unfold(q, Replace(rest, p, p'));
    } else {
      assert p !in Entries(rest);
      Unfold(CloudQueue(q.id, ReplaceFirst(q.entries, p, p')), rest);
    }
  }

  /** What a mark does to entry i: nothing the second time; the first time the entry is marked now and reported. */
  predicate MarkedAt(s: Twin, r: Twin, i: nat, marked: CloudPending, sid: string, now: real)
    requires i < |Entries(s.cloud)|
  {
    var p := Entries(s.cloud)[i];
    if p.reasonSeen then r == s && marked == p
    else
      && marked == CloudPending(p.setting, p.deviceId, p.trackedAt, true, Some(now))
      && Entries(r.cloud) == Entries(s.cloud)[i := marked]
      && r.ledger == s.ledger
      && r.trail == s.trail
                    + (if s.collector && p.setting.auditId != "" then
                         [AuditRecord(p.setting.auditId, p.deviceId, p.setting.table, p.setting.key, AckReasonSetting,
                                      Pending, sid)]
                       else [])
  }

  /** After expiry, the device's oldest entry is marked; every other entry and the order stay. */
  lemma MarkMarksOldest(s: Twin, deviceId: string, sid: string, clock: real, now: real)
    requires CloudOk(s.cloud, s.timeout, clock) && clock <= now
    ensures var s1 := ExpireCloud(s, now);
            var (r, marked) := MarkReason(s, deviceId, sid, now);
            && (marked.None? <==> forall p :: p in Entries(s1.cloud) ==> p.deviceId != deviceId)
            && (marked.None? ==> r == s1)
            && (marked.Some? ==> exists i :: IsOldestOf(Entries(s1.cloud), deviceId, i)
                                             && MarkedAt(s1, r, i, marked.value, sid, now))
  {
    var s1 := ExpireCloud(s, now);
    var es := Entries(s1.cloud);
    ExpireKeepsCloud(s, clock, now);
    CloudOkFiled(s1.cloud, s.timeout, now);
    ForDeviceMembers(es, Some(deviceId));
    OldestSpec(ForDevice(es, Some(deviceId)));
    if Oldest(ForDevice(es, Some(deviceId))).Some? {
      var i := OldestIndex(es, deviceId);
      var p' := es[i].(reasonSeen := true, reasonAt := Some(now));
      ReplaceTakesFirst(s1.cloud, es[i], p');
      ReplaceFirstAt(es, i, p');
      assert MarkedAt(s1, MarkReason(s, deviceId, sid, now).0, i, MarkReason(s, deviceId, sid, now).1.value, sid, now);
    }
  }

  lemma NothingDue(s: Twin, clock: real, now: real)
    requires CloudOk(s.cloud, s.timeout, clock)
    requires forall p :: p in Entries(s.cloud) ==> !IsDue(p, now, s.timeout)
    ensures ExpireCloud(s, now) == s
  {
    CloudOkFiled(s.cloud, s.timeout, clock);
    TwinLimits.NothingExpires(s, now);
  }

  lemma MarkLeavesNothingDue(s: Twin, deviceId: string, sid: string, clock: real, now: real)
    requires CloudOk(s.cloud, s.timeout, clock) && clock <= now && s.timeout > 0.0
    ensures var r := MarkReason(s, deviceId, sid, now).0;
            CloudOk(r.cloud, r.timeout, now) && ExpireCloud(r, now) == r
  {
    var s1, r := ExpireCloud(s, now), MarkReason(s, deviceId, sid, now).0;
    MarkKeepsCloud(s, deviceId, sid, clock, now);
    MarkMarksOldest(s, deviceId, sid, clock, now);
    ExpiryKeepsUndue(s, now);
    UndueMembers(Entries(s.cloud), now, s.timeout);
    NothingDue(r, now, now);
  }

  /** A second mark changes nothing. */
  lemma MarkTwice(s: Twin, deviceId: string, sid: string, again: string, clock: real, now: real)
    requires CloudOk(s.cloud, s.timeout, clock) && clock <= now && s.timeout > 0.0
    ensures MarkReason(MarkReason(s, deviceId, sid, now).0, deviceId, again, now) == MarkReason(s, deviceId, sid, now)
  {
    var s1 := ExpireCloud(s, now);
    var (r, marked) := MarkReason(s, deviceId, sid, now);
    MarkLeavesNothingDue(s, deviceId, sid, clock, now);
    MarkMarksOldest(s, deviceId, sid, clock, now);
    MarkMarksOldest(r, deviceId, again, now, now);
    if marked.Some? {
      var i: nat :| IsOldestOf(Entries(s1.cloud), deviceId, i) && MarkedAt(s1, r, i, marked.value, sid, now);
      assert Entries(r.cloud)[i] == marked.value;
      assert IsOldestOf(Entries(r.cloud), deviceId, i);
      var (r2, marked2) := MarkReason(r, deviceId, again, now);
      assert marked2.Some?;
      var j: nat :| IsOldestOf(Entries(r.cloud), deviceId, j) && MarkedAt(r, r2, j, marked2.value, again, now);
      assert i == j;
    }
  }

  // ---- A marked entry over time ----

  lemma {:induction false} ReplaceFirstKeeps(entries: seq<CloudPending>, p: CloudPending, p': CloudPending)
    ensures forall x :: x in entries && x != p ==> x in ReplaceFirst(entries, p, p')
  {
    if entries != [] {
      ReplaceFirstKeeps(entries[1..], p, p');
      assert forall x :: x in entries <==> x == entries[0] || x in entries[1..];
    }
  }

  /** The call is about the entry's own key: an acknowledgement or a matching event. */
  predicate IsAbout(c: Call, p: CloudPending) {
    || (c.DoAcknowledge? && SettingKey(c.table, c.key) == p.setting.Id())
    || (c.DoMatchTblEvents? && CloudKey(c.deviceId, c.table, c.key) == p.Id())
  }

  lemma OtherAcknowledgeKeeps(s: Twin, c: Call, p: CloudPending, clock: real, now: real)
    requires CloudOk(s.cloud, s.timeout, clock) && p in Entries(s.cloud) && c.DoAcknowledge? && !IsAbout(c, p)
    ensures p in Entries(Do(s, c, now).cloud)
  {
    var id := SettingKey(c.table, c.key);
    AcknowledgeTakes(s, c.table, c.key, c.session);
    FirstForSpec(Entries(s.cloud), id);
    CloudOkFiled(s.cloud, s.timeout, clock);
    if FirstFor(Entries(s.cloud), id).Some? {
      RemoveTakesFirst(s.cloud, FirstFor(Entries(s.cloud), id).value);
      RemoveFirstMembers(Entries(s.cloud), FirstFor(Entries(s.cloud), id).value);
    }
  }

  lemma ExpireKeepsUndueEntry(s: Twin, p: CloudPending, now: real)
    requires p in Entries(s.cloud) && !IsDue(p, now, s.timeout)
    ensures p in Entries(ExpireCloud(s, now).cloud)
  {
    ExpiryKeepsUndue(s, now);
    UndueMembers(Entries(s.cloud), now, s.timeout);
  }

  lemma BeginKeepsEntry(s: Twin, x: TwinSetting, deviceId: string, p: CloudPending, clock: real, now: real)
    requires CloudOk(s.cloud, s.timeout, clock) && clock <= now && p in Entries(s.cloud) && !IsDue(p, now, s.timeout)
    ensures p in Entries(BeginCloud(s, x, deviceId, now).cloud)
  {
    ExpireKeepsUndueEntry(s, p, now);
    ExpireKeepsCloud(s, clock, now);
    AppendKeepsOk(ExpireCloud(s, now).cloud, CloudPending(x, deviceId, now, false, None), s.timeout, now);
  }

  lemma MarkKeepsMarked(s: Twin, deviceId: string, sid: string, p: CloudPending, clock: real, now: real)
    requires CloudOk(s.cloud, s.timeout, clock) && clock <= now && p in Entries(s.cloud) && !IsDue(p, now, s.timeout)
    requires p.reasonSeen
    ensures p in Entries(MarkReason(s, deviceId, sid, now).0.cloud)
  {
    ExpireKeepsUndueEntry(s, p, now);
    ExpireKeepsCloud(s, clock, now);
    var s1 := ExpireCloud(s, now);
    CloudOkFiled(s1.cloud, s.timeout, now);
    ForDeviceMembers(Entries(s1.cloud), Some(deviceId));
    OldestSpec(ForDevice(Entries(s1.cloud), Some(deviceId)));
    match Oldest(ForDevice(Entries(s1.cloud), Some(deviceId)))
    case None =>
    case Some(m) =>
      var m' := m.(reasonSeen := true, reasonAt := Some(now));
      ReplaceTakesFirst(s1.cloud, m, m');
      ReplaceFirstKeeps(Entries(s1.cloud), m, m');
  }

  lemma OtherMatchKeeps(s: Twin, deviceId: string, table: string, key: string, confirmed: string, sid: string,
                        p: CloudPending, clock: real, now: real)
    requires CloudOk(s.cloud, s.timeout, clock) && clock <= now
    requires p in Entries(ExpireCloud(s, now).cloud) && CloudKey(deviceId, table, key) != p.Id()
    ensures p in Entries(MatchTblEvents(s, deviceId, table, key, confirmed, sid, now).0.cloud)
  {
    TwinProgress.MatchAccounts(s, deviceId, table, key, confirmed, sid, clock, now);
    var (r, m) := MatchTblEvents(s, deviceId, table, key, confirmed, sid, now);
    if m.Some? {
      RemoveKeepsOther(Entries(ExpireCloud(s, now).cloud), m.value, p);
      assert Entries(r.cloud) == RemoveFirst(Entries(ExpireCloud(s, now).cloud), m.value);
    }
  }

  lemma RemoveKeepsOther(entries: seq<CloudPending>, m: CloudPending, p: CloudPending)
    requires p in entries && p.Id() != m.Id()
    ensures p in RemoveFirst(entries, m)
  {
    RemoveFirstMembers(entries, m);
  }

  /** A marked entry stays in the store until its time is up, whatever is called that is not about its key. */
  lemma DoKeepsMarked(s: Twin, c: Call, p: CloudPending, clock: real, now: real)
    requires CloudOk(s.cloud, s.timeout, clock) && clock <= now && p in Entries(s.cloud) && p.reasonSeen
    requires !IsDue(p, now, s.timeout) && !IsAbout(c, p)
    ensures p in Entries(Do(s, c, now).cloud)
  {
    if c.DoAcknowledge? {
      OtherAcknowledgeKeeps(s, c, p, clock, now);
    } else if c.DoExpire? {
      ExpireKeepsUndueEntry(s, p, now);
    } else if c.DoBeginCloud? {
      BeginKeepsEntry(s, c.x, c.deviceId, p, clock, now);
    } else if c.DoMarkReason? {
      MarkKeepsMarked(s, c.deviceId, c.sid, p, clock, now);
    } else if c.DoMatchTblEvents? {
      ExpireKeepsUndueEntry(s, p, now);
      OtherMatchKeeps(s, c.deviceId, c.table, c.key, c.confirmed, c.sid, p, clock, now);
    } else {
      DoCloudFrame(s, c, now);
    }
  }

  /** Calls in time order with fresh audit ids, none about the entry's key, all before its time is up. */
  predicate Spare(s: Twin, p: CloudPending, clock: real, calls: seq<TwinTrace.TimedCall>)
    decreases |calls|
  {
    if calls == [] then true
    else
      var c, now := calls[0].c, calls[0].now;
      && clock <= now && !IsAbout(c, p) && !IsDue(p, now, s.timeout)
      && (c.DoBeginCloud? ==> c.x.auditId !in Known(s))
      && Spare(Do(s, c, now), p, now, calls[1..])
  }

  lemma MarkedStaysOnce(s: Twin, c: Call, p: CloudPending, clock: real, now: real)
    requires CloudOk(s.cloud, s.timeout, clock) && DistinctIds(Entries(s.cloud)) && clock <= now
    requires p in Entries(s.cloud) && p.reasonSeen && !IsDue(p, now, s.timeout) && !IsAbout(c, p)
    requires c.DoBeginCloud? ==> c.x.auditId !in Known(s)
    ensures var r := Do(s, c, now);
            && CloudOk(r.cloud, r.timeout, now) && DistinctIds(Entries(r.cloud)) && p in Entries(r.cloud)
            && r.timeout == s.timeout && r.collector == s.collector
  {
    DoKeepsMarked(s, c, p, clock, now);
    DoKeepsCloud(s, c, clock, now);
    DoKeepsDistinct(s, c, clock, now);
    DoIdsFrame(s, c, now);
  }

  lemma {:induction false} MarkedStays(s: Twin, p: CloudPending, clock: real, calls: seq<TwinTrace.TimedCall>)
    returns (end: real)
    requires CloudOk(s.cloud, s.timeout, clock) && DistinctIds(Entries(s.cloud))
    requires p in Entries(s.cloud) && p.reasonSeen && Spare(s, p, clock, calls)
    ensures var r := TwinTrace.Calls(s, calls);
            && clock <= end && CloudOk(r.cloud, r.timeout, end) && DistinctIds(Entries(r.cloud))
            && p in Entries(r.cloud) && r.timeout == s.timeout && r.collector == s.collector
    ensures calls == [] ==> end == clock
    ensures calls != [] ==> end == calls[|calls| - 1].now
    decreases |calls|
  {
    if calls == [] {
      end := clock;
    } else {
      var c, now := calls[0].c, calls[0].now;
      MarkedStaysOnce(s, c, p, clock, now);
      end := MarkedStays(Do(s, c, now), p, now, calls[1..]);
      if |calls| > 1 { assert calls[1..][|calls| - 2] == calls[|calls| - 1]; }
    }
  }

  /**
   An entry marked at t survives every expiry check before t + timeout. The
   first one from then on removes it and confirms it, unless the ledger holds a
   step that is as strong; it never reports a timeout for it.
   */
  lemma MarkedIsConfirmed(s: Twin, p: CloudPending, clock: real, calls: seq<TwinTrace.TimedCall>, now: real)
    requires CloudOk(s.cloud, s.timeout, clock) && DistinctIds(Entries(s.cloud))
    requires p in Entries(s.cloud) && p.reasonSeen && s.collector && p.setting.auditId != ""
    requires Spare(s, p, clock, calls) && IsDue(p, now, s.timeout)
    requires clock <= now && (calls != [] ==> calls[|calls| - 1].now <= now)
    ensures var before := TwinTrace.Calls(s, calls);
            var after := ExpireCloud(before, now);
            && p in Entries(before.cloud) && p !in Entries(after.cloud)
            && (if MayEnter(before, p.setting.auditId, AckReasonSetting) then GainsRecord(before, after, DueRecord(p))
                else SameAbout(before, after, p.setting.auditId))
            && DueRecord(p).step == AckReasonSetting && DueRecord(p).result == Confirmed
  {
    var end := MarkedStays(s, p, clock, calls);
    ExpiryReports(TwinTrace.Calls(s, calls), p, end, now);
  }

  // ---- Tracking and matching ----

  lemma {:induction false} AppendQueueOf(cloud: seq<CloudQueue>, p: CloudPending, id: CloudKey)
    ensures QueueOf(CloudStore.Append(cloud, p), id)
         == if id == p.Id() then QueueOf(cloud, id) + [p] else QueueOf(cloud, id)
  {
    if cloud == [] {
      assert [] + [p] == [p];
    } else {
      AppendQueueOf(cloud[1..], p, id);
    }
  }

  /** A cloud setting goes last in the queue of its key, unmarked, tracked from now on, and is reported as incoming. */
  lemma BeginTracksLast(s: Twin, x: TwinSetting, deviceId: string, now: real, id: CloudKey)
    ensures var s1, r := ExpireCloud(s, now), BeginCloud(s, x, deviceId, now);
            && QueueOf(r.cloud, id) == QueueOf(s1.cloud, id)
                 + (if id == CloudKey(deviceId, x.table, x.key) then [CloudPending(x, deviceId, now, false, None)]
                    else [])
            && r.ledger == s1.ledger
            && r.trail == s1.trail
                 + if s.collector then [AuditRecord(x.auditId, deviceId, x.table, x.key, Incoming, Pending, "")] else []
  {
    AppendQueueOf(ExpireCloud(s, now).cloud, CloudPending(x, deviceId, now, false, None), id);
    assert QueueOf(ExpireCloud(s, now).cloud, id) + [] == QueueOf(ExpireCloud(s, now).cloud, id);
  }

  /** A match confirms its entry by the strongest step. */
  lemma MatchReports(s: Twin, deviceId: string, table: string, key: string, confirmed: string, sid: string, now: real)
    ensures var s1 := ExpireCloud(s, now);
            var (r, p) := MatchTblEvents(s, deviceId, table, key, confirmed, sid, now);
            p.Some? && s.collector && p.value.setting.auditId != "" ==>
              var x := p.value.setting;
              && x.auditId in r.ledger && r.ledger[x.auditId] == AckTblEvents
              && (MayEnter(s1, x.auditId, AckTblEvents) ==>
                    r.trail == s1.trail + [AuditRecord(x.auditId, p.value.deviceId, x.table, x.key, AckTblEvents,
                                                       Confirmed, sid)])
  {
  }
}
