/**
 What the trail says about acknowledgements: each answer of the Box is reported
 by its own step, and no step is reported without its cause.
 */
module TwinReports {
  import opened Options
  import opened SettingsAudit
  import opened SettingsConstraints
  import opened TwinState
  import opened CloudStore
  import opened TwinModel
  import opened TwinInvariants
  import opened TwinFrames
  import opened TwinLocal
  import TwinPriority
  import TwinProgress
  import opened TwinRuns
  import opened TwinTracked

  // ---- The setting in flight ----

  /** Entry i is tracked longest, the first of those tracked at that time. */
  predicate IsOldest(entries: seq<CloudPending>, i: nat) {
    && i < |entries|
    && forall j :: 0 <= j < |entries| ==>
         entries[i].trackedAt <= entries[j].trackedAt && (j < i ==> entries[i].trackedAt < entries[j].trackedAt)
  }

  /** The setting that answers are about: the cloud setting tracked longest, else the local one in flight. */
  ghost predicate IsInflight(s: Twin, x: TwinSetting, deviceId: string) {
    if Entries(s.cloud) != [] then
      exists i: nat :: IsOldest(Entries(s.cloud), i)
                  && Entries(s.cloud)[i].setting == x && Entries(s.cloud)[i].deviceId == deviceId
    else s.inflightKey == Some(x.Id()) && x in s.queue && s.inflightDevice == Some(deviceId)
  }

  lemma {:induction false} OldestAt(entries: seq<CloudPending>) returns (i: nat)
    requires entries != []
    ensures IsOldest(entries, i) && Oldest(entries) == Some(entries[i])
  {
    OldestSpec(entries[1..]);
    if entries[1..] == [] || entries[0].trackedAt <= Oldest(entries[1..]).value.trackedAt {
      i := 0;
      forall j | 0 < j < |entries| ensures entries[0].trackedAt <= entries[j].trackedAt {
        assert entries[j] == entries[1..][j - 1];
      }
    } else {
      var k := OldestAt(entries[1..]);
      i := k + 1;
      forall j | 0 <= j < |entries|
        ensures entries[i].trackedAt <= entries[j].trackedAt && (j < i ==> entries[i].trackedAt < entries[j].trackedAt)
      {
        if j > 0 { assert entries[j] == entries[1..][j - 1]; }
      }
    }
  }

  /** inflight_setting finds that setting and its device. */
  lemma InflightIsFound(s: Twin, x: TwinSetting, deviceId: string)
    requires UniqueKeys(s.queue)
    ensures IsInflight(s, x, deviceId) <==> InflightSetting(s) == Some((x, deviceId))
  {
    var es := Entries(s.cloud);
    if es != [] {
      var i := OldestAt(es);
      if j: nat :| IsOldest(es, j) && es[j].setting == x && es[j].deviceId == deviceId {
        assert i == j;
      }
    } else if s.inflightKey.Some? {
      LookupSpec(s.queue, s.inflightKey.value);
    }
  }

  // ---- Each answer is reported ----

  /** The record enters trail and ledger if nothing as strong is in the ledger; otherwise neither changes. */
  predicate Reported(s: Twin, r: Twin, rec: AuditRecord) {
    if MayEnter(s, rec.auditId, rec.step) then
      r.trail == s.trail + [rec] && r.ledger == s.ledger[rec.auditId := rec.step]
    else r.trail == s.trail && r.ledger == s.ledger
  }

  /** The key is no longer in flight nor queued; the store loses its first entry if it was not queued. */
  ghost predicate KeyLeft(s: Twin, r: Twin, id: SettingKey) {
    && r.inflightKey != Some(id) && r.queue == OtherKeys(s.queue, id) && !HasKey(r.queue, id)
    && (HasKey(s.queue, id) || !Tracks(Entries(s.cloud), id) ==> r.cloud == s.cloud)
    && (!HasKey(s.queue, id) && Tracks(Entries(s.cloud), id) ==>
          exists i :: IsFirstOf(Entries(s.cloud), id, i) && LosesAt(Entries(s.cloud), Entries(r.cloud), i))
  }

  lemma AcknowledgeLeaves(s: Twin, table: string, key: string, session: Option<string>, now: real)
    requires Slots(s, now) && CloudOk(s.cloud, s.timeout, now)
    ensures KeyLeft(s, Acknowledge(s, table, key, session), SettingKey(table, key))
    ensures var r := Acknowledge(s, table, key, session); r.trail == s.trail && r.ledger == s.ledger
  {
    AcknowledgedKeyLeaves(s, table, key, session, now);
    AcknowledgedEntryLeaves(s, table, key, session, now);
  }

  lemma TerminalReported(s: Twin, x: TwinSetting, deviceId: string, step: SettingStep, result: Option<SettingResult>,
                         sid: string)
    requires s.collector && x.auditId != "" && IsTerminalStep(step) && result != Some(Pending)
    ensures Reported(s, RecordStep(s, x, deviceId, step, result, sid),
                     AuditRecord(x.auditId, deviceId, x.table, x.key, step, ResultOf(step, result), sid))
  {
  }

  /** The setting is reported with the step, and its key leaves. */
  ghost predicate Ends(s: Twin, r: Twin, x: TwinSetting, deviceId: string, step: SettingStep, result: SettingResult,
                       sid: string)
  {
    Reported(s, r, AuditRecord(x.auditId, deviceId, x.table, x.key, step, result, sid)) && KeyLeft(s, r, x.Id())
  }

  lemma ReportThenLeave(s: Twin, x: TwinSetting, deviceId: string, step: SettingStep, result: Option<SettingResult>,
                        session: Option<string>, now: real)
    requires Slots(s, now) && CloudOk(s.cloud, s.timeout, now) && s.collector && x.auditId != ""
    requires IsTerminalStep(step) && result != Some(Pending)
    ensures var r := Acknowledge(RecordStep(s, x, deviceId, step, result, Label(session)), x.table, x.key, session);
            Ends(s, r, x, deviceId, step, ResultOf(step, result), Label(session))
  {
    var t := RecordStep(s, x, deviceId, step, result, Label(session));
    TerminalReported(s, x, deviceId, step, result, Label(session));
    SlotsFrame(s, t, now);
    AcknowledgeLeaves(t, x.table, x.key, session, now);
  }

  /** The state in which a frame's answers are handled. */
  lemma Expired1(s: Twin, now: real)
    requires Slots(s, now) && CloudOk(s.cloud, s.timeout, now)
    ensures var s1 := ExpireCloud(s, now);
            && Slots(s1, now) && CloudOk(s1.cloud, s1.timeout, now) && s1.collector == s.collector
            && ExpireCloud(s1, now) == s1
  {
    TwinPriority.ExpireKeepsSlots(s, now, now);
    ExpireKeepsCloud(s, now, now);
    TwinPriority.ExpireTwice(s, now, now);
  }

  lemma ReportsAfterExpiry(s: Twin, r: Twin, x: TwinSetting, deviceId: string, step: SettingStep,
                           result: Option<SettingResult>, session: Option<string>, now: real)
    requires Slots(s, now) && CloudOk(s.cloud, s.timeout, now) && s.collector && x.auditId != ""
    requires IsTerminalStep(step) && result != Some(Pending)
    requires r == Acknowledge(RecordStep(ExpireCloud(s, now), x, deviceId, step, result, Label(session)),
                              x.table, x.key, session)
    ensures Ends(ExpireCloud(s, now), r, x, deviceId, step, ResultOf(step, result), Label(session))
  {
    Expired1(s, now);
    ReportThenLeave(ExpireCloud(s, now), x, deviceId, step, result, session, now);
  }

  lemma FoundAfterExpiry(s: Twin, x: TwinSetting, deviceId: string, now: real)
    requires Slots(s, now) && CloudOk(s.cloud, s.timeout, now)
    requires IsInflight(ExpireCloud(s, now), x, deviceId)
    ensures InflightSetting(ExpireCloud(s, now)) == Some((x, deviceId))
  {
    Expired1(s, now);
    InflightIsFound(ExpireCloud(s, now), x, deviceId);
  }

  /** A NACK: the setting in flight is reported as Nack and failed, unless it ended before, and its key leaves. */
  lemma NackIsReported(s: Twin, f: Frame, session: Option<string>, env: Env, x: TwinSetting, deviceId: string)
    requires Slots(s, env.now) && CloudOk(s.cloud, s.timeout, env.now) && s.collector && x.auditId != ""
    requires f.ack.Some? && f.ack.value.result == NackResult && f.event.None?
    requires IsInflight(ExpireCloud(s, env.now), x, deviceId)
    ensures Ends(ExpireCloud(s, env.now), HandleTwinFrame(s, f, session, false, env), x, deviceId, Nack, Failed,
                 Label(session))
  {
    FoundAfterExpiry(s, x, deviceId, env.now);
    NackEnds(s, f, session, env, x, deviceId);
  }

  lemma NackEnds(s: Twin, f: Frame, session: Option<string>, env: Env, x: TwinSetting, deviceId: string)
    requires Slots(s, env.now) && CloudOk(s.cloud, s.timeout, env.now) && s.collector && x.auditId != ""
    requires f.ack.Some? && f.ack.value.result == NackResult && f.event.None?
    requires InflightSetting(ExpireCloud(s, env.now)) == Some((x, deviceId))
    ensures Ends(ExpireCloud(s, env.now), HandleTwinFrame(s, f, session, false, env), x, deviceId, Nack, Failed,
                 Label(session))
  {
    NackAlone(s, f, session, env, x, deviceId);
    ReportsAfterExpiry(s, HandleTwinFrame(s, f, session, false, env), x, deviceId, Nack, None, session, env.now);
  }

  lemma NackAlone(s: Twin, f: Frame, session: Option<string>, env: Env, x: TwinSetting, deviceId: string)
    requires f.ack.Some? && f.ack.value.result == NackResult && f.event.None?
    requires InflightSetting(ExpireCloud(s, env.now)) == Some((x, deviceId))
    ensures HandleTwinFrame(s, f, session, false, env)
         == Acknowledge(RecordStep(ExpireCloud(s, env.now), x, deviceId, Nack, None, Label(session)), x.table, x.key,
                        session)
  {
  }

  /**
   A tracked setting that gets a NACK leaves the store exactly when no setting
   of its key is queued and it comes first among the tracked ones of its key.
   */
  lemma NackedLeavesIff(s: Twin, f: Frame, session: Option<string>, env: Env, i: nat)
    requires Slots(s, env.now) && CloudOk(s.cloud, s.timeout, env.now) && DistinctIds(Entries(s.cloud))
    requires f.ack.Some? && f.ack.value.result == NackResult && f.event.None?
    requires IsOldest(Entries(ExpireCloud(s, env.now).cloud), i)
    ensures var s1 := ExpireCloud(s, env.now);
            var p := Entries(s1.cloud)[i];
            p !in Entries(HandleTwinFrame(s, f, session, false, env).cloud)
            <==> !HasKey(s1.queue, p.setting.Id()) && IsFirstOf(Entries(s1.cloud), p.setting.Id(), i)
  {
    var s1, r := ExpireCloud(s, env.now), HandleTwinFrame(s, f, session, false, env);
    var es := Entries(s1.cloud);
    var x, device := es[i].setting, es[i].deviceId;
    Expired1(s, env.now);
    InflightIsFound(s1, x, device);
    var t := RecordStep(s1, x, device, Nack, None, Label(session));
    SlotsFrame(s1, t, env.now);
    NackAlone(s, f, session, env, x, device);
    AcknowledgeLeaves(t, x.table, x.key, session, env.now);
    ExpireKeepsDistinct(s, env.now);
    if !HasKey(s1.queue, x.Id()) {
      var j: nat :| IsFirstOf(es, x.Id(), j) && LosesAt(es, Entries(r.cloud), j);
      LostIsGone(es, Entries(r.cloud), i, j);
    }
  }

  lemma {:induction false} DistinctPlaces(es: seq<CloudPending>, i: nat)
    requires DistinctIds(es) && i < |es|
    ensures forall j :: 0 <= j < |es| && j != i ==> es[j] != es[i]
  {
    if i == 0 {
      assert forall j :: 0 < j < |es| ==> es[j] == es[1..][j - 1];
    } else {
      assert es[i] in es[1..];
      DistinctPlaces(es[1..], i - 1);
      forall j | 0 <= j < |es| && j != i ensures es[j] != es[i] {
        if j > 0 { assert es[j] == es[1..][j - 1] && es[i] == es[1..][i - 1]; }
      }
    }
  }

  lemma OneIsLost(es: seq<CloudPending>, rest: seq<CloudPending>, j: nat)
    requires LosesAt(es, rest, j) && forall k :: 0 <= k < |es| && k != j ==> es[k] != es[j]
    ensures es[j] !in rest
  {
    assert forall k :: 0 <= k < |rest| ==> rest[k] == if k < j then es[k] else es[k + 1];
  }

  lemma OthersStay(es: seq<CloudPending>, rest: seq<CloudPending>, i: nat, j: nat)
    requires i < |es| && LosesAt(es, rest, j) && i != j
    ensures es[i] in rest
  {
    if i < j {
      assert rest[i] == es[i];
    } else {
      assert rest[i - 1] == es[i];
    }
  }

  lemma LostIsGone(es: seq<CloudPending>, rest: seq<CloudPending>, i: nat, j: nat)
    requires DistinctIds(es) && i < |es| && LosesAt(es, rest, j)
    ensures es[i] in rest <==> i != j
  {
    DistinctPlaces(es, i);
    if i == j { OneIsLost(es, rest, j); } else { OthersStay(es, rest, i, j); }
  }

  /** An ACK of the table and item in flight is reported as seen by the Box and changes nothing else. */
  lemma BoxAckIsReported(s: Twin, f: Frame, session: Option<string>, env: Env, x: TwinSetting, deviceId: string)
    requires Slots(s, env.now) && CloudOk(s.cloud, s.timeout, env.now) && s.collector && x.auditId != ""
    requires f.ack.Some? && f.ack.value.result == Ack && f.ack.value.reason != "Setting" && f.event.None?
    requires f.ack.value.table == x.table != "" && f.ack.value.todo == x.key != ""
    requires IsInflight(ExpireCloud(s, env.now), x, deviceId)
    ensures var s1 := ExpireCloud(s, env.now);
            HandleTwinFrame(s, f, session, false, env)
            == s1.(trail := s1.trail + [AuditRecord(x.auditId, deviceId, x.table, x.key, AckBoxObserved, Pending,
                                                    Label(session))])
  {
    Expired1(s, env.now);
    InflightIsFound(ExpireCloud(s, env.now), x, deviceId);
  }

  /** An ACK of any other table and item makes that key leave and reports nothing. */
  lemma OtherAckLeaves(s: Twin, f: Frame, session: Option<string>, env: Env)
    requires Slots(s, env.now) && CloudOk(s.cloud, s.timeout, env.now)
    requires f.ack.Some? && f.ack.value.result == Ack && f.ack.value.reason != "Setting" && f.event.None?
    requires f.ack.value.table != "" && f.ack.value.todo != ""
    requires forall x, d :: IsInflight(ExpireCloud(s, env.now), x, d) ==>
               (x.table, x.key) != (f.ack.value.table, f.ack.value.todo)
    ensures var s1, r := ExpireCloud(s, env.now), HandleTwinFrame(s, f, session, false, env);
            && KeyLeft(s1, r, SettingKey(f.ack.value.table, f.ack.value.todo))
            && r.trail == s1.trail && r.ledger == s1.ledger
  {
    var s1 := ExpireCloud(s, env.now);
    Expired1(s, env.now);
    var pair := InflightSetting(s1);
    if pair.Some? { InflightIsFound(s1, pair.value.0, pair.value.1); }
    OtherAckAlone(s, f, session, env);
    OtherLeaves(s1, HandleTwinFrame(s, f, session, false, env), f.ack.value.table, f.ack.value.todo, session, env.now);
  }

  lemma OtherLeaves(s: Twin, r: Twin, table: string, key: string, session: Option<string>, now: real)
    requires Slots(s, now) && CloudOk(s.cloud, s.timeout, now) && r == Acknowledge(s, table, key, session)
    ensures KeyLeft(s, r, SettingKey(table, key)) && r.trail == s.trail && r.ledger == s.ledger
  {
    AcknowledgeLeaves(s, table, key, session, now);
  }

  lemma OtherAckAlone(s: Twin, f: Frame, session: Option<string>, env: Env)
    requires f.ack.Some? && f.ack.value.result == Ack && f.ack.value.reason != "Setting" && f.event.None?
    requires f.ack.value.table != "" && f.ack.value.todo != ""
    requires !IsFor(InflightSetting(ExpireCloud(s, env.now)), SettingKey(f.ack.value.table, f.ack.value.todo))
    ensures HandleTwinFrame(s, f, session, false, env)
         == Acknowledge(ExpireCloud(s, env.now), f.ack.value.table, f.ack.value.todo, session)
  {
  }

  /** An event row of the setting in flight confirms it if the cloud waits for none of that key. */
  lemma EventIsReported(s: Twin, f: Frame, session: Option<string>, env: Env, x: TwinSetting, deviceId: string)
    requires Slots(s, env.now) && CloudOk(s.cloud, s.timeout, env.now) && s.collector && x.auditId != ""
    requires f.ack.None? && f.event.Some? && f.event.value.table == x.table && f.event.value.key == x.key
    requires QueueOf(ExpireCloud(s, env.now).cloud, CloudKey(f.deviceId, x.table, x.key)) == []
    requires IsInflight(ExpireCloud(s, env.now), x, deviceId)
    ensures Ends(ExpireCloud(s, env.now), HandleTwinFrame(s, f, session, false, env), x, deviceId, AckTblEvents,
                 Confirmed, Label(session))
  {
    FoundAfterExpiry(s, x, deviceId, env.now);
    EventEnds(s, f, session, env, x, deviceId);
  }

  lemma EventEnds(s: Twin, f: Frame, session: Option<string>, env: Env, x: TwinSetting, deviceId: string)
    requires Slots(s, env.now) && CloudOk(s.cloud, s.timeout, env.now) && s.collector && x.auditId != ""
    requires f.ack.None? && f.event.Some? && f.event.value.table == x.table && f.event.value.key == x.key
    requires QueueOf(ExpireCloud(s, env.now).cloud, CloudKey(f.deviceId, x.table, x.key)) == []
    requires InflightSetting(ExpireCloud(s, env.now)) == Some((x, deviceId))
    ensures Ends(ExpireCloud(s, env.now), HandleTwinFrame(s, f, session, false, env), x, deviceId, AckTblEvents,
                 Confirmed, Label(session))
  {
    TwinPriority.ExpireTwice(s, env.now, env.now);
    EventAlone(s, f, session, env, x, deviceId);
    ReportsAfterExpiry(s, HandleTwinFrame(s, f, session, false, env), x, deviceId, AckTblEvents, None, session,
                       env.now);
  }

  lemma EventAlone(s: Twin, f: Frame, session: Option<string>, env: Env, x: TwinSetting, deviceId: string)
    requires f.ack.None? && f.event.Some? && f.event.value.table == x.table && f.event.value.key == x.key
    requires ExpireCloud(ExpireCloud(s, env.now), env.now) == ExpireCloud(s, env.now)
    requires QueueOf(ExpireCloud(s, env.now).cloud, CloudKey(f.deviceId, x.table, x.key)) == []
    requires InflightSetting(ExpireCloud(s, env.now)) == Some((x, deviceId))
    ensures HandleTwinFrame(s, f, session, false, env)
         == Acknowledge(RecordStep(ExpireCloud(s, env.now), x, deviceId, AckTblEvents, None, Label(session)), x.table,
                        x.key, session)
  {
  }

  /** An event row of a key the cloud waits for takes the matching cloud setting, as MatchAccounts says. */
  lemma EventMatchesCloud(s: Twin, f: Frame, session: Option<string>, env: Env)
    requires Slots(s, env.now) && CloudOk(s.cloud, s.timeout, env.now) && f.ack.None? && f.event.Some?
    requires QueueOf(ExpireCloud(s, env.now).cloud, CloudKey(f.deviceId, f.event.value.table, f.event.value.key)) != []
    ensures var s1, e := ExpireCloud(s, env.now), f.event.value;
            HandleTwinFrame(s, f, session, false, env)
            == MatchTblEvents(s1, f.deviceId, e.table, e.key, e.value, Label(session), env.now).0
  {
    Expired1(s, env.now);
  }

  /** Reason=Setting confirms the setting in flight if no cloud setting of the device is tracked. */
  lemma ReasonIsReported(s: Twin, f: Frame, session: Option<string>, env: Env, x: TwinSetting, deviceId: string)
    requires Slots(s, env.now) && CloudOk(s.cloud, s.timeout, env.now) && s.collector && x.auditId != ""
    requires f.ack.Some? && f.ack.value.result == Ack && f.ack.value.reason == "Setting" && f.event.None?
    requires f.ack.value.table == "" || f.ack.value.todo == ""
    requires forall p :: p in Entries(ExpireCloud(s, env.now).cloud) ==> p.deviceId != f.deviceId
    requires IsInflight(ExpireCloud(s, env.now), x, deviceId)
    ensures Ends(ExpireCloud(s, env.now), HandleTwinFrame(s, f, session, false, env), x, deviceId, AckReasonSetting,
                 Confirmed, Label(session))
  {
    var s1 := ExpireCloud(s, env.now);
    Expired1(s, env.now);
    FoundAfterExpiry(s, x, deviceId, env.now);
    MarkMarksOldest(s1, f.deviceId, Label(session), env.now, env.now);
    ReportsAfterExpiry(s, HandleTwinFrame(s, f, session, false, env), x, deviceId, AckReasonSetting, Some(Confirmed),
                       session, env.now);
  }

  /** Otherwise it marks the oldest cloud setting of the device, as MarkMarksOldest says. */
  lemma ReasonMarksCloud(s: Twin, f: Frame, session: Option<string>, env: Env)
    requires Slots(s, env.now) && CloudOk(s.cloud, s.timeout, env.now)
    requires f.ack.Some? && f.ack.value.result == Ack && f.ack.value.reason == "Setting" && f.event.None?
    requires f.ack.value.table == "" || f.ack.value.todo == ""
    requires exists p :: p in Entries(ExpireCloud(s, env.now).cloud) && p.deviceId == f.deviceId
    ensures HandleTwinFrame(s, f, session, false, env)
         == MarkReason(ExpireCloud(s, env.now), f.deviceId, Label(session), env.now).0
  {
    var s1 := ExpireCloud(s, env.now);
    Expired1(s, env.now);
    MarkMarksOldest(s1, f.deviceId, Label(session), env.now, env.now);
  }

  // ---- An ACK that names an item and carries Reason=Setting ----

  lemma OtherEntryStays(es: seq<CloudPending>, rest: seq<CloudPending>, i: nat, j: nat) returns (k: nat)
    requires IsOldest(es, i) && LosesAt(es, rest, j) && i != j
    ensures IsOldest(rest, k) && rest[k] == es[i]
  {
    k := if i < j then i else i - 1;
    forall m | 0 <= m < |rest|
      ensures rest[k].trackedAt <= rest[m].trackedAt && (m < k ==> rest[k].trackedAt < rest[m].trackedAt)
    {
      var n := if m < j then m else m + 1;
      assert rest[m] == es[n];
    }
  }

  /** The acknowledgement of another key leaves the setting in flight as it is. */
  lemma OtherStaysInflight(s: Twin, r: Twin, id: SettingKey, x: TwinSetting, deviceId: string)
    requires IsInflight(s, x, deviceId) && x.Id() != id && KeyLeft(s, r, id)
    requires s.inflightKey != Some(id) ==> r.inflightKey == s.inflightKey && r.inflightDevice == s.inflightDevice
    requires forall y :: y in s.queue && y.Id() != id ==> y in r.queue
    ensures IsInflight(r, x, deviceId)
  {
    var es := Entries(s.cloud);
    if es != [] && r.cloud != s.cloud {
      var i: nat :| IsOldest(es, i) && es[i].setting == x && es[i].deviceId == deviceId;
      var j: nat :| IsFirstOf(es, id, j) && LosesAt(es, Entries(r.cloud), j);
      var k := OtherEntryStays(es, Entries(r.cloud), i, j);
    }
  }

  /** Such a frame is handled like two: the same ACK without the reason, then Reason=Setting alone. */
  lemma AckThenReason(s: Twin, f: Frame, session: Option<string>, env: Env)
    requires Slots(s, env.now) && CloudOk(s.cloud, s.timeout, env.now)
    requires f.ack.Some? && f.ack.value.result == Ack && f.ack.value.reason == "Setting" && f.event.None?
    requires f.ack.value.table != "" && f.ack.value.todo != ""
    ensures var first := f.(ack := Some(f.ack.value.(reason := "")));
            var second := f.(ack := Some(f.ack.value.(table := "")));
            HandleTwinFrame(s, f, session, false, env)
            == HandleTwinFrame(HandleTwinFrame(s, first, session, false, env), second, session, false, env)
  {
    var s1 := ExpireCloud(s, env.now);
    var pair := InflightSetting(s1);
    Expired1(s, env.now);
    AckKeepsInflight(s1, f, session, env.now);
    var t := OnBoxAck(s1, f, pair, session);
    AckAlone(s, f.(ack := Some(f.ack.value.(reason := ""))), session, env);
    ReasonAlone(t, f.(ack := Some(f.ack.value.(table := ""))), session, env);
    SameAck(s1, f, f.(ack := Some(f.ack.value.(reason := ""))), pair, session);
    SameReason(t, f, f.(ack := Some(f.ack.value.(table := ""))), pair, session, env.now);
    assert HandleTwinFrame(s, f, session, false, env) == OnReason(t, f, pair, session, env.now);
  }

  lemma AckAlone(s: Twin, f: Frame, session: Option<string>, env: Env)
    requires f.event.None? && f.ack.Some? && f.ack.value.result == Ack && f.ack.value.reason != "Setting"
    ensures var s1 := ExpireCloud(s, env.now);
            HandleTwinFrame(s, f, session, false, env) == OnBoxAck(s1, f, InflightSetting(s1), session)
  {
  }

  lemma ReasonAlone(s: Twin, f: Frame, session: Option<string>, env: Env)
    requires f.event.None? && f.ack.Some? && f.ack.value.result == Ack && f.ack.value.table == ""
    ensures var s1 := ExpireCloud(s, env.now);
            HandleTwinFrame(s, f, session, false, env) == OnReason(s1, f, InflightSetting(s1), session, env.now)
  {
  }

  lemma SameAck(s: Twin, f: Frame, g: Frame, pair: Pair, session: Option<string>)
    requires f.ack.Some? && g.ack.Some? && g.ack.value.result == f.ack.value.result
    requires g.ack.value.table == f.ack.value.table && g.ack.value.todo == f.ack.value.todo
    ensures OnBoxAck(s, g, pair, session) == OnBoxAck(s, f, pair, session)
  {
  }

  lemma SameReason(s: Twin, f: Frame, g: Frame, pair: Pair, session: Option<string>, now: real)
    requires f.ack.Some? && g.ack.Some? && g.ack.value.result == f.ack.value.result
    requires g.ack.value.reason == f.ack.value.reason && g.deviceId == f.deviceId
    ensures OnReason(s, g, pair, session, now) == OnReason(s, f, pair, session, now)
  {
  }

  lemma AckKeepsInflight(s: Twin, f: Frame, session: Option<string>, now: real)
    requires Slots(s, now) && CloudOk(s.cloud, s.timeout, now) && ExpireCloud(s, now) == s && f.ack.Some?
    ensures var r := OnBoxAck(s, f, InflightSetting(s), session);
            ExpireCloud(r, now) == r && InflightSetting(r) == InflightSetting(s)
  {
    var pair, a := InflightSetting(s), f.ack.value;
    if IsFor(pair, SettingKey(a.table, a.todo)) {
      NothingDueNow(s, RecordStep(s, pair.value.0, pair.value.1, AckBoxObserved, None, Label(session)), now);
    } else {
      OtherKeepsInflight(s, a.table, a.todo, session, now);
    }
  }

  lemma OtherKeepsInflight(s: Twin, table: string, key: string, session: Option<string>, now: real)
    requires Slots(s, now) && CloudOk(s.cloud, s.timeout, now) && ExpireCloud(s, now) == s
    requires !IsFor(InflightSetting(s), SettingKey(table, key))
    ensures ExpireCloud(Acknowledge(s, table, key, session), now) == Acknowledge(s, table, key, session)
    ensures InflightSetting(Acknowledge(s, table, key, session)) == InflightSetting(s)
  {
    AcknowledgeLeavesNothingDue(s, table, key, session, now);
    OtherKeySameInflight(s, table, key, session, now);
  }

  lemma AcknowledgeLeavesNothingDue(s: Twin, table: string, key: string, session: Option<string>, now: real)
    requires CloudOk(s.cloud, s.timeout, now) && ExpireCloud(s, now) == s
    ensures ExpireCloud(Acknowledge(s, table, key, session), now) == Acknowledge(s, table, key, session)
  {
    TwinPriority.AcknowledgeKeepsFlag(s, table, key, session);
    AcknowledgeKeepsCloud(s, table, key, session, now);
    AcknowledgeShrinks(s, table, key, session, now);
    NothingDueNow(s, Acknowledge(s, table, key, session), now);
  }

  lemma OtherKeySameInflight(s: Twin, table: string, key: string, session: Option<string>, now: real)
    requires Slots(s, now) && CloudOk(s.cloud, s.timeout, now) && !IsFor(InflightSetting(s), SettingKey(table, key))
    ensures InflightSetting(Acknowledge(s, table, key, session)) == InflightSetting(s)
  {
    AcknowledgeLeaves(s, table, key, session, now);
    AcknowledgedKeyLeaves(s, table, key, session, now);
    AcknowledgeSlots(s, table, key, session, now);
    SameInflight(s, Acknowledge(s, table, key, session), SettingKey(table, key), now);
  }

  lemma SameInflight(s: Twin, r: Twin, id: SettingKey, now: real)
    requires Slots(s, now) && Slots(r, now) && KeyLeft(s, r, id) && !IsFor(InflightSetting(s), id)
    requires if s.inflightKey == Some(id) then r.inflightKey.None?
             else r.inflightKey == s.inflightKey && r.inflightDevice == s.inflightDevice
    ensures InflightSetting(r) == InflightSetting(s)
  {
    var pair := InflightSetting(s);
    if pair.Some? {
      InflightIsFound(s, pair.value.0, pair.value.1);
      OtherKeysMembers(s.queue, id);
      OtherStaysInflight(s, r, id, pair.value.0, pair.value.1);
      InflightIsFound(r, pair.value.0, pair.value.1);
    } else {
      NoneInFlight(s, r, id, now);
    }
  }

  lemma NoneInFlight(s: Twin, r: Twin, id: SettingKey, now: real)
    requires InflightSetting(s).None? && Slots(s, now) && KeyLeft(s, r, id)
    requires r.inflightKey.None? || r.inflightKey == s.inflightKey
    ensures InflightSetting(r).None?
  {
    if Entries(s.cloud) != [] { var i := OldestAt(Entries(s.cloud)); }
  }

  lemma {:induction false} OtherKeysMembers(queue: seq<TwinSetting>, id: SettingKey)
    ensures forall x :: x in OtherKeys(queue, id) <==> x in queue && x.Id() != id
  {
    if queue != [] {
      OtherKeysMembers(queue[1..], id);
      assert forall x :: x in queue <==> x == queue[0] || x in queue[1..];
    }
  }

  lemma NothingDueNow(s: Twin, r: Twin, now: real)
    requires CloudOk(s.cloud, s.timeout, now) && CloudOk(r.cloud, r.timeout, now) && ExpireCloud(s, now) == s
    requires r.timeout == s.timeout && forall p :: p in Entries(r.cloud) ==> p in Entries(s.cloud)
    ensures ExpireCloud(r, now) == r
  {
    ExpiryKeepsUndue(s, now);
    UndueMembers(Entries(s.cloud), now, s.timeout);
    NothingDue(r, now, now);
  }
}
