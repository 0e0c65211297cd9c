/** What every call of the delivery interface keeps, whatever its arguments. */
module TwinInvariants {
  import opened Options
  import opened SettingsAudit
  import opened TwinState
  import opened CloudStore
  import opened TwinModel

  /**
   The in-flight slots: the three global fields are set together, the in-flight
   key is queued, and no session entry is newer than the global one.
   */
  predicate Slots(s: Twin, clock: real) {
    && UniqueKeys(s.queue)
    && (s.inflightKey.Some? <==> s.inflightDevice.Some?)
    && (s.inflightKey.Some? <==> s.inflightSince.Some?)
    && (s.inflightKey.Some? ==> Lookup(s.queue, s.inflightKey.value).Some?)
    && (s.inflightSince.Some? ==> s.inflightSince.value <= clock)
    && (forall sid :: sid in s.sessions ==>
          && s.sessions[sid].since <= clock
          && (s.inflightSince.Some? ==> s.sessions[sid].since <= s.inflightSince.value))
  }

  predicate UniqueAudits(queue: seq<TwinSetting>) {
    forall x, y :: x in queue && y in queue && x.auditId == y.auditId ==> x == y
  }

  /** No audit id was delivered twice; a queued setting already delivered sits at the in-flight key. */
  predicate Once(s: Twin) {
    && UniqueAudits(s.queue)
    && (forall x, d :: x in s.queue && d in s.delivered && x.auditId == d.auditId ==> s.inflightKey == Some(x.Id()))
    && (forall i, j :: 0 <= i < j < |s.delivered| ==> s.delivered[i].auditId != s.delivered[j].auditId)
  }

  /** The ledger holds the last terminal step of each audit id, and those steps rise. */
  ghost predicate Laddered(s: Twin) {
    forall a :: LadderOk(s, a)
  }

  predicate LadderOk(s: Twin, a: string) {
    var steps := Ladder(s.trail, a);
    && Rising(steps)
    && LadderSteps(steps)
    && (steps == [] <==> a !in s.ledger)
    && (steps != [] ==> s.ledger[a] == steps[|steps| - 1])
  }

  /** An issued id_set exceeds its second and every id_set before it. */
  predicate IssueOk(log: seq<IdEvent>, i: nat)
    requires i < |log|
  {
    log[i].Issued? ==> log[i].id > log[i].second && forall j :: 0 <= j < i ==> log[j].id < log[i].id
  }

  predicate NotAbove(e: IdEvent, last: Option<int>) {
    last.Some? && e.id <= last.value
  }

  /** And none is above the highest one remembered. */
  predicate IdsRise(s: Twin) {
    && (forall i :: 0 <= i < |s.idLog| ==> IssueOk(s.idLog, i))
    && (forall i :: 0 <= i < |s.idLog| ==> NotAbove(s.idLog[i], s.lastIdSet))
  }

  ghost predicate Inv(s: Twin, clock: real) {
    && Slots(s, clock)
    && CloudOk(s.cloud, s.timeout, clock)
    && Once(s)
    && Laddered(s)
    && IdsRise(s)
  }

  /** The audit ids of queued and tracked settings: the ones a frame can still speak about. */
  function Live(s: Twin): set<string> {
    (set x | x in s.queue :: x.auditId) + (set p | p in Entries(s.cloud) :: p.setting.auditId)
  }

  function Known(s: Twin): set<string> {
    Live(s) + (set r | r in s.trail :: r.auditId) + (set d | d in s.delivered :: d.auditId)
  }

  /** A new setting needs an unused audit id; delivery itself records no Superseded. */
  predicate Admissible(s: Twin, c: Call) {
    match c
    case DoEnqueue(x) => x.auditId !in Known(s)
    case DoBeginCloud(x, _) => x.auditId !in Known(s)
    case DoRecord(x, _, step, _, _) => step != Superseded
    case _ => true
  }

  // ---- Slots ----

  lemma DropTimedOutSlots(s: Twin, tag: string, clock: real, now: real)
    requires Slots(s, clock) && clock <= now
    ensures Slots(DropTimedOut(s, tag, now), now)
    ensures InflightTimedOut(s, now) ==>
              DropTimedOut(s, tag, now).inflightKey.None?
              && DropTimedOut(s, tag, now).queue == Drop(s.queue, s.inflightKey.value)
    ensures !InflightTimedOut(s, now) ==> DropTimedOut(s, tag, now) == s
  {
    if InflightTimedOut(s, now) { DropSpec(s.queue, s.inflightKey.value); }
  }

  lemma DropSessionSlots(s: Twin, sid: string, step: SettingStep, clock: real)
    requires Slots(s, clock)
    ensures Slots(DropSession(s, sid, step), clock)
  {
  }

  lemma SelectSlots(s: Twin, x: TwinSetting, deviceId: string, session: Option<string>, now: real)
    requires Slots(s, now) && x in s.queue
    ensures Slots(Select(s, x, deviceId, session, now), now)
  {
    LookupSpec(s.queue, x.Id());
  }

  lemma DeliverSlots(s: Twin, deviceId: string, session: Option<string>, clock: real, now: real)
    requires Slots(s, clock) && clock <= now
    ensures Slots(DeliverPending(s, deviceId, session, now).0, now)
  {
    var s1 := DropTimedOut(s, Label(session), now);
    DropTimedOutSlots(s, Label(session), clock, now);
    if !SessionBlocks(s1, session, now) {
      var s2 := if session.Some? then DropSession(s1, session.value, Timeout) else s1;
      if session.Some? { DropSessionSlots(s1, session.value, Timeout, now); }
      PendingMembers(s2.queue);
      if !(s2.inflightKey.Some? || s2.queue == []) {
        SelectSlots(s2, GetPending(s2.queue)[0], deviceId, session, now);
      }
    }
  }

  lemma DropQueuedSlots(s: Twin, id: SettingKey, clock: real)
    requires Slots(s, clock)
    ensures s.inflightKey != Some(id) ==> Slots(s.(queue := Drop(s.queue, id)), clock)
    ensures s.inflightKey == Some(id) ==> Slots(ClearInflight(s).(queue := Drop(s.queue, id)), clock)
  {
    DropSpec(s.queue, id);
    if s.inflightKey.Some? {
      LookupSpec(s.queue, s.inflightKey.value);
      LookupSpec(Drop(s.queue, id), s.inflightKey.value);
    }
  }

  /** An acknowledgement takes at most its key from the queue, or the first entry of its key from the store. */
  lemma AcknowledgeTakes(s: Twin, table: string, key: string, session: Option<string>)
    ensures var id, r := SettingKey(table, key), Acknowledge(s, table, key, session);
            && (r.queue == s.queue || r.queue == Drop(s.queue, id))
            && (r.cloud == s.cloud
                || (FirstFor(Entries(s.cloud), id).Some?
                    && r.cloud == Remove(s.cloud, FirstFor(Entries(s.cloud), id).value)))
  {
  }

  lemma AcknowledgeSlots(s: Twin, table: string, key: string, session: Option<string>, clock: real)
    requires Slots(s, clock)
    ensures Slots(Acknowledge(s, table, key, session), clock)
  {
    var id := SettingKey(table, key);
    var s1 := AcknowledgeSession(s, id, session);
    assert Slots(s1, clock);
    DropQueuedSlots(s1, id, clock);
  }

  lemma EnqueueSlots(s: Twin, x: TwinSetting, clock: real)
    requires Slots(s, clock)
    ensures Slots(s.(queue := Put(s.queue, x)), clock)
  {
    PutSpec(s.queue, x);
    if s.inflightKey.Some? {
      LookupSpec(s.queue, s.inflightKey.value);
      LookupSpec(Put(s.queue, x), s.inflightKey.value);
    }
  }

  lemma SlotsLater(s: Twin, clock: real, now: real)
    requires Slots(s, clock) && clock <= now
    ensures Slots(s, now)
  {
  }

  predicate TouchesSlots(c: Call) {
    c.DoEnqueue? || c.DoDeliver? || c.DoAcknowledge? || c.DoClearSession?
  }

  predicate TouchesCloud(c: Call) {
    c.DoAcknowledge? || c.DoExpire? || c.DoBeginCloud? || c.DoMarkReason? || c.DoMatchTblEvents?
  }

  predicate TouchesIds(c: Call) {
    c.DoObserveIdSet? || c.DoNextIdSet?
  }

  predicate TouchesTrail(c: Call) {
    c.DoDeliver? || c.DoClearSession? || c.DoRecord? || c.DoExpire?
    || c.DoBeginCloud? || c.DoMarkReason? || c.DoMatchTblEvents?
  }

  predicate SameSlots(s: Twin, r: Twin) {
    && r.queue == s.queue && r.sessions == s.sessions && r.delivered == s.delivered
    && r.inflightKey == s.inflightKey && r.inflightDevice == s.inflightDevice && r.inflightSince == s.inflightSince
  }

  lemma DoSlotsFrame(s: Twin, c: Call, now: real)
    requires !TouchesSlots(c)
    ensures SameSlots(s, Do(s, c, now))
  {
  }

  lemma DoCloudFrame(s: Twin, c: Call, now: real)
    requires !TouchesCloud(c)
    ensures Do(s, c, now).cloud == s.cloud
  {
  }

  lemma DoIdsFrame(s: Twin, c: Call, now: real)
    ensures !TouchesIds(c) ==> Do(s, c, now).lastIdSet == s.lastIdSet && Do(s, c, now).idLog == s.idLog
    ensures Do(s, c, now).timeout == s.timeout && Do(s, c, now).collector == s.collector
  {
  }

  /** A call changes only the part of the state it is about. */
  lemma DoFrame(s: Twin, c: Call, now: real)
    ensures !TouchesSlots(c) ==> SameSlots(s, Do(s, c, now))
    ensures !TouchesCloud(c) ==> Do(s, c, now).cloud == s.cloud
    ensures !TouchesIds(c) ==> Do(s, c, now).lastIdSet == s.lastIdSet && Do(s, c, now).idLog == s.idLog
    ensures Do(s, c, now).timeout == s.timeout && Do(s, c, now).collector == s.collector
  {
    if !TouchesSlots(c) { DoSlotsFrame(s, c, now); }
    if !TouchesCloud(c) { DoCloudFrame(s, c, now); }
    DoIdsFrame(s, c, now);
  }

  lemma DoTrailFrame(s: Twin, c: Call, now: real)
    requires !TouchesTrail(c)
    ensures Do(s, c, now).trail == s.trail && Do(s, c, now).ledger == s.ledger
  {
    match c
    case DoEnqueue(x) =>
    case DoObserveIdSet(seen) =>
    case DoObserveMsgId(seen) =>
    case DoNextIdSet(second) =>
    case DoNextMsgId(random) =>
    case DoAcknowledge(table, key, session) =>
    case DoSetLegacy(on) =>
  }

  lemma DoKeepsSlots(s: Twin, c: Call, clock: real, now: real)
    requires Slots(s, clock) && clock <= now
    ensures Slots(Do(s, c, now), now)
  {
    SlotsLater(s, clock, now);
    if TouchesSlots(c) {
      match c
      case DoEnqueue(x) => EnqueueSlots(s, x, now);
      case DoDeliver(deviceId, session) => DeliverSlots(s, deviceId, session, clock, now);
      case DoAcknowledge(table, key, session) => AcknowledgeSlots(s, table, key, session, now);
      case DoClearSession(sid) => DropSessionSlots(s, sid, SessionCleared, now);
    } else {
      DoFrame(s, c, now);
      SlotsFrame(s, Do(s, c, now), now);
    }
  }

  lemma SlotsFrame(s: Twin, r: Twin, clock: real)
    requires Slots(s, clock) && SameSlots(s, r)
    ensures Slots(r, clock)
  {
  }

  // ---- At most once ----

  lemma DropOnce(s: Twin, id: SettingKey)
    requires UniqueKeys(s.queue) && Once(s)
    ensures Once(s.(queue := Drop(s.queue, id)))
    ensures s.inflightKey == Some(id) ==> Once(ClearInflight(s).(queue := Drop(s.queue, id)))
  {
    DropSpec(s.queue, id);
  }

  lemma DeliverOnce(s: Twin, deviceId: string, session: Option<string>, clock: real, now: real)
    requires Slots(s, clock) && clock <= now && Once(s)
    ensures Once(DeliverPending(s, deviceId, session, now).0)
  {
    var s1 := DropTimedOut(s, Label(session), now);
    DropTimedOutSlots(s, Label(session), clock, now);
    if InflightTimedOut(s, now) { DropOnce(s, s.inflightKey.value); }
    assert Once(s1);
    if !SessionBlocks(s1, session, now) {
      var s2 := if session.Some? then DropSession(s1, session.value, Timeout) else s1;
      PendingMembers(s2.queue);
      if !(s2.inflightKey.Some? || s2.queue == []) {
        SelectOnce(s2, GetPending(s2.queue)[0], deviceId, session, now);
      }
    }
  }

  lemma SelectOnce(s: Twin, x: TwinSetting, deviceId: string, session: Option<string>, now: real)
    requires Once(s) && x in s.queue && s.inflightKey.None?
    ensures Once(Select(s, x, deviceId, session, now))
  {
    forall d | d in s.delivered ensures d.auditId != x.auditId {
    }
  }

  lemma EnqueueOnce(s: Twin, x: TwinSetting)
    requires UniqueKeys(s.queue) && Once(s) && x.auditId !in Known(s)
    ensures Once(s.(queue := Put(s.queue, x)))
  {
    PutSpec(s.queue, x);
    forall y | y in s.queue ensures y.auditId != x.auditId {
      assert y.auditId in Live(s);
    }
    forall d | d in s.delivered ensures d.auditId != x.auditId {
      assert d.auditId in Known(s);
    }
  }

  lemma AcknowledgeOnce(s: Twin, table: string, key: string, session: Option<string>)
    requires UniqueKeys(s.queue) && Once(s)
    ensures Once(Acknowledge(s, table, key, session))
  {
    var id := SettingKey(table, key);
    var s1 := AcknowledgeSession(s, id, session);
    OnceFrame(s, s1);
    DropOnce(s1, id);
  }

  lemma OnceFrame(s: Twin, r: Twin)
    requires Once(s) && r.queue == s.queue && r.delivered == s.delivered && r.inflightKey == s.inflightKey
    ensures Once(r)
  {
  }

  lemma DoKeepsOnce(s: Twin, c: Call, clock: real, now: real)
    requires Slots(s, clock) && clock <= now && Once(s) && Admissible(s, c)
    ensures Once(Do(s, c, now))
  {
    if TouchesSlots(c) {
      match c
      case DoEnqueue(x) => EnqueueOnce(s, x);
      case DoDeliver(deviceId, session) => DeliverOnce(s, deviceId, session, clock, now);
      case DoAcknowledge(table, key, session) => AcknowledgeOnce(s, table, key, session);
      case DoClearSession(sid) => OnceFrame(s, Do(s, c, now));
    } else {
      DoFrame(s, c, now);
      OnceFrame(s, Do(s, c, now));
    }
  }

  // ---- The terminal ladder ----

  lemma AddRung(steps: seq<SettingStep>, step: SettingStep)
    requires Rising(steps) && LadderSteps(steps) && IsTerminalStep(step) && step != Superseded
    requires steps != [] ==> IsStrongerAck(step, steps[|steps| - 1])
    ensures Rising(steps + [step]) && LadderSteps(steps + [step])
  {
    forall i | 0 <= i < |steps| ensures AckPrecedence(steps[i]) < AckPrecedence(step) {
      assert i < |steps| - 1 ==> AckPrecedence(steps[i]) < AckPrecedence(steps[|steps| - 1]);
    }
  }

  lemma TerminalByResult(x: TwinSetting, deviceId: string, step: SettingStep,
                         result: Option<SettingResult>, sid: string)
    ensures IsTerminalRecord(StepRecord(x, deviceId, step, result, sid))
       <==> IsTerminalStep(step) && result != Some(Pending)
  {
  }

  /** The trail grows by a record that leaves the ledger alone, or by a stronger terminal step that enters it. */
  lemma RecordKeepsLadder(s: Twin, x: TwinSetting, deviceId: string, step: SettingStep,
                          result: Option<SettingResult>, sid: string, a: string)
    requires LadderOk(s, a) && step != Superseded
    ensures LadderOk(RecordStep(s, x, deviceId, step, result, sid), a)
  {
    var s' := RecordStep(s, x, deviceId, step, result, sid);
    var r := StepRecord(x, deviceId, step, result, sid);
    TerminalByResult(x, deviceId, step, result, sid);
    if s'.trail == s.trail + [r] {
      LadderAppend(s.trail, r, a);
      if a == x.auditId && IsTerminalRecord(r) {
        RungEnters(s, s', a, step);
      } else {
        assert a in s'.ledger <==> a in s.ledger;
      }
    }
  }

  lemma RungEnters(s: Twin, s': Twin, a: string, step: SettingStep)
    requires LadderOk(s, a) && IsTerminalStep(step) && step != Superseded
    requires a in s.ledger ==> IsStrongerAck(step, s.ledger[a])
    requires Ladder(s'.trail, a) == Ladder(s.trail, a) + [step] && s'.ledger == s.ledger[a := step]
    ensures LadderOk(s', a)
  {
    AddRung(Ladder(s.trail, a), step);
  }

  lemma RecordLadders(s: Twin, x: TwinSetting, deviceId: string, step: SettingStep,
                      result: Option<SettingResult>, sid: string)
    requires Laddered(s) && step != Superseded
    ensures Laddered(RecordStep(s, x, deviceId, step, result, sid))
  {
    forall a ensures LadderOk(RecordStep(s, x, deviceId, step, result, sid), a) {
      RecordKeepsLadder(s, x, deviceId, step, result, sid, a);
    }
  }

  lemma AppendLadders(s: Twin, r: AuditRecord)
    requires Laddered(s) && (!IsTerminalStep(r.step) || r.step == Superseded)
    ensures Laddered(TwinModel.Append(s, r))
  {
    forall a ensures LadderOk(TwinModel.Append(s, r), a) {
      LadderAppend(s.trail, r, a);
      assert LadderOk(s, a);
    }
  }

  lemma LadderedFrame(s: Twin, s': Twin)
    requires Laddered(s) && s'.trail == s.trail && s'.ledger == s.ledger
    ensures Laddered(s')
  {
    forall a ensures LadderOk(s', a) {
      assert LadderOk(s, a);
    }
  }

  lemma {:induction false} ExpiriesLadder(s: Twin, ps: seq<CloudPending>)
    requires Laddered(s)
    ensures Laddered(RecordExpiries(s, ps))
    ensures Laddered(RecordCleared(s, ps))
    decreases |ps|
  {
    if ps != [] {
      var p := ps[|ps| - 1];
      ExpiriesLadder(s, ps[..|ps| - 1]);
      var e := RecordExpiries(s, ps[..|ps| - 1]);
      RecordLadders(e, p.setting, p.deviceId, AckReasonSetting, Some(Confirmed), "");
      RecordLadders(e, p.setting, p.deviceId, Timeout, None, "");
      RecordLadders(RecordCleared(s, ps[..|ps| - 1]), p.setting, p.deviceId, SessionCleared, None, "");
    }
  }

  lemma ExpireLadders(s: Twin, now: real)
    requires Laddered(s)
    ensures Laddered(ExpireCloud(s, now))
  {
    var ps := Hit(Entries(s.cloud), Expired(now, s.timeout));
    ExpiriesLadder(s, ps);
    LadderedFrame(RecordExpiries(s, ps), ExpireCloud(s, now));
  }

  lemma RecordQueuedLadders(s: Twin, id: SettingKey, step: SettingStep, sid: string)
    requires Laddered(s) && step != Superseded
    ensures Laddered(RecordQueued(s, id, step, sid))
  {
    var x := Lookup(s.queue, id);
    if x.Some? && s.inflightDevice.Some? {
      RecordLadders(s, x.value, s.inflightDevice.value, step, None, sid);
    }
  }

  lemma DropSessionLadders(s: Twin, sid: string, step: SettingStep)
    requires Laddered(s) && step != Superseded
    ensures Laddered(DropSession(s, sid, step))
  {
    if sid in s.sessions {
      var id := SettingKey(s.sessions[sid].table, s.sessions[sid].key);
      RecordQueuedLadders(s, id, step, sid);
      LadderedFrame(RecordQueued(s, id, step, sid), DropSession(s, sid, step));
    }
  }

  lemma DeliverLadders(s: Twin, deviceId: string, session: Option<string>, now: real)
    requires Laddered(s)
    ensures Laddered(DeliverPending(s, deviceId, session, now).0)
  {
    var s1 := DropTimedOut(s, Label(session), now);
    if InflightTimedOut(s, now) {
      RecordQueuedLadders(s, s.inflightKey.value, Timeout, Label(session));
      LadderedFrame(RecordQueued(s, s.inflightKey.value, Timeout, Label(session)), s1);
    }
    if !SessionBlocks(s1, session, now) {
      var s2 := if session.Some? then DropSession(s1, session.value, Timeout) else s1;
      if session.Some? { DropSessionLadders(s1, session.value, Timeout); }
      PendingMembers(s2.queue);
      if !(s2.inflightKey.Some? || s2.queue == []) {
        var x := GetPending(s2.queue)[0];
        var s3 := s2.(inflightKey := Some(x.Id()), inflightDevice := Some(deviceId), inflightSince := Some(now),
                      sessions := if session.Some? then
                                    s2.sessions[session.value := SessionInflight(x.table, x.key, now)]
                                  else s2.sessions,
                      delivered := s2.delivered + [x]);
        LadderedFrame(s2, s3);
        RecordLadders(s3, x, deviceId, DeliverSelected, None, Label(session));
      }
    }
  }

  lemma BeginLadders(s: Twin, x: TwinSetting, deviceId: string, now: real)
    requires Laddered(s)
    ensures Laddered(BeginCloud(s, x, deviceId, now))
  {
    var r := AuditRecord(x.auditId, deviceId, x.table, x.key, Incoming, Pending, "");
    ExpireLadders(s, now);
    AppendLadders(ExpireCloud(s, now), r);
    LadderedFrame(TwinModel.Append(ExpireCloud(s, now), r), BeginCloud(s, x, deviceId, now));
  }

  lemma MarkLadders(s: Twin, deviceId: string, sid: string, now: real)
    requires Laddered(s)
    ensures Laddered(MarkReason(s, deviceId, sid, now).0)
  {
    var s1 := ExpireCloud(s, now);
    ExpireLadders(s, now);
    match Oldest(ForDevice(Entries(s1.cloud), Some(deviceId)))
    case None =>
    case Some(p) =>
      RecordLadders(s1, p.setting, p.deviceId, AckReasonSetting, Some(Pending), sid);
      if !p.reasonSeen {
        LadderedFrame(RecordStep(s1, p.setting, p.deviceId, AckReasonSetting, Some(Pending), sid),
                      MarkReason(s, deviceId, sid, now).0);
      }
  }

  lemma MatchLadders(s: Twin, deviceId: string, table: string, key: string, confirmed: string, sid: string, now: real)
    requires Laddered(s)
    ensures Laddered(MatchTblEvents(s, deviceId, table, key, confirmed, sid, now).0)
  {
    var s1 := ExpireCloud(s, now);
    ExpireLadders(s, now);
    var entries := QueueOf(s1.cloud, CloudKey(deviceId, table, key));
    if entries != [] {
      var p := MatchIn(entries, confirmed);
      RecordLadders(s1, p.setting, p.deviceId, AckTblEvents, None, sid);
      LadderedFrame(RecordStep(s1, p.setting, p.deviceId, AckTblEvents, None, sid),
                    MatchTblEvents(s, deviceId, table, key, confirmed, sid, now).0);
    }
  }

  lemma DoKeepsLadder(s: Twin, c: Call, now: real)
    requires Laddered(s) && Admissible(s, c)
    ensures Laddered(Do(s, c, now))
  {
    if TouchesTrail(c) {
      match c
      case DoDeliver(deviceId, session) => DeliverLadders(s, deviceId, session, now);
      case DoClearSession(sid) => DropSessionLadders(s, sid, SessionCleared);
      case DoRecord(x, deviceId, step, result, sid) => RecordLadders(s, x, deviceId, step, result, sid);
      case DoExpire => ExpireLadders(s, now);
      case DoBeginCloud(x, deviceId) => BeginLadders(s, x, deviceId, now);
      case DoMarkReason(deviceId, sid) => MarkLadders(s, deviceId, sid, now);
      case DoMatchTblEvents(deviceId, table, key, confirmed, sid) =>
        MatchLadders(s, deviceId, table, key, confirmed, sid, now);
    } else {
      DoTrailFrame(s, c, now);
      LadderedFrame(s, Do(s, c, now));
    }
  }

  // ---- Cloud store ----

  lemma ExpireKeepsCloud(s: Twin, clock: real, now: real)
    requires CloudOk(s.cloud, s.timeout, clock) && clock <= now
    ensures CloudOk(ExpireCloud(s, now).cloud, s.timeout, now)
    ensures Entries(ExpireCloud(s, now).cloud) == Kept(Entries(s.cloud), Expired(now, s.timeout))
    ensures forall p :: p in Entries(ExpireCloud(s, now).cloud)
                        <==> p in Entries(s.cloud) && now - p.LimitedFrom() < s.timeout
  {
    CloudOkLater(s.cloud, s.timeout, clock, now);
    PruneKeepsOk(s.cloud, Expired(now, s.timeout), s.timeout, now);
    PruneEntries(s.cloud, Expired(now, s.timeout));
    HitMembers(Entries(s.cloud), Expired(now, s.timeout));
  }

  lemma MatchKeepsCloud(s: Twin, deviceId: string, table: string, key: string, confirmed: string, sid: string,
                        clock: real, now: real)
    requires CloudOk(s.cloud, s.timeout, clock) && clock <= now
    ensures CloudOk(MatchTblEvents(s, deviceId, table, key, confirmed, sid, now).0.cloud, s.timeout, now)
  {
    ExpireKeepsCloud(s, clock, now);
    var s1 := ExpireCloud(s, now);
    var entries := QueueOf(s1.cloud, CloudKey(deviceId, table, key));
    if entries != [] { RemoveKeepsOk(s1.cloud, MatchIn(entries, confirmed), s.timeout, now); }
  }

  lemma BeginKeepsCloud(s: Twin, x: TwinSetting, deviceId: string, clock: real, now: real)
    requires CloudOk(s.cloud, s.timeout, clock) && clock <= now
    ensures CloudOk(BeginCloud(s, x, deviceId, now).cloud, s.timeout, now)
  {
    ExpireKeepsCloud(s, clock, now);
    AppendKeepsOk(ExpireCloud(s, now).cloud, CloudPending(x, deviceId, now, false, None), s.timeout, now);
  }

  lemma AcknowledgeKeepsCloud(s: Twin, table: string, key: string, session: Option<string>, clock: real)
    requires CloudOk(s.cloud, s.timeout, clock)
    ensures CloudOk(Acknowledge(s, table, key, session).cloud, s.timeout, clock)
  {
    var p := FirstFor(Entries(s.cloud), SettingKey(table, key));
    if p.Some? { RemoveKeepsOk(s.cloud, p.value, s.timeout, clock); }
  }

  lemma TrackKeepsCloud(s: Twin, c: Call, clock: real, now: real)
    requires CloudOk(s.cloud, s.timeout, clock) && clock <= now && (c.DoBeginCloud? || c.DoMarkReason?)
    ensures CloudOk(Do(s, c, now).cloud, s.timeout, now)
  {
    if c.DoBeginCloud? {
      BeginKeepsCloud(s, c.x, c.deviceId, clock, now);
    } else {
      MarkKeepsCloud(s, c.deviceId, c.sid, clock, now);
    }
  }

  lemma UntrackKeepsCloud(s: Twin, c: Call, clock: real, now: real)
    requires CloudOk(s.cloud, s.timeout, clock) && clock <= now
    requires c.DoAcknowledge? || c.DoExpire? || c.DoMatchTblEvents?
    ensures CloudOk(Do(s, c, now).cloud, s.timeout, now)
  {
    if c.DoAcknowledge? {
      CloudOkLater(s.cloud, s.timeout, clock, now);
      AcknowledgeKeepsCloud(s, c.table, c.key, c.session, now);
    } else if c.DoExpire? {
      ExpireKeepsCloud(s, clock, now);
    } else {
      MatchKeepsCloud(s, c.deviceId, c.table, c.key, c.confirmed, c.sid, clock, now);
    }
  }

  lemma DoKeepsCloud(s: Twin, c: Call, clock: real, now: real)
    requires CloudOk(s.cloud, s.timeout, clock) && clock <= now
    ensures CloudOk(Do(s, c, now).cloud, s.timeout, now)
  {
    if c.DoBeginCloud? || c.DoMarkReason? {
      TrackKeepsCloud(s, c, clock, now);
    } else if TouchesCloud(c) {
      UntrackKeepsCloud(s, c, clock, now);
    } else {
      DoCloudFrame(s, c, now);
      CloudOkLater(s.cloud, s.timeout, clock, now);
    }
  }

  lemma ShutdownSlots(s: Twin, clock: real)
    requires Slots(s, clock) && CloudOk(s.cloud, s.timeout, clock)
    ensures Slots(Shutdown(s), clock) && CloudOk(Shutdown(s).cloud, s.timeout, clock)
  {
    PruneKeepsOk(s.cloud, Everything, s.timeout, clock);
  }

  lemma MarkKeepsCloud(s: Twin, deviceId: string, sid: string, clock: real, now: real)
    requires CloudOk(s.cloud, s.timeout, clock) && clock <= now
    ensures CloudOk(MarkReason(s, deviceId, sid, now).0.cloud, s.timeout, now)
  {
    ExpireKeepsCloud(s, clock, now);
    var s1 := ExpireCloud(s, now);
    var candidates := ForDevice(Entries(s1.cloud), Some(deviceId));
    ForDeviceMembers(Entries(s1.cloud), Some(deviceId));
    OldestSpec(candidates);
    if candidates != [] {
      var p := Oldest(candidates).value;
      if !p.reasonSeen {
        CloudOkFiled(s1.cloud, s.timeout, now);
        ReplaceKeepsOk(s1.cloud, p, p.(reasonSeen := true, reasonAt := Some(now)), s.timeout, now);
      }
    }
  }

  // ---- The id_set line ----

  lemma LogKeepsIds(s: Twin, e: IdEvent, last: int)
    requires IdsRise(s)
    requires e.id <= last && (s.lastIdSet.Some? ==> s.lastIdSet.value <= last)
    requires e.Issued? ==> e.id > e.second && (s.lastIdSet.Some? ==> s.lastIdSet.value < e.id)
    ensures IdsRise(s.(lastIdSet := Some(last), idLog := s.idLog + [e]))
  {
    var log := s.idLog + [e];
    forall i | 0 <= i < |log| ensures NotAbove(log[i], Some(last)) {
      if i < |s.idLog| { assert NotAbove(s.idLog[i], s.lastIdSet); }
    }
    forall i | 0 <= i < |log| ensures IssueOk(log, i) {
      if i < |s.idLog| {
        assert IssueOk(s.idLog, i);
      } else {
        forall j | 0 <= j < i ensures log[i].Issued? ==> log[j].id < log[i].id {
          assert NotAbove(s.idLog[j], s.lastIdSet);
        }
      }
    }
  }

  lemma DoKeepsIds(s: Twin, c: Call, now: real)
    requires IdsRise(s)
    ensures IdsRise(Do(s, c, now))
  {
    if TouchesIds(c) {
      match c
      case DoObserveIdSet(seen) =>
        if seen.Some? { LogKeepsIds(s, Observed(seen.value), ObserveIdSet(s, seen).lastIdSet.value); }
      case DoNextIdSet(second) =>
        var id := NextId(s.lastIdSet, second);
        LogKeepsIds(s, Issued(id, second), id);
    } else {
      DoFrame(s, c, now);
      IdsFrame(s, Do(s, c, now));
    }
  }

  lemma IdsFrame(s: Twin, r: Twin)
    requires IdsRise(s) && r.idLog == s.idLog && r.lastIdSet == s.lastIdSet
    ensures IdsRise(r)
  {
    forall i | 0 <= i < |r.idLog| ensures IssueOk(r.idLog, i) {
      assert IssueOk(s.idLog, i);
    }
    forall i | 0 <= i < |r.idLog| ensures NotAbove(r.idLog[i], r.lastIdSet) {
      assert NotAbove(s.idLog[i], s.lastIdSet);
    }
  }

  /** Every call of the interface, at any later time, keeps the whole invariant. */
  lemma DoKeepsInv(s: Twin, c: Call, clock: real, now: real)
    requires Inv(s, clock) && clock <= now && Admissible(s, c)
    ensures Inv(Do(s, c, now), now)
  {
    DoFrame(s, c, now);
    DoKeepsSlots(s, c, clock, now);
    DoKeepsOnce(s, c, clock, now);
    DoKeepsLadder(s, c, now);
    DoKeepsCloud(s, c, clock, now);
    DoKeepsIds(s, c, now);
  }
}
