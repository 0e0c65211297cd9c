/** What holds in every run of the proxy, from its first state on. */
module TwinRuns {
  import opened Options
  import opened SettingsAudit
  import opened SettingsConstraints
  import opened TwinState
  import opened CloudStore
  import opened TwinModel
  import opened TwinInvariants
  import opened TwinFrames

  /** Steps after which the handler never lets an audit id speak again. */
  predicate IsFinal(step: SettingStep) {
    step in {Superseded, RejectedNotAllowed, RejectedValidation}
  }

  /** The trail grew, by records of the given audit ids only and by no final step. */
  predicate Extends(from: seq<AuditRecord>, to: seq<AuditRecord>, ids: set<string>) {
    from <= to && forall i :: |from| <= i < |to| ==> to[i].auditId in ids && !IsFinal(to[i].step)
  }

  /** No audit id is both queued and tracked, and none is tracked twice. */
  predicate Apart(s: Twin) {
    && (forall x, p :: x in s.queue && p in Entries(s.cloud) ==> x.auditId != p.setting.auditId)
    && DistinctIds(Entries(s.cloud))
  }

  /** Every queued setting may be written, and so may every setting that went to the Box. */
  predicate Safe(s: Twin) {
    && (forall x :: x in s.queue ==> Permitted(x.table, x.key, x.value))
    && (forall i :: 0 <= i < |s.idLog| && s.idLog[i].Injected? ==> InjectionOk(s.idLog, i))
  }

  /** A written Setting is permitted and carries the id_set issued for it just before. */
  predicate InjectionOk(log: seq<IdEvent>, i: nat)
    requires i < |log| && log[i].Injected?
  {
    && Permitted(log[i].setting.table, log[i].setting.key, log[i].setting.value)
    && i > 0 && log[i - 1].Issued? && log[i - 1].id == log[i].id
  }

  ghost predicate Sound(s: Twin, now: real) {
    Inv(s, now) && Safe(s) && Apart(s)
  }

  /** The state s is sound, and since the trail was `from` only the given ids were spoken about. */
  ghost predicate Good(s: Twin, now: real, from: seq<AuditRecord>, ids: set<string>) {
    Sound(s, now) && Live(s) <= ids && Extends(from, s.trail, ids)
  }

  /** A call that speaks about the given ids only. */
  predicate Within(s: Twin, c: Call, ids: set<string>) {
    match c
    case DoEnqueue(x) => false
    case DoBeginCloud(x, _) => x.auditId !in Known(s) && x.auditId in ids
    case DoRecord(x, _, step, _, _) => !IsFinal(step) && x.auditId in ids
    case _ => true
  }

  // ---- What one call says ----

  lemma RecordSays(s: Twin, x: TwinSetting, deviceId: string, step: SettingStep, result: Option<SettingResult>,
                   sid: string, ids: set<string>)
    requires x.auditId in ids && !IsFinal(step)
    ensures Extends(s.trail, RecordStep(s, x, deviceId, step, result, sid).trail, ids)
  {
  }

  lemma ExtendsTrans(a: seq<AuditRecord>, b: seq<AuditRecord>, c: seq<AuditRecord>, ids: set<string>)
    requires Extends(a, b, ids) && Extends(b, c, ids)
    ensures Extends(a, c, ids)
  {
    forall i | |a| <= i < |c| ensures c[i].auditId in ids && !IsFinal(c[i].step) {
      if i < |b| { assert c[i] == b[i]; }
    }
  }

  lemma {:induction false} ExpiriesSay(s: Twin, ps: seq<CloudPending>, ids: set<string>)
    requires forall p :: p in ps ==> p.setting.auditId in ids
    ensures Extends(s.trail, RecordExpiries(s, ps).trail, ids)
    ensures Extends(s.trail, RecordCleared(s, ps).trail, ids)
    decreases |ps|
  {
    if ps != [] {
      var p, before := ps[|ps| - 1], ps[..|ps| - 1];
      ExpiriesSay(s, before, ids);
      var e, c := RecordExpiries(s, before), RecordCleared(s, before);
      ExtendsTrans(s.trail, e.trail, RecordExpiry(e, p).trail, ids);
      RecordSays(c, p.setting, p.deviceId, SessionCleared, None, "", ids);
      ExtendsTrans(s.trail, c.trail, RecordCleared(s, ps).trail, ids);
    }
  }

  lemma ExpireSays(s: Twin, now: real, ids: set<string>)
    requires Live(s) <= ids
    ensures Extends(s.trail, ExpireCloud(s, now).trail, ids)
  {
    var ps := Hit(Entries(s.cloud), Expired(now, s.timeout));
    HitMembers(Entries(s.cloud), Expired(now, s.timeout));
    forall p | p in ps ensures p.setting.auditId in ids {
      assert p.setting.auditId in Live(s);
    }
    ExpiriesSay(s, ps, ids);
  }

  lemma RecordQueuedSays(s: Twin, id: SettingKey, step: SettingStep, sid: string, ids: set<string>)
    requires Live(s) <= ids && !IsFinal(step)
    ensures Extends(s.trail, RecordQueued(s, id, step, sid).trail, ids)
  {
    LookupSpec(s.queue, id);
    if Lookup(s.queue, id).Some? { assert Lookup(s.queue, id).value.auditId in Live(s); }
  }

  lemma DropTimedOutSays(s: Twin, sid: string, now: real, ids: set<string>)
    requires UniqueKeys(s.queue) && Live(s) <= ids
    ensures Extends(s.trail, DropTimedOut(s, sid, now).trail, ids)
    ensures forall x :: x in DropTimedOut(s, sid, now).queue ==> x in s.queue
    ensures Live(DropTimedOut(s, sid, now)) <= ids
  {
    if InflightTimedOut(s, now) {
      RecordQueuedSays(s, s.inflightKey.value, Timeout, sid, ids);
      DropSpec(s.queue, s.inflightKey.value);
    }
  }

  lemma DropSessionSays(s: Twin, sid: string, step: SettingStep, ids: set<string>)
    requires Live(s) <= ids && !IsFinal(step)
    ensures Extends(s.trail, DropSession(s, sid, step).trail, ids)
    ensures DropSession(s, sid, step).queue == s.queue
  {
    if sid in s.sessions {
      RecordQueuedSays(s, SettingKey(s.sessions[sid].table, s.sessions[sid].key), step, sid, ids);
    }
  }

  lemma SelectSays(s: Twin, x: TwinSetting, deviceId: string, session: Option<string>, now: real, ids: set<string>)
    requires x.auditId in ids
    ensures Extends(s.trail, Select(s, x, deviceId, session, now).trail, ids)
  {
  }

  lemma DeliverSays(s: Twin, deviceId: string, session: Option<string>, clock: real, now: real, ids: set<string>)
    requires Slots(s, clock) && clock <= now && Live(s) <= ids
    ensures Extends(s.trail, DeliverPending(s, deviceId, session, now).0.trail, ids)
    ensures forall x :: x in DeliverPending(s, deviceId, session, now).0.queue ==> x in s.queue
    ensures DeliverPending(s, deviceId, session, now).1.Some? ==>
              DeliverPending(s, deviceId, session, now).1.value in s.queue
  {
    var s1 := DropTimedOut(s, Label(session), now);
    DropTimedOutSays(s, Label(session), now, ids);
    if !SessionBlocks(s1, session, now) {
      var s2 := if session.Some? then DropSession(s1, session.value, Timeout) else s1;
      if session.Some? { DropSessionSays(s1, session.value, Timeout, ids); }
      ExtendsTrans(s.trail, s1.trail, s2.trail, ids);
      PendingMembers(s2.queue);
      if !(s2.inflightKey.Some? || s2.queue == []) {
        var x := GetPending(s2.queue)[0];
        assert x in s.queue && x.auditId in Live(s);
        SelectSays(s2, x, deviceId, session, now, ids);
        ExtendsTrans(s.trail, s2.trail, Select(s2, x, deviceId, session, now).trail, ids);
      }
    }
  }

  /** The candidate of mark_cloud_reason_setting is a tracked entry. */
  lemma OldestForDevice(entries: seq<CloudPending>, deviceId: string)
    ensures Oldest(ForDevice(entries, Some(deviceId))).Some? ==>
              Oldest(ForDevice(entries, Some(deviceId))).value in entries
              && Oldest(ForDevice(entries, Some(deviceId))).value.deviceId == deviceId
  {
    ForDeviceMembers(entries, Some(deviceId));
    OldestSpec(ForDevice(entries, Some(deviceId)));
  }

  lemma MarkEntries(s1: Twin, p: CloudPending, now: real)
    requires CloudOk(s1.cloud, s1.timeout, now) && p in Entries(s1.cloud) && !p.reasonSeen
    requires now - p.LimitedFrom() < s1.timeout
    ensures forall q :: q in Entries(Replace(s1.cloud, p, p.(reasonSeen := true, reasonAt := Some(now)))) ==>
              q == p.(reasonSeen := true, reasonAt := Some(now)) || q in Entries(s1.cloud)
  {
    CloudOkFiled(s1.cloud, s1.timeout, now);
    ReplaceKeepsOk(s1.cloud, p, p.(reasonSeen := true, reasonAt := Some(now)), s1.timeout, now);
  }

  lemma MarkTracks(s: Twin, deviceId: string, sid: string, clock: real, now: real)
    requires CloudOk(s.cloud, s.timeout, clock) && clock <= now
    ensures forall p :: p in Entries(MarkReason(s, deviceId, sid, now).0.cloud) ==>
              WasTracked(s, p.setting)
  {
    var s1 := ExpireCloud(s, now);
    ExpireKeepsCloud(s, clock, now);
    OldestForDevice(Entries(s1.cloud), deviceId);
    match Oldest(ForDevice(Entries(s1.cloud), Some(deviceId)))
    case None =>
    case Some(p) => if !p.reasonSeen { MarkEntries(s1, p, now); }
  }

  lemma MarkSays(s: Twin, deviceId: string, sid: string, clock: real, now: real, ids: set<string>)
    requires CloudOk(s.cloud, s.timeout, clock) && clock <= now && Live(s) <= ids
    ensures Extends(s.trail, MarkReason(s, deviceId, sid, now).0.trail, ids)
  {
    var s1 := ExpireCloud(s, now);
    ExpireSays(s, now, ids);
    ExpireKeepsCloud(s, clock, now);
    OldestForDevice(Entries(s1.cloud), deviceId);
    match Oldest(ForDevice(Entries(s1.cloud), Some(deviceId)))
    case None =>
    case Some(p) =>
      assert p in Entries(s.cloud) && p.setting.auditId in Live(s);
      if !p.reasonSeen {
        var s2 := RecordStep(s1, p.setting, p.deviceId, AckReasonSetting, Some(Pending), sid);
        RecordSays(s1, p.setting, p.deviceId, AckReasonSetting, Some(Pending), sid, ids);
        ExtendsTrans(s.trail, s1.trail, s2.trail, ids);
      }
  }

  lemma {:induction false} QueueOfMembers(cloud: seq<CloudQueue>, id: CloudKey)
    ensures forall p :: p in QueueOf(cloud, id) ==> p in Entries(cloud)
  {
    if cloud != [] { QueueOfMembers(cloud[1..], id); }
  }

  lemma {:induction false} MatchInMembers(entries: seq<CloudPending>, confirmed: string)
    ensures FirstValue(entries, confirmed).Some? ==> FirstValue(entries, confirmed).value in entries
  {
    if entries != [] { MatchInMembers(entries[1..], confirmed); }
  }

  lemma MatchIsTracked(cloud: seq<CloudQueue>, id: CloudKey, confirmed: string)
    requires QueueOf(cloud, id) != []
    ensures MatchIn(QueueOf(cloud, id), confirmed) in Entries(cloud)
  {
    QueueOfMembers(cloud, id);
    MatchInMembers(QueueOf(cloud, id), confirmed);
  }

  lemma RemoveMembers(cloud: seq<CloudQueue>, p: CloudPending, timeout: real, clock: real)
    requires CloudOk(cloud, timeout, clock)
    ensures forall q :: q in Entries(Remove(cloud, p)) ==> q in Entries(cloud)
  {
    CloudOkFiled(cloud, timeout, clock);
    RemoveTakesFirst(cloud, p);
    RemoveFirstMembers(Entries(cloud), p);
  }

  lemma MatchTracks(s: Twin, deviceId: string, table: string, key: string, confirmed: string, sid: string,
                    clock: real, now: real)
    requires CloudOk(s.cloud, s.timeout, clock) && clock <= now
    ensures forall p :: p in Entries(MatchTblEvents(s, deviceId, table, key, confirmed, sid, now).0.cloud) ==>
              p in Entries(s.cloud)
  {
    var s1 := ExpireCloud(s, now);
    ExpireKeepsCloud(s, clock, now);
    var entries := QueueOf(s1.cloud, CloudKey(deviceId, table, key));
    if entries != [] { RemoveMembers(s1.cloud, MatchIn(entries, confirmed), s.timeout, now); }
  }

  lemma MatchSays(s: Twin, deviceId: string, table: string, key: string, confirmed: string, sid: string,
                  clock: real, now: real, ids: set<string>)
    requires CloudOk(s.cloud, s.timeout, clock) && clock <= now && Live(s) <= ids
    ensures Extends(s.trail, MatchTblEvents(s, deviceId, table, key, confirmed, sid, now).0.trail, ids)
  {
    var s1 := ExpireCloud(s, now);
    ExpireSays(s, now, ids);
    ExpireKeepsCloud(s, clock, now);
    var entries := QueueOf(s1.cloud, CloudKey(deviceId, table, key));
    if entries != [] {
      var p := MatchIn(entries, confirmed);
      MatchIsTracked(s1.cloud, CloudKey(deviceId, table, key), confirmed);
      assert p in Entries(s.cloud) && p.setting.auditId in Live(s);
      var s2 := RecordStep(s1, p.setting, p.deviceId, AckTblEvents, None, sid);
      RecordSays(s1, p.setting, p.deviceId, AckTblEvents, None, sid, ids);
      ExtendsTrans(s.trail, s1.trail, s2.trail, ids);
    }
  }

  lemma BeginRecords(s: Twin, x: TwinSetting, deviceId: string, now: real, ids: set<string>)
    requires Live(s) <= ids && x.auditId in ids
    ensures Extends(s.trail, BeginCloud(s, x, deviceId, now).trail, ids)
  {
    var s1 := ExpireCloud(s, now);
    ExpireSays(s, now, ids);
    ExtendsTrans(s.trail, s1.trail, BeginCloud(s, x, deviceId, now).trail, ids);
  }

  lemma BeginTracks(s: Twin, x: TwinSetting, deviceId: string, clock: real, now: real)
    requires CloudOk(s.cloud, s.timeout, clock) && clock <= now
    ensures forall p :: p in Entries(BeginCloud(s, x, deviceId, now).cloud) ==>
              p.setting == x || p in Entries(s.cloud)
  {
    ExpireKeepsCloud(s, clock, now);
    AppendKeepsOk(ExpireCloud(s, now).cloud, CloudPending(x, deviceId, now, false, None), s.timeout, now);
  }

  lemma DoSays(s: Twin, c: Call, clock: real, now: real, ids: set<string>)
    requires Slots(s, clock) && CloudOk(s.cloud, s.timeout, clock) && clock <= now
    requires Live(s) <= ids && Within(s, c, ids)
    ensures Extends(s.trail, Do(s, c, now).trail, ids)
  {
    if TouchesTrail(c) {
      match c
      case DoDeliver(deviceId, session) => DeliverSays(s, deviceId, session, clock, now, ids);
      case DoClearSession(sid) =>
        if sid in s.sessions {
          RecordQueuedSays(s, SettingKey(s.sessions[sid].table, s.sessions[sid].key), SessionCleared, sid, ids);
        }
      case DoRecord(x, deviceId, step, result, sid) => RecordSays(s, x, deviceId, step, result, sid, ids);
      case DoExpire => ExpireSays(s, now, ids);
      case DoBeginCloud(x, deviceId) => BeginRecords(s, x, deviceId, now, ids);
      case DoMarkReason(deviceId, sid) => MarkSays(s, deviceId, sid, clock, now, ids);
      case DoMatchTblEvents(deviceId, table, key, confirmed, sid) =>
        MatchSays(s, deviceId, table, key, confirmed, sid, clock, now, ids);
    } else {
      DoTrailFrame(s, c, now);
    }
  }

  // ---- What stays queued and tracked ----

  lemma DoQueueShrinks(s: Twin, c: Call, clock: real, now: real)
    requires Slots(s, clock) && clock <= now && !c.DoEnqueue?
    ensures forall x :: x in Do(s, c, now).queue ==> x in s.queue
  {
    if TouchesSlots(c) {
      match c
      case DoDeliver(deviceId, session) => DeliverSays(s, deviceId, session, clock, now, Live(s));
      case DoAcknowledge(table, key, session) => DropSpec(s.queue, SettingKey(table, key));
      case DoClearSession(sid) =>
    } else {
      DoFrame(s, c, now);
    }
  }

  lemma AcknowledgeShrinks(s: Twin, table: string, key: string, session: Option<string>, clock: real)
    requires CloudOk(s.cloud, s.timeout, clock)
    ensures forall p :: p in Entries(Acknowledge(s, table, key, session).cloud) ==> p in Entries(s.cloud)
  {
    AcknowledgeTakes(s, table, key, session);
    var p := FirstFor(Entries(s.cloud), SettingKey(table, key));
    if p.Some? { RemoveMembers(s.cloud, p.value, s.timeout, clock); }
  }

  /** The setting was tracked before. */
  predicate WasTracked(s: Twin, x: TwinSetting) {
    exists q :: q in Entries(s.cloud) && q.setting == x
  }

  lemma UntrackShrinks(s: Twin, c: Call, clock: real, now: real)
    requires CloudOk(s.cloud, s.timeout, clock) && clock <= now
    requires c.DoAcknowledge? || c.DoExpire? || c.DoMatchTblEvents?
    ensures forall p :: p in Entries(Do(s, c, now).cloud) ==> p in Entries(s.cloud)
  {
    if c.DoAcknowledge? {
      AcknowledgeShrinks(s, c.table, c.key, c.session, clock);
    } else if c.DoExpire? {
      ExpireKeepsCloud(s, clock, now);
    } else {
      MatchTracks(s, c.deviceId, c.table, c.key, c.confirmed, c.sid, clock, now);
    }
  }

  lemma DoCloudShrinks(s: Twin, c: Call, clock: real, now: real)
    requires CloudOk(s.cloud, s.timeout, clock) && clock <= now
    ensures forall p :: p in Entries(Do(s, c, now).cloud) ==>
              WasTracked(s, p.setting) || (c.DoBeginCloud? && p.setting == c.x)
  {
    if c.DoBeginCloud? {
      BeginTracks(s, c.x, c.deviceId, clock, now);
    } else if c.DoMarkReason? {
      MarkTracks(s, c.deviceId, c.sid, clock, now);
    } else if TouchesCloud(c) {
      UntrackShrinks(s, c, clock, now);
    } else {
      DoCloudFrame(s, c, now);
    }
  }

  lemma LiveWithin(s: Twin, r: Twin, extra: set<string>)
    requires forall x :: x in r.queue ==> x in s.queue
    requires forall p :: p in Entries(r.cloud) ==>
               WasTracked(s, p.setting) || p.setting.auditId in extra
    ensures Live(r) <= Live(s) + extra
  {
    forall a | a in Live(r) ensures a in Live(s) + extra {
      if x :| x in r.queue && x.auditId == a {
      } else {
        var p :| p in Entries(r.cloud) && p.setting.auditId == a;
      }
    }
  }

  lemma AppendSafe(s: Twin, r: Twin, e: IdEvent)
    requires Safe(s) && r.queue == s.queue && r.idLog == s.idLog + [e] && !e.Injected?
    ensures Safe(r)
  {
    forall i | 0 <= i < |r.idLog| && r.idLog[i].Injected? ensures InjectionOk(r.idLog, i) {
      assert InjectionOk(s.idLog, i);
    }
  }

  lemma DoKeepsSafe(s: Twin, c: Call, clock: real, now: real)
    requires Slots(s, clock) && clock <= now && Safe(s) && !c.DoEnqueue?
    ensures Safe(Do(s, c, now))
  {
    DoQueueShrinks(s, c, clock, now);
    if TouchesIds(c) {
      match c
      case DoObserveIdSet(seen) =>
        if seen.Some? { AppendSafe(s, Do(s, c, now), Observed(seen.value)); }
      case DoNextIdSet(second) => AppendSafe(s, Do(s, c, now), Issued(NextId(s.lastIdSet, second), second));
    } else {
      DoFrame(s, c, now);
    }
  }

  lemma ExpireKeepsDistinct(s: Twin, now: real)
    requires DistinctIds(Entries(s.cloud))
    ensures DistinctIds(Entries(ExpireCloud(s, now).cloud))
    ensures forall p :: p in Entries(ExpireCloud(s, now).cloud) ==> p in Entries(s.cloud)
  {
    var sweep := Expired(now, s.timeout);
    PruneEntries(s.cloud, sweep);
    KeptDistinct(Entries(s.cloud), sweep);
    HitMembers(Entries(s.cloud), sweep);
  }

  lemma RemoveKeepsDistinct(cloud: seq<CloudQueue>, p: CloudPending, timeout: real, clock: real)
    requires CloudOk(cloud, timeout, clock) && DistinctIds(Entries(cloud))
    ensures DistinctIds(Entries(Remove(cloud, p)))
  {
    CloudOkFiled(cloud, timeout, clock);
    RemoveTakesFirst(cloud, p);
    RemoveFirstDistinct(Entries(cloud), p);
  }

  lemma AcknowledgeKeepsDistinct(s: Twin, table: string, key: string, session: Option<string>, clock: real)
    requires CloudOk(s.cloud, s.timeout, clock) && DistinctIds(Entries(s.cloud))
    ensures DistinctIds(Entries(Acknowledge(s, table, key, session).cloud))
  {
    AcknowledgeTakes(s, table, key, session);
    var p := FirstFor(Entries(s.cloud), SettingKey(table, key));
    if p.Some? { RemoveKeepsDistinct(s.cloud, p.value, s.timeout, clock); }
  }

  lemma BeginKeepsDistinct(s: Twin, x: TwinSetting, deviceId: string, now: real)
    requires DistinctIds(Entries(s.cloud)) && NoneWithId(Entries(s.cloud), x.auditId)
    ensures DistinctIds(Entries(BeginCloud(s, x, deviceId, now).cloud))
  {
    ExpireKeepsDistinct(s, now);
    AppendDistinct(ExpireCloud(s, now).cloud, CloudPending(x, deviceId, now, false, None));
  }

  lemma MarkKeepsDistinct(s: Twin, deviceId: string, sid: string, now: real)
    requires DistinctIds(Entries(s.cloud))
    ensures DistinctIds(Entries(MarkReason(s, deviceId, sid, now).0.cloud))
  {
    ExpireKeepsDistinct(s, now);
    var s1 := ExpireCloud(s, now);
    match Oldest(ForDevice(Entries(s1.cloud), Some(deviceId)))
    case None =>
    case Some(p) => ReplaceDistinct(s1.cloud, p, p.(reasonSeen := true, reasonAt := Some(now)));
  }

  lemma MatchKeepsDistinct(s: Twin, deviceId: string, table: string, key: string, confirmed: string, sid: string,
                           clock: real, now: real)
    requires CloudOk(s.cloud, s.timeout, clock) && clock <= now && DistinctIds(Entries(s.cloud))
    ensures DistinctIds(Entries(MatchTblEvents(s, deviceId, table, key, confirmed, sid, now).0.cloud))
  {
    ExpireKeepsDistinct(s, now);
    ExpireKeepsCloud(s, clock, now);
    var s1 := ExpireCloud(s, now);
    var entries := QueueOf(s1.cloud, CloudKey(deviceId, table, key));
    if entries != [] { RemoveKeepsDistinct(s1.cloud, MatchIn(entries, confirmed), s.timeout, now); }
  }

  lemma UntrackKeepsDistinct(s: Twin, c: Call, clock: real, now: real)
    requires CloudOk(s.cloud, s.timeout, clock) && clock <= now && DistinctIds(Entries(s.cloud))
    requires c.DoAcknowledge? || c.DoExpire? || c.DoMatchTblEvents?
    ensures DistinctIds(Entries(Do(s, c, now).cloud))
  {
    if c.DoAcknowledge? {
      AcknowledgeKeepsDistinct(s, c.table, c.key, c.session, clock);
    } else if c.DoExpire? {
      ExpireKeepsDistinct(s, now);
    } else {
      MatchKeepsDistinct(s, c.deviceId, c.table, c.key, c.confirmed, c.sid, clock, now);
    }
  }

  lemma DoKeepsDistinct(s: Twin, c: Call, clock: real, now: real)
    requires CloudOk(s.cloud, s.timeout, clock) && clock <= now && DistinctIds(Entries(s.cloud))
    requires c.DoBeginCloud? ==> c.x.auditId !in Known(s)
    ensures DistinctIds(Entries(Do(s, c, now).cloud))
  {
    if c.DoBeginCloud? {
      assert forall q :: q in Entries(s.cloud) ==> q.setting.auditId in Live(s);
      BeginKeepsDistinct(s, c.x, c.deviceId, now);
    } else if c.DoMarkReason? {
      MarkKeepsDistinct(s, c.deviceId, c.sid, now);
    } else if TouchesCloud(c) {
      UntrackKeepsDistinct(s, c, clock, now);
    } else {
      DoCloudFrame(s, c, now);
    }
  }

  lemma DoKeepsApart(s: Twin, c: Call, now: real)
    requires Sound(s, now) && !c.DoEnqueue?
    requires c.DoBeginCloud? ==> c.x.auditId !in Known(s)
    ensures Apart(Do(s, c, now))
  {
    DoQueueShrinks(s, c, now, now);
    DoCloudShrinks(s, c, now, now);
    DoKeepsDistinct(s, c, now, now);
    var r := Do(s, c, now);
    forall x, p | x in r.queue && p in Entries(r.cloud) ensures x.auditId != p.setting.auditId {
      assert x.auditId in Live(s);
    }
  }

  lemma DoGood(s: Twin, c: Call, now: real, from: seq<AuditRecord>, ids: set<string>)
    requires Good(s, now, from, ids) && Within(s, c, ids)
    ensures Good(Do(s, c, now), now, from, ids)
  {
    DoKeepsInv(s, c, now, now);
    DoKeepsSafe(s, c, now, now);
    DoKeepsApart(s, c, now);
    DoQueueShrinks(s, c, now, now);
    DoCloudShrinks(s, c, now, now);
    LiveWithin(s, Do(s, c, now), if c.DoBeginCloud? then {c.x.auditId} else {});
    DoSays(s, c, now, now, ids);
    ExtendsTrans(from, s.trail, Do(s, c, now).trail, ids);
  }

  // ---- Frames ----

  lemma WriteGood(s: Twin, x: TwinSetting, deviceId: string, now: real, from: seq<AuditRecord>, ids: set<string>)
    requires Good(s, now, from, ids) && Permitted(x.table, x.key, x.value)
    requires s.idLog != [] && s.idLog[|s.idLog| - 1].Issued?
    ensures Good(s.(idLog := s.idLog + [Injected(x, deviceId, s.idLog[|s.idLog| - 1].id)]), now, from, ids)
  {
    var id := s.idLog[|s.idLog| - 1].id;
    var r := s.(idLog := s.idLog + [Injected(x, deviceId, id)]);
    LogKeepsIds(s, Injected(x, deviceId, id), s.lastIdSet.value);
    assert r == s.(lastIdSet := Some(s.lastIdSet.value), idLog := s.idLog + [Injected(x, deviceId, id)]);
    forall i | 0 <= i < |r.idLog| && r.idLog[i].Injected? ensures InjectionOk(r.idLog, i) {
      if i < |s.idLog| { assert InjectionOk(s.idLog, i); }
    }
    LadderedFrame(s, r);
    SlotsFrame(s, r, now);
    OnceFrame(s, r);
  }

  lemma InjectGood(s: Twin, x: TwinSetting, deviceId: string, sid: string, numberMessage: bool, env: Env,
                   from: seq<AuditRecord>, ids: set<string>)
    requires Good(s, env.now, from, ids) && Permitted(x.table, x.key, x.value) && x.auditId in ids
    ensures Good(Inject(s, x, deviceId, sid, numberMessage, env), env.now, from, ids)
  {
    DoGood(s, DoNextIdSet(env.second), env.now, from, ids);
    var s1 := NextIdSet(s, env.second);
    DoGood(s1, DoNextMsgId(env.random), env.now, from, ids);
    var s2 := if numberMessage then NextMsgId(s1, env.random) else s1;
    if env.writeOk {
      WriteGood(s2, x, deviceId, env.now, from, ids);
      var s3 := s2.(idLog := s2.idLog + [Injected(x, deviceId, s2.idLog[|s2.idLog| - 1].id)]);
      DoGood(s3, DoRecord(x, deviceId, InjectedBox, None, sid), env.now, from, ids);
    }
  }

  lemma DeliverThenInjectGood(s: Twin, deviceId: string, session: Option<string>, sid: string, numberMessage: bool,
                              env: Env, from: seq<AuditRecord>, ids: set<string>)
    requires Good(s, env.now, from, ids)
    ensures Good(DeliverPending(s, deviceId, session, env.now).0, env.now, from, ids)
    ensures DeliverPending(s, deviceId, session, env.now).1.Some? ==>
              Good(Inject(DeliverPending(s, deviceId, session, env.now).0,
                          DeliverPending(s, deviceId, session, env.now).1.value,
                          deviceId, sid, numberMessage, env), env.now, from, ids)
  {
    DoGood(s, DoDeliver(deviceId, session), env.now, from, ids);
    DeliverSays(s, deviceId, session, env.now, env.now, ids);
    var (s1, x) := DeliverPending(s, deviceId, session, env.now);
    if x.Some? {
      assert x.value.auditId in Live(s);
      InjectGood(s1, x.value, deviceId, sid, numberMessage, env, from, ids);
    }
  }

  lemma InflightIsLive(s: Twin)
    ensures InflightSetting(s).Some? ==> InflightSetting(s).value.0.auditId in Live(s)
  {
    OldestSpec(Entries(s.cloud));
    if s.inflightKey.Some? { LookupSpec(s.queue, s.inflightKey.value); }
  }

  predicate PairWithin(pair: Pair, ids: set<string>) {
    pair.Some? ==> pair.value.0.auditId in ids
  }

  lemma OnBoxAckGood(s: Twin, f: Frame, pair: Pair, session: Option<string>, now: real,
                     from: seq<AuditRecord>, ids: set<string>)
    requires Good(s, now, from, ids) && PairWithin(pair, ids)
    ensures Good(OnBoxAck(s, f, pair, session), now, from, ids)
  {
    if f.ack.Some? {
      var a := f.ack.value;
      if IsFor(pair, SettingKey(a.table, a.todo)) {
        DoGood(s, DoRecord(pair.value.0, pair.value.1, AckBoxObserved, None, Label(session)), now, from, ids);
      } else {
        DoGood(s, DoAcknowledge(a.table, a.todo, session), now, from, ids);
      }
    }
  }

  lemma UnmatchedGood(s: Twin, e: EventAck, pair: Pair, session: Option<string>, now: real,
                      from: seq<AuditRecord>, ids: set<string>)
    requires Good(s, now, from, ids) && PairWithin(pair, ids)
    ensures var r := if IsFor(pair, SettingKey(e.table, e.key)) then
                       RecordStep(s, pair.value.0, pair.value.1, AckTblEvents, None, Label(session))
                     else s;
            Good(Acknowledge(r, e.table, e.key, session), now, from, ids)
  {
    var r := s;
    if IsFor(pair, SettingKey(e.table, e.key)) {
      DoGood(s, DoRecord(pair.value.0, pair.value.1, AckTblEvents, None, Label(session)), now, from, ids);
      r := RecordStep(s, pair.value.0, pair.value.1, AckTblEvents, None, Label(session));
    }
    DoGood(r, DoAcknowledge(e.table, e.key, session), now, from, ids);
  }

  lemma OnEventGood(s: Twin, f: Frame, pair: Pair, session: Option<string>, now: real,
                    from: seq<AuditRecord>, ids: set<string>)
    requires Good(s, now, from, ids) && PairWithin(pair, ids)
    ensures Good(OnEvent(s, f, pair, session, now), now, from, ids)
  {
    if f.event.Some? {
      var e := f.event.value;
      DoGood(s, DoMatchTblEvents(f.deviceId, e.table, e.key, e.value, Label(session)), now, from, ids);
      UnmatchedGood(MatchTblEvents(s, f.deviceId, e.table, e.key, e.value, Label(session), now).0, e, pair, session, now,
                    from, ids);
    }
  }

  lemma RecordThenAcknowledgeGood(s: Twin, pair: Pair, step: SettingStep, result: Option<SettingResult>,
                                  session: Option<string>, now: real, from: seq<AuditRecord>, ids: set<string>)
    requires Good(s, now, from, ids) && PairWithin(pair, ids) && pair.Some? && !IsFinal(step)
    ensures Good(Acknowledge(RecordStep(s, pair.value.0, pair.value.1, step, result, Label(session)),
                             pair.value.0.table, pair.value.0.key, session), now, from, ids)
  {
    var (x, device) := pair.value;
    DoGood(s, DoRecord(x, device, step, result, Label(session)), now, from, ids);
    DoGood(RecordStep(s, x, device, step, result, Label(session)), DoAcknowledge(x.table, x.key, session), now, from, ids);
  }

  lemma OnReasonGood(s: Twin, f: Frame, pair: Pair, session: Option<string>, now: real,
                     from: seq<AuditRecord>, ids: set<string>)
    requires Good(s, now, from, ids) && PairWithin(pair, ids)
    ensures Good(OnReason(s, f, pair, session, now), now, from, ids)
  {
    DoGood(s, DoMarkReason(f.deviceId, Label(session)), now, from, ids);
    var (s1, marked) := MarkReason(s, f.deviceId, Label(session), now);
    if pair.Some? {
      RecordThenAcknowledgeGood(s1, pair, AckReasonSetting, Some(Confirmed), session, now, from, ids);
    }
  }

  lemma OnNackGood(s: Twin, f: Frame, pair: Pair, session: Option<string>, now: real,
                   from: seq<AuditRecord>, ids: set<string>)
    requires Good(s, now, from, ids) && PairWithin(pair, ids)
    ensures Good(OnNack(s, f, pair, session), now, from, ids)
  {
    if pair.Some? { RecordThenAcknowledgeGood(s, pair, Nack, None, session, now, from, ids); }
  }

  lemma HandleGood(s: Twin, f: Frame, session: Option<string>, hook: bool, env: Env,
                   from: seq<AuditRecord>, ids: set<string>)
    requires Good(s, env.now, from, ids)
    ensures Good(HandleTwinFrame(s, f, session, hook, env), env.now, from, ids)
  {
    DeliverThenInjectGood(s, f.deviceId, None, "", false, env, from, ids);
    var s0 := if hook && f.tableName == "IsNewSet" then IsNewSetHook(s, f, env) else s;
    assert Good(s0, env.now, from, ids);
    DoGood(s0, DoExpire, env.now, from, ids);
    var s1 := ExpireCloud(s0, env.now);
    var pair := InflightSetting(s1);
    InflightIsLive(s1);
    OnBoxAckGood(s1, f, pair, session, env.now, from, ids);
    var s2 := OnBoxAck(s1, f, pair, session);
    OnEventGood(s2, f, pair, session, env.now, from, ids);
    var s3 := OnEvent(s2, f, pair, session, env.now);
    OnReasonGood(s3, f, pair, session, env.now, from, ids);
    OnNackGood(OnReason(s3, f, pair, session, env.now), f, pair, session, env.now, from, ids);
  }

  lemma ObserveGood(s: Twin, f: Frame, now: real, from: seq<AuditRecord>, ids: set<string>)
    requires Good(s, now, from, ids)
    ensures Good(ObserveMsgId(ObserveIdSet(s, f.idSet), f.msgId), now, from, ids)
  {
    DoGood(s, DoObserveIdSet(f.idSet), now, from, ids);
    DoGood(ObserveIdSet(s, f.idSet), DoObserveMsgId(f.msgId), now, from, ids);
  }

  lemma CheckCloudGood(s: Twin, f: Frame, now: real, from: seq<AuditRecord>, ids: set<string>)
    requires Good(s, now, from, ids)
    ensures Good(CheckCloudBeforePoll(s, f, now), now, from, ids)
  {
    DoGood(s, DoExpire, now, from, ids);
    DoGood(if IsPoll(f) then ExpireCloud(s, now) else s, DoExpire, now, from, ids);
  }

  lemma BoxFrameGood(s: Twin, f: Frame, session: Option<string>, env: Env, from: seq<AuditRecord>, ids: set<string>)
    requires Good(s, env.now, from, ids)
    ensures Good(BoxFrame(s, f, session, env).0, env.now, from, ids)
  {
    HandleGood(s, f, None, false, env, from, ids);
    var s1 := HandleTwinFrame(s, f, None, false, env);
    ObserveGood(s1, f, env.now, from, ids);
    var s2 := ObserveMsgId(ObserveIdSet(s1, f.idSet), f.msgId);
    CheckCloudGood(s2, f, env.now, from, ids);
    var s3 := CheckCloudBeforePoll(s2, f, env.now);
    DeliverThenInjectGood(s3, f.deviceId, session, Label(session), true, env, from, ids);
  }

  /** The audit id a step brings in, if any. */
  function NewIds(e: Event): set<string> {
    match e
    case Message(_, m) => {m.auditId}
    case FromCloud(_, FullSetting(x), _) => {x.auditId}
    case _ => {}
  }

  lemma CloudFrameGood(s: Twin, f: Frame, c: CloudSetting, session: Option<string>, env: Env,
                       from: seq<AuditRecord>, ids: set<string>)
    requires Good(s, env.now, from, ids)
    requires c.FullSetting? ==> c.x.auditId !in Known(s) && c.x.auditId in ids
    ensures Good(CloudFrame(s, f, c, session, env), env.now, from, ids)
  {
    ObserveGood(s, f, env.now, from, ids);
    var s1 := ObserveMsgId(ObserveIdSet(s, f.idSet), f.msgId);
    assert Known(s1) == Known(s);
    match c {
      case FullSetting(x) => DoGood(s1, DoBeginCloud(x, f.deviceId), env.now, from, ids);
      case PartialSetting => DoGood(s1, DoSetLegacy(true), env.now, from, ids);
      case NoSetting =>
        DoGood(s1, DoSetLegacy(false), env.now, from, ids);
        DoGood(s1.(cloudLegacy := false), DoExpire, env.now, from, ids);
    }
    HandleGood(TrackCloud(s1, f, c, env.now), f, session, true, env, from, ids);
  }

  // ---- Admission ----

  lemma {:induction false} AppendAllLadders(s: Twin, rs: seq<AuditRecord>)
    requires Laddered(s) && forall r :: r in rs ==> !IsTerminalStep(r.step) || r.step == Superseded
    ensures Laddered(AppendAll(s, rs))
  {
    if rs == [] {
      assert s.trail + rs == s.trail;
    } else {
      var last := rs[|rs| - 1];
      AppendAllLadders(s, rs[..|rs| - 1]);
      AppendLadders(AppendAll(s, rs[..|rs| - 1]), last);
      assert s.trail + rs[..|rs| - 1] + [last] == s.trail + rs;
    }
  }

  lemma AdmissionSays(queue: seq<TwinSetting>, deviceId: string, m: ControlMessage)
    ensures forall r :: r in AdmissionRecords(queue, deviceId, m) ==>
              && (!IsTerminalStep(r.step) || r.step == Superseded)
              && (r.auditId == m.auditId || exists x :: x in queue && r.auditId == x.auditId)
  {
    LookupSpec(queue, SettingKey(m.table, m.key));
  }

  lemma AdmittedIsPermitted(m: ControlMessage)
    ensures AdmittedValue(m).Some? ==> Permitted(m.table, m.key, AdmittedValue(m).value)
  {
    if AdmittedValue(m).Some? { ValidateExactly(m.table, m.key, m.payload); }
  }

  lemma EnqueueSafe(s: Twin, x: TwinSetting)
    requires Safe(s) && UniqueKeys(s.queue) && Permitted(x.table, x.key, x.value)
    ensures Safe(s.(queue := Put(s.queue, x)))
    ensures Live(s.(queue := Put(s.queue, x))) <= Live(s) + {x.auditId}
  {
    var r := s.(queue := Put(s.queue, x));
    PutSpec(s.queue, x);
    forall a | a in Live(r) ensures a in Live(s) + {x.auditId} {
      if y :| y in r.queue && y.auditId == a {
      } else {
        assert a in (set p | p in Entries(r.cloud) :: p.setting.auditId);
      }
    }
  }

  lemma EnqueueSound(s: Twin, x: TwinSetting, now: real)
    requires Sound(s, now) && x.auditId !in Known(s) && Permitted(x.table, x.key, x.value)
    ensures Sound(s.(queue := Put(s.queue, x)), now)
  {
    EnqueueSafe(s, x);
    DoKeepsInv(s, DoEnqueue(x), now, now);
    PutSpec(s.queue, x);
    forall p | p in Entries(s.cloud) ensures p.setting.auditId != x.auditId {
      assert p.setting.auditId in Live(s);
    }
  }

  lemma AppendAllSound(s: Twin, rs: seq<AuditRecord>, now: real)
    requires Sound(s, now) && forall r :: r in rs ==> !IsTerminalStep(r.step) || r.step == Superseded
    ensures Sound(AppendAll(s, rs), now)
    ensures Live(AppendAll(s, rs)) == Live(s)
  {
    var r := AppendAll(s, rs);
    AppendAllLadders(s, rs);
    SlotsFrame(s, r, now);
    OnceFrame(s, r);
    IdsFrame(s, r);
  }

  lemma AdmitQueueSound(s: Twin, m: ControlMessage, now: real)
    requires Sound(s, now) && m.auditId !in Known(s)
    ensures Sound(s.(queue := AdmittedQueue(s.queue, m)), now)
    ensures Live(s.(queue := AdmittedQueue(s.queue, m))) <= Live(s) + {m.auditId}
  {
    AdmittedIsPermitted(m);
    match AdmittedValue(m)
    case None => assert s.(queue := AdmittedQueue(s.queue, m)) == s;
    case Some(v) =>
      EnqueueSound(s, SettingOf(m, v), now);
      EnqueueSafe(s, SettingOf(m, v));
  }

  lemma AdmitSound(s: Twin, deviceId: string, m: ControlMessage, now: real)
    requires Sound(s, now) && m.auditId !in Known(s)
    ensures Sound(Admit(s, deviceId, m), now)
    ensures Live(Admit(s, deviceId, m)) <= Live(s) + {m.auditId}
  {
    AdmitQueueSound(s, m, now);
    AdmissionSays(s.queue, deviceId, m);
    AppendAllSound(s.(queue := AdmittedQueue(s.queue, m)), AdmissionRecords(s.queue, deviceId, m), now);
  }

  // ---- Runs ----

  datatype Timed = Timed(e: Event, env: Env)

  function Run(s: Twin, steps: seq<Timed>): Twin
    decreases |steps|
  {
    if steps == [] then s else Run(Step(s, steps[0].e, steps[0].env), steps[1..])
  }

  /** The clock never goes back and every new audit id is unused. */
  ghost predicate Legal(s: Twin, clock: real, steps: seq<Timed>)
    decreases |steps|
  {
    steps == []
    || (clock <= steps[0].env.now
        && NewIds(steps[0].e) !! Known(s)
        && Legal(Step(s, steps[0].e, steps[0].env), steps[0].env.now, steps[1..]))
  }

  function Initial(timeout: real, collector: bool): Twin {
    Twin(timeout, collector, [], None, None, None, map[], [], false, None, None, map[], [], [], [])
  }

  lemma InitialSound(timeout: real, collector: bool, clock: real)
    ensures Sound(Initial(timeout, collector), clock)
  {
  }

  lemma SoundLater(s: Twin, clock: real, now: real)
    requires Sound(s, clock) && clock <= now
    ensures Sound(s, now)
  {
    SlotsLater(s, clock, now);
    CloudOkLater(s.cloud, s.timeout, clock, now);
  }

  /** A step other than a control message speaks only about live ids and the one it brings in. */
  lemma FrameGood(s: Twin, e: Event, env: Env, clock: real)
    requires Sound(s, clock) && clock <= env.now && NewIds(e) !! Known(s) && !e.Message?
    ensures Good(Step(s, e, env), env.now, s.trail, Live(s) + NewIds(e))
  {
    var ids := Live(s) + NewIds(e);
    SoundLater(s, clock, env.now);
    assert Good(s, env.now, s.trail, ids);
    match e
    case FromBox(f, session) => BoxFrameGood(s, f, session, env, s.trail, ids);
    case FromCloud(f, c, session) => CloudFrameGood(s, f, c, session, env, s.trail, ids);
    case Offline(f) => HandleGood(s, f, None, true, env, s.trail, ids);
    case SessionEnds(sid) => DoGood(s, DoClearSession(sid), env.now, s.trail, ids);
  }

  /** One atomic step keeps every invariant. */
  lemma StepSound(s: Twin, e: Event, env: Env, clock: real)
    requires Sound(s, clock) && clock <= env.now && NewIds(e) !! Known(s)
    ensures Sound(Step(s, e, env), env.now)
  {
    SoundLater(s, clock, env.now);
    if e.Message? {
      AdmitSound(s, e.deviceId, e.m, env.now);
    } else {
      FrameGood(s, e, env, clock);
    }
  }

  // ---- Superseded and rejected are final ----

  /** A record with a final step is the last one of its audit id, and the id is not live. */
  predicate Settled(s: Twin) {
    forall i :: 0 <= i < |s.trail| && IsFinal(s.trail[i].step) ==> SettledAt(s, i)
  }

  predicate SettledAt(s: Twin, i: nat)
    requires i < |s.trail|
  {
    && s.trail[i].auditId !in Live(s)
    && forall j :: i < j < |s.trail| ==> s.trail[j].auditId != s.trail[i].auditId
  }

  lemma InTrailIsKnown(s: Twin, i: nat)
    requires i < |s.trail|
    ensures s.trail[i].auditId in Known(s)
  {
    assert s.trail[i] in s.trail;
  }

  /** New records settle when they are about live or new ids and their final ones are last of their id. */
  lemma AppendSettles(s: Twin, r: Twin, rs: seq<AuditRecord>, newIds: set<string>)
    requires Settled(s) && newIds !! Known(s) && r.trail == s.trail + rs
    requires Live(r) <= Live(s) + newIds
    requires forall k :: 0 <= k < |rs| ==> rs[k].auditId in Live(s) + newIds
    requires forall k :: 0 <= k < |rs| && IsFinal(rs[k].step) ==> rs[k].auditId !in Live(r)
    requires forall k, l :: 0 <= k < l < |rs| && IsFinal(rs[k].step) ==> rs[l].auditId != rs[k].auditId
    ensures Settled(r)
  {
    forall i | 0 <= i < |r.trail| && IsFinal(r.trail[i].step) ensures SettledAt(r, i) {
      if i < |s.trail| {
        assert r.trail[i] == s.trail[i] && SettledAt(s, i);
        InTrailIsKnown(s, i);
        forall j | i < j < |r.trail| ensures r.trail[j].auditId != r.trail[i].auditId {
          if j < |s.trail| {
            assert r.trail[j] == s.trail[j];
          } else {
            assert r.trail[j] == rs[j - |s.trail|];
          }
        }
      } else {
        assert r.trail[i] == rs[i - |s.trail|];
        forall j | i < j < |r.trail| ensures r.trail[j].auditId != r.trail[i].auditId {
          assert r.trail[j] == rs[j - |s.trail|];
        }
      }
    }
  }

  lemma FrameSettles(s: Twin, r: Twin, newIds: set<string>)
    requires Settled(s) && newIds !! Known(s)
    requires Extends(s.trail, r.trail, Live(s) + newIds) && Live(r) <= Live(s) + newIds
    ensures Settled(r)
  {
    var rs := r.trail[|s.trail|..];
    forall k | 0 <= k < |rs| ensures rs[k].auditId in Live(s) + newIds && !IsFinal(rs[k].step) {
      assert rs[k] == r.trail[|s.trail| + k];
    }
    AppendSettles(s, r, rs, newIds);
  }

  /** The superseded setting is no longer queued, nor tracked, under any key. */
  lemma SupersededIsGone(s: Twin, x: TwinSetting, prior: TwinSetting, now: real)
    requires Sound(s, now) && x.auditId !in Known(s)
    requires Lookup(s.queue, x.Id()) == Some(prior)
    ensures prior.auditId !in Live(s.(queue := Put(s.queue, x)))
    ensures prior.auditId in Live(s)
  {
    LookupSpec(s.queue, x.Id());
    PutSpec(s.queue, x);
    assert prior.auditId in Live(s);
  }

  lemma NewIsNotLive(s: Twin, m: ControlMessage)
    requires m.auditId !in Known(s) && AdmittedValue(m).None?
    ensures m.auditId !in Live(s.(queue := AdmittedQueue(s.queue, m)))
  {
    assert s.(queue := AdmittedQueue(s.queue, m)) == s;
  }

  /** The final step a message records, if any, and whose it is. */
  lemma AdmissionShape(queue: seq<TwinSetting>, deviceId: string, m: ControlMessage)
    ensures var rs := AdmissionRecords(queue, deviceId, m);
            var prior := Lookup(queue, SettingKey(m.table, m.key));
            forall i :: 0 <= i < |rs| ==>
              if IsFinal(rs[i].step) then
                i == 1
                && (if AdmittedValue(m).None? then |rs| == 2 && rs[1].auditId == m.auditId
                    else prior.Some? && |rs| == 3 && rs[1].auditId == prior.value.auditId)
              else rs[i].auditId == m.auditId
  {
  }

  lemma AdmitSettles(s: Twin, deviceId: string, m: ControlMessage, now: real)
    requires Sound(s, now) && Settled(s) && m.auditId !in Known(s)
    ensures Settled(Admit(s, deviceId, m))
  {
    var s1 := s.(queue := AdmittedQueue(s.queue, m));
    var prior := Lookup(s.queue, SettingKey(m.table, m.key));
    AdmissionShape(s.queue, deviceId, m);
    AdmitQueueSound(s, m, now);
    if AdmittedValue(m).None? {
      NewIsNotLive(s, m);
    } else if prior.Some? {
      SupersededIsGone(s, SettingOf(m, AdmittedValue(m).value), prior.value, now);
    }
    AdmitTrail(s, s1, deviceId, m);
    var rs := if s.collector then AdmissionRecords(s.queue, deviceId, m) else [];
    AppendSettles(s, Admit(s, deviceId, m), rs, {m.auditId});
  }

  lemma AdmitTrail(s: Twin, s1: Twin, deviceId: string, m: ControlMessage)
    requires s1 == s.(queue := AdmittedQueue(s.queue, m))
    ensures Live(Admit(s, deviceId, m)) == Live(s1)
    ensures Admit(s, deviceId, m).trail
         == s.trail + if s.collector then AdmissionRecords(s.queue, deviceId, m) else []
  {
  }

  lemma StepSettles(s: Twin, e: Event, env: Env, clock: real)
    requires Sound(s, clock) && Settled(s) && clock <= env.now && NewIds(e) !! Known(s)
    ensures Settled(Step(s, e, env))
  {
    SoundLater(s, clock, env.now);
    if e.Message? {
      AdmitSettles(s, e.deviceId, e.m, env.now);
    } else {
      FrameGood(s, e, env, clock);
      FrameSettles(s, Step(s, e, env), NewIds(e));
    }
  }

  // ---- The results over whole runs ----

  lemma {:induction false} RunSound(s: Twin, clock: real, steps: seq<Timed>) returns (end: real)
    requires Sound(s, clock) && Settled(s) && Legal(s, clock, steps)
    ensures clock <= end && Sound(Run(s, steps), end) && Settled(Run(s, steps))
    decreases |steps|
  {
    if steps == [] {
      end := clock;
    } else {
      var t := steps[0];
      StepSound(s, t.e, t.env, clock);
      StepSettles(s, t.e, t.env, clock);
      end := RunSound(Step(s, t.e, t.env), t.env.now, steps[1..]);
    }
  }

  /** In every run before shutdown no audit id is delivered twice. */
  lemma AtMostOnce(timeout: real, collector: bool, clock: real, steps: seq<Timed>)
    requires Legal(Initial(timeout, collector), clock, steps)
    ensures var s := Run(Initial(timeout, collector), steps);
            forall i, j :: 0 <= i < j < |s.delivered| ==> s.delivered[i].auditId != s.delivered[j].auditId
  {
    InitialSound(timeout, collector, clock);
    var end := RunSound(Initial(timeout, collector), clock, steps);
  }

  /** Every reachable state is well formed. */
  lemma ReachableIsWellFormed(timeout: real, collector: bool, clock: real, steps: seq<Timed>) returns (end: real)
    requires Legal(Initial(timeout, collector), clock, steps)
    ensures var s := Run(Initial(timeout, collector), steps);
            clock <= end && Slots(s, end) && CloudOk(s.cloud, s.timeout, end) && Apart(s)
  {
    InitialSound(timeout, collector, clock);
    end := RunSound(Initial(timeout, collector), clock, steps);
  }

  /** The terminal steps delivery records for an audit id climb the acknowledgement ladder. */
  lemma TerminalLadder(timeout: real, collector: bool, clock: real, steps: seq<Timed>, a: string)
    requires Legal(Initial(timeout, collector), clock, steps)
    ensures var ladder := Ladder(Run(Initial(timeout, collector), steps).trail, a);
            && Rising(ladder) && |ladder| <= 3
            && (forall i :: 0 <= i < |ladder| && ladder[i] in {Nack, Timeout, SessionCleared} ==> i == 0)
            && (forall i :: 0 <= i < |ladder| && ladder[i] == AckTblEvents ==> i == |ladder| - 1)
  {
    InitialSound(timeout, collector, clock);
    var end := RunSound(Initial(timeout, collector), clock, steps);
    assert LadderOk(Run(Initial(timeout, collector), steps), a);
    RisingLadderShape(Ladder(Run(Initial(timeout, collector), steps).trail, a));
  }

  /** After a superseded or rejected record no later record carries its audit id. */
  lemma SupersededAndRejectedAreFinal(timeout: real, collector: bool, clock: real, steps: seq<Timed>)
    requires Legal(Initial(timeout, collector), clock, steps)
    ensures var trail := Run(Initial(timeout, collector), steps).trail;
            forall i, j :: 0 <= i < j < |trail| && IsFinal(trail[i].step) ==> trail[j].auditId != trail[i].auditId
  {
    InitialSound(timeout, collector, clock);
    var end := RunSound(Initial(timeout, collector), clock, steps);
    var s := Run(Initial(timeout, collector), steps);
    forall i, j | 0 <= i < j < |s.trail| && IsFinal(s.trail[i].step) ensures s.trail[j].auditId != s.trail[i].auditId {
      assert SettledAt(s, i);
    }
  }

  /** Permitted, and numbered above its second and everything issued or observed before its own number. */
  predicate SafelyWritten(log: seq<IdEvent>, i: nat)
    requires i < |log| && log[i].Injected?
  {
    && Permitted(log[i].setting.table, log[i].setting.key, log[i].setting.value)
    && i > 0 && log[i - 1].Issued? && log[i - 1].id == log[i].id
    && log[i].id > log[i - 1].second
    && forall j :: 0 <= j < i - 1 ==> log[j].id < log[i].id
  }

  lemma IssuedThenInjected(s: Twin, i: nat)
    requires Safe(s) && IdsRise(s) && i < |s.idLog| && s.idLog[i].Injected?
    ensures SafelyWritten(s.idLog, i)
  {
    assert InjectionOk(s.idLog, i);
    assert IssueOk(s.idLog, i - 1);
  }

  /**
   Every Setting written to the Box is permitted, and its id_set exceeds the
   current second and every id_set issued or observed earlier, however the
   seconds of the wall clock move.
   */
  lemma InjectionSafety(timeout: real, collector: bool, clock: real, steps: seq<Timed>)
    requires Legal(Initial(timeout, collector), clock, steps)
    ensures var log := Run(Initial(timeout, collector), steps).idLog;
            forall i :: 0 <= i < |log| && log[i].Injected? ==> SafelyWritten(log, i)
  {
    InitialSound(timeout, collector, clock);
    var end := RunSound(Initial(timeout, collector), clock, steps);
    var s := Run(Initial(timeout, collector), steps);
    forall i | 0 <= i < |s.idLog| && s.idLog[i].Injected? ensures SafelyWritten(s.idLog, i) {
      IssuedThenInjected(s, i);
    }
  }
}
