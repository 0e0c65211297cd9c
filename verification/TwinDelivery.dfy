/**
 The objects that hold the delivery state and update it in place: the queue, the
 audit collector and the delivery manager. Each method is tied to the transition
 of TwinModel it carries out.
 */
module TwinDelivery {
  import opened Options
  import opened SettingsAudit
  import TwinState
  import opened CloudStore
  import opened TwinModel
  import TwinInvariants

  type TwinSetting = TwinState.TwinSetting
  type SettingKey = TwinState.SettingKey

  class TwinQueue {
    var items: seq<TwinSetting>
    var nextIdSet: int

    constructor (second: int)
      ensures items == [] && nextIdSet == second
    {
      items := [];
      nextIdSet := second;
    }

    /** The running number after n: it wraps to the current second past ten digits. */
    static function Following(n: int, second: int): int {
      if n + 1 > 9_999_999_999 then second else n + 1
    }

    method GenerateIdSet(second: int) returns (idSet: int)
      modifies this`nextIdSet
      ensures idSet == old(nextIdSet) && nextIdSet == Following(old(nextIdSet), second)
    {
      idSet := nextIdSet;
      nextIdSet := nextIdSet + 1;
      if nextIdSet > 9_999_999_999 { nextIdSet := second; }
    }

    /** The audit id is generated when the caller gives none. */
    method Enqueue(table: string, key: string, value: TwinState.Value, confirm: string, auditId: string,
                   rawText: string, generatedAuditId: string, msgId: int, wallTime: real, second: int)
      modifies this
      ensures items == TwinState.Put(old(items), TwinState.TwinSetting(
                table, key, value, wallTime, rawText, if auditId == "" then generatedAuditId else auditId,
                msgId, old(nextIdSet), confirm))
      ensures nextIdSet == Following(old(nextIdSet), second)
    {
      var audit := auditId;
      if audit == "" { audit := generatedAuditId; }
      var idSet := GenerateIdSet(second);
      items := TwinState.Put(
        items, TwinState.TwinSetting(table, key, value, wallTime, rawText, audit, msgId, idSet, confirm));
    }

    method GetPending() returns (pending: seq<TwinSetting>)
      ensures pending == TwinState.GetPending(items)
    {
      pending := TwinState.GetPending(items);
    }

    method Acknowledge(table: string, key: string) returns (removed: bool)
      modifies this`items
      ensures removed == TwinState.Lookup(old(items), TwinState.SettingKey(table, key)).Some?
      ensures items == TwinState.Drop(old(items), TwinState.SettingKey(table, key))
    {
      removed := TwinState.Lookup(items, TwinState.SettingKey(table, key)).Some?;
      items := TwinState.Drop(items, TwinState.SettingKey(table, key));
    }

    method Get(table: string, key: string) returns (x: Option<TwinSetting>)
      ensures x == TwinState.Lookup(items, TwinState.SettingKey(table, key))
    {
      x := TwinState.Lookup(items, TwinState.SettingKey(table, key));
    }
  }

  class AuditCollector {
    var records: seq<AuditRecord>

    constructor ()
      ensures records == []
    {
      records := [];
    }

    method RecordSettingAuditStep(r: AuditRecord)
      modifies this
      ensures records == old(records) + [r]
    {
      records := records + [r];
    }
  }

  /** The ghost fields are the latest clock reading and the histories of TwinModel.Twin. */
  class TwinDelivery {
    const twinQueue: TwinQueue
    const timeout: real
    const collector: AuditCollector?

    var cloudPending: seq<CloudQueue>
    var cloudLegacyInflight: bool
    var sessionInflight: map<string, SessionInflight>
    var inflightKey: Option<SettingKey>
    var inflightDeviceId: Option<string>
    var inflightSince: Option<real>
    var lastSeenIdSet: Option<int>
    var lastMsgId: Option<int>
    var recordedTerminal: map<string, SettingStep>

    ghost var clock: real
    ghost var delivered: seq<TwinSetting>
    ghost var idLog: seq<IdEvent>

    ghost function View(): Twin
      reads this, twinQueue, collector
    {
      Twin(timeout, collector != null, twinQueue.items, inflightKey, inflightDeviceId, inflightSince,
           sessionInflight, cloudPending, cloudLegacyInflight, lastSeenIdSet, lastMsgId, recordedTerminal,
           if collector != null then collector.records else [], delivered, idLog)
    }

    ghost predicate Valid()
      reads this, twinQueue, collector
    {
      TwinInvariants.Slots(View(), clock) && CloudOk(cloudPending, timeout, clock)
    }

    constructor (queue: TwinQueue, timeout: real, collector: AuditCollector?, ghost now: real)
      requires queue.items == [] && (collector != null ==> collector.records == [])
      ensures this.twinQueue == queue && this.timeout == timeout && this.collector == collector && clock == now
      ensures Valid()
      ensures View() == Twin(timeout, collector != null, [], None, None, None, map[], [], false, None, None,
                             map[], [], [], [])
    {
      this.twinQueue, this.timeout, this.collector := queue, timeout, collector;
      cloudPending, cloudLegacyInflight, sessionInflight := [], false, map[];
      inflightKey, inflightDeviceId, inflightSince := None, None, None;
      lastSeenIdSet, lastMsgId, recordedTerminal := None, None, map[];
      clock, delivered, idLog := now, [], [];
    }

    method ObserveIdSet(seen: Option<int>)
      requires Valid()
      modifies this
      ensures Valid() && clock == old(clock)
      ensures View() == TwinModel.ObserveIdSet(old(View()), seen)
    {
      if seen.None? { return; }
      if lastSeenIdSet.None? || seen.value > lastSeenIdSet.value { lastSeenIdSet := seen; }
      idLog := idLog + [Observed(seen.value)];
    }

    method ObserveMsgId(seen: Option<int>)
      requires Valid()
      modifies this
      ensures Valid() && clock == old(clock)
      ensures View() == TwinModel.ObserveMsgId(old(View()), seen)
    {
      if seen.None? { return; }
      if lastMsgId.None? || seen.value > lastMsgId.value { lastMsgId := seen; }
    }

    method NextIdSet(second: int) returns (id: int)
      requires Valid()
      modifies this
      ensures Valid() && clock == old(clock)
      ensures id == NextId(old(lastSeenIdSet), second)
      ensures View() == TwinModel.NextIdSet(old(View()), second)
    {
      if lastSeenIdSet.None? || lastSeenIdSet.value < second { lastSeenIdSet := Some(second); }
      lastSeenIdSet := Some(lastSeenIdSet.value + 1);
      id := lastSeenIdSet.value;
      idLog := idLog + [Issued(id, second)];
    }

    method NextMsgId(random: int) returns (id: int)
      requires Valid()
      modifies this
      ensures Valid() && clock == old(clock)
      ensures Some(id) == lastMsgId
      ensures View() == TwinModel.NextMsgId(old(View()), random)
    {
      if lastMsgId.None? {
        lastMsgId := Some(random);
        return random;
      }
      lastMsgId := Some(lastMsgId.value + 1);
      id := lastMsgId.value;
    }

    method RecordAuditStep(x: TwinSetting, deviceId: string, step: SettingStep, result: Option<SettingResult>,
                           sessionId: string)
      modifies this`recordedTerminal, collector
      ensures View() == RecordStep(old(View()), x, deviceId, step, result, sessionId)
    {
      if collector == null || x.auditId == "" { return; }
      var terminal := IsTerminalStep(step) && result != Some(Pending);
      if terminal {
        if x.auditId in recordedTerminal && !IsStrongerAck(step, recordedTerminal[x.auditId]) { return; }
        recordedTerminal := recordedTerminal[x.auditId := step];
      }
      collector.RecordSettingAuditStep(StepRecord(x, deviceId, step, result, sessionId));
    }

    method ClearGlobalInflight()
      modifies this`inflightKey, this`inflightDeviceId, this`inflightSince
      ensures View() == ClearInflight(old(View()))
    {
      inflightKey, inflightDeviceId, inflightSince := None, None, None;
    }

    // ---- Cloud store ----

    method RemoveCloudPending(p: CloudPending)
      modifies this`cloudPending
      ensures View() == old(View()).(cloud := Remove(old(cloudPending), p))
    {
      cloudPending := Remove(cloudPending, p);
    }

    /** Reports and removes one entry of the snapshot if its time is up. */
    method ExpireEntry(p: CloudPending, now: real)
      modifies this`recordedTerminal, this`cloudPending, collector
      ensures View() == if Expired(now, timeout).Hits(p) then
                          RecordExpiry(old(View()), p).(cloud := Remove(old(cloudPending), p))
                        else old(View())
    {
      if p.reasonSeen && p.reasonAt.Some? {
        if now - p.reasonAt.value >= timeout {
          RecordAuditStep(p.setting, p.deviceId, AckReasonSetting, Some(Confirmed), "");
          RemoveCloudPending(p);
        }
      } else if now - p.trackedAt >= timeout {
        RecordAuditStep(p.setting, p.deviceId, Timeout, None, "");
        RemoveCloudPending(p);
      }
    }

    method ExpireCloudPending(now: real)
      requires Valid() && clock <= now
      modifies this, collector
      ensures Valid() && clock == now
      ensures View() == ExpireCloud(old(View()), now)
    {
      ghost var s := View();
      ghost var sweep := Expired(now, timeout);
      var todo := Entries(cloudPending);
      for i := 0 to |todo|
        invariant View() == Swept(s, todo[..i], sweep)
        invariant clock == old(clock)
      {
        SnapshotStep(s, todo, i, sweep);
        ExpireEntry(todo[i], now);
      }
      assert todo[..|todo|] == todo;
      SnapshotDone(s, clock, now);
      clock := now;
    }

    method OldestCloudPending(deviceId: Option<string>) returns (oldest: Option<CloudPending>)
      ensures oldest == Oldest(ForDevice(Entries(cloudPending), deviceId))
    {
      var entries := Entries(cloudPending);
      oldest := None;
      for i := 0 to |entries|
        invariant oldest == Oldest(ForDevice(entries[..i], deviceId))
      {
        OldestSpec(ForDevice(entries[..i], deviceId));
        ForDeviceAppend(entries[..i], entries[i], deviceId);
        OldestAppend(ForDevice(entries[..i], deviceId), entries[i]);
        ghost var before := ForDevice(entries[..i], deviceId);
        assert entries[..i + 1] == entries[..i] + [entries[i]];
        assert before == [] <==> oldest.None?;
        if deviceId.None? || entries[i].deviceId == deviceId.value {
          if oldest.None? || entries[i].trackedAt < oldest.value.trackedAt { oldest := Some(entries[i]); }
        }
      }
      assert entries[..|entries|] == entries;
    }

    method BeginCloudSetting(x: TwinSetting, deviceId: string, now: real)
      requires Valid() && clock <= now
      modifies this, collector
      ensures Valid() && clock == now
      ensures View() == BeginCloud(old(View()), x, deviceId, now)
    {
      ghost var s := View();
      ExpireCloudPending(now);
      if collector != null {
        collector.RecordSettingAuditStep(AuditRecord(x.auditId, deviceId, x.table, x.key, Incoming, Pending, ""));
      }
      cloudPending := CloudStore.Append(cloudPending, CloudPending(x, deviceId, now, false, None));
      TwinInvariants.BeginKeepsCloud(s, x, deviceId, old(clock), now);
      TwinInvariants.SlotsFrame(ExpireCloud(s, now), View(), now);
    }

    method MarkCloudReasonSetting(deviceId: string, sessionId: string, now: real)
      returns (marked: Option<CloudPending>)
      requires Valid() && clock <= now
      modifies this, collector
      ensures Valid() && clock == now
      ensures View() == MarkReason(old(View()), deviceId, sessionId, now).0
      ensures marked == MarkReason(old(View()), deviceId, sessionId, now).1
    {
      ghost var s := View();
      ExpireCloudPending(now);
      marked := OldestCloudPending(Some(deviceId));
      if marked.None? { return; }
      if !marked.value.reasonSeen {
        var p := marked.value;
        RecordAuditStep(p.setting, p.deviceId, AckReasonSetting, Some(Pending), sessionId);
        marked := Some(p.(reasonSeen := true, reasonAt := Some(now)));
        cloudPending := Replace(cloudPending, p, marked.value);
        TwinInvariants.MarkKeepsCloud(s, deviceId, sessionId, old(clock), now);
        TwinInvariants.SlotsFrame(ExpireCloud(s, now), View(), now);
      }
    }

    method MatchCloudTblEvents(deviceId: string, table: string, key: string, confirmed: string, sessionId: string,
                               now: real) returns (matched: Option<CloudPending>)
      requires Valid() && clock <= now
      modifies this, collector
      ensures Valid() && clock == now
      ensures View() == MatchTblEvents(old(View()), deviceId, table, key, confirmed, sessionId, now).0
      ensures matched == MatchTblEvents(old(View()), deviceId, table, key, confirmed, sessionId, now).1
    {
      ghost var s := View();
      ExpireCloudPending(now);
      var queue := QueueOf(cloudPending, CloudKey(deviceId, table, key));
      if queue == [] { return None; }
      matched := None;
      var i := 0;
      while i < |queue| && matched.None?
        invariant i <= |queue|
        invariant matched.None? ==> FirstValue(queue, confirmed) == FirstValue(queue[i..], confirmed)
        invariant matched.Some? ==> FirstValue(queue, confirmed) == matched
      {
        if ValueText(queue[i].setting.value) == confirmed { matched := Some(queue[i]); }
        i := i + 1;
      }
      if matched.None? { matched := Some(queue[0]); }
      var p := matched.value;
      RecordAuditStep(p.setting, p.deviceId, AckTblEvents, None, sessionId);
      RemoveCloudPending(p);
      TwinInvariants.MatchKeepsCloud(s, deviceId, table, key, confirmed, sessionId, old(clock), now);
      TwinInvariants.SlotsFrame(ExpireCloud(s, now), View(), now);
    }

    // ---- Local queue ----

    method RecordQueuedStep(table: string, key: string, step: SettingStep, sessionId: string)
      modifies this`recordedTerminal, collector
      ensures View() == RecordQueued(old(View()), TwinState.SettingKey(table, key), step, sessionId)
    {
      var x := twinQueue.Get(table, key);
      if x.Some? && inflightDeviceId.Some? {
        RecordAuditStep(x.value, inflightDeviceId.value, step, None, sessionId);
      }
    }

    /** A global in-flight setting whose time is up is reported and dropped from the queue. */
    method DropTimedOutInflight(sessionId: string, now: real)
      modifies this`recordedTerminal, this`inflightKey, this`inflightDeviceId, this`inflightSince,
               twinQueue`items, collector
      ensures View() == DropTimedOut(old(View()), sessionId, now)
    {
      if inflightKey.Some? && inflightSince.Some? {
        if now - inflightSince.value >= timeout {
          var id := inflightKey.value;
          RecordQueuedStep(id.table, id.key, Timeout, sessionId);
          var _ := twinQueue.Acknowledge(id.table, id.key);
          ClearGlobalInflight();
        }
      }
    }

    method DropSessionEntry(sid: string, step: SettingStep)
      modifies this`recordedTerminal, this`sessionInflight, collector
      ensures View() == DropSession(old(View()), sid, step)
    {
      if sid in sessionInflight {
        var e := sessionInflight[sid];
        RecordQueuedStep(e.table, e.key, step, sid);
        sessionInflight := sessionInflight - {sid};
      }
    }

    method SelectSetting(x: TwinSetting, deviceId: string, session: Option<string>, now: real)
      modifies this`recordedTerminal, this`inflightKey, this`inflightDeviceId, this`inflightSince,
               this`sessionInflight, this`delivered, collector
      ensures View() == Select(old(View()), x, deviceId, session, now)
    {
      inflightKey, inflightDeviceId, inflightSince := Some(x.Id()), Some(deviceId), Some(now);
      if session.Some? {
        sessionInflight := sessionInflight[session.value := SessionInflight(x.table, x.key, now)];
      }
      delivered := delivered + [x];
      RecordAuditStep(x, deviceId, DeliverSelected, None, Label(session));
    }

    method DeliverNextSetting(deviceId: string, session: Option<string>, now: real)
      returns (setting: Option<TwinSetting>)
      modifies this`recordedTerminal, this`inflightKey, this`inflightDeviceId, this`inflightSince,
               this`sessionInflight, this`delivered, collector
      ensures (View(), setting) == DeliverNext(old(View()), deviceId, session, now)
    {
      if inflightKey.Some? { return None; }
      var pending := twinQueue.GetPending();
      TwinState.PendingMembers(twinQueue.items);
      if pending == [] { return None; }
      SelectSetting(pending[0], deviceId, session, now);
      setting := Some(pending[0]);
    }

    method DeliverPending(deviceId: string, session: Option<string>, now: real) returns (setting: Option<TwinSetting>)
      requires Valid() && clock <= now
      modifies this, twinQueue`items, collector
      ensures Valid() && clock == now
      ensures (View(), setting) == TwinModel.DeliverPending(old(View()), deviceId, session, now)
    {
      TwinInvariants.DeliverSlots(View(), deviceId, session, clock, now);
      CloudOkLater(cloudPending, timeout, clock, now);
      clock := now;
      DropTimedOutInflight(Label(session), now);
      if session.Some? && session.value in sessionInflight {
        if now - sessionInflight[session.value].since < timeout { return None; }
        DropSessionEntry(session.value, Timeout);
      }
      setting := DeliverNextSetting(deviceId, session, now);
    }

    method DropAcknowledgedSession(id: SettingKey, session: Option<string>)
      modifies this`sessionInflight
      ensures View() == AcknowledgeSession(old(View()), id, session)
    {
      if session.Some? && session.value in sessionInflight {
        var e := sessionInflight[session.value];
        if TwinState.SettingKey(e.table, e.key) == id { sessionInflight := sessionInflight - {session.value}; }
      }
    }

    method RemoveFirstTracked(id: SettingKey) returns (found: bool)
      modifies this`cloudPending
      ensures found == FirstFor(Entries(old(cloudPending)), id).Some?
      ensures View() == if found then
                          old(View()).(cloud := Remove(old(cloudPending), FirstFor(Entries(old(cloudPending)), id).value))
                        else old(View())
    {
      var entries := Entries(cloudPending);
      for i := 0 to |entries|
        invariant FirstFor(entries, id) == FirstFor(entries[i..], id)
        invariant View() == old(View())
      {
        if entries[i].setting.Id() == id {
          RemoveCloudPending(entries[i]);
          return true;
        }
      }
      found := false;
    }

    method AcknowledgeKey(table: string, key: string) returns (found: bool)
      requires TwinState.UniqueKeys(twinQueue.items)
      modifies this`inflightKey, this`inflightDeviceId, this`inflightSince, this`cloudPending, twinQueue`items
      ensures View() == TwinModel.AcknowledgeKey(old(View()), TwinState.SettingKey(table, key))
      ensures found == Acknowledged(old(View()), table, key)
    {
      var id := TwinState.SettingKey(table, key);
      TwinState.DropSpec(twinQueue.items, id);
      if inflightKey == Some(id) {
        ClearGlobalInflight();
        var _ := twinQueue.Acknowledge(table, key);
        return true;
      }
      found := twinQueue.Acknowledge(table, key);
      if found { return; }
      found := RemoveFirstTracked(id);
    }

    method Acknowledge(table: string, key: string, session: Option<string>) returns (found: bool)
      requires Valid()
      modifies this, twinQueue`items
      ensures Valid() && clock == old(clock)
      ensures View() == TwinModel.Acknowledge(old(View()), table, key, session)
      ensures found == Acknowledged(old(View()), table, key)
    {
      TwinInvariants.AcknowledgeSlots(View(), table, key, session, clock);
      TwinInvariants.AcknowledgeKeepsCloud(View(), table, key, session, clock);
      DropAcknowledgedSession(TwinState.SettingKey(table, key), session);
      found := AcknowledgeKey(table, key);
    }

    method ClearSession(sid: string)
      requires Valid()
      modifies this, collector
      ensures Valid() && clock == old(clock)
      ensures View() == DropSession(old(View()), sid, SessionCleared)
    {
      TwinInvariants.DropSessionSlots(View(), sid, SessionCleared, clock);
      DropSessionEntry(sid, SessionCleared);
    }

    /** Reports and removes every entry of a snapshot of the store. */
    method ClearTracked()
      requires forall i :: 0 <= i < |cloudPending| ==> cloudPending[i].entries != []
      requires Filed(cloudPending)
      modifies this`recordedTerminal, this`cloudPending, collector
      ensures View() == RecordCleared(old(View()), Entries(old(cloudPending)))
                        .(cloud := Prune(old(cloudPending), Everything))
    {
      ghost var s := View();
      var todo := Entries(cloudPending);
      for i := 0 to |todo|
        invariant View() == Cleared(s, todo[..i])
      {
        ClearedStep(s, todo, i);
        RecordAuditStep(todo[i].setting, todo[i].deviceId, SessionCleared, None, "");
        RemoveCloudPending(todo[i]);
      }
      assert todo[..|todo|] == todo;
      HitEverything(todo);
      SweepIsFilter(s.cloud, Everything);
    }

    method Shutdown()
      requires Valid()
      modifies this, collector
      ensures Valid() && clock == old(clock)
      ensures View() == TwinModel.Shutdown(old(View()))
    {
      TwinInvariants.ShutdownSlots(View(), clock);
      CloudOkFiled(cloudPending, timeout, clock);
      if inflightKey.Some? && inflightDeviceId.Some? {
        RecordQueuedStep(inflightKey.value.table, inflightKey.value.key, SessionCleared, "");
        ClearGlobalInflight();
      }
      ClearTracked();
    }

    method CurrentInflight(now: real) returns (pair: Option<(TwinSetting, string)>)
      requires Valid() && clock <= now
      modifies this, collector
      ensures Valid() && clock == now
      ensures View() == ExpireCloud(old(View()), now)
      ensures pair == InflightSetting(View())
    {
      ExpireCloudPending(now);
      ForEveryDevice(Entries(cloudPending));
      var p := OldestCloudPending(None);
      if p.Some? { return Some((p.value.setting, p.value.deviceId)); }
      if inflightKey.None? || inflightDeviceId.None? { return None; }
      var x := twinQueue.Get(inflightKey.value.table, inflightKey.value.key);
      if x.None? { return None; }
      pair := Some((x.value, inflightDeviceId.value));
    }

    method IsCloudInflight(now: real) returns (b: bool)
      requires Valid() && clock <= now
      modifies this, collector
      ensures Valid() && clock == now
      ensures View() == ExpireCloud(old(View()), now)
      ensures b == CloudInflight(View())
    {
      ExpireCloudPending(now);
      b := cloudLegacyInflight || Entries(cloudPending) != [];
    }

    method SetCloudInflight()
      requires Valid()
      modifies this
      ensures Valid() && clock == old(clock)
      ensures View() == old(View()).(cloudLegacy := true)
    {
      cloudLegacyInflight := true;
    }

    method ClearCloudInflight(now: real)
      requires Valid() && clock <= now
      modifies this, collector
      ensures Valid() && clock == now
      ensures View() == ExpireCloud(old(View()).(cloudLegacy := false), now)
    {
      cloudLegacyInflight := false;
      ExpireCloudPending(now);
    }
  }

  // ---- Loop steps ----

  /** The state after the hit entries of a snapshot prefix were reported and removed. */
  ghost function Swept(s: Twin, prefix: seq<CloudPending>, sweep: Sweep): Twin {
    RecordExpiries(s, Hit(prefix, sweep)).(cloud := RemoveAll(s.cloud, Hit(prefix, sweep)))
  }

  ghost function Cleared(s: Twin, prefix: seq<CloudPending>): Twin {
    RecordCleared(s, prefix).(cloud := RemoveAll(s.cloud, prefix))
  }

  /** What a record does to the trail and the ledger does not depend on the cloud store. */
  lemma RecordIgnoresCloud(s: Twin, cloud: seq<CloudQueue>, p: CloudPending, step: SettingStep,
                           result: Option<SettingResult>)
    ensures RecordStep(s.(cloud := cloud), p.setting, p.deviceId, step, result, "")
         == RecordStep(s, p.setting, p.deviceId, step, result, "").(cloud := cloud)
  {
  }

  lemma SnapshotStep(s: Twin, todo: seq<CloudPending>, i: nat, sweep: Sweep)
    requires i < |todo|
    ensures Swept(s, todo[..i + 1], sweep)
         == if sweep.Hits(todo[i]) then
              RecordExpiry(Swept(s, todo[..i], sweep), todo[i])
              .(cloud := Remove(Swept(s, todo[..i], sweep).cloud, todo[i]))
            else Swept(s, todo[..i], sweep)
  {
    var done := Hit(todo[..i], sweep);
    assert todo[..i + 1] == todo[..i] + [todo[i]];
    HitConcat(todo[..i], [todo[i]], sweep);
    if sweep.Hits(todo[i]) {
      assert Hit(todo[..i + 1], sweep) == done + [todo[i]];
      RemoveAllSplit(s.cloud, done, [todo[i]]);
      assert (done + [todo[i]])[..|done|] == done;
      var e := RecordExpiries(s, done);
      RecordIgnoresCloud(e, RemoveAll(s.cloud, done), todo[i], AckReasonSetting, Some(Confirmed));
      RecordIgnoresCloud(e, RemoveAll(s.cloud, done), todo[i], Timeout, None);
    } else {
      assert Hit(todo[..i + 1], sweep) == done;
    }
  }

  lemma SnapshotDone(s: Twin, clock: real, now: real)
    requires TwinInvariants.Slots(s, clock) && CloudOk(s.cloud, s.timeout, clock) && clock <= now
    ensures Swept(s, Entries(s.cloud), Expired(now, s.timeout)) == ExpireCloud(s, now)
    ensures TwinInvariants.Slots(ExpireCloud(s, now), now) && CloudOk(ExpireCloud(s, now).cloud, s.timeout, now)
  {
    CloudOkFiled(s.cloud, s.timeout, clock);
    SweepIsFilter(s.cloud, Expired(now, s.timeout));
    TwinInvariants.ExpireKeepsCloud(s, clock, now);
    TwinInvariants.SlotsLater(s, clock, now);
    TwinInvariants.SlotsFrame(s, ExpireCloud(s, now), now);
  }

  lemma ClearedStep(s: Twin, todo: seq<CloudPending>, i: nat)
    requires i < |todo|
    ensures Cleared(s, todo[..i + 1])
         == RecordStep(Cleared(s, todo[..i]), todo[i].setting, todo[i].deviceId, SessionCleared, None, "")
            .(cloud := Remove(Cleared(s, todo[..i]).cloud, todo[i]))
  {
    assert todo[..i + 1] == todo[..i] + [todo[i]];
    assert (todo[..i] + [todo[i]])[..i] == todo[..i];
    RemoveAllSplit(s.cloud, todo[..i], [todo[i]]);
    RecordIgnoresCloud(RecordCleared(s, todo[..i]), RemoveAll(s.cloud, todo[..i]), todo[i], SessionCleared, None);
  }

  lemma {:induction false} ForDeviceAppend(entries: seq<CloudPending>, p: CloudPending, deviceId: Option<string>)
    ensures deviceId.None? || p.deviceId == deviceId.value ==>
              ForDevice(entries + [p], deviceId) == ForDevice(entries, deviceId) + [p]
    ensures !(deviceId.None? || p.deviceId == deviceId.value) ==>
              ForDevice(entries + [p], deviceId) == ForDevice(entries, deviceId)
  {
    if entries == [] {
      assert entries + [p] == [p];
    } else {
      assert (entries + [p])[1..] == entries[1..] + [p];
      ForDeviceAppend(entries[1..], p, deviceId);
    }
  }

  lemma {:induction false} OldestAppend(entries: seq<CloudPending>, p: CloudPending)
    ensures Oldest(entries + [p])
         == if entries == [] || p.trackedAt < Oldest(entries).value.trackedAt then Some(p) else Oldest(entries)
  {
    if entries == [] {
      assert entries + [p] == [p];
    } else {
      assert (entries + [p])[1..] == entries[1..] + [p];
      OldestAppend(entries[1..], p);
    }
  }

  lemma {:induction false} HitEverything(entries: seq<CloudPending>)
    ensures Hit(entries, Everything) == entries
  {
    if entries != [] { HitEverything(entries[1..]); }
  }

  lemma {:induction false} ForEveryDevice(entries: seq<CloudPending>)
    ensures ForDevice(entries, None) == entries
  {
    if entries != [] { ForEveryDevice(entries[1..]); }
  }
}
