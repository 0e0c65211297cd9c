/** What an acknowledgement and a poll do to the local queue and its in-flight slots, exactly. */
module TwinLocal {
  import opened Options
  import opened SettingsAudit
  import opened TwinState
  import opened CloudStore
  import opened TwinModel
  import opened TwinInvariants

  /** The queue without the settings of one key, in order. */
  function OtherKeys(queue: seq<TwinSetting>, id: SettingKey): seq<TwinSetting> {
    if queue == [] then []
    else (if queue[0].Id() == id then [] else [queue[0]]) + OtherKeys(queue[1..], id)
  }

  predicate HasKey(queue: seq<TwinSetting>, id: SettingKey) {
    exists x :: x in queue && x.Id() == id
  }

  predicate Tracks(entries: seq<CloudPending>, id: SettingKey) {
    exists p :: p in entries && p.setting.Id() == id
  }

  /** Entry i is the first one of the key. */
  predicate IsFirstOf(entries: seq<CloudPending>, id: SettingKey, i: nat) {
    && i < |entries| && entries[i].setting.Id() == id
    && forall j :: 0 <= j < i ==> entries[j].setting.Id() != id
  }

  /** The same list without its element i. */
  predicate LosesAt(before: seq<CloudPending>, after: seq<CloudPending>, i: nat) {
    i < |before| && after == before[..i] + before[i + 1..]
  }

  lemma {:induction false} OtherKeysOfAll(queue: seq<TwinSetting>, id: SettingKey)
    requires forall x :: x in queue ==> x.Id() != id
    ensures OtherKeys(queue, id) == queue
  {
    if queue != [] {
      assert queue[0] in queue && queue == [queue[0]] + queue[1..];
      OtherKeysOfAll(queue[1..], id);
    }
  }

  lemma {:induction false} DropIsFilter(queue: seq<TwinSetting>, id: SettingKey)
    requires UniqueKeys(queue)
    ensures Drop(queue, id) == OtherKeys(queue, id)
  {
    if queue != [] {
      TailKeys(queue);
      if queue[0].Id() == id {
        OtherKeysOfAll(queue[1..], id);
        assert [] + OtherKeys(queue[1..], id) == queue[1..];
      } else {
        DropIsFilter(queue[1..], id);
      }
    }
  }

  lemma {:induction false} FirstForIndex(entries: seq<CloudPending>, id: SettingKey) returns (i: nat)
    requires FirstFor(entries, id).Some?
    ensures IsFirstOf(entries, id, i) && FirstFor(entries, id) == Some(entries[i])
    ensures LosesAt(entries, RemoveFirst(entries, entries[i]), i)
  {
    if entries[0].setting.Id() == id {
      i := 0;
    } else {
      var k := FirstForIndex(entries[1..], id);
      i := k + 1;
      assert entries[i] == entries[1..][k];
      assert entries[..i] == [entries[0]] + entries[1..][..k] && entries[i + 1..] == entries[1..][k + 1..];
      forall j | 0 <= j < i ensures entries[j].setting.Id() != id {
        if j > 0 { assert entries[j] == entries[1..][j - 1]; }
      }
    }
  }

  lemma LookupIsHasKey(queue: seq<TwinSetting>, id: SettingKey)
    ensures Lookup(queue, id).Some? <==> HasKey(queue, id)
  {
    LookupSpec(queue, id);
  }

  lemma FirstForIsTracks(entries: seq<CloudPending>, id: SettingKey)
    ensures FirstFor(entries, id).Some? <==> Tracks(entries, id)
  {
    FirstForSpec(entries, id);
  }

  /** What the acknowledged key loses: nothing is left of it in flight and in the queue, the rest stays. */
  lemma AcknowledgedKeyLeaves(s: Twin, table: string, key: string, session: Option<string>, clock: real)
    requires Slots(s, clock)
    ensures var id, r := SettingKey(table, key), Acknowledge(s, table, key, session);
            && r.inflightKey != Some(id) && !HasKey(r.queue, id) && r.queue == OtherKeys(s.queue, id)
            && (s.inflightKey == Some(id) ==> r.inflightKey.None? && r.inflightDevice.None? && r.inflightSince.None?)
            && (s.inflightKey != Some(id) ==>
                  (r.inflightKey, r.inflightDevice, r.inflightSince)
                  == (s.inflightKey, s.inflightDevice, s.inflightSince))
  {
    var id := SettingKey(table, key);
    DropIsFilter(s.queue, id);
    DropSpec(s.queue, id);
    LookupIsHasKey(s.queue, id);
  }

  lemma AcknowledgedSessionLeaves(s: Twin, table: string, key: string, session: Option<string>)
    ensures var r := Acknowledge(s, table, key, session);
            r.sessions == if session.Some? && session.value in s.sessions
                             && (s.sessions[session.value].table, s.sessions[session.value].key) == (table, key)
                          then s.sessions - {session.value} else s.sessions
  {
  }

  /** The store loses the key's first entry exactly when the key is neither in flight nor queued. */
  lemma AcknowledgedEntryLeaves(s: Twin, table: string, key: string, session: Option<string>, clock: real)
    requires Slots(s, clock) && CloudOk(s.cloud, s.timeout, clock)
    ensures var id, r := SettingKey(table, key), Acknowledge(s, table, key, session);
            && (s.inflightKey == Some(id) ==> HasKey(s.queue, id))
            && (HasKey(s.queue, id) || !Tracks(Entries(s.cloud), id) ==> r.cloud == s.cloud)
            && (!HasKey(s.queue, id) && Tracks(Entries(s.cloud), id) ==>
                  exists i :: IsFirstOf(Entries(s.cloud), id, i) && LosesAt(Entries(s.cloud), Entries(r.cloud), i))
  {
    var id := SettingKey(table, key);
    LookupIsHasKey(s.queue, id);
    FirstForIsTracks(Entries(s.cloud), id);
    if !HasKey(s.queue, id) && Tracks(Entries(s.cloud), id) {
      var i := FirstForIndex(Entries(s.cloud), id);
      CloudOkFiled(s.cloud, s.timeout, clock);
      RemoveTakesFirst(s.cloud, Entries(s.cloud)[i]);
    }
  }

  /** acknowledge returns true exactly for a key in flight, queued or tracked, and says nothing in the trail. */
  lemma AcknowledgeAnswers(s: Twin, table: string, key: string, session: Option<string>, clock: real)
    requires Slots(s, clock)
    ensures var id, r := SettingKey(table, key), Acknowledge(s, table, key, session);
            && (Acknowledged(s, table, key) <==> HasKey(s.queue, id) || Tracks(Entries(s.cloud), id))
            && r.trail == s.trail && r.ledger == s.ledger && r.delivered == s.delivered && r.idLog == s.idLog
            && r.cloudLegacy == s.cloudLegacy && r.lastIdSet == s.lastIdSet && r.lastMsgId == s.lastMsgId
  {
    LookupIsHasKey(s.queue, SettingKey(table, key));
    FirstForIsTracks(Entries(s.cloud), SettingKey(table, key));
  }

  // ---- A poll ----

  /** The time of the setting in flight is up. */
  predicate SlotDue(s: Twin, now: real) {
    s.inflightSince.Some? && now - s.inflightSince.value >= s.timeout
  }

  /** The polling session still waits for its own setting. */
  predicate SessionHeld(s: Twin, session: Option<string>, now: real) {
    session.Some? && session.value in s.sessions && now - s.sessions[session.value].since < s.timeout
  }

  /** The queue a poll chooses from. */
  function Waiting(s: Twin, now: real): seq<TwinSetting> {
    if SlotDue(s, now) && s.inflightKey.Some? then OtherKeys(s.queue, s.inflightKey.value) else s.queue
  }

  /** A poll delivers: no setting is in flight any more, the session does not wait, and something is queued. */
  predicate PollDelivers(s: Twin, session: Option<string>, now: real) {
    (s.inflightKey.None? || SlotDue(s, now)) && !SessionHeld(s, session, now) && Waiting(s, now) != []
  }

  lemma PollDrops(s: Twin, session: Option<string>, clock: real, now: real)
    requires Slots(s, clock) && clock <= now
    ensures var s1 := DropTimedOut(s, Label(session), now);
            && s1.queue == Waiting(s, now) && s1.sessions == s.sessions && s1.timeout == s.timeout
            && (SlotDue(s, now) ==> s1.inflightKey.None? && s1.inflightDevice.None? && s1.inflightSince.None?)
            && (!SlotDue(s, now) ==> s1 == s)
            && (s1.inflightKey.None? <==> s.inflightKey.None? || SlotDue(s, now))
            && (SessionBlocks(s1, session, now) <==> SessionHeld(s, session, now))
  {
    if SlotDue(s, now) { DropIsFilter(s.queue, s.inflightKey.value); }
  }

  /** deliver_pending: what is delivered, and the queue and slots afterwards. */
  lemma PollOutcome(s: Twin, deviceId: string, session: Option<string>, clock: real, now: real)
    requires Slots(s, clock) && clock <= now
    ensures var (r, x) := DeliverPending(s, deviceId, session, now);
            && r.queue == Waiting(s, now)
            && (x.Some? <==> PollDelivers(s, session, now))
            && (x.Some? ==> GetPending(Waiting(s, now)) != [] && x.value == GetPending(Waiting(s, now))[0]
                            && r.delivered == s.delivered + [x.value]
                            && r.inflightKey == Some(x.value.Id()) && r.inflightDevice == Some(deviceId)
                            && r.inflightSince == Some(now))
            && (x.None? ==> r.delivered == s.delivered)
            && (x.None? && SlotDue(s, now) ==> r.inflightKey.None? && r.inflightDevice.None? && r.inflightSince.None?)
            && (x.None? && !SlotDue(s, now) ==>
                  (r.inflightKey, r.inflightDevice, r.inflightSince)
                  == (s.inflightKey, s.inflightDevice, s.inflightSince))
  {
    PollDrops(s, session, clock, now);
    var s1 := DropTimedOut(s, Label(session), now);
    PendingMembers(s1.queue);
  }

  lemma PollSessions(s: Twin, deviceId: string, session: Option<string>, clock: real, now: real)
    requires Slots(s, clock) && clock <= now
    ensures var (r, x) := DeliverPending(s, deviceId, session, now);
            r.sessions == if session.None? || SessionHeld(s, session, now) then s.sessions
                          else if x.Some? then
                            s.sessions[session.value := SessionInflight(x.value.table, x.value.key, now)]
                          else s.sessions - {session.value}
  {
    PollDrops(s, session, clock, now);
    if !SessionHeld(s, session, now) {
      var s1 := DropTimedOut(s, Label(session), now);
      var s2 := if session.Some? then DropSession(s1, session.value, Timeout) else s1;
      assert DeliverPending(s, deviceId, session, now) == DeliverNext(s2, deviceId, session, now);
      if session.Some? {
        DroppedSession(s1, session.value, Timeout);
        NextSession(s2, s.sessions, deviceId, session.value, now);
      }
    }
  }

  lemma DroppedSession(s: Twin, sid: string, step: SettingStep)
    ensures DropSession(s, sid, step).sessions == s.sessions - {sid}
  {
  }

  lemma NextSession(s: Twin, sessions: map<string, SessionInflight>, deviceId: string, sid: string, now: real)
    requires s.sessions == sessions - {sid}
    ensures var (r, x) := DeliverNext(s, deviceId, Some(sid), now);
            r.sessions == if x.Some? then sessions[sid := SessionInflight(x.value.table, x.value.key, now)]
                          else sessions - {sid}
  {
    PendingMembers(s.queue);
    var x := DeliverNext(s, deviceId, Some(sid), now).1;
    if x.Some? {
      var e := SessionInflight(x.value.table, x.value.key, now);
      assert (sessions - {sid})[sid := e] == sessions[sid := e];
    }
  }

  /** What a poll reports: the timeout of the setting in flight, and the selection of the one it delivers. */
  lemma PollReports(s: Twin, deviceId: string, session: Option<string>, clock: real, now: real)
    requires Slots(s, clock) && clock <= now && s.collector
    ensures var (r, x) := DeliverPending(s, deviceId, session, now);
            && (SlotDue(s, now) && Lookup(s.queue, s.inflightKey.value).value.auditId !in s.ledger
                && Lookup(s.queue, s.inflightKey.value).value.auditId != "" ==>
                  Lookup(s.queue, s.inflightKey.value).value.auditId in r.ledger
                  && r.ledger[Lookup(s.queue, s.inflightKey.value).value.auditId] == Timeout)
            && (x.Some? && x.value.auditId != "" ==>
                  r.trail != [] && r.trail[|r.trail| - 1]
                  == AuditRecord(x.value.auditId, deviceId, x.value.table, x.value.key, DeliverSelected, Pending,
                                 Label(session)))
  {
    PollDrops(s, session, clock, now);
    var s1 := DropTimedOut(s, Label(session), now);
    PendingMembers(s1.queue);
    if SlotDue(s, now) { DueIsReported(s, Label(session), now); }
  }

  lemma DueIsReported(s: Twin, sid: string, now: real)
    requires SlotDue(s, now) && s.inflightKey.Some? && s.inflightDevice.Some? && s.collector
    requires Lookup(s.queue, s.inflightKey.value).Some?
    ensures var x := Lookup(s.queue, s.inflightKey.value).value;
            x.auditId != "" && x.auditId !in s.ledger ==>
              x.auditId in DropTimedOut(s, sid, now).ledger && DropTimedOut(s, sid, now).ledger[x.auditId] == Timeout
  {
  }

  /** After the acknowledgement of the key in flight the next poll delivers, unless its session waits. */
  lemma NextAfterAcknowledge(s: Twin, table: string, key: string, acker: Option<string>, deviceId: string,
                             session: Option<string>, clock: real, now: real)
    requires Slots(s, clock) && clock <= now && s.inflightKey == Some(SettingKey(table, key))
    requires !SessionHeld(Acknowledge(s, table, key, acker), session, now)
    requires OtherKeys(s.queue, SettingKey(table, key)) != []
    ensures var left := OtherKeys(s.queue, SettingKey(table, key));
            GetPending(left) != []
            && DeliverPending(Acknowledge(s, table, key, acker), deviceId, session, now).1 == Some(GetPending(left)[0])
  {
    AcknowledgeSlots(s, table, key, acker, clock);
    AcknowledgedKeyLeaves(s, table, key, acker, clock);
    PollOutcome(Acknowledge(s, table, key, acker), deviceId, session, clock, now);
  }
}
