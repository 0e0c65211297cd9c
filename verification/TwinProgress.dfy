/** Bounded progress: the local queue drains and no cloud setting stays for ever. */
module TwinProgress {
  import opened Options
  import opened SettingsAudit
  import opened TwinState
  import opened CloudStore
  import opened TwinModel
  import opened TwinInvariants
  import opened TwinRuns

  // ---- Draining the local queue ----

  datatype Poll = Poll(deviceId: string, session: Option<string>, now: real)

  function Polls(s: Twin, polls: seq<Poll>): Twin
    decreases |polls|
  {
    if polls == [] then s
    else Polls(DeliverPending(s, polls[0].deviceId, polls[0].session, polls[0].now).0, polls[1..])
  }

  /** Polls from the given instant on, each at least the timeout after the one before. */
  predicate Spaced(timeout: real, clock: real, polls: seq<Poll>) {
    && (polls != [] ==> clock <= polls[0].now)
    && (forall i :: 0 <= i < |polls| - 1 ==>
          polls[i].now <= polls[i + 1].now && polls[i + 1].now - polls[i].now >= timeout)
  }

  /** The settings a timeout of the in-flight slot would leave. */
  function Undelivered(s: Twin): seq<TwinSetting> {
    if s.inflightKey.Some? then Drop(s.queue, s.inflightKey.value) else s.queue
  }

  /** Everything in flight has timed out at this instant. */
  predicate Ripe(s: Twin, now: real) {
    && (s.inflightSince.Some? ==> now - s.inflightSince.value >= s.timeout)
    && (forall sid :: sid in s.sessions ==> now - s.sessions[sid].since >= s.timeout)
  }

  /** A poll that just timed out the global in-flight setting is never blocked by its session. */
  lemma TimedOutInflightUnblocksSession(s: Twin, session: Option<string>, clock: real, now: real)
    requires Slots(s, clock) && InflightTimedOut(s, now)
    ensures !SessionBlocks(DropTimedOut(s, Label(session), now), session, now)
  {
  }

  /** Taking the head of the sorted queue in flight leaves the rest of it undelivered. */
  lemma HeadAccounts(queue: seq<TwinSetting>)
    requires UniqueKeys(queue) && queue != []
    ensures GetPending(queue) != []
    ensures var left := Drop(queue, GetPending(queue)[0].Id());
            GetPending(queue) == [GetPending(queue)[0]] + GetPending(left) && |left| == |queue| - 1
  {
    PendingMembers(queue);
    PendingAfterHead(queue);
    LookupSpec(queue, GetPending(queue)[0].Id());
    DropSpec(queue, GetPending(queue)[0].Id());
  }

  lemma FreePollShape(s: Twin, deviceId: string, session: Option<string>, now: real)
    requires s.inflightKey.None? && !SessionBlocks(s, session, now)
    ensures DeliverPending(s, deviceId, session, now).0.queue == s.queue
    ensures s.queue == [] ==>
              && DeliverPending(s, deviceId, session, now).0.inflightKey.None?
              && DeliverPending(s, deviceId, session, now).0.delivered == s.delivered
    ensures s.queue != [] ==>
              && GetPending(s.queue) != []
              && DeliverPending(s, deviceId, session, now).0.inflightKey == Some(GetPending(s.queue)[0].Id())
              && DeliverPending(s, deviceId, session, now).0.delivered == s.delivered + [GetPending(s.queue)[0]]
  {
    assert DropTimedOut(s, Label(session), now) == s;
    var s2 := if session.Some? then DropSession(s, session.value, Timeout) else s;
    PendingMembers(s.queue);
    assert DeliverPending(s, deviceId, session, now) == DeliverNext(s2, deviceId, session, now);
  }

  /** A poll that nothing blocks and that finds no setting in flight delivers the head of the sorted queue. */
  lemma FreePoll(s: Twin, deviceId: string, session: Option<string>, now: real)
    requires UniqueKeys(s.queue) && s.inflightKey.None? && !SessionBlocks(s, session, now)
    ensures var r := DeliverPending(s, deviceId, session, now).0;
            && r.queue == s.queue
            && r.delivered + GetPending(Undelivered(r)) == s.delivered + GetPending(s.queue)
            && (s.queue == [] ==> Undelivered(r) == [] && r.inflightKey.None?)
            && (s.queue != [] ==> |Undelivered(r)| == |s.queue| - 1)
  {
    FreePollShape(s, deviceId, session, now);
    if s.queue != [] { HeadAccounts(s.queue); }
  }

  /** The state in which deliver_pending looks at the session: the timed-out setting is gone. */
  lemma DropThenPoll(s: Twin, deviceId: string, session: Option<string>, clock: real, now: real)
    requires Slots(s, clock) && clock <= now && InflightTimedOut(s, now)
    ensures var s1 := DropTimedOut(s, Label(session), now);
            && DeliverPending(s, deviceId, session, now) == DeliverPending(s1, deviceId, session, now)
            && s1.queue == Undelivered(s) && UniqueKeys(s1.queue) && s1.inflightKey.None?
            && s1.delivered == s.delivered && !InflightTimedOut(s1, now)
  {
    DropSpec(s.queue, s.inflightKey.value);
  }

  /** Whatever a poll does, it neither loses nor reorders the settings still to be delivered. */
  lemma PollAccounts(s: Twin, deviceId: string, session: Option<string>, clock: real, now: real)
    requires Slots(s, clock) && clock <= now
    ensures var r := DeliverPending(s, deviceId, session, now).0;
            && Slots(r, now) && r.timeout == s.timeout
            && r.delivered + GetPending(Undelivered(r)) == s.delivered + GetPending(Undelivered(s))
            && |Undelivered(r)| <= |Undelivered(s)|
  {
    DeliverSlots(s, deviceId, session, clock, now);
    if InflightTimedOut(s, now) {
      TimedOutInflightUnblocksSession(s, session, clock, now);
      DropThenPoll(s, deviceId, session, clock, now);
      FreePoll(DropTimedOut(s, Label(session), now), deviceId, session, now);
    } else if s.inflightKey.None? && !SessionBlocks(s, session, now) {
      FreePoll(s, deviceId, session, now);
    }
  }

  /** A poll of a ripe state delivers the next setting or leaves the queue empty. */
  lemma RipePoll(s: Twin, deviceId: string, session: Option<string>, clock: real, now: real)
    requires Slots(s, clock) && clock <= now && Ripe(s, now)
    ensures var r := DeliverPending(s, deviceId, session, now).0;
            && r.queue == Undelivered(s)
            && (Undelivered(s) == [] ==> r.inflightKey.None?)
            && (Undelivered(s) != [] ==> |Undelivered(r)| == |Undelivered(s)| - 1)
  {
    if InflightTimedOut(s, now) {
      TimedOutInflightUnblocksSession(s, session, clock, now);
      DropThenPoll(s, deviceId, session, clock, now);
      FreePoll(DropTimedOut(s, Label(session), now), deviceId, session, now);
    } else {
      FreePoll(s, deviceId, session, now);
    }
  }

  lemma {:induction false} RipeDrain(s: Twin, clock: real, polls: seq<Poll>)
    requires Slots(s, clock) && Spaced(s.timeout, clock, polls)
    requires polls != [] && Ripe(s, polls[0].now) && |polls| >= |Undelivered(s)| + 1
    ensures var r := Polls(s, polls);
            r.queue == [] && r.inflightKey.None? && r.delivered == s.delivered + GetPending(Undelivered(s))
    decreases |polls|
  {
    var p := polls[0];
    var r := DeliverPending(s, p.deviceId, p.session, p.now).0;
    PollAccounts(s, p.deviceId, p.session, clock, p.now);
    RipePoll(s, p.deviceId, p.session, clock, p.now);
    if |polls| == 1 {
      assert Undelivered(s) == [];
      assert polls[1..] == [];
    } else {
      assert polls[1..][0] == polls[1];
      assert polls[1].now - polls[0].now >= s.timeout;
      RipeDrain(r, p.now, polls[1..]);
    }
  }

  /**
   With n settings queued, n + 2 polls spaced by the timeout, with any session
   ids, empty the queue. The settings delivered on the way are exactly those not
   under the in-flight key, by enqueue time: a value that overwrote an in-flight
   one is dropped undelivered.
   */
  lemma DrainBound(s: Twin, clock: real, polls: seq<Poll>)
    requires Slots(s, clock) && Spaced(s.timeout, clock, polls)
    requires |polls| >= |s.queue| + 2
    ensures var r := Polls(s, polls);
            r.queue == [] && r.inflightKey.None? && r.delivered == s.delivered + GetPending(Undelivered(s))
  {
    var p := polls[0];
    var r := DeliverPending(s, p.deviceId, p.session, p.now).0;
    PollAccounts(s, p.deviceId, p.session, clock, p.now);
    if s.inflightKey.Some? { DropSpec(s.queue, s.inflightKey.value); }
    assert polls[1..][0] == polls[1];
    assert polls[1].now - polls[0].now >= s.timeout;
    RipeDrain(r, p.now, polls[1..]);
  }

  // ---- The cloud store ----

  /** After an expiry check no entry is left that was tracked two timeouts ago. */
  lemma CloudNeverBlocksForLong(s: Twin, clock: real, now: real)
    requires CloudOk(s.cloud, s.timeout, clock) && clock <= now
    ensures forall p :: p in Entries(ExpireCloud(s, now).cloud) ==> now - p.trackedAt < 2.0 * s.timeout
  {
    ExpireKeepsCloud(s, clock, now);
    CloudOkFiled(s.cloud, s.timeout, clock);
  }

  /** An expiry reports a timeout only for entries whose Reason=Setting was not seen. */
  lemma {:induction false} TimeoutsAreUnseen(s: Twin, ps: seq<CloudPending>, timeout: real, clock: real)
    requires forall p :: p in ps ==> EntryOk(p, timeout, clock)
    ensures var r := RecordExpiries(s, ps);
            && s.trail <= r.trail
            && forall i :: |s.trail| <= i < |r.trail| ==>
                 exists p :: p in ps && p.setting.auditId == r.trail[i].auditId
                   && r.trail[i].step == if p.reasonSeen then AckReasonSetting else Timeout
    decreases |ps|
  {
    if ps != [] {
      var p, before := ps[|ps| - 1], ps[..|ps| - 1];
      TimeoutsAreUnseen(s, before, timeout, clock);
      var e, r := RecordExpiries(s, before), RecordExpiries(s, ps);
      assert p in ps && EntryOk(p, timeout, clock);
      forall i | |s.trail| <= i < |r.trail|
        ensures exists q :: q in ps && q.setting.auditId == r.trail[i].auditId
                  && r.trail[i].step == if q.reasonSeen then AckReasonSetting else Timeout
      {
        if i < |e.trail| {
          assert r.trail[i] == e.trail[i];
          var q :| q in before && q.setting.auditId == e.trail[i].auditId
                   && e.trail[i].step == if q.reasonSeen then AckReasonSetting else Timeout;
          assert q in ps;
        }
      }
    }
  }

  lemma {:induction false} DistinctMembers(entries: seq<CloudPending>)
    requires DistinctIds(entries)
    ensures forall p, q :: p in entries && q in entries && p.setting.auditId == q.setting.auditId ==> p == q
  {
    if entries != [] {
      DistinctMembers(entries[1..]);
      assert forall p :: p in entries <==> p == entries[0] || p in entries[1..];
    }
  }

  /** Expiry reports no timeout for a setting whose Reason=Setting was seen. */
  lemma ExpiryNeverTimesOutSeen(s: Twin, clock: real, now: real)
    requires CloudOk(s.cloud, s.timeout, clock)
    ensures var r := ExpireCloud(s, now);
            && s.trail <= r.trail
            && forall i :: |s.trail| <= i < |r.trail| && r.trail[i].step == Timeout ==>
                 exists p :: p in Entries(s.cloud) && !p.reasonSeen && p.setting.auditId == r.trail[i].auditId
    ensures DistinctIds(Entries(s.cloud)) ==>
              var r := ExpireCloud(s, now);
              forall p, i :: (p in Entries(s.cloud) && p.reasonSeen && |s.trail| <= i < |r.trail|
                              && r.trail[i].auditId == p.setting.auditId) ==> r.trail[i].step != Timeout
  {
    if DistinctIds(Entries(s.cloud)) { DistinctMembers(Entries(s.cloud)); }
    var ps := Hit(Entries(s.cloud), Expired(now, s.timeout));
    HitMembers(Entries(s.cloud), Expired(now, s.timeout));
    CloudOkFiled(s.cloud, s.timeout, clock);
    TimeoutsAreUnseen(s, ps, s.timeout, clock);
  }

  // ---- Every removal is accounted for ----

  lemma RecordKeepsLedger(s: Twin, x: TwinSetting, deviceId: string, step: SettingStep,
                          result: Option<SettingResult>, sid: string)
    ensures s.ledger.Keys <= RecordStep(s, x, deviceId, step, result, sid).ledger.Keys
    ensures s.collector && x.auditId != "" && IsTerminalStep(step) && result != Some(Pending) ==>
              x.auditId in RecordStep(s, x, deviceId, step, result, sid).ledger
  {
  }

  lemma {:induction false} ExpiriesAreLedgered(s: Twin, ps: seq<CloudPending>)
    ensures s.ledger.Keys <= RecordExpiries(s, ps).ledger.Keys
    ensures s.ledger.Keys <= RecordCleared(s, ps).ledger.Keys
    ensures forall p :: p in ps && s.collector && p.setting.auditId != "" ==>
              p.setting.auditId in RecordExpiries(s, ps).ledger && p.setting.auditId in RecordCleared(s, ps).ledger
    decreases |ps|
  {
    if ps != [] {
      var p, before := ps[|ps| - 1], ps[..|ps| - 1];
      ExpiriesAreLedgered(s, before);
      assert ps == before + [p];
      RecordKeepsLedger(RecordExpiries(s, before), p.setting, p.deviceId, AckReasonSetting, Some(Confirmed), "");
      RecordKeepsLedger(RecordExpiries(s, before), p.setting, p.deviceId, Timeout, None, "");
      RecordKeepsLedger(RecordCleared(s, before), p.setting, p.deviceId, SessionCleared, None, "");
    }
  }

  lemma ExpiryAccounts(s: Twin, now: real)
    ensures s.ledger.Keys <= ExpireCloud(s, now).ledger.Keys
    ensures forall p :: p in Entries(s.cloud) && s.collector && p.setting.auditId != "" ==>
              p in Entries(ExpireCloud(s, now).cloud) || p.setting.auditId in ExpireCloud(s, now).ledger
  {
    var sweep := Expired(now, s.timeout);
    HitMembers(Entries(s.cloud), sweep);
    PruneEntries(s.cloud, sweep);
    ExpiriesAreLedgered(s, Hit(Entries(s.cloud), sweep));
  }

  lemma {:induction false} KeptEverything(entries: seq<CloudPending>)
    ensures Kept(entries, Everything) == []
  {
    if entries != [] { KeptEverything(entries[1..]); }
  }

  lemma {:induction false} PruneEverything(cloud: seq<CloudQueue>)
    ensures Prune(cloud, Everything) == []
  {
    if cloud != [] {
      PruneEverything(cloud[1..]);
      KeptEverything(cloud[0].entries);
    }
  }

  /** Shutdown empties the store and reports every entry that was in it. */
  lemma ShutdownAccounts(s: Twin)
    ensures Shutdown(s).cloud == [] && Shutdown(s).inflightKey == (if s.inflightDevice.Some? then None else s.inflightKey)
    ensures forall p :: p in Entries(s.cloud) && s.collector && p.setting.auditId != "" ==>
              p.setting.auditId in Shutdown(s).ledger
  {
    PruneEverything(s.cloud);
    var s1 := if s.inflightKey.Some? && s.inflightDevice.Some? then
                ClearInflight(RecordQueued(s, s.inflightKey.value, SessionCleared, ""))
              else s;
    ExpiriesAreLedgered(s1, Entries(s1.cloud));
  }

  /** The confirmed entry leaves its queue, the others stay in their order. */
  lemma {:induction false} MatchTakesFirst(entries: seq<CloudPending>, confirmed: string) returns (i: nat)
    requires entries != []
    ensures i < |entries| && MatchIn(entries, confirmed) == entries[i]
    ensures RemoveFirst(entries, MatchIn(entries, confirmed)) == entries[..i] + entries[i + 1..]
    ensures ValueText(entries[i].setting.value) == confirmed ==>
              forall j :: 0 <= j < i ==> ValueText(entries[j].setting.value) != confirmed
    ensures ValueText(entries[i].setting.value) != confirmed ==>
              i == 0 && forall p :: p in entries ==> ValueText(p.setting.value) != confirmed
  {
    if FirstValue(entries, confirmed).None? {
      NoneHasValue(entries, confirmed);
      i := 0;
    } else if ValueText(entries[0].setting.value) == confirmed {
      i := 0;
    } else {
      assert FirstValue(entries[1..], confirmed).Some?;
      var k := MatchTakesFirst(entries[1..], confirmed);
      FirstHasValue(entries, confirmed);
      i := k + 1;
      assert entries[1..][..k] == entries[1..i] && entries[1..][k + 1..] == entries[i + 1..];
      assert entries[..i] == [entries[0]] + entries[1..i];
      forall j | 0 <= j < i ensures ValueText(entries[j].setting.value) != confirmed {
        if j > 0 { assert entries[j] == entries[1..][j - 1]; }
      }
    }
  }

  lemma {:induction false} NoneHasValue(entries: seq<CloudPending>, confirmed: string)
    requires FirstValue(entries, confirmed).None?
    ensures forall p :: p in entries ==> ValueText(p.setting.value) != confirmed
  {
    if entries != [] { NoneHasValue(entries[1..], confirmed); }
  }

  lemma {:induction false} FirstHasValue(entries: seq<CloudPending>, confirmed: string)
    ensures FirstValue(entries, confirmed).Some? ==>
              ValueText(FirstValue(entries, confirmed).value.setting.value) == confirmed
  {
    if entries != [] { FirstHasValue(entries[1..], confirmed); }
  }

  /** match_cloud_tbl_events takes exactly its match out of the store and enters it in the ledger. */
  lemma MatchAccounts(s: Twin, deviceId: string, table: string, key: string, confirmed: string, sid: string,
                      clock: real, now: real)
    requires CloudOk(s.cloud, s.timeout, clock) && clock <= now
    ensures var s1 := ExpireCloud(s, now);
            var (r, p) := MatchTblEvents(s, deviceId, table, key, confirmed, sid, now);
            && (p.None? <==> QueueOf(s1.cloud, CloudKey(deviceId, table, key)) == [])
            && (p.None? ==> r == s1)
            && (p.Some? ==>
                  && p.value in Entries(s1.cloud) && p.value.Id() == CloudKey(deviceId, table, key)
                  && Entries(r.cloud) == RemoveFirst(Entries(s1.cloud), p.value)
                  && |Entries(r.cloud)| == |Entries(s1.cloud)| - 1
                  && (s.collector && p.value.setting.auditId != "" ==> p.value.setting.auditId in r.ledger))
  {
    var s1 := ExpireCloud(s, now);
    ExpireKeepsCloud(s, clock, now);
    CloudOkFiled(s1.cloud, s.timeout, now);
    var entries := QueueOf(s1.cloud, CloudKey(deviceId, table, key));
    QueueOfMembers(s1.cloud, CloudKey(deviceId, table, key));
    QueueOfIds(s1.cloud, CloudKey(deviceId, table, key));
    if entries != [] {
      var i := MatchTakesFirst(entries, confirmed);
      var p := entries[i];
      RemoveTakesFirst(s1.cloud, p);
      RemoveFirstMembers(Entries(s1.cloud), p);
      RecordKeepsLedger(s1, p.setting, p.deviceId, AckTblEvents, None, sid);
    }
  }

  lemma {:induction false} QueueOfIds(cloud: seq<CloudQueue>, id: CloudKey)
    requires Filed(cloud)
    ensures forall p :: p in QueueOf(cloud, id) ==> p.Id() == id
  {
    if cloud != [] {
      FiledTail(cloud);
      QueueOfIds(cloud[1..], id);
    }
  }

  /** A setting is still tracked or its audit id has a terminal entry. */
  predicate Accounted(r: Twin, x: TwinSetting) {
    x.auditId in r.ledger || exists q :: q in Entries(r.cloud) && q.setting == x
  }

  lemma AcknowledgeAccounts(s: Twin, table: string, key: string, session: Option<string>, p: CloudPending, clock: real)
    requires CloudOk(s.cloud, s.timeout, clock) && p in Entries(s.cloud)
    ensures Accounted(Acknowledge(s, table, key, session), p.setting)
            || (FirstFor(Entries(s.cloud), SettingKey(table, key)) == Some(p)
                && s.inflightKey != Some(SettingKey(table, key)) && Lookup(s.queue, SettingKey(table, key)).None?
                && p.setting.auditId !in s.ledger)
  {
    var first := FirstFor(Entries(s.cloud), SettingKey(table, key));
    FirstForSpec(Entries(s.cloud), SettingKey(table, key));
    if first.Some? {
      CloudOkFiled(s.cloud, s.timeout, clock);
      RemoveTakesFirst(s.cloud, first.value);
      RemoveFirstMembers(Entries(s.cloud), first.value);
    }
  }

  lemma MatchKeepsOthers(s: Twin, deviceId: string, table: string, key: string, confirmed: string, sid: string,
                         p: CloudPending, clock: real, now: real)
    requires CloudOk(s.cloud, s.timeout, clock) && clock <= now && p in Entries(s.cloud)
    requires s.collector && p.setting.auditId != ""
    ensures Accounted(MatchTblEvents(s, deviceId, table, key, confirmed, sid, now).0, p.setting)
  {
    var s1 := ExpireCloud(s, now);
    var (r, first) := MatchTblEvents(s, deviceId, table, key, confirmed, sid, now);
    ExpiryAccounts(s, now);
    MatchAccounts(s, deviceId, table, key, confirmed, sid, clock, now);
    if first.Some? {
      RecordKeepsLedger(s1, first.value.setting, first.value.deviceId, AckTblEvents, None, sid);
      RemoveFirstMembers(Entries(s1.cloud), first.value);
    }
  }

  lemma BeginAccounts(s: Twin, x: TwinSetting, deviceId: string, p: CloudPending, clock: real, now: real)
    requires CloudOk(s.cloud, s.timeout, clock) && clock <= now && p in Entries(s.cloud)
    requires s.collector && p.setting.auditId != ""
    ensures Accounted(BeginCloud(s, x, deviceId, now), p.setting)
  {
    var s1 := ExpireCloud(s, now);
    ExpiryAccounts(s, now);
    ExpireKeepsCloud(s, clock, now);
    AppendKeepsOk(s1.cloud, CloudPending(x, deviceId, now, false, None), s.timeout, now);
  }

  /**
   An acknowledgement that finds nothing in flight and nothing queued under its
   key, and the setting first among those tracked under it, not yet reported.
   */
  predicate DropsUnreported(s: Twin, c: Call, p: CloudPending) {
    && c.DoAcknowledge?
    && s.inflightKey != Some(SettingKey(c.table, c.key))
    && Lookup(s.queue, SettingKey(c.table, c.key)).None?
    && FirstFor(Entries(s.cloud), SettingKey(c.table, c.key)) == Some(p)
    && p.setting.auditId !in s.ledger
  }

  /** Only such a call can drop a tracked setting without a terminal entry. */
  lemma RemovalIsLedgeredUnlessAcknowledged(s: Twin, c: Call, p: CloudPending, clock: real, now: real)
    requires CloudOk(s.cloud, s.timeout, clock) && clock <= now
    requires s.collector && p in Entries(s.cloud) && p.setting.auditId != ""
    ensures Accounted(Do(s, c, now), p.setting)
            || DropsUnreported(s, c, p)
  {
    if TouchesCloud(c) {
      match c
      case DoAcknowledge(table, key, session) => AcknowledgeAccounts(s, table, key, session, p, clock);
      case DoExpire => ExpiryAccounts(s, now);
      case DoBeginCloud(x, deviceId) => BeginAccounts(s, x, deviceId, p, clock, now);
      case DoMarkReason(deviceId, sid) => MarkAccounts(s, deviceId, sid, p, clock, now);
      case DoMatchTblEvents(deviceId, table, key, confirmed, sid) =>
        MatchKeepsOthers(s, deviceId, table, key, confirmed, sid, p, clock, now);
    } else {
      DoFrame(s, c, now);
    }
  }

  /** Such an acknowledgement drops the first tracked setting of the key and writes nothing about it. */
  lemma {:induction false} AcknowledgeDropsSilently(s: Twin, p: CloudPending, session: Option<string>, clock: real)
    requires CloudOk(s.cloud, s.timeout, clock)
    requires FirstFor(Entries(s.cloud), p.setting.Id()) == Some(p)
    requires s.inflightKey != Some(p.setting.Id()) && Lookup(s.queue, p.setting.Id()).None?
    ensures Entries(Acknowledge(s, p.setting.table, p.setting.key, session).cloud) == RemoveFirst(Entries(s.cloud), p)
    ensures |RemoveFirst(Entries(s.cloud), p)| == |Entries(s.cloud)| - 1
    ensures Acknowledge(s, p.setting.table, p.setting.key, session).trail == s.trail
    ensures Acknowledge(s, p.setting.table, p.setting.key, session).ledger == s.ledger
  {
    CloudOkFiled(s.cloud, s.timeout, clock);
    FirstForSpec(Entries(s.cloud), p.setting.Id());
    RemoveTakesFirst(s.cloud, p);
    RemoveFirstMembers(Entries(s.cloud), p);
  }

  lemma {:induction false} RemovedIsGone(entries: seq<CloudPending>, p: CloudPending)
    requires DistinctIds(entries) && p in entries
    ensures NoneWithId(RemoveFirst(entries, p), p.setting.auditId)
  {
    if entries[0] != p {
      assert p in entries[1..];
      RemovedIsGone(entries[1..], p);
    }
  }

  /** A call drops a tracked setting without a terminal entry if and only if it is such an acknowledgement. */
  lemma DroppedUnreportedIff(s: Twin, c: Call, p: CloudPending, clock: real, now: real)
    requires CloudOk(s.cloud, s.timeout, clock) && clock <= now && DistinctIds(Entries(s.cloud))
    requires s.collector && p in Entries(s.cloud) && p.setting.auditId != ""
    ensures !Accounted(Do(s, c, now), p.setting) <==> DropsUnreported(s, c, p)
  {
    RemovalIsLedgeredUnlessAcknowledged(s, c, p, clock, now);
    if DropsUnreported(s, c, p) {
      FirstForSpec(Entries(s.cloud), SettingKey(c.table, c.key));
      assert SettingKey(c.table, c.key) == p.setting.Id();
      AcknowledgeDropsSilently(s, p, c.session, clock);
      RemovedIsGone(Entries(s.cloud), p);
    }
  }

  lemma {:induction false} ReplaceKeepsSettings(entries: seq<CloudPending>, p: CloudPending, p': CloudPending)
    requires p'.setting == p.setting
    ensures forall q :: q in entries ==> exists q' :: q' in ReplaceFirst(entries, p, p') && q'.setting == q.setting
  {
    if entries != [] {
      ReplaceKeepsSettings(entries[1..], p, p');
      var r := ReplaceFirst(entries, p, p');
      assert r[0] in r && r[0].setting == entries[0].setting;
      forall q | q in entries ensures exists q' :: q' in r && q'.setting == q.setting {
        if q != entries[0] {
          if entries[0] == p {
            assert q in r;
          } else {
            var q' :| q' in ReplaceFirst(entries[1..], p, p') && q'.setting == q.setting;
            assert q' in r;
          }
        }
      }
    }
  }

  lemma {:induction false} ReplaceKeepsTracked(cloud: seq<CloudQueue>, p: CloudPending, p': CloudPending)
    requires p'.setting == p.setting
    ensures forall q :: q in Entries(cloud) ==> exists q' :: q' in Entries(Replace(cloud, p, p')) && q'.setting == q.setting
  {
    if cloud != [] {
      var q0, rest := cloud[0], cloud[1..];
      Unfold(q0, rest);
      assert cloud == [q0] + rest;
      if q0.id != p.Id() {
        ReplaceKeepsTracked(rest, p, p');
        Unfold(q0, Replace(rest, p, p'));
      } else {
        ReplaceKeepsSettings(q0.entries, p, p');
        Unfold(CloudQueue(q0.id, ReplaceFirst(q0.entries, p, p')), rest);
      }
      forall q | q in Entries(cloud) ensures exists q' :: q' in Entries(Replace(cloud, p, p')) && q'.setting == q.setting {
        if q0.id != p.Id() {
          if q in q0.entries {
            assert q in Entries(Replace(cloud, p, p'));
          } else {
            var q' :| q' in Entries(Replace(rest, p, p')) && q'.setting == q.setting;
            assert q' in Entries(Replace(cloud, p, p'));
          }
        } else {
          if q in q0.entries {
            var q' :| q' in ReplaceFirst(q0.entries, p, p') && q'.setting == q.setting;
            assert q' in Entries(Replace(cloud, p, p'));
          } else {
            assert q in Entries(Replace(cloud, p, p'));
          }
        }
      }
    }
  }

  lemma MarkAccounts(s: Twin, deviceId: string, sid: string, p: CloudPending, clock: real, now: real)
    requires CloudOk(s.cloud, s.timeout, clock) && clock <= now && p in Entries(s.cloud)
    requires s.collector && p.setting.auditId != ""
    ensures var r := MarkReason(s, deviceId, sid, now).0;
            Accounted(r, p.setting)
  {
    ExpiryAccounts(s, now);
    var s1 := ExpireCloud(s, now);
    match Oldest(ForDevice(Entries(s1.cloud), Some(deviceId)))
    case None =>
    case Some(m) =>
      if !m.reasonSeen {
        RecordKeepsLedger(s1, m.setting, m.deviceId, AckReasonSetting, Some(Pending), sid);
        ReplaceKeepsTracked(s1.cloud, m, m.(reasonSeen := true, reasonAt := Some(now)));
      }
  }
}
