/** What a control message and a frame from the cloud bring in, exactly. */
module TwinArrivals {
  import opened Options
  import opened SettingsAudit
  import opened SettingsConstraints
  import opened TwinState
  import opened CloudStore
  import opened TwinModel
  import opened TwinInvariants
  import opened TwinFrames
  import opened TwinLocal
  import TwinPriority
  import opened TwinRuns
  import opened TwinTracked
  import TwinTrace

  // ---- A control message ----

  /** The message reads as an integer that its key may take, and the proxy does not handle it itself. */
  predicate Queues(m: ControlMessage, n: int) {
    && Permitted(m.table, m.key, IntValue(n))
    && ParseNumeric(m.payload).Some? && ParseNumeric(m.payload).value.Finite?
    && ParseNumeric(m.payload).value.r == n as real
    && !(m.table == "proxy_control" && m.handledByProxy)
  }

  /** The queue with x in the place of the setting of its key, or last if there was none. */
  predicate Holds(before: seq<TwinSetting>, after: seq<TwinSetting>, x: TwinSetting) {
    if HasKey(before, x.Id()) then
      exists i :: 0 <= i < |before| && before[i].Id() == x.Id() && after == before[i := x]
    else after == before + [x]
  }

  lemma {:induction false} PutHolds(queue: seq<TwinSetting>, x: TwinSetting)
    ensures Holds(queue, Put(queue, x), x)
  {
    if queue == [] {
      assert [] + [x] == [x];
    } else {
      assert queue == [queue[0]] + queue[1..];
      assert HasKey(queue, x.Id()) <==> queue[0].Id() == x.Id() || HasKey(queue[1..], x.Id());
      if queue[0].Id() == x.Id() {
        assert queue[0 := x] == [x] + queue[1..];
      } else {
        PutHolds(queue[1..], x);
        if HasKey(queue[1..], x.Id()) {
          var i :| 0 <= i < |queue[1..]| && queue[1..][i].Id() == x.Id() && Put(queue[1..], x) == queue[1..][i := x];
          assert queue[i + 1] == queue[1..][i];
          assert queue[i + 1 := x] == [queue[0]] + queue[1..][i := x];
        }
      }
    }
  }

  /** A message that may be queued is, with its own time, numbers and audit id; any other leaves the queue alone. */
  lemma MessageQueues(s: Twin, deviceId: string, m: ControlMessage, n: int)
    ensures var r := Admit(s, deviceId, m);
            Queues(m, n) ==>
              Holds(s.queue, r.queue,
                    TwinSetting(m.table, m.key, IntValue(n), m.wallTime, m.rawText, m.auditId, m.msgId, m.idSet, "New"))
    ensures var r := Admit(s, deviceId, m);
            (forall k: int :: !Queues(m, k)) ==> r.queue == s.queue
    ensures Admit(s, deviceId, m) == s.(queue := Admit(s, deviceId, m).queue, trail := Admit(s, deviceId, m).trail)
  {
    AdmittedIsQueued(m, n);
    if AdmittedValue(m).Some? { PutHolds(s.queue, SettingOf(m, AdmittedValue(m).value)); }
  }

  lemma AdmittedIsQueued(m: ControlMessage, n: int)
    ensures Queues(m, n) ==> AdmittedValue(m) == Some(IntValue(n))
    ensures AdmittedValue(m).Some? ==> exists k: int :: Queues(m, k)
  {
    if IsSettingAllowed(m.table, m.key) {
      ValidateExactly(m.table, m.key, m.payload);
      if AdmittedValue(m).Some? { assert Queues(m, AdmittedValue(m).value.n); }
    }
  }

  /** The records of a message that is queued: incoming, the one it replaces, enqueued. */
  lemma QueuedIsReported(s: Twin, deviceId: string, m: ControlMessage, n: int)
    requires Queues(m, n) && s.collector
    ensures var prior := Lookup(s.queue, SettingKey(m.table, m.key));
            Admit(s, deviceId, m).trail
            == s.trail
               + [AuditRecord(m.auditId, deviceId, m.table, m.key, Incoming, Pending, "")]
               + (if prior.Some? && prior.value.auditId != "" then
                    [AuditRecord(prior.value.auditId, deviceId, m.table, m.key, Superseded, Replaced, "")]
                  else [])
               + [AuditRecord(m.auditId, deviceId, m.table, m.key, Enqueued, Pending, "")]
  {
    AdmittedIsQueued(m, n);
    LookupSpec(s.queue, SettingKey(m.table, m.key));
  }

  /** And of one that is not: incoming, and why it was rejected unless the proxy handled it. */
  lemma RejectedIsReported(s: Twin, deviceId: string, m: ControlMessage)
    requires s.collector && forall n: int :: !Queues(m, n)
    ensures var incoming := AuditRecord(m.auditId, deviceId, m.table, m.key, Incoming, Pending, "");
            Admit(s, deviceId, m).trail
            == s.trail + [incoming]
               + (if !IsSettingAllowed(m.table, m.key) then
                    [incoming.(step := RejectedNotAllowed, result := Rejected)]
                  else if m.table == "proxy_control" && m.handledByProxy
                          && Validate(m.table, m.key, m.payload).Accepted? then []
                  else [incoming.(step := RejectedValidation, result := Rejected)])
  {
    AdmittedIsQueued(m, 0);
  }

  // ---- A frame from the cloud ----

  lemma HookKeepsFlag(s: Twin, f: Frame, env: Env)
    ensures IsNewSetHook(s, f, env).cloudLegacy == s.cloudLegacy
  {
    var (s1, x) := DeliverPending(s, f.deviceId, None, env.now);
  }

  /** The flag goes up with an incomplete cloud setting, down with an END, and is left alone otherwise. */
  lemma LegacyFlagFollows(s: Twin, f: Frame, c: CloudSetting, session: Option<string>, env: Env)
    ensures CloudFrame(s, f, c, session, env).cloudLegacy
         == if c.PartialSetting? then true else if c.NoSetting? && f.tableName == "END" then false else s.cloudLegacy
  {
    var s1 := TrackCloud(ObserveMsgId(ObserveIdSet(s, f.idSet), f.msgId), f, c, env.now);
    HookKeepsFlag(s1, f, env);
    var s2 := if f.tableName == "IsNewSet" then IsNewSetHook(s1, f, env) else s1;
    TwinPriority.HandleKeepsFlag(s2, f, session, env);
  }

  /** A full cloud setting is tracked from now on, last in the queue of its key, if there is a time limit. */
  lemma FullSettingIsTracked(s: Twin, f: Frame, x: TwinSetting, session: Option<string>, env: Env)
    requires CloudOk(s.cloud, s.timeout, env.now) && TwinPriority.SaysNothing(f) && f.tableName != "IsNewSet"
    ensures var r := CloudFrame(s, f, FullSetting(x), session, env);
            var p := CloudPending(x, f.deviceId, env.now, false, None);
            if s.timeout > 0.0 then
              QueueOf(r.cloud, p.Id()) == QueueOf(ExpireCloud(s, env.now).cloud, p.Id()) + [p] && p in Entries(r.cloud)
            else Entries(r.cloud) == []
  {
    var s1 := ObserveMsgId(ObserveIdSet(s, f.idSet), f.msgId);
    var s2 := BeginCloud(s1, x, f.deviceId, env.now);
    var p := CloudPending(x, f.deviceId, env.now, false, None);
    SameStore(s, f, env.now);
    BeginTracksLast(s1, x, f.deviceId, env.now, p.Id());
    BeginKeepsCloud(s1, x, f.deviceId, env.now, env.now);
    assert CloudFrame(s, f, FullSetting(x), session, env) == HandleTwinFrame(s2, f, session, false, env);
    TwinPriority.SilentFrame(s2, f, session, env);
    if s.timeout > 0.0 {
      BeginLeavesNothingDue(s1, x, f.deviceId, env.now);
      assert p in QueueOf(s2.cloud, p.Id());
      QueueOfMembers(s2.cloud, p.Id());
    } else {
      AllDue(s2, env.now);
    }
  }

  lemma SameStore(s: Twin, f: Frame, now: real)
    ensures var r := ObserveMsgId(ObserveIdSet(s, f.idSet), f.msgId);
            && r.cloud == s.cloud && r.timeout == s.timeout
            && ExpireCloud(r, now).cloud == ExpireCloud(s, now).cloud
  {
  }

  lemma BeginLeavesNothingDue(s: Twin, x: TwinSetting, deviceId: string, now: real)
    requires CloudOk(s.cloud, s.timeout, now) && s.timeout > 0.0
    ensures ExpireCloud(BeginCloud(s, x, deviceId, now), now) == BeginCloud(s, x, deviceId, now)
  {
    var s1, r := ExpireCloud(s, now), BeginCloud(s, x, deviceId, now);
    BeginKeepsCloud(s, x, deviceId, now, now);
    ExpiryKeepsUndue(s, now);
    UndueMembers(Entries(s.cloud), now, s.timeout);
    ExpireKeepsCloud(s, now, now);
    AppendKeepsOk(s1.cloud, CloudPending(x, deviceId, now, false, None), s.timeout, now);
    NothingDue(r, now, now);
  }

  lemma AllDue(s: Twin, now: real)
    requires CloudOk(s.cloud, s.timeout, now) && s.timeout <= 0.0
    ensures Entries(ExpireCloud(s, now).cloud) == []
  {
    CloudOkFiled(s.cloud, s.timeout, now);
    ExpiryKeepsUndue(s, now);
    TwinPriority.LeftIffUndue(Entries(s.cloud), now, s.timeout);
  }

  /** So for as long as its limit runs no poll that says nothing else is served from the local queue. */
  lemma FullSettingHoldsPolls(s: Twin, f: Frame, x: TwinSetting, session: Option<string>, env: Env,
                              poll: Frame, poller: Option<string>, later: Env)
    requires Sound(s, env.now) && x.auditId !in Known(s)
    requires TwinPriority.SaysNothing(f) && f.tableName != "IsNewSet" && TwinPriority.SaysNothing(poll)
    requires env.now <= later.now && later.now - env.now < s.timeout
    ensures var r := CloudFrame(s, f, FullSetting(x), session, env);
            TwinPriority.ServesNothing(r, BoxFrame(r, poll, poller, later).0, BoxFrame(r, poll, poller, later).1)
  {
    var r := CloudFrame(s, f, FullSetting(x), session, env);
    SoundAfter(s, f, x, session, env, later.now);
    FullSettingIsLive(s, f, x, session, env, later.now);
    TwinPriority.LiveEntryBlocksPoll(r, poll, poller, later);
  }

  lemma SoundAfter(s: Twin, f: Frame, x: TwinSetting, session: Option<string>, env: Env, later: real)
    requires Sound(s, env.now) && x.auditId !in Known(s) && env.now <= later
    ensures Sound(CloudFrame(s, f, FullSetting(x), session, env), later)
  {
    StepSound(s, FromCloud(f, FullSetting(x), session), env, env.now);
    SoundLater(CloudFrame(s, f, FullSetting(x), session, env), env.now, later);
  }

  lemma FullSettingIsLive(s: Twin, f: Frame, x: TwinSetting, session: Option<string>, env: Env, later: real)
    requires CloudOk(s.cloud, s.timeout, env.now) && TwinPriority.SaysNothing(f) && f.tableName != "IsNewSet"
    requires env.now <= later && later - env.now < s.timeout
    ensures var r := CloudFrame(s, f, FullSetting(x), session, env);
            exists p :: p in Entries(r.cloud) && !IsDue(p, later, r.timeout)
  {
    var r := CloudFrame(s, f, FullSetting(x), session, env);
    FullSettingIsTracked(s, f, x, session, env);
    KeepsTimeout(s, f, x, session, env);
    var p := CloudPending(x, f.deviceId, env.now, false, None);
    assert p in Entries(r.cloud) && !IsDue(p, later, r.timeout);
  }

  lemma KeepsTimeout(s: Twin, f: Frame, x: TwinSetting, session: Option<string>, env: Env)
    requires TwinPriority.SaysNothing(f) && f.tableName != "IsNewSet"
    ensures CloudFrame(s, f, FullSetting(x), session, env).timeout == s.timeout
  {
    var s1 := ObserveMsgId(ObserveIdSet(s, f.idSet), f.msgId);
    var s2 := BeginCloud(s1, x, f.deviceId, env.now);
    assert CloudFrame(s, f, FullSetting(x), session, env) == HandleTwinFrame(s2, f, session, false, env);
    TwinPriority.SilentFrame(s2, f, session, env);
  }

  // ---- Numbers ----

  /** The higher of what is remembered and what a frame carries. */
  function Higher(last: Option<int>, seen: Option<int>): Option<int> {
    if last.None? then seen
    else if seen.Some? && seen.value > last.value then seen
    else last
  }

  /** The numbers after an answer: a setting that was delivered took the next of each. */
  predicate TakesNumbers(s: Twin, msgId: Option<int>, idSet: Option<int>, r: Twin, env: Env) {
    if r.delivered == s.delivered then r.lastMsgId == msgId && r.lastIdSet == idSet
    else
      && r.lastMsgId == Some(if msgId.Some? then msgId.value + 1 else env.random)
      && r.lastIdSet == Some(1 + if idSet.Some? && idSet.value >= env.second then idSet.value else env.second)
  }

  /**
   After a frame of the Box the highest numbers on the wire are remembered. A
   setting that was delivered took the next message number, or the random one
   if none was known, and the next id_set, above the clock's second.
   */
  lemma BoxNumbers(s: Twin, f: Frame, session: Option<string>, env: Env)
    ensures TakesNumbers(s, Higher(s.lastMsgId, f.msgId), Higher(s.lastIdSet, f.idSet),
                         BoxFrame(s, f, session, env).0, env)
  {
    var s1 := Observed(s, f, env);
    BeforeAnswer(s, f, env);
    AnswerNumbers(s1, f, session, env);
    SameDelivered(s, s1, AnswerPoll(s1, f, session, env).0, env);
  }

  /** The state in which a frame of the Box is answered. */
  function Observed(s: Twin, f: Frame, env: Env): Twin {
    var h := HandleTwinFrame(s, f, None, false, env);
    CheckCloudBeforePoll(ObserveMsgId(ObserveIdSet(h, f.idSet), f.msgId), f, env.now)
  }

  lemma BeforeAnswer(s: Twin, f: Frame, env: Env)
    ensures var r := Observed(s, f, env);
            && r.lastMsgId == Higher(s.lastMsgId, f.msgId) && r.lastIdSet == Higher(s.lastIdSet, f.idSet)
            && r.delivered == s.delivered
  {
    var h := HandleTwinFrame(s, f, None, false, env);
    AnswersKeepNumbers(s, f, env);
    ObserveHigher(h, f);
    CheckKeepsNumbers(ObserveMsgId(ObserveIdSet(h, f.idSet), f.msgId), f, env.now);
  }

  lemma AnswersKeepNumbers(s: Twin, f: Frame, env: Env)
    ensures var h := HandleTwinFrame(s, f, None, false, env);
            h.lastMsgId == s.lastMsgId && h.lastIdSet == s.lastIdSet && h.delivered == s.delivered
  {
    TwinPriority.HandleQuiet(s, f, None, env);
    TwinPriority.HandleKeepsFlag(s, f, None, env);
  }

  lemma ObserveHigher(s: Twin, f: Frame)
    ensures var r := ObserveMsgId(ObserveIdSet(s, f.idSet), f.msgId);
            && r.lastMsgId == Higher(s.lastMsgId, f.msgId) && r.lastIdSet == Higher(s.lastIdSet, f.idSet)
            && r.delivered == s.delivered
  {
    var s1 := ObserveIdSet(s, f.idSet);
    assert s1.lastMsgId == s.lastMsgId && s1.lastIdSet == Higher(s.lastIdSet, f.idSet) && s1.delivered == s.delivered;
  }

  lemma CheckKeepsNumbers(s: Twin, f: Frame, now: real)
    ensures var r := CheckCloudBeforePoll(s, f, now);
            TwinPriority.KeepsNumbers(s, r) && r.delivered == s.delivered
  {
  }

  lemma InjectNumbers(s: Twin, x: TwinSetting, deviceId: string, sid: string, env: Env)
    ensures var r := Inject(s, x, deviceId, sid, true, env);
            && r.lastMsgId == Some(if s.lastMsgId.Some? then s.lastMsgId.value + 1 else env.random)
            && r.lastIdSet == Some(1 + if s.lastIdSet.Some? && s.lastIdSet.value >= env.second then s.lastIdSet.value
                                       else env.second)
            && r.delivered == s.delivered
  {
  }

  lemma AnswerNumbers(s: Twin, f: Frame, session: Option<string>, env: Env)
    ensures TakesNumbers(s, s.lastMsgId, s.lastIdSet, AnswerPoll(s, f, session, env).0, env)
  {
    var (s1, x) := DeliverPending(s, f.deviceId, session, env.now);
    DeliverHistory(s, f.deviceId, session, env.now);
    if x.Some? { InjectNumbers(s1, x.value, f.deviceId, Label(session), env); }
  }

  lemma DeliverHistory(s: Twin, deviceId: string, session: Option<string>, now: real)
    ensures var (r, x) := DeliverPending(s, deviceId, session, now);
            r.delivered == if x.Some? then s.delivered + [x.value] else s.delivered
  {
    PendingMembers(DropTimedOut(s, Label(session), now).queue);
  }

  /** The id_set after the hook of the other paths; it takes no message number. */
  predicate TakesIdSet(s: Twin, msgId: Option<int>, idSet: Option<int>, r: Twin, env: Env) {
    && r.lastMsgId == msgId
    && r.lastIdSet
       == if r.delivered == s.delivered then idSet
          else Some(1 + if idSet.Some? && idSet.value >= env.second then idSet.value else env.second)
  }

  lemma HookNumbers(s: Twin, f: Frame, env: Env)
    ensures TakesIdSet(s, s.lastMsgId, s.lastIdSet, IsNewSetHook(s, f, env), env)
  {
    var (s1, x) := DeliverPending(s, f.deviceId, None, env.now);
    DeliverHistory(s, f.deviceId, None, env.now);
    if x.Some? { InjectIdSet(s1, x.value, f.deviceId, "", env); }
  }

  lemma InjectIdSet(s: Twin, x: TwinSetting, deviceId: string, sid: string, env: Env)
    ensures var r := Inject(s, x, deviceId, sid, false, env);
            && r.lastMsgId == s.lastMsgId && r.delivered == s.delivered
            && r.lastIdSet == Some(1 + if s.lastIdSet.Some? && s.lastIdSet.value >= env.second then s.lastIdSet.value
                                       else env.second)
  {
  }

  /** A frame answered offline, or handled on the cloud path once it is observed. */
  lemma HandledNumbers(s: Twin, f: Frame, session: Option<string>, env: Env)
    ensures TakesIdSet(s, s.lastMsgId, s.lastIdSet, HandleTwinFrame(s, f, session, true, env), env)
  {
    var s0 := if f.tableName == "IsNewSet" then IsNewSetHook(s, f, env) else s;
    HookNumbers(s, f, env);
    TwinPriority.HandleQuiet(s0, f, session, env);
    TwinPriority.HandleKeepsFlag(s0, f, session, env);
  }

  /** After a frame of the cloud its numbers are remembered if higher, and a delivered setting took an id_set. */
  lemma CloudNumbers(s: Twin, f: Frame, c: CloudSetting, session: Option<string>, env: Env)
    ensures TakesIdSet(s, Higher(s.lastMsgId, f.msgId), Higher(s.lastIdSet, f.idSet),
                       CloudFrame(s, f, c, session, env), env)
  {
    var s1 := Tracked(s, f, c, env.now);
    TrackedNumbers(s, f, c, env.now);
    HandledNumbers(s1, f, session, env);
    SameDelivered(s, s1, HandleTwinFrame(s1, f, session, true, env), env);
  }

  /** The state in which a frame of the cloud is handled. */
  function Tracked(s: Twin, f: Frame, c: CloudSetting, now: real): Twin {
    TrackCloud(ObserveMsgId(ObserveIdSet(s, f.idSet), f.msgId), f, c, now)
  }

  lemma TrackedNumbers(s: Twin, f: Frame, c: CloudSetting, now: real)
    ensures var r := Tracked(s, f, c, now);
            && r.lastMsgId == Higher(s.lastMsgId, f.msgId) && r.lastIdSet == Higher(s.lastIdSet, f.idSet)
            && r.delivered == s.delivered
  {
    ObserveHigher(s, f);
    TrackKeepsNumbers(ObserveMsgId(ObserveIdSet(s, f.idSet), f.msgId), f, c, now);
  }

  lemma SameDelivered(s: Twin, s1: Twin, r: Twin, env: Env)
    requires s1.delivered == s.delivered
    ensures TakesIdSet(s1, s1.lastMsgId, s1.lastIdSet, r, env) <==> TakesIdSet(s, s1.lastMsgId, s1.lastIdSet, r, env)
    ensures TakesNumbers(s1, s1.lastMsgId, s1.lastIdSet, r, env)
       <==> TakesNumbers(s, s1.lastMsgId, s1.lastIdSet, r, env)
  {
  }

  lemma TrackKeepsNumbers(s: Twin, f: Frame, c: CloudSetting, now: real)
    ensures var r := TrackCloud(s, f, c, now);
            r.lastMsgId == s.lastMsgId && r.lastIdSet == s.lastIdSet && r.delivered == s.delivered
  {
  }
}
