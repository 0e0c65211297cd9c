/** Who is served when the Box polls: a cloud setting before the local queue, and the local queue in its order. */
module TwinPriority {
  import opened Options
  import opened SettingsAudit
  import opened TwinState
  import opened CloudStore
  import opened TwinModel
  import opened TwinInvariants
  import opened TwinFrames
  import opened TwinLocal
  import opened TwinRuns
  import opened TwinTracked
  import opened TwinTrace

  lemma ExpireTwice(s: Twin, clock: real, now: real)
    requires CloudOk(s.cloud, s.timeout, clock) && clock <= now
    ensures ExpireCloud(ExpireCloud(s, now), now) == ExpireCloud(s, now)
  {
    ExpireKeepsCloud(s, clock, now);
    ExpiryKeepsUndue(s, now);
    UndueMembers(Entries(s.cloud), now, s.timeout);
    NothingDue(ExpireCloud(s, now), now, now);
  }

  lemma CheckIsExpiry(s: Twin, f: Frame, clock: real, now: real)
    requires CloudOk(s.cloud, s.timeout, clock) && clock <= now
    ensures CheckCloudBeforePoll(s, f, now) == if IsPoll(f) || s.queue != [] then ExpireCloud(s, now) else s
  {
    ExpireTwice(s, clock, now);
  }

  lemma HandleQuiet(s: Twin, f: Frame, session: Option<string>, env: Env)
    ensures Quiet(s, HandleTwinFrame(s, f, session, false, env))
  {
    ExpireQuiet(s, env.now);
    var s1 := ExpireCloud(s, env.now);
    var pair := InflightSetting(s1);
    OnBoxAckQuiet(s1, f, pair, session);
    var s2 := OnBoxAck(s1, f, pair, session);
    OnEventQuiet(s2, f, pair, session, env.now);
    var s3 := OnEvent(s2, f, pair, session, env.now);
    OnReasonQuiet(s3, f, pair, session, env.now);
    OnNackQuiet(OnReason(s3, f, pair, session, env.now), f, pair, session);
  }

  /** The flag of an incomplete cloud setting and everything about numbers are as they were. */
  predicate KeepsNumbers(s: Twin, r: Twin) {
    && r.cloudLegacy == s.cloudLegacy
    && r.lastIdSet == s.lastIdSet && r.lastMsgId == s.lastMsgId && r.idLog == s.idLog
  }

  predicate KeepsSessions(s: Twin, r: Twin, session: Option<string>) {
    r.timeout == s.timeout && (session.None? ==> r.sessions == s.sessions)
  }

  lemma AcknowledgeKeepsFlag(s: Twin, table: string, key: string, session: Option<string>)
    ensures KeepsNumbers(s, Acknowledge(s, table, key, session))
    ensures KeepsSessions(s, Acknowledge(s, table, key, session), session)
  {
  }

  lemma AckKeepsFlag(s: Twin, f: Frame, pair: Pair, session: Option<string>)
    ensures KeepsNumbers(s, OnBoxAck(s, f, pair, session))
    ensures KeepsSessions(s, OnBoxAck(s, f, pair, session), session)
  {
    if f.ack.Some? { AcknowledgeKeepsFlag(s, f.ack.value.table, f.ack.value.todo, session); }
  }

  lemma EventKeepsFlag(s: Twin, f: Frame, pair: Pair, session: Option<string>, now: real)
    ensures KeepsNumbers(s, OnEvent(s, f, pair, session, now))
    ensures KeepsSessions(s, OnEvent(s, f, pair, session, now), session)
  {
    if f.event.Some? {
      var e := f.event.value;
      var s1 := MatchTblEvents(s, f.deviceId, e.table, e.key, e.value, Label(session), now).0;
      AcknowledgeKeepsFlag(s1, e.table, e.key, session);
      if pair.Some? {
        AcknowledgeKeepsFlag(RecordStep(s1, pair.value.0, pair.value.1, AckTblEvents, None, Label(session)),
                               e.table, e.key, session);
      }
    }
  }

  lemma ConfirmKeepsFlag(s: Twin, x: TwinSetting, deviceId: string, step: SettingStep,
                           result: Option<SettingResult>, session: Option<string>)
    ensures var r := Acknowledge(RecordStep(s, x, deviceId, step, result, Label(session)), x.table, x.key, session);
            KeepsNumbers(s, r) && KeepsSessions(s, r, session)
  {
    AcknowledgeKeepsFlag(RecordStep(s, x, deviceId, step, result, Label(session)), x.table, x.key, session);
  }

  lemma ReasonKeepsFlag(s: Twin, f: Frame, pair: Pair, session: Option<string>, now: real)
    ensures KeepsNumbers(s, OnReason(s, f, pair, session, now))
    ensures KeepsSessions(s, OnReason(s, f, pair, session, now), session)
  {
    var s1 := MarkReason(s, f.deviceId, Label(session), now).0;
    if pair.Some? { ConfirmKeepsFlag(s1, pair.value.0, pair.value.1, AckReasonSetting, Some(Confirmed), session); }
  }

  lemma NackKeepsFlag(s: Twin, f: Frame, pair: Pair, session: Option<string>)
    ensures KeepsNumbers(s, OnNack(s, f, pair, session))
    ensures KeepsSessions(s, OnNack(s, f, pair, session), session)
  {
    if pair.Some? { ConfirmKeepsFlag(s, pair.value.0, pair.value.1, Nack, None, session); }
  }

  lemma HandleKeepsFlag(s: Twin, f: Frame, session: Option<string>, env: Env)
    ensures KeepsNumbers(s, HandleTwinFrame(s, f, session, false, env))
    ensures KeepsSessions(s, HandleTwinFrame(s, f, session, false, env), session)
  {
    var s1 := ExpireCloud(s, env.now);
    var pair := InflightSetting(s1);
    AckKeepsFlag(s1, f, pair, session);
    var s2 := OnBoxAck(s1, f, pair, session);
    EventKeepsFlag(s2, f, pair, session, env.now);
    var s3 := OnEvent(s2, f, pair, session, env.now);
    ReasonKeepsFlag(s3, f, pair, session, env.now);
    NackKeepsFlag(OnReason(s3, f, pair, session, env.now), f, pair, session);
  }

  /** A frame without an acknowledgement and without an event row: a poll, or plain data. */
  predicate SaysNothing(f: Frame) {
    f.ack.None? && f.event.None?
  }

  lemma SilentFrame(s: Twin, f: Frame, session: Option<string>, env: Env)
    requires SaysNothing(f)
    ensures HandleTwinFrame(s, f, session, false, env) == ExpireCloud(s, env.now)
  {
  }

  /** Nothing was delivered and no Setting frame was written. */
  predicate ServesNothing(s: Twin, r: Twin, withheld: bool) {
    !withheld && r.delivered == s.delivered && Written(r.idLog) == Written(s.idLog)
  }

  // ---- Cloud settings come first ----

  lemma BlockedPoll(s: Twin, f: Frame, session: Option<string>, env: Env, clock: real)
    requires CloudOk(s.cloud, s.timeout, clock) && clock <= env.now
    requires s.cloudLegacy || Entries(ExpireCloud(s, env.now).cloud) != []
    ensures var s1 := CheckCloudBeforePoll(s, f, env.now);
            AnswerPoll(s1, f, session, env) == (s1, false) && Quiet(s, s1)
  {
    CheckIsExpiry(s, f, clock, env.now);
    ExpireQuiet(s, env.now);
  }

  /**
   While the legacy flag is up, or a cloud setting is left once the frame's
   acknowledgements are handled and expiry has passed, a frame of the Box gets
   no local setting and is not withheld.
   */
  lemma CloudComesFirst(s: Twin, f: Frame, session: Option<string>, env: Env)
    requires Sound(s, env.now)
    requires s.cloudLegacy || Entries(ExpireCloud(HandleTwinFrame(s, f, None, false, env), env.now).cloud) != []
    ensures ServesNothing(s, BoxFrame(s, f, session, env).0, BoxFrame(s, f, session, env).1)
  {
    var h := HandleTwinFrame(s, f, None, false, env);
    HandleGood(s, f, None, false, env, s.trail, Live(s));
    HandleQuiet(s, f, None, env);
    HandleKeepsFlag(s, f, None, env);
    ObserveQuiet(h, f);
    var h1 := ObserveMsgId(ObserveIdSet(h, f.idSet), f.msgId);
    ObserveKeepsStore(h, f, env.now);
    BlockedPoll(h1, f, session, env, env.now);
  }

  lemma ObserveKeepsStore(s: Twin, f: Frame, now: real)
    ensures var r := ObserveMsgId(ObserveIdSet(s, f.idSet), f.msgId);
            && r.cloud == s.cloud && r.cloudLegacy == s.cloudLegacy && r.timeout == s.timeout
            && ExpireCloud(r, now).cloud == ExpireCloud(s, now).cloud
  {
  }

  /** So a tracked entry whose time is not up keeps a poll from the local queue. */
  lemma LiveEntryBlocksPoll(s: Twin, f: Frame, session: Option<string>, env: Env)
    requires Sound(s, env.now) && SaysNothing(f)
    requires s.cloudLegacy || exists p :: p in Entries(s.cloud) && !IsDue(p, env.now, s.timeout)
    ensures ServesNothing(s, BoxFrame(s, f, session, env).0, BoxFrame(s, f, session, env).1)
  {
    SilentFrame(s, f, None, env);
    ExpireTwice(s, env.now, env.now);
    ExpiryKeepsUndue(s, env.now);
    UndueMembers(Entries(s.cloud), env.now, s.timeout);
    CloudComesFirst(s, f, session, env);
  }

  /** In every run: no step with a frame of the Box serves the local queue while a cloud setting is left. */
  lemma CloudComesFirstInRuns(timeout: real, collector: bool, clock: real, steps: seq<Timed>, f: Frame,
                              session: Option<string>, env: Env)
    requires Legal(Initial(timeout, collector), clock, steps)
    requires clock <= env.now && (steps != [] ==> steps[|steps| - 1].env.now <= env.now)
    ensures var s := Run(Initial(timeout, collector), steps);
            var h := HandleTwinFrame(s, f, None, false, env);
            s.cloudLegacy || Entries(ExpireCloud(h, env.now).cloud) != [] ==>
              ServesNothing(s, BoxFrame(s, f, session, env).0, BoxFrame(s, f, session, env).1)
  {
    InitialSound(timeout, collector, clock);
    RunSoundAtEnd(Initial(timeout, collector), clock, steps);
    var s := Run(Initial(timeout, collector), steps);
    SoundLater(s, EndOf(clock, steps), env.now);
    if s.cloudLegacy || Entries(ExpireCloud(HandleTwinFrame(s, f, None, false, env), env.now).cloud) != [] {
      CloudComesFirst(s, f, session, env);
    }
  }

  function EndOf(clock: real, steps: seq<Timed>): real {
    if steps == [] then clock else steps[|steps| - 1].env.now
  }

  lemma {:induction false} RunSoundAtEnd(s: Twin, clock: real, steps: seq<Timed>)
    requires Sound(s, clock) && Legal(s, clock, steps)
    ensures Sound(Run(s, steps), EndOf(clock, steps))
    decreases |steps|
  {
    if steps != [] {
      var t := steps[0];
      StepSound(s, t.e, t.env, clock);
      RunSoundAtEnd(Step(s, t.e, t.env), t.env.now, steps[1..]);
      if |steps| > 1 { assert steps[1..][|steps| - 2] == steps[|steps| - 1]; }
    }
  }

  // ---- Withheld frames ----

  lemma InjectWrites(s: Twin, x: TwinSetting, deviceId: string, sid: string, numberMessage: bool, env: Env)
    ensures var r := Inject(s, x, deviceId, sid, numberMessage, env);
            && r.delivered == s.delivered
            && Written(r.idLog) == Written(s.idLog) + (if env.writeOk then [x] else [])
            && (env.writeOk ==> r.idLog != [] && r.idLog[|r.idLog| - 1].Injected?
                                && r.idLog[|r.idLog| - 1].setting == x && r.idLog[|r.idLog| - 1].deviceId == deviceId)
  {
    var id := NextId(s.lastIdSet, env.second);
    WrittenAppend(s.idLog, Issued(id, env.second));
    var log := s.idLog + [Issued(id, env.second)];
    WrittenAppend(log, Injected(x, deviceId, id));
  }

  lemma AnswerWrites(s: Twin, f: Frame, session: Option<string>, env: Env)
    ensures var (r, withheld) := AnswerPoll(s, f, session, env);
            && (withheld ==>
                  r.delivered != [] && Written(r.idLog) == Written(s.idLog) + [r.delivered[|r.delivered| - 1]])
            && (!withheld ==> Written(r.idLog) == Written(s.idLog))
  {
    var (s1, x) := DeliverPending(s, f.deviceId, session, env.now);
    DeliverKeepsLog(s, f.deviceId, session, env.now);
    if x.Some? { InjectWrites(s1, x.value, f.deviceId, Label(session), true, env); }
  }

  lemma DeliverKeepsLog(s: Twin, deviceId: string, session: Option<string>, now: real)
    ensures var (r, x) := DeliverPending(s, deviceId, session, now);
            r.idLog == s.idLog && (x.Some? ==> r.delivered != [] && r.delivered[|r.delivered| - 1] == x.value)
  {
    var s1 := DropTimedOut(s, Label(session), now);
    PendingMembers(s1.queue);
  }

  /** A frame is withheld from the cloud exactly when the Setting frame of the setting just delivered was written. */
  lemma WithheldIffWritten(s: Twin, f: Frame, session: Option<string>, env: Env)
    ensures var (r, withheld) := BoxFrame(s, f, session, env);
            && (withheld <==> Written(r.idLog) != Written(s.idLog))
            && (withheld ==>
                  r.delivered != [] && Written(r.idLog) == Written(s.idLog) + [r.delivered[|r.delivered| - 1]])
  {
    var h := HandleTwinFrame(s, f, None, false, env);
    HandleQuiet(s, f, None, env);
    ObserveQuiet(h, f);
    var h1 := ObserveMsgId(ObserveIdSet(h, f.idSet), f.msgId);
    CheckCloudQuiet(h1, f, env.now);
    AnswerWrites(CheckCloudBeforePoll(h1, f, env.now), f, session, env);
    var written := Written(BoxFrame(s, f, session, env).0.idLog);
    if BoxFrame(s, f, session, env).1 { assert |written| == |Written(s.idLog)| + 1; }
  }

  // ---- Who is served ----

  /** The poll of a session gets a local setting. */
  predicate Served(s: Twin, f: Frame, session: Option<string>, now: real) {
    && f.tableName in {"IsNewSet", "IsNewFW", "IsNewWeather"}
    && !s.cloudLegacy && (forall p :: p in Entries(s.cloud) ==> IsDue(p, now, s.timeout))
    && PollDelivers(s, session, now)
  }

  lemma ExpireKeepsSlots(s: Twin, clock: real, now: real)
    requires Slots(s, clock) && clock <= now
    ensures Slots(ExpireCloud(s, now), now)
  {
    SlotsLater(s, clock, now);
    SlotsFrame(s, ExpireCloud(s, now), now);
  }

  lemma SamePollers(s: Twin, r: Twin, session: Option<string>, now: real)
    requires SameSlots(s, r) && r.timeout == s.timeout
    ensures PollDelivers(r, session, now) == PollDelivers(s, session, now) && Waiting(r, now) == Waiting(s, now)
  {
  }

  lemma AnswerServes(s: Twin, f: Frame, session: Option<string>, env: Env)
    requires Slots(s, env.now) && IsPoll(f) && !CloudInflight(s)
    ensures var (r, withheld) := AnswerPoll(s, f, session, env);
            if PollDelivers(s, session, env.now) then
              && GetPending(Waiting(s, env.now)) != []
              && r.delivered == s.delivered + [GetPending(Waiting(s, env.now))[0]] && withheld == env.writeOk
            else r.delivered == s.delivered && !withheld
  {
    PollOutcome(s, f.deviceId, session, env.now, env.now);
    if s.inflightKey.Some? { LookupSpec(s.queue, s.inflightKey.value); }
    var (s1, x) := DeliverPending(s, f.deviceId, session, env.now);
    if x.Some? { InjectWrites(s1, x.value, f.deviceId, Label(session), true, env); }
  }

  lemma UnservedPoll(s: Twin, f: Frame, session: Option<string>, env: Env)
    requires !IsPoll(f) || CloudInflight(s)
    ensures AnswerPoll(s, f, session, env) == (s, false)
  {
  }

  /**
   A poll is answered by a local setting exactly when no cloud setting is left,
   nothing is in flight any more, the session does not wait for its own setting
   and something is queued. Then the head of the sorted queue is delivered, and
   the poll is withheld when the write succeeds.
   */
  lemma PollIsServedIff(s: Twin, f: Frame, session: Option<string>, env: Env)
    requires Sound(s, env.now) && SaysNothing(f)
    ensures var (r, withheld) := BoxFrame(s, f, session, env);
            if Served(s, f, session, env.now) then
              && GetPending(Waiting(s, env.now)) != []
              && r.delivered == s.delivered + [GetPending(Waiting(s, env.now))[0]] && withheld == env.writeOk
            else ServesNothing(s, r, withheld)
  {
    WithheldIffWritten(s, f, session, env);
    SilentBoxFrame(s, f, session, env);
    var h := BeforeAnswer(s, f, env.now);
    if IsPoll(f) && !CloudInflight(h) {
      AnswerServes(h, f, session, env);
    } else {
      UnservedPoll(h, f, session, env);
    }
  }

  /** The state in which a silent frame of the Box is answered. */
  function BeforeAnswer(s: Twin, f: Frame, now: real): Twin {
    CheckCloudBeforePoll(ObserveMsgId(ObserveIdSet(ExpireCloud(s, now), f.idSet), f.msgId), f, now)
  }

  lemma SilentBoxFrame(s: Twin, f: Frame, session: Option<string>, env: Env)
    requires Sound(s, env.now) && SaysNothing(f)
    ensures var h := BeforeAnswer(s, f, env.now);
            && BoxFrame(s, f, session, env) == AnswerPoll(h, f, session, env)
            && Slots(h, env.now) && h.delivered == s.delivered
            && PollDelivers(h, session, env.now) == PollDelivers(s, session, env.now)
            && Waiting(h, env.now) == Waiting(s, env.now)
            && (CloudInflight(h) <==>
                  s.cloudLegacy || exists p :: p in Entries(s.cloud) && !IsDue(p, env.now, s.timeout))
  {
    var h, h2 := ExpireCloud(s, env.now), BeforeAnswer(s, f, env.now);
    SilentFrame(s, f, None, env);
    BeforeAnswerShape(s, f, env.now);
    ExpireKeepsSlots(s, env.now, env.now);
    SlotsFrame(h, h2, env.now);
    SamePollers(s, h2, session, env.now);
    LeftIffUndue(Entries(s.cloud), env.now, s.timeout);
  }

  lemma {:induction false} UndueTwice(entries: seq<CloudPending>, now: real, timeout: real)
    ensures Undue(Undue(entries, now, timeout), now, timeout) == Undue(entries, now, timeout)
  {
    if entries != [] {
      UndueTwice(entries[1..], now, timeout);
      var rest := Undue(entries[1..], now, timeout);
      if IsDue(entries[0], now, timeout) {
        assert [] + rest == rest;
      } else {
        assert ([entries[0]] + rest)[1..] == rest;
      }
    }
  }

  /** Only the store may differ, by what is due, and the numbers observed. */
  predicate SameButStore(s: Twin, r: Twin) {
    SameSlots(s, r) && r.timeout == s.timeout && r.cloudLegacy == s.cloudLegacy
  }

  lemma ObserveShape(s: Twin, f: Frame)
    ensures var r := ObserveMsgId(ObserveIdSet(s, f.idSet), f.msgId);
            SameButStore(s, r) && r.cloud == s.cloud
  {
  }

  lemma ExpireShape(s: Twin, now: real)
    ensures SameButStore(s, ExpireCloud(s, now))
  {
  }

  lemma CheckShape(s: Twin, f: Frame, now: real)
    requires CloudOk(s.cloud, s.timeout, now)
    ensures var r := CheckCloudBeforePoll(s, f, now);
            SameButStore(s, r)
            && Entries(r.cloud) == if IsPoll(f) || s.queue != [] then Undue(Entries(s.cloud), now, s.timeout)
                                   else Entries(s.cloud)
  {
    CheckIsExpiry(s, f, now, now);
    ExpiryKeepsUndue(s, now);
    ExpireShape(s, now);
  }

  lemma BeforeAnswerShape(s: Twin, f: Frame, now: real)
    requires CloudOk(s.cloud, s.timeout, now)
    ensures SameButStore(s, BeforeAnswer(s, f, now))
    ensures Entries(BeforeAnswer(s, f, now).cloud) == Undue(Entries(s.cloud), now, s.timeout)
  {
    var h := ExpireCloud(s, now);
    ExpireShape(s, now);
    ExpireKeepsCloud(s, now, now);
    ExpiryKeepsUndue(s, now);
    ObserveShape(h, f);
    CheckShape(ObserveMsgId(ObserveIdSet(h, f.idSet), f.msgId), f, now);
    UndueTwice(Entries(s.cloud), now, s.timeout);
  }

  lemma LeftIffUndue(entries: seq<CloudPending>, now: real, timeout: real)
    ensures Undue(entries, now, timeout) == [] <==> forall p :: p in entries ==> IsDue(p, now, timeout)
  {
    UndueMembers(entries, now, timeout);
    if Undue(entries, now, timeout) != [] {
      assert Undue(entries, now, timeout)[0] in Undue(entries, now, timeout);
    }
  }

  /** What the hook of the cloud and offline paths delivers and writes. */
  predicate ServedByHook(s: Twin, r: Twin, env: Env) {
    if PollDelivers(s, None, env.now) then
      && GetPending(Waiting(s, env.now)) != []
      && r.delivered == s.delivered + [GetPending(Waiting(s, env.now))[0]]
      && Written(r.idLog) == Written(s.idLog) + (if env.writeOk then [GetPending(Waiting(s, env.now))[0]] else [])
    else r.delivered == s.delivered && Written(r.idLog) == Written(s.idLog)
  }

  /** A poll for settings is served that way, any other frame not at all. */
  predicate HookOutcome(s: Twin, f: Frame, r: Twin, env: Env) {
    if f.tableName == "IsNewSet" then ServedByHook(s, r, env) else ServesNothing(s, r, false)
  }

  lemma HookServes(s: Twin, f: Frame, env: Env, clock: real)
    requires Slots(s, clock) && clock <= env.now
    ensures ServedByHook(s, IsNewSetHook(s, f, env), env)
  {
    var (s1, x) := DeliverPending(s, f.deviceId, None, env.now);
    PollOutcome(s, f.deviceId, None, clock, env.now);
    DeliverKeepsLog(s, f.deviceId, None, env.now);
    if x.Some? { InjectWrites(s1, x.value, f.deviceId, "", false, env); }
  }

  /** On the cloud and offline paths a poll for settings gets the head of the queue, whatever the cloud has pending. */
  lemma HookServesIff(s: Twin, f: Frame, session: Option<string>, env: Env, clock: real)
    requires Slots(s, clock) && clock <= env.now
    ensures HookOutcome(s, f, HandleTwinFrame(s, f, session, true, env), env)
  {
    var s0 := if f.tableName == "IsNewSet" then IsNewSetHook(s, f, env) else s;
    HookServes(s, f, env, clock);
    HandleQuiet(s0, f, session, env);
    assert HandleTwinFrame(s, f, session, true, env) == HandleTwinFrame(s0, f, session, false, env);
  }

  /** An offline step is served that way. */
  lemma OfflineServesIff(s: Twin, f: Frame, env: Env, clock: real)
    requires Slots(s, clock) && clock <= env.now
    ensures HookOutcome(s, f, Step(s, Offline(f), env), env)
  {
    HookServesIff(s, f, None, env, clock);
  }

  lemma TrackKeepsSlots(s: Twin, f: Frame, c: CloudSetting, now: real)
    ensures SameSlots(s, TrackCloud(s, f, c, now)) && TrackCloud(s, f, c, now).timeout == s.timeout
  {
  }

  lemma ObserveKeepsSlots(s: Twin, f: Frame)
    ensures var r := ObserveMsgId(ObserveIdSet(s, f.idSet), f.msgId);
            SameSlots(s, r) && r.timeout == s.timeout
  {
  }

  predicate SameQueueAndWrites(s: Twin, r: Twin) {
    SameSlots(s, r) && r.timeout == s.timeout && Written(r.idLog) == Written(s.idLog)
  }

  lemma TrackKeepsPollers(s: Twin, f: Frame, c: CloudSetting, now: real)
    ensures SameQueueAndWrites(s, TrackCloud(ObserveMsgId(ObserveIdSet(s, f.idSet), f.msgId), f, c, now))
  {
    var s1 := ObserveMsgId(ObserveIdSet(s, f.idSet), f.msgId);
    ObserveQuiet(s, f);
    ObserveKeepsSlots(s, f);
    TrackCloudQuiet(s1, f, c, now);
    TrackKeepsSlots(s1, f, c, now);
  }

  lemma SameHookOutcome(s: Twin, s1: Twin, f: Frame, r: Twin, env: Env)
    requires SameQueueAndWrites(s, s1)
    ensures HookOutcome(s1, f, r, env) <==> HookOutcome(s, f, r, env)
  {
    SamePollers(s, s1, None, env.now);
  }

  /** And so is a frame from the cloud, after what it says about cloud settings. */
  lemma CloudStepServesIff(s: Twin, f: Frame, c: CloudSetting, session: Option<string>, env: Env, clock: real)
    requires Slots(s, clock) && clock <= env.now
    ensures HookOutcome(s, f, CloudFrame(s, f, c, session, env), env)
  {
    var s1 := TrackCloud(ObserveMsgId(ObserveIdSet(s, f.idSet), f.msgId), f, c, env.now);
    TrackKeepsPollers(s, f, c, env.now);
    SlotsFrame(s, s1, clock);
    HookServesIff(s1, f, session, env, clock);
    SameHookOutcome(s, s1, f, HandleTwinFrame(s1, f, session, true, env), env);
  }

  // ---- Sessions ----

  /** The answers in a frame of the Box leave every session entry alone: it is handled without its session. */
  lemma AnswersKeepSessions(s: Twin, f: Frame, session: Option<string>, env: Env)
    requires !IsPoll(f)
    ensures BoxFrame(s, f, session, env).0.sessions == s.sessions
    ensures BoxFrame(s, f, session, env).0.timeout == s.timeout
  {
    var h := HandleTwinFrame(s, f, None, false, env);
    HandleKeepsFlag(s, f, None, env);
    CheckKeepsSessions(ObserveMsgId(ObserveIdSet(h, f.idSet), f.msgId), f, session, env);
  }

  lemma CheckKeepsSessions(s: Twin, f: Frame, session: Option<string>, env: Env)
    requires !IsPoll(f)
    ensures var r := AnswerPoll(CheckCloudBeforePoll(s, f, env.now), f, session, env).0;
            r.sessions == s.sessions && r.timeout == s.timeout
  {
    UnservedPoll(CheckCloudBeforePoll(s, f, env.now), f, session, env);
  }

  /** So a session waits out its time even when the Box has answered about its setting. */
  lemma SessionWaitsItsTime(s: Twin, f: Frame, session: Option<string>, env: Env, poll: Frame, later: Env)
    requires Sound(s, env.now) && !IsPoll(f) && SaysNothing(poll) && env.now <= later.now
    requires session.Some? && session.value in s.sessions && later.now - s.sessions[session.value].since < s.timeout
    ensures var r := BoxFrame(s, f, session, env).0;
            ServesNothing(r, BoxFrame(r, poll, session, later).0, BoxFrame(r, poll, session, later).1)
  {
    var r := BoxFrame(s, f, session, env).0;
    AnswersKeepSessions(s, f, session, env);
    StepSound(s, FromBox(f, session), env, env.now);
    SoundLater(r, env.now, later.now);
    PollIsServedIff(r, poll, session, later);
  }
}
