/** The audit trail tells the truth about what was delivered and what was written to the Box. */
module TwinTrace {
  import opened Options
  import opened SettingsAudit
  import opened TwinState
  import opened CloudStore
  import opened TwinModel
  import opened TwinInvariants
  import opened TwinFrames
  import TwinProgress
  import opened TwinRuns

  /** The audit ids of the records of one step, in order. */
  function Said(trail: seq<AuditRecord>, step: SettingStep): seq<string> {
    if trail == [] then []
    else
      Said(trail[..|trail| - 1], step)
      + (if trail[|trail| - 1].step == step then [trail[|trail| - 1].auditId] else [])
  }

  /** The audit ids of the settings that have one. */
  function Named(xs: seq<TwinSetting>): seq<string> {
    if xs == [] then []
    else
      Named(xs[..|xs| - 1])
      + (if xs[|xs| - 1].auditId != "" then [xs[|xs| - 1].auditId] else [])
  }

  /** The settings whose frames were written to the Box. */
  function Written(log: seq<IdEvent>): seq<TwinSetting> {
    if log == [] then []
    else
      Written(log[..|log| - 1])
      + (if log[|log| - 1].Injected? then [log[|log| - 1].setting] else [])
  }

  /** The first list is what remains of the second when some of it is left out. */
  predicate IsPartOf(part: seq<TwinSetting>, all: seq<TwinSetting>)
    decreases |all|
  {
    if all == [] then part == []
    else
      IsPartOf(part, all[..|all| - 1])
      || (part != [] && part[|part| - 1] == all[|all| - 1] && IsPartOf(part[..|part| - 1], all[..|all| - 1]))
  }

  /** on says whether there is a collector. */
  predicate Truthful(s: Twin, on: bool) {
    && s.collector == on
    && IsPartOf(Written(s.idLog), s.delivered)
    && (on ==> Said(s.trail, DeliverSelected) == Named(s.delivered)
               && Said(s.trail, InjectedBox) == Named(Written(s.idLog)))
  }

  /** The last setting delivered is x, and it was not written yet. */
  predicate Unwritten(s: Twin, x: TwinSetting) {
    && s.delivered != [] && s.delivered[|s.delivered| - 1] == x
    && IsPartOf(Written(s.idLog), s.delivered[..|s.delivered| - 1])
  }

  /** Nothing was delivered or written, and nothing was said about either. */
  predicate Quiet(s: Twin, r: Twin) {
    && r.collector == s.collector && r.delivered == s.delivered
    && Written(r.idLog) == Written(s.idLog)
    && Said(r.trail, DeliverSelected) == Said(s.trail, DeliverSelected)
    && Said(r.trail, InjectedBox) == Said(s.trail, InjectedBox)
  }

  predicate IsMove(step: SettingStep) {
    step == DeliverSelected || step == InjectedBox
  }

  lemma SaidAppend(trail: seq<AuditRecord>, r: AuditRecord, step: SettingStep)
    ensures Said(trail + [r], step) == Said(trail, step) + if r.step == step then [r.auditId] else []
  {
    assert (trail + [r])[..|trail|] == trail;
  }

  lemma NamedAppend(xs: seq<TwinSetting>, x: TwinSetting)
    ensures Named(xs + [x]) == Named(xs) + if x.auditId != "" then [x.auditId] else []
  {
    assert (xs + [x])[..|xs|] == xs;
  }

  lemma WrittenAppend(log: seq<IdEvent>, e: IdEvent)
    ensures Written(log + [e]) == Written(log) + if e.Injected? then [e.setting] else []
  {
    assert (log + [e])[..|log|] == log;
  }

  // ---- Quiet transitions ----

  lemma RecordQuiet(s: Twin, x: TwinSetting, deviceId: string, step: SettingStep,
                    result: Option<SettingResult>, sid: string)
    requires !IsMove(step)
    ensures Quiet(s, RecordStep(s, x, deviceId, step, result, sid))
  {
    SaidAppend(s.trail, StepRecord(x, deviceId, step, result, sid), DeliverSelected);
    SaidAppend(s.trail, StepRecord(x, deviceId, step, result, sid), InjectedBox);
  }

  lemma RecordQueuedQuiet(s: Twin, id: SettingKey, step: SettingStep, sid: string)
    requires !IsMove(step)
    ensures Quiet(s, RecordQueued(s, id, step, sid))
  {
    var x := Lookup(s.queue, id);
    if x.Some? && s.inflightDevice.Some? { RecordQuiet(s, x.value, s.inflightDevice.value, step, None, sid); }
  }

  lemma DropTimedOutQuiet(s: Twin, sid: string, now: real)
    ensures Quiet(s, DropTimedOut(s, sid, now))
  {
    if InflightTimedOut(s, now) { RecordQueuedQuiet(s, s.inflightKey.value, Timeout, sid); }
  }

  lemma DropSessionQuiet(s: Twin, sid: string, step: SettingStep)
    requires !IsMove(step)
    ensures Quiet(s, DropSession(s, sid, step))
  {
    if sid in s.sessions { RecordQueuedQuiet(s, SettingKey(s.sessions[sid].table, s.sessions[sid].key), step, sid); }
  }

  lemma {:induction false} ExpiriesQuiet(s: Twin, ps: seq<CloudPending>)
    ensures Quiet(s, RecordExpiries(s, ps))
    decreases |ps|
  {
    if ps != [] {
      var p, e := ps[|ps| - 1], RecordExpiries(s, ps[..|ps| - 1]);
      ExpiriesQuiet(s, ps[..|ps| - 1]);
      RecordQuiet(e, p.setting, p.deviceId, AckReasonSetting, Some(Confirmed), "");
      RecordQuiet(e, p.setting, p.deviceId, Timeout, None, "");
    }
  }

  lemma ExpireQuiet(s: Twin, now: real)
    ensures Quiet(s, ExpireCloud(s, now))
  {
    ExpiriesQuiet(s, Hit(Entries(s.cloud), Expired(now, s.timeout)));
  }

  lemma BeginQuiet(s: Twin, x: TwinSetting, deviceId: string, now: real)
    ensures Quiet(s, BeginCloud(s, x, deviceId, now))
  {
    ExpireQuiet(s, now);
    var s1, r := ExpireCloud(s, now), AuditRecord(x.auditId, deviceId, x.table, x.key, Incoming, Pending, "");
    SaidAppend(s1.trail, r, DeliverSelected);
    SaidAppend(s1.trail, r, InjectedBox);
  }

  lemma MarkQuiet(s: Twin, deviceId: string, sid: string, now: real)
    ensures Quiet(s, MarkReason(s, deviceId, sid, now).0)
  {
    ExpireQuiet(s, now);
    var s1 := ExpireCloud(s, now);
    match Oldest(ForDevice(Entries(s1.cloud), Some(deviceId)))
    case None =>
    case Some(p) => RecordQuiet(s1, p.setting, p.deviceId, AckReasonSetting, Some(Pending), sid);
  }

  lemma MatchQuiet(s: Twin, deviceId: string, table: string, key: string, confirmed: string, sid: string, now: real)
    ensures Quiet(s, MatchTblEvents(s, deviceId, table, key, confirmed, sid, now).0)
  {
    ExpireQuiet(s, now);
    var s1 := ExpireCloud(s, now);
    var entries := QueueOf(s1.cloud, CloudKey(deviceId, table, key));
    if entries != [] {
      var p := MatchIn(entries, confirmed);
      RecordQuiet(s1, p.setting, p.deviceId, AckTblEvents, None, sid);
    }
  }

  lemma AcknowledgeQuiet(s: Twin, table: string, key: string, session: Option<string>)
    ensures Quiet(s, Acknowledge(s, table, key, session))
  {
  }

  lemma ObserveQuiet(s: Twin, f: Frame)
    ensures Quiet(s, ObserveMsgId(ObserveIdSet(s, f.idSet), f.msgId))
  {
    if f.idSet.Some? { WrittenAppend(s.idLog, Observed(f.idSet.value)); }
  }

  // ---- The two moves ----

  lemma PartOfMore(part: seq<TwinSetting>, all: seq<TwinSetting>, x: TwinSetting)
    requires IsPartOf(part, all)
    ensures IsPartOf(part, all + [x]) && IsPartOf(part + [x], all + [x])
  {
    assert (all + [x])[..|all|] == all && (part + [x])[..|part|] == part;
  }

  lemma SelectUnwritten(s: Twin, x: TwinSetting, deviceId: string, session: Option<string>, now: real)
    requires IsPartOf(Written(s.idLog), s.delivered)
    ensures var r := Select(s, x, deviceId, session, now);
            Unwritten(r, x) && IsPartOf(Written(r.idLog), r.delivered)
  {
    PartOfMore(Written(s.idLog), s.delivered, x);
    assert (s.delivered + [x])[..|s.delivered|] == s.delivered;
  }

  lemma SelectTruthful(s: Twin, x: TwinSetting, deviceId: string, session: Option<string>, now: real, on: bool)
    requires Truthful(s, on)
    ensures Truthful(Select(s, x, deviceId, session, now), on) && Unwritten(Select(s, x, deviceId, session, now), x)
  {
    SelectUnwritten(s, x, deviceId, session, now);
    NamedAppend(s.delivered, x);
    SaidAppend(s.trail, StepRecord(x, deviceId, DeliverSelected, None, Label(session)), DeliverSelected);
    SaidAppend(s.trail, StepRecord(x, deviceId, DeliverSelected, None, Label(session)), InjectedBox);
  }

  lemma DeliverTruthful(s: Twin, deviceId: string, session: Option<string>, now: real, on: bool)
    requires Truthful(s, on)
    ensures var (r, x) := DeliverPending(s, deviceId, session, now);
            Truthful(r, on) && (x.Some? ==> Unwritten(r, x.value))
  {
    var s1 := DropTimedOut(s, Label(session), now);
    DropTimedOutQuiet(s, Label(session), now);
    if !SessionBlocks(s1, session, now) {
      var s2 := if session.Some? then DropSession(s1, session.value, Timeout) else s1;
      if session.Some? { DropSessionQuiet(s1, session.value, Timeout); }
      if s2.inflightKey.None? && s2.queue != [] {
        PendingMembers(s2.queue);
        SelectTruthful(s2, GetPending(s2.queue)[0], deviceId, session, now, on);
      }
    }
  }

  lemma WriteTruthful(s: Twin, x: TwinSetting, deviceId: string, id: int, sid: string, on: bool)
    requires Truthful(s, on) && Unwritten(s, x)
    ensures Truthful(
              RecordStep(s.(idLog := s.idLog + [Injected(x, deviceId, id)]), x, deviceId, InjectedBox, None, sid), on)
  {
    PartOfMore(Written(s.idLog), s.delivered[..|s.delivered| - 1], x);
    assert s.delivered[..|s.delivered| - 1] + [x] == s.delivered;
    WrittenAppend(s.idLog, Injected(x, deviceId, id));
    NamedAppend(Written(s.idLog), x);
    SaidAppend(s.trail, StepRecord(x, deviceId, InjectedBox, None, sid), DeliverSelected);
    SaidAppend(s.trail, StepRecord(x, deviceId, InjectedBox, None, sid), InjectedBox);
  }

  lemma InjectTruthful(s: Twin, x: TwinSetting, deviceId: string, sid: string, numberMessage: bool, env: Env, on: bool)
    requires Truthful(s, on) && Unwritten(s, x)
    ensures Truthful(Inject(s, x, deviceId, sid, numberMessage, env), on)
  {
    var id := NextId(s.lastIdSet, env.second);
    WrittenAppend(s.idLog, Issued(id, env.second));
    var s1 := NextIdSet(s, env.second);
    assert Written(s1.idLog) == Written(s.idLog);
    var s2 := if numberMessage then NextMsgId(s1, env.random) else s1;
    WriteTruthful(s2, x, deviceId, id, sid, on);
  }

  lemma DeliverInjectTruthful(s: Twin, deviceId: string, session: Option<string>, sid: string,
                              numberMessage: bool, env: Env, on: bool)
    requires Truthful(s, on)
    ensures var (s1, x) := DeliverPending(s, deviceId, session, env.now);
            Truthful(s1, on) && (x.Some? ==> Truthful(Inject(s1, x.value, deviceId, sid, numberMessage, env), on))
  {
    DeliverTruthful(s, deviceId, session, env.now, on);
    var (s1, x) := DeliverPending(s, deviceId, session, env.now);
    if x.Some? { InjectTruthful(s1, x.value, deviceId, sid, numberMessage, env, on); }
  }

  // ---- Frames and messages ----

  lemma OnBoxAckQuiet(s: Twin, f: Frame, pair: Pair, session: Option<string>)
    ensures Quiet(s, OnBoxAck(s, f, pair, session))
  {
    if f.ack.Some? {
      AcknowledgeQuiet(s, f.ack.value.table, f.ack.value.todo, session);
      if pair.Some? { RecordQuiet(s, pair.value.0, pair.value.1, AckBoxObserved, None, Label(session)); }
    }
  }

  lemma UnmatchedQuiet(s: Twin, e: EventAck, pair: Pair, session: Option<string>)
    ensures var r := if IsFor(pair, SettingKey(e.table, e.key)) then
                       RecordStep(s, pair.value.0, pair.value.1, AckTblEvents, None, Label(session))
                     else s;
            Quiet(s, Acknowledge(r, e.table, e.key, session))
  {
    var r := s;
    if IsFor(pair, SettingKey(e.table, e.key)) {
      RecordQuiet(s, pair.value.0, pair.value.1, AckTblEvents, None, Label(session));
      r := RecordStep(s, pair.value.0, pair.value.1, AckTblEvents, None, Label(session));
    }
    AcknowledgeQuiet(r, e.table, e.key, session);
  }

  lemma OnEventQuiet(s: Twin, f: Frame, pair: Pair, session: Option<string>, now: real)
    ensures Quiet(s, OnEvent(s, f, pair, session, now))
  {
    if f.event.Some? {
      var e := f.event.value;
      MatchQuiet(s, f.deviceId, e.table, e.key, e.value, Label(session), now);
      UnmatchedQuiet(MatchTblEvents(s, f.deviceId, e.table, e.key, e.value, Label(session), now).0, e, pair, session);
    }
  }

  lemma RecordAcknowledgeQuiet(s: Twin, x: TwinSetting, deviceId: string, step: SettingStep,
                               result: Option<SettingResult>, session: Option<string>)
    requires !IsMove(step)
    ensures Quiet(s, Acknowledge(RecordStep(s, x, deviceId, step, result, Label(session)), x.table, x.key, session))
  {
    RecordQuiet(s, x, deviceId, step, result, Label(session));
    AcknowledgeQuiet(RecordStep(s, x, deviceId, step, result, Label(session)), x.table, x.key, session);
  }

  lemma OnReasonQuiet(s: Twin, f: Frame, pair: Pair, session: Option<string>, now: real)
    ensures Quiet(s, OnReason(s, f, pair, session, now))
  {
    MarkQuiet(s, f.deviceId, Label(session), now);
    var s1 := MarkReason(s, f.deviceId, Label(session), now).0;
    if pair.Some? {
      RecordAcknowledgeQuiet(s1, pair.value.0, pair.value.1, AckReasonSetting, Some(Confirmed), session);
    }
  }

  lemma OnNackQuiet(s: Twin, f: Frame, pair: Pair, session: Option<string>)
    ensures Quiet(s, OnNack(s, f, pair, session))
  {
    if pair.Some? { RecordAcknowledgeQuiet(s, pair.value.0, pair.value.1, Nack, None, session); }
  }

  lemma HandleTruthful(s: Twin, f: Frame, session: Option<string>, hook: bool, env: Env, on: bool)
    requires Truthful(s, on)
    ensures Truthful(HandleTwinFrame(s, f, session, hook, env), on)
  {
    DeliverInjectTruthful(s, f.deviceId, None, "", false, env, on);
    var s0 := if hook && f.tableName == "IsNewSet" then IsNewSetHook(s, f, env) else s;
    ExpireQuiet(s0, env.now);
    var s1 := ExpireCloud(s0, env.now);
    var pair := InflightSetting(s1);
    OnBoxAckQuiet(s1, f, pair, session);
    var s2 := OnBoxAck(s1, f, pair, session);
    OnEventQuiet(s2, f, pair, session, env.now);
    var s3 := OnEvent(s2, f, pair, session, env.now);
    OnReasonQuiet(s3, f, pair, session, env.now);
    OnNackQuiet(OnReason(s3, f, pair, session, env.now), f, pair, session);
  }

  lemma CheckCloudQuiet(s: Twin, f: Frame, now: real)
    ensures Quiet(s, CheckCloudBeforePoll(s, f, now))
  {
    ExpireQuiet(s, now);
    ExpireQuiet(if IsPoll(f) then ExpireCloud(s, now) else s, now);
  }

  lemma BoxFrameTruthful(s: Twin, f: Frame, session: Option<string>, env: Env, on: bool)
    requires Truthful(s, on)
    ensures Truthful(BoxFrame(s, f, session, env).0, on)
  {
    HandleTruthful(s, f, None, false, env, on);
    var s1 := HandleTwinFrame(s, f, None, false, env);
    ObserveQuiet(s1, f);
    var s2 := ObserveMsgId(ObserveIdSet(s1, f.idSet), f.msgId);
    CheckCloudQuiet(s2, f, env.now);
    DeliverInjectTruthful(CheckCloudBeforePoll(s2, f, env.now), f.deviceId, session, Label(session), true, env, on);
  }

  lemma TrackCloudQuiet(s: Twin, f: Frame, c: CloudSetting, now: real)
    ensures Quiet(s, TrackCloud(s, f, c, now))
  {
    match c
    case FullSetting(x) => BeginQuiet(s, x, f.deviceId, now);
    case PartialSetting =>
    case NoSetting => ExpireQuiet(s.(cloudLegacy := false), now);
  }

  lemma CloudFrameTruthful(s: Twin, f: Frame, c: CloudSetting, session: Option<string>, env: Env, on: bool)
    requires Truthful(s, on)
    ensures Truthful(CloudFrame(s, f, c, session, env), on)
  {
    ObserveQuiet(s, f);
    var s1 := ObserveMsgId(ObserveIdSet(s, f.idSet), f.msgId);
    TrackCloudQuiet(s1, f, c, env.now);
    HandleTruthful(TrackCloud(s1, f, c, env.now), f, session, true, env, on);
  }

  lemma {:induction false} SaidNothing(trail: seq<AuditRecord>, rs: seq<AuditRecord>, step: SettingStep)
    requires forall r :: r in rs ==> r.step != step
    ensures Said(trail + rs, step) == Said(trail, step)
    decreases |rs|
  {
    if rs == [] {
      assert trail + rs == trail;
    } else {
      assert trail + rs == trail + rs[..|rs| - 1] + [rs[|rs| - 1]];
      SaidNothing(trail, rs[..|rs| - 1], step);
      SaidAppend(trail + rs[..|rs| - 1], rs[|rs| - 1], step);
    }
  }

  lemma AdmitQuiet(s: Twin, deviceId: string, m: ControlMessage)
    ensures Quiet(s, Admit(s, deviceId, m))
  {
    SaidNothing(s.trail, AdmissionRecords(s.queue, deviceId, m), DeliverSelected);
    SaidNothing(s.trail, AdmissionRecords(s.queue, deviceId, m), InjectedBox);
  }

  lemma StepTruthful(s: Twin, e: Event, env: Env, on: bool)
    requires Truthful(s, on)
    ensures Truthful(Step(s, e, env), on)
  {
    match e
    case Message(deviceId, m) => AdmitQuiet(s, deviceId, m);
    case FromBox(f, session) => BoxFrameTruthful(s, f, session, env, on);
    case FromCloud(f, c, session) => CloudFrameTruthful(s, f, c, session, env, on);
    case Offline(f) => HandleTruthful(s, f, None, true, env, on);
    case SessionEnds(sid) => DropSessionQuiet(s, sid, SessionCleared);
  }

  lemma {:induction false} RunTruthful(s: Twin, steps: seq<Timed>, on: bool)
    requires Truthful(s, on)
    ensures Truthful(Run(s, steps), on)
    decreases |steps|
  {
    if steps != [] {
      StepTruthful(s, steps[0].e, steps[0].env, on);
      RunTruthful(Step(s, steps[0].e, steps[0].env), steps[1..], on);
    }
  }

  /**
   In every run with a collector the records of selections name the delivered
   settings, and the records of injections name the Setting frames written to
   the Box, each once, in order.
   */
  lemma TrailIsTruthful(timeout: real, steps: seq<Timed>)
    ensures var s := Run(Initial(timeout, true), steps);
            && Said(s.trail, DeliverSelected) == Named(s.delivered)
            && Said(s.trail, InjectedBox) == Named(Written(s.idLog))
  {
    RunTruthful(Initial(timeout, true), steps, true);
  }

  lemma {:induction false} PartHasNoRepeats(part: seq<TwinSetting>, all: seq<TwinSetting>)
    requires IsPartOf(part, all)
    requires forall i, j :: 0 <= i < j < |all| ==> all[i].auditId != all[j].auditId
    ensures forall x :: x in part ==> x in all
    ensures forall i, j :: 0 <= i < j < |part| ==> part[i].auditId != part[j].auditId
    decreases |all|
  {
    if all != [] {
      var before, last := all[..|all| - 1], all[|all| - 1];
      assert forall x :: x in all <==> x in before || x == last;
      if IsPartOf(part, before) {
        PartHasNoRepeats(part, before);
      } else {
        var rest := part[..|part| - 1];
        PartHasNoRepeats(rest, before);
        assert part == rest + [last];
        forall i | 0 <= i < |rest| ensures rest[i].auditId != last.auditId {
          assert rest[i] in before;
        }
      }
    }
  }

  /**
   In every run before shutdown the settings written to the Box are delivered
   ones, in the order of their delivery, and no audit id is written twice.
   */
  lemma {:induction false} WrittenAtMostOnce(timeout: real, collector: bool, clock: real, steps: seq<Timed>)
    requires Legal(Initial(timeout, collector), clock, steps)
    ensures var s := Run(Initial(timeout, collector), steps);
            var written := Written(s.idLog);
            && IsPartOf(written, s.delivered) && (forall x :: x in written ==> x in s.delivered)
            && forall i, j :: 0 <= i < j < |written| ==> written[i].auditId != written[j].auditId
  {
    RunTruthful(Initial(timeout, collector), steps, collector);
    InitialSound(timeout, collector, clock);
    var end := RunSound(Initial(timeout, collector), clock, steps);
    var s := Run(Initial(timeout, collector), steps);
    assert Once(s);
    PartHasNoRepeats(Written(s.idLog), s.delivered);
  }

  // ---- What leaves the queue ----

  lemma DropTimedOutLedgers(s: Twin, sid: string, now: real, x: TwinSetting, clock: real)
    requires Slots(s, clock) && s.collector && x in s.queue && x.auditId != ""
    ensures x in DropTimedOut(s, sid, now).queue || x.auditId in DropTimedOut(s, sid, now).ledger
  {
    if InflightTimedOut(s, now) {
      DropSpec(s.queue, s.inflightKey.value);
      LookupSpec(s.queue, s.inflightKey.value);
      if x.Id() == s.inflightKey.value {
        TwinProgress.RecordKeepsLedger(s, x, s.inflightDevice.value, Timeout, None, sid);
      }
    }
  }

  lemma DropSessionKeepsLedger(s: Twin, sid: string, step: SettingStep)
    ensures s.ledger.Keys <= DropSession(s, sid, step).ledger.Keys
  {
    if sid in s.sessions {
      var x := Lookup(s.queue, SettingKey(s.sessions[sid].table, s.sessions[sid].key));
      if x.Some? && s.inflightDevice.Some? {
        TwinProgress.RecordKeepsLedger(s, x.value, s.inflightDevice.value, step, None, sid);
      }
    }
  }

  lemma DeliverKeepsLedger(s: Twin, deviceId: string, session: Option<string>, now: real)
    ensures DeliverPending(s, deviceId, session, now).0.queue == DropTimedOut(s, Label(session), now).queue
    ensures DropTimedOut(s, Label(session), now).ledger.Keys <= DeliverPending(s, deviceId, session, now).0.ledger.Keys
  {
    var s1 := DropTimedOut(s, Label(session), now);
    if session.Some? { DropSessionKeepsLedger(s1, session.value, Timeout); }
    PendingMembers(s1.queue);
  }

  lemma AcknowledgeExplains(s: Twin, table: string, key: string, session: Option<string>, x: TwinSetting)
    requires UniqueKeys(s.queue) && x in s.queue
    ensures x in Acknowledge(s, table, key, session).queue || x.Id() == SettingKey(table, key)
  {
    AcknowledgeTakes(s, table, key, session);
    DropSpec(s.queue, SettingKey(table, key));
  }

  /**
   A queued setting leaves the queue by an acknowledgement of its key, by a new
   value for its key, or by a poll that times it out; then it is in the ledger.
   */
  lemma QueueRemovalIsExplained(s: Twin, c: Call, x: TwinSetting, clock: real, now: real)
    requires Slots(s, clock) && clock <= now && s.collector && x in s.queue && x.auditId != ""
    ensures x in Do(s, c, now).queue
            || (c.DoDeliver? && x.auditId in Do(s, c, now).ledger)
            || (c.DoAcknowledge? && SettingKey(c.table, c.key) == x.Id())
            || (c.DoEnqueue? && c.x.Id() == x.Id())
  {
    if TouchesSlots(c) {
      match c
      case DoEnqueue(y) => PutSpec(s.queue, y);
      case DoDeliver(deviceId, session) =>
        DropTimedOutLedgers(s, Label(session), now, x, clock);
        DeliverKeepsLedger(s, deviceId, session, now);
      case DoAcknowledge(table, key, session) => AcknowledgeExplains(s, table, key, session, x);
      case DoClearSession(sid) =>
    } else {
      DoFrame(s, c, now);
    }
  }

  /** A queued setting that a message replaces is reported as superseded, and only that one leaves. */
  lemma ReplacementIsRecorded(s: Twin, deviceId: string, m: ControlMessage, x: TwinSetting)
    requires UniqueKeys(s.queue) && s.collector && x in s.queue && x.auditId != ""
    ensures x in Admit(s, deviceId, m).queue
            || (x.Id() == SettingKey(m.table, m.key) && SupersededRecord(deviceId, x) in Admit(s, deviceId, m).trail)
  {
    if AdmittedValue(m).Some? {
      PutSpec(s.queue, SettingOf(m, AdmittedValue(m).value));
      LookupSpec(s.queue, SettingKey(m.table, m.key));
      var rs := AdmissionRecords(s.queue, deviceId, m);
      if x.Id() == SettingKey(m.table, m.key) {
        assert rs[1] == SupersededRecord(deviceId, x);
        assert (s.trail + rs)[|s.trail| + 1] == rs[1];
      }
    }
  }

  /** The end of a session, or shutdown, leaves a terminal entry for the setting in flight there, which stays queued. */
  lemma EndingsAreLedgered(s: Twin, sid: string, x: TwinSetting)
    requires s.collector && x.auditId != "" && s.inflightDevice.Some?
    ensures sid in s.sessions && Lookup(s.queue, SettingKey(s.sessions[sid].table, s.sessions[sid].key)) == Some(x) ==>
              && x.auditId in DropSession(s, sid, SessionCleared).ledger
              && sid !in DropSession(s, sid, SessionCleared).sessions
              && DropSession(s, sid, SessionCleared).queue == s.queue
    ensures s.inflightKey.Some? && Lookup(s.queue, s.inflightKey.value) == Some(x) ==>
              x.auditId in Shutdown(s).ledger && Shutdown(s).queue == s.queue
  {
    TwinProgress.RecordKeepsLedger(s, x, s.inflightDevice.value, SessionCleared, None, sid);
    if s.inflightKey.Some? && Lookup(s.queue, s.inflightKey.value) == Some(x) {
      TwinProgress.RecordKeepsLedger(s, x, s.inflightDevice.value, SessionCleared, None, "");
      var s1 := ClearInflight(RecordQueued(s, s.inflightKey.value, SessionCleared, ""));
      TwinProgress.ExpiriesAreLedgered(s1, Entries(s1.cloud));
    }
  }

  // ---- Runs of the bare interface ----

  datatype TimedCall = TimedCall(c: Call, now: real)

  function Calls(s: Twin, calls: seq<TimedCall>): Twin
    decreases |calls|
  {
    if calls == [] then s else Calls(Do(s, calls[0].c, calls[0].now), calls[1..])
  }

  ghost predicate LegalCalls(s: Twin, clock: real, calls: seq<TimedCall>)
    decreases |calls|
  {
    calls == []
    || (clock <= calls[0].now
        && Admissible(s, calls[0].c)
        && LegalCalls(Do(s, calls[0].c, calls[0].now), calls[0].now, calls[1..]))
  }

  lemma {:induction false} CallsKeepInv(s: Twin, clock: real, calls: seq<TimedCall>) returns (end: real)
    requires Inv(s, clock) && LegalCalls(s, clock, calls)
    ensures clock <= end && Inv(Calls(s, calls), end)
    decreases |calls|
  {
    if calls == [] {
      end := clock;
    } else {
      DoKeepsInv(s, calls[0].c, clock, calls[0].now);
      end := CallsKeepInv(Do(s, calls[0].c, calls[0].now), calls[0].now, calls[1..]);
    }
  }

  /** Delivery is at most once, and the state well formed, whoever calls the interface in whatever order. */
  lemma AtMostOnceUnderAnyCalls(timeout: real, collector: bool, clock: real, calls: seq<TimedCall>) returns (end: real)
    requires LegalCalls(Initial(timeout, collector), clock, calls)
    ensures var s := Calls(Initial(timeout, collector), calls);
            && clock <= end && Slots(s, end) && CloudOk(s.cloud, s.timeout, end)
            && forall i, j :: 0 <= i < j < |s.delivered| ==> s.delivered[i].auditId != s.delivered[j].auditId
  {
    InitialSound(timeout, collector, clock);
    end := CallsKeepInv(Initial(timeout, collector), clock, calls);
  }
}
