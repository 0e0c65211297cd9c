/** No step is reported without its cause: what each record of a run owes to the step that wrote it. */
module TwinCauses {
  import opened Options
  import opened SettingsAudit
  import opened SettingsConstraints
  import opened TwinState
  import opened CloudStore
  import opened TwinModel
  import opened TwinInvariants
  import opened TwinFrames
  import opened TwinLocal
  import opened TwinRuns
  import opened TwinTracked
  import TwinPriority
  import TwinProgress

  // ---- What a step brings ----

  function FrameOf(e: Event): Option<Frame> {
    match e
    case FromBox(f, _) => Some(f)
    case FromCloud(f, _, _) => Some(f)
    case Offline(f) => Some(f)
    case _ => None
  }

  function AckOf(e: Event): Option<BoxAck> {
    if FrameOf(e).Some? then FrameOf(e).value.ack else None
  }

  function EventOf(e: Event): Option<EventAck> {
    if FrameOf(e).Some? then FrameOf(e).value.event else None
  }

  predicate HasEvent(e: Event, table: string, key: string) {
    EventOf(e).Some? && EventOf(e).value.table == table && EventOf(e).value.key == key
  }

  predicate HasNack(e: Event) {
    AckOf(e).Some? && AckOf(e).value.result == NackResult
  }

  predicate HasAck(e: Event, table: string, todo: string) {
    AckOf(e).Some? && AckOf(e).value.result == Ack
    && AckOf(e).value.table == table != "" && AckOf(e).value.todo == todo != ""
  }

  predicate HasReason(e: Event) {
    AckOf(e).Some? && AckOf(e).value.result == Ack && AckOf(e).value.reason == "Setting"
  }

  /** The step asks for a setting: any poll from the Box, IsNewSet on the other two paths. */
  predicate Polls(e: Event) {
    match e
    case FromBox(f, _) => f.tableName in {"IsNewSet", "IsNewFW", "IsNewWeather"}
    case FromCloud(f, _, _) => f.tableName == "IsNewSet"
    case Offline(f) => f.tableName == "IsNewSet"
    case _ => false
  }

  /** The session named in records of answers: the Box's frames are handled without theirs. */
  function AnswerLabel(e: Event): string {
    if e.FromCloud? then Label(e.session) else ""
  }

  /** The session named in records of polls. */
  function PollLabel(e: Event): string {
    if e.FromBox? then Label(e.session) else ""
  }

  /** The polling session waited for its own setting too long. */
  predicate SessionDue(s: Twin, e: Event, now: real) {
    e.FromBox? && e.session.Some? && e.session.value in s.sessions
    && now - s.sessions[e.session.value].since >= s.timeout
  }

  /** The step starts to track the entry. */
  predicate Starts(e: Event, env: Env, p: CloudPending) {
    e.FromCloud? && e.c.FullSetting? && p == CloudPending(e.c.x, e.f.deviceId, env.now, false, None)
  }

  predicate About(r: AuditRecord, x: TwinSetting) {
    r.auditId == x.auditId && r.table == x.table && r.key == x.key
  }

  predicate AboutMessage(r: AuditRecord, e: Event) {
    e.Message? && r.auditId == e.m.auditId && r.table == e.m.table && r.key == e.m.key && r.deviceId == e.deviceId
  }

  // ---- Causes ----

  /** The time of a tracked entry ran out, with or without its Reason=Setting seen. */
  ghost predicate RanOut(s: Twin, e: Event, env: Env, seen: bool, r: AuditRecord) {
    exists p :: (p in Entries(s.cloud) || Starts(e, env, p))
                && p.reasonSeen == seen && IsDue(p, env.now, s.timeout) && r == DueRecord(p)
  }

  /** A poll found the setting in flight, or the one its own session waited for, out of time. */
  predicate PolledOut(s: Twin, e: Event, env: Env, r: AuditRecord) {
    && Polls(e) && (SlotDue(s, env.now) || SessionDue(s, e, env.now))
    && r.result == Failed && r.sessionId == PollLabel(e) && exists x :: x in s.queue && About(r, x)
  }

  predicate Picked(s: Twin, e: Event, r: AuditRecord) {
    && Polls(e) && FrameOf(e).Some? && r.deviceId == FrameOf(e).value.deviceId && r.result == Pending
    && r.sessionId == PollLabel(e)
    && exists x :: x in s.queue && About(r, x)
  }

  /** What the records of a control message say. */
  predicate Admitted(s: Twin, e: Event, r: AuditRecord) {
    && e.Message?
    && var known, checked := IsSettingAllowed(e.m.table, e.m.key), Validate(e.m.table, e.m.key, e.m.payload);
       match r.step
       case Incoming => AboutMessage(r, e) && r.result == Pending
       case RejectedNotAllowed => AboutMessage(r, e) && r.result == Rejected && !known
       case RejectedValidation => AboutMessage(r, e) && r.result == Rejected && known && checked.Refused?
       case Enqueued =>
         AboutMessage(r, e) && r.result == Pending && known && checked.Accepted?
         && !(e.m.table == "proxy_control" && e.m.handledByProxy)
       case Superseded =>
         r.result == Replaced && r.deviceId == e.deviceId && known && checked.Accepted?
         && exists x :: x in s.queue && About(r, x) && x.Id() == SettingKey(e.m.table, e.m.key)
       case _ => false
  }

  /** The record has its cause in the step, or in a time limit that ran out in the state before it. */
  ghost predicate Warranted(s: Twin, e: Event, env: Env, r: AuditRecord) {
    match r.step
    case AckTblEvents => HasEvent(e, r.table, r.key) && r.result == Confirmed && r.sessionId == AnswerLabel(e)
    case AckBoxObserved => HasAck(e, r.table, r.key) && r.result == Pending && r.sessionId == AnswerLabel(e)
    case AckReasonSetting =>
      (HasReason(e) && r.result in {Pending, Confirmed} && r.sessionId in {"", AnswerLabel(e)})
      || RanOut(s, e, env, true, r)
    case Nack => HasNack(e) && r.result == Failed && r.sessionId == AnswerLabel(e)
    case Timeout => RanOut(s, e, env, false, r) || PolledOut(s, e, env, r)
    case SessionCleared =>
      e.SessionEnds? && r.result == Incomplete && r.sessionId == e.sid && e.sid in s.sessions
      && (r.table, r.key) == (s.sessions[e.sid].table, s.sessions[e.sid].key)
    case DeliverSelected => Picked(s, e, r)
    case InjectedBox => Picked(s, e, r) && env.writeOk
    case Incoming =>
      Admitted(s, e, r)
      || (e.FromCloud? && e.c.FullSetting? && About(r, e.c.x) && r.deviceId == e.f.deviceId && r.result == Pending)
    case _ => Admitted(s, e, r)
  }

  /** The trail grew by warranted records only. */
  ghost predicate Says(s: Twin, e: Event, env: Env, from: seq<AuditRecord>, to: seq<AuditRecord>) {
    from <= to && forall i :: |from| <= i < |to| ==> Warranted(s, e, env, to[i])
  }

  lemma SaysMore(s: Twin, e: Event, env: Env, from: seq<AuditRecord>, to: seq<AuditRecord>, more: seq<AuditRecord>)
    requires Says(s, e, env, from, to) && Says(s, e, env, to, more)
    ensures Says(s, e, env, from, more)
  {
    forall i | |from| <= i < |more| ensures Warranted(s, e, env, more[i]) {
      if i < |to| { assert more[i] == to[i]; }
    }
  }

  lemma RecordSaid(s: Twin, e: Event, env: Env, t: Twin, x: TwinSetting, deviceId: string, step: SettingStep,
                   result: Option<SettingResult>, sid: string)
    requires Warranted(s, e, env, StepRecord(x, deviceId, step, result, sid))
    ensures Says(s, e, env, t.trail, RecordStep(t, x, deviceId, step, result, sid).trail)
  {
  }

  // ---- Within a step ----

  /** An entry was tracked before the step, or the step tracked or marked it. */
  predicate Origin(s: Twin, e: Event, env: Env, p: CloudPending) {
    p in Entries(s.cloud) || Starts(e, env, p) || (HasReason(e) && p.reasonSeen)
  }

  /** No setting went in flight since. */
  predicate OldSlots(s: Twin, t: Twin) {
    && (t.inflightSince.Some? ==> t.inflightSince == s.inflightSince)
    && (forall sid :: sid in t.sessions ==> sid in s.sessions && t.sessions[sid] == s.sessions[sid])
  }

  /** The state t is reached within the step e from s; polled says whether its poll was answered. */
  ghost predicate Reached(s: Twin, e: Event, env: Env, t: Twin, polled: bool) {
    && Slots(t, env.now) && CloudOk(t.cloud, t.timeout, env.now) && t.timeout == s.timeout
    && (forall x :: x in t.queue ==> x in s.queue)
    && (forall p :: p in Entries(t.cloud) ==> Origin(s, e, env, p))
    && (!polled ==> OldSlots(s, t))
    && Says(s, e, env, s.trail, t.trail)
  }

  lemma DueSaid(s: Twin, e: Event, env: Env, t: Twin, p: CloudPending)
    requires Origin(s, e, env, p) && IsDue(p, env.now, s.timeout) && EntryOk(p, s.timeout, env.now)
    ensures Says(s, e, env, t.trail, RecordExpiry(t, p).trail)
  {
    if p in Entries(s.cloud) || Starts(e, env, p) {
      assert RanOut(s, e, env, p.reasonSeen, DueRecord(p));
    }
    if p.reasonSeen {
      RecordSaid(s, e, env, t, p.setting, p.deviceId, AckReasonSetting, Some(Confirmed), "");
    } else {
      RecordSaid(s, e, env, t, p.setting, p.deviceId, Timeout, None, "");
    }
  }

  lemma {:induction false} DuesSaid(s: Twin, e: Event, env: Env, t: Twin, ps: seq<CloudPending>)
    requires forall p :: p in ps ==>
               Origin(s, e, env, p) && IsDue(p, env.now, s.timeout) && EntryOk(p, s.timeout, env.now)
    ensures Says(s, e, env, t.trail, RecordExpiries(t, ps).trail)
    decreases |ps|
  {
    if ps != [] {
      var before, p := ps[..|ps| - 1], ps[|ps| - 1];
      DuesSaid(s, e, env, t, before);
      assert p in ps;
      DueSaid(s, e, env, RecordExpiries(t, before), p);
      SaysMore(s, e, env, t.trail, RecordExpiries(t, before).trail, RecordExpiries(t, ps).trail);
    }
  }

  lemma ExpireSaid(s: Twin, e: Event, env: Env, t: Twin, polled: bool)
    requires Reached(s, e, env, t, polled)
    ensures Says(s, e, env, t.trail, ExpireCloud(t, env.now).trail)
    ensures forall p :: p in Entries(ExpireCloud(t, env.now).cloud) ==> Origin(s, e, env, p)
  {
    var es, sweep := Entries(t.cloud), Expired(env.now, t.timeout);
    HitMembers(es, sweep);
    CloudOkFiled(t.cloud, t.timeout, env.now);
    DuesSaid(s, e, env, t, Hit(es, sweep));
    ExpiryKeepsUndue(t, env.now);
    UndueMembers(es, env.now, t.timeout);
  }

  lemma BeginSaid(s: Twin, e: Event, env: Env, t: Twin, x: TwinSetting, deviceId: string, polled: bool)
    requires Reached(s, e, env, t, polled) && Starts(e, env, CloudPending(x, deviceId, env.now, false, None))
    ensures Says(s, e, env, t.trail, BeginCloud(t, x, deviceId, env.now).trail)
    ensures forall p :: p in Entries(BeginCloud(t, x, deviceId, env.now).cloud) ==> Origin(s, e, env, p)
  {
    ExpireSaid(s, e, env, t, polled);
    ExpireKeepsCloud(t, env.now, env.now);
    var s1, p := ExpireCloud(t, env.now), CloudPending(x, deviceId, env.now, false, None);
    AppendKeepsOk(s1.cloud, p, t.timeout, env.now);
    SaysMore(s, e, env, t.trail, s1.trail, BeginCloud(t, x, deviceId, env.now).trail);
  }

  lemma MarkedSaid(s: Twin, e: Event, env: Env, t: Twin, r: Twin, i: nat, marked: CloudPending, sid: string)
    requires i < |Entries(t.cloud)| && MarkedAt(t, r, i, marked, sid, env.now)
    requires HasReason(e) && sid == AnswerLabel(e)
    ensures Says(s, e, env, t.trail, r.trail)
    ensures forall p :: p in Entries(r.cloud) ==> p in Entries(t.cloud) || p.reasonSeen
  {
  }

  lemma MarkSaid(s: Twin, e: Event, env: Env, t: Twin, deviceId: string, sid: string, polled: bool)
    requires Reached(s, e, env, t, polled) && HasReason(e) && sid == AnswerLabel(e)
    ensures Says(s, e, env, t.trail, MarkReason(t, deviceId, sid, env.now).0.trail)
    ensures forall p :: p in Entries(MarkReason(t, deviceId, sid, env.now).0.cloud) ==> Origin(s, e, env, p)
  {
    var t1 := ExpireCloud(t, env.now);
    var (r, marked) := MarkReason(t, deviceId, sid, env.now);
    ExpireSaid(s, e, env, t, polled);
    MarkMarksOldest(t, deviceId, sid, env.now, env.now);
    if marked.Some? {
      var i: nat :| IsOldestOf(Entries(t1.cloud), deviceId, i) && MarkedAt(t1, r, i, marked.value, sid, env.now);
      MarkedSaid(s, e, env, t1, r, i, marked.value, sid);
      SaysMore(s, e, env, t.trail, t1.trail, r.trail);
    }
  }

  lemma MatchSaid(s: Twin, e: Event, env: Env, t: Twin, deviceId: string, table: string, key: string,
                  confirmed: string, sid: string, polled: bool)
    requires Reached(s, e, env, t, polled) && HasEvent(e, table, key) && sid == AnswerLabel(e)
    ensures Says(s, e, env, t.trail, MatchTblEvents(t, deviceId, table, key, confirmed, sid, env.now).0.trail)
    ensures forall p :: p in Entries(MatchTblEvents(t, deviceId, table, key, confirmed, sid, env.now).0.cloud) ==>
              Origin(s, e, env, p)
  {
    var t1 := ExpireCloud(t, env.now);
    var (r, m) := MatchTblEvents(t, deviceId, table, key, confirmed, sid, env.now);
    ExpireSaid(s, e, env, t, polled);
    MatchTracks(t, deviceId, table, key, confirmed, sid, env.now, env.now);
    TwinProgress.MatchAccounts(t, deviceId, table, key, confirmed, sid, env.now, env.now);
    if m.Some? {
      RecordSaid(s, e, env, t1, m.value.setting, m.value.deviceId, AckTblEvents, None, sid);
      SaysMore(s, e, env, t.trail, t1.trail, r.trail);
    }
  }

  /** The call has its cause in the step. */
  ghost predicate Caused(s: Twin, e: Event, env: Env, c: Call) {
    match c
    case DoRecord(x, deviceId, step, result, sid) => Warranted(s, e, env, StepRecord(x, deviceId, step, result, sid))
    case DoBeginCloud(x, deviceId) => Starts(e, env, CloudPending(x, deviceId, env.now, false, None))
    case DoMarkReason(_, sid) => HasReason(e) && sid == AnswerLabel(e)
    case DoMatchTblEvents(_, table, key, _, sid) => HasEvent(e, table, key) && sid == AnswerLabel(e)
    case DoEnqueue(_) => false
    case DoDeliver(_, _) => false
    case DoClearSession(_) => false
    case _ => true
  }

  lemma CallSaid(s: Twin, e: Event, env: Env, t: Twin, c: Call, polled: bool)
    requires Reached(s, e, env, t, polled) && Caused(s, e, env, c)
    ensures Says(s, e, env, t.trail, Do(t, c, env.now).trail)
    ensures forall p :: p in Entries(Do(t, c, env.now).cloud) ==> Origin(s, e, env, p)
  {
    match c
    case DoRecord(x, deviceId, step, result, sid) => RecordSaid(s, e, env, t, x, deviceId, step, result, sid);
    case DoExpire => ExpireSaid(s, e, env, t, polled);
    case DoBeginCloud(x, deviceId) => BeginSaid(s, e, env, t, x, deviceId, polled);
    case DoMarkReason(deviceId, sid) => MarkSaid(s, e, env, t, deviceId, sid, polled);
    case DoMatchTblEvents(deviceId, table, key, confirmed, sid) =>
      MatchSaid(s, e, env, t, deviceId, table, key, confirmed, sid, polled);
    case DoAcknowledge(table, key, session) => AcknowledgeShrinks(t, table, key, session, env.now);
    case _ =>
      DoTrailFrame(t, c, env.now);
      DoCloudFrame(t, c, env.now);
  }

  lemma CallKeepsOldSlots(s: Twin, t: Twin, c: Call, now: real)
    requires OldSlots(s, t) && !c.DoEnqueue? && !c.DoDeliver? && !c.DoClearSession?
    ensures OldSlots(s, Do(t, c, now))
  {
    if c.DoAcknowledge? {
      AcknowledgeKeepsOldSlots(s, t, c.table, c.key, c.session);
    } else {
      DoSlotsFrame(t, c, now);
    }
  }

  lemma AcknowledgeKeepsOldSlots(s: Twin, t: Twin, table: string, key: string, session: Option<string>)
    requires OldSlots(s, t)
    ensures OldSlots(s, Acknowledge(t, table, key, session))
  {
    AcknowledgedSessionLeaves(t, table, key, session);
  }

  lemma CallReaches(s: Twin, e: Event, env: Env, t: Twin, c: Call, polled: bool)
    requires Reached(s, e, env, t, polled) && Caused(s, e, env, c)
    ensures Reached(s, e, env, Do(t, c, env.now), polled)
  {
    DoKeepsSlots(t, c, env.now, env.now);
    DoKeepsCloud(t, c, env.now, env.now);
    DoIdsFrame(t, c, env.now);
    DoQueueShrinks(t, c, env.now, env.now);
    CallSaid(s, e, env, t, c, polled);
    SaysMore(s, e, env, s.trail, t.trail, Do(t, c, env.now).trail);
    if !polled { CallKeepsOldSlots(s, t, c, env.now); }
  }

  // ---- A poll ----

  lemma DropSaid(s: Twin, e: Event, env: Env, t: Twin, sid: string)
    requires Reached(s, e, env, t, false) && Polls(e) && sid == PollLabel(e)
    ensures Says(s, e, env, t.trail, DropTimedOut(t, sid, env.now).trail)
  {
    if InflightTimedOut(t, env.now) {
      LookupSpec(t.queue, t.inflightKey.value);
      var x, device := Lookup(t.queue, t.inflightKey.value).value, t.inflightDevice.value;
      assert PolledOut(s, e, env, StepRecord(x, device, Timeout, None, sid));
      RecordSaid(s, e, env, t, x, device, Timeout, None, sid);
    }
  }

  lemma SessionSaid(s: Twin, e: Event, env: Env, t: Twin, sid: string)
    requires Polls(e) && SessionDue(s, e, env.now) && sid == PollLabel(e)
    requires forall x :: x in t.queue ==> x in s.queue
    ensures Says(s, e, env, t.trail, DropSession(t, sid, Timeout).trail)
  {
    if sid in t.sessions {
      var id := SettingKey(t.sessions[sid].table, t.sessions[sid].key);
      LookupSpec(t.queue, id);
      if Lookup(t.queue, id).Some? && t.inflightDevice.Some? {
        var x, device := Lookup(t.queue, id).value, t.inflightDevice.value;
        assert PolledOut(s, e, env, StepRecord(x, device, Timeout, None, sid));
        RecordSaid(s, e, env, t, x, device, Timeout, None, sid);
      }
    }
  }

  lemma PickSaid(s: Twin, e: Event, env: Env, t: Twin, deviceId: string, session: Option<string>)
    requires PollsAs(e, deviceId, session)
    requires forall x :: x in t.queue ==> x in s.queue
    ensures Says(s, e, env, t.trail, DeliverNext(t, deviceId, session, env.now).0.trail)
  {
    PendingMembers(t.queue);
    var x := DeliverNext(t, deviceId, session, env.now).1;
    if x.Some? {
      var r := StepRecord(x.value, deviceId, DeliverSelected, None, Label(session));
      assert x.value in s.queue && About(r, x.value) && Warranted(s, e, env, r);
    }
  }

  /** The step polls with the given device and session. */
  predicate PollsAs(e: Event, deviceId: string, session: Option<string>) {
    Polls(e) && FrameOf(e).Some? && deviceId == FrameOf(e).value.deviceId
    && session == if e.FromBox? then e.session else None
  }

  lemma DeliverSaid(s: Twin, e: Event, env: Env, t: Twin, deviceId: string, session: Option<string>)
    requires Reached(s, e, env, t, false) && PollsAs(e, deviceId, session)
    ensures Says(s, e, env, t.trail, DeliverPending(t, deviceId, session, env.now).0.trail)
  {
    var t1 := DropTimedOut(t, Label(session), env.now);
    DropSaid(s, e, env, t, Label(session));
    DropTimedOutSlots(t, Label(session), env.now, env.now);
    DropTimedOutSays(t, Label(session), env.now, Live(t));
    PollDrops(t, session, env.now, env.now);
    if !SessionBlocks(t1, session, env.now) {
      var t2 := if session.Some? then DropSession(t1, session.value, Timeout) else t1;
      if session.Some? && session.value in t1.sessions { SessionSaid(s, e, env, t1, session.value); }
      SaysMore(s, e, env, t.trail, t1.trail, t2.trail);
      PickSaid(s, e, env, t2, deviceId, session);
      SaysMore(s, e, env, t.trail, t2.trail, DeliverNext(t2, deviceId, session, env.now).0.trail);
    }
  }

  lemma DeliverReaches(s: Twin, e: Event, env: Env, t: Twin, deviceId: string, session: Option<string>)
    requires Reached(s, e, env, t, false) && PollsAs(e, deviceId, session)
    ensures Reached(s, e, env, DeliverPending(t, deviceId, session, env.now).0, true)
    ensures DeliverPending(t, deviceId, session, env.now).1.Some? ==>
              DeliverPending(t, deviceId, session, env.now).1.value in s.queue
  {
    DeliverSlots(t, deviceId, session, env.now, env.now);
    DeliverSays(t, deviceId, session, env.now, env.now, Live(t));
    DeliverSaid(s, e, env, t, deviceId, session);
    SaysMore(s, e, env, s.trail, t.trail, DeliverPending(t, deviceId, session, env.now).0.trail);
  }

  /** What Reached is about. */
  lemma ReachedFrame(s: Twin, e: Event, env: Env, t: Twin, r: Twin, polled: bool)
    requires Reached(s, e, env, t, polled) && SameSlots(t, r)
    requires r.cloud == t.cloud && r.timeout == t.timeout && r.trail == t.trail
    ensures Reached(s, e, env, r, polled)
  {
    SlotsFrame(t, r, env.now);
  }

  lemma InjectReaches(s: Twin, e: Event, env: Env, t: Twin, x: TwinSetting, deviceId: string, session: Option<string>,
                      sid: string, numberMessage: bool)
    requires Reached(s, e, env, t, true) && PollsAs(e, deviceId, session) && x in s.queue && sid == Label(session)
    ensures Reached(s, e, env, Inject(t, x, deviceId, sid, numberMessage, env), true)
  {
    var t1 := NextIdSet(t, env.second);
    var t2 := if numberMessage then NextMsgId(t1, env.random) else t1;
    ReachedFrame(s, e, env, t, t2, true);
    if env.writeOk {
      var t3 := t2.(idLog := t2.idLog + [Injected(x, deviceId, NextId(t.lastIdSet, env.second))]);
      ReachedFrame(s, e, env, t2, t3, true);
      var r := StepRecord(x, deviceId, InjectedBox, None, sid);
      assert x in s.queue && About(r, x) && Warranted(s, e, env, r);
      CallReaches(s, e, env, t3, DoRecord(x, deviceId, InjectedBox, None, sid), true);
    }
  }

  // ---- Frames ----

  lemma BoxAckReaches(s: Twin, e: Event, env: Env, t: Twin, f: Frame, pair: Pair, session: Option<string>,
                      polled: bool)
    requires Reached(s, e, env, t, polled) && FrameOf(e) == Some(f) && Label(session) == AnswerLabel(e)
    ensures Reached(s, e, env, OnBoxAck(t, f, pair, session), polled)
  {
    if f.ack.Some? && f.ack.value.result == Ack && f.ack.value.table != "" && f.ack.value.todo != "" {
      var a := f.ack.value;
      if IsFor(pair, SettingKey(a.table, a.todo)) {
        CallReaches(s, e, env, t, DoRecord(pair.value.0, pair.value.1, AckBoxObserved, None, Label(session)), polled);
      } else {
        CallReaches(s, e, env, t, DoAcknowledge(a.table, a.todo, session), polled);
      }
    }
  }

  lemma UnmatchedReaches(s: Twin, e: Event, env: Env, t: Twin, a: EventAck, pair: Pair, session: Option<string>,
                         polled: bool)
    requires Reached(s, e, env, t, polled) && EventOf(e) == Some(a) && Label(session) == AnswerLabel(e)
    ensures var r := if IsFor(pair, SettingKey(a.table, a.key)) then
                       RecordStep(t, pair.value.0, pair.value.1, AckTblEvents, None, Label(session))
                     else t;
            Reached(s, e, env, Acknowledge(r, a.table, a.key, session), polled)
  {
    var r := t;
    if IsFor(pair, SettingKey(a.table, a.key)) {
      CallReaches(s, e, env, t, DoRecord(pair.value.0, pair.value.1, AckTblEvents, None, Label(session)), polled);
      r := RecordStep(t, pair.value.0, pair.value.1, AckTblEvents, None, Label(session));
    }
    CallReaches(s, e, env, r, DoAcknowledge(a.table, a.key, session), polled);
  }

  lemma EventReaches(s: Twin, e: Event, env: Env, t: Twin, f: Frame, pair: Pair, session: Option<string>, polled: bool)
    requires Reached(s, e, env, t, polled) && FrameOf(e) == Some(f) && Label(session) == AnswerLabel(e)
    ensures Reached(s, e, env, OnEvent(t, f, pair, session, env.now), polled)
  {
    if f.event.Some? {
      var a := f.event.value;
      CallReaches(s, e, env, t, DoMatchTblEvents(f.deviceId, a.table, a.key, a.value, Label(session)), polled);
      UnmatchedReaches(s, e, env, MatchTblEvents(t, f.deviceId, a.table, a.key, a.value, Label(session), env.now).0, a,
                       pair, session, polled);
    }
  }

  lemma ConfirmReaches(s: Twin, e: Event, env: Env, t: Twin, x: TwinSetting, deviceId: string, step: SettingStep,
                       result: Option<SettingResult>, session: Option<string>, polled: bool)
    requires Reached(s, e, env, t, polled)
    requires Warranted(s, e, env, StepRecord(x, deviceId, step, result, Label(session)))
    ensures Reached(s, e, env,
                    Acknowledge(RecordStep(t, x, deviceId, step, result, Label(session)), x.table, x.key, session),
                    polled)
  {
    CallReaches(s, e, env, t, DoRecord(x, deviceId, step, result, Label(session)), polled);
    CallReaches(s, e, env, RecordStep(t, x, deviceId, step, result, Label(session)),
                DoAcknowledge(x.table, x.key, session), polled);
  }

  lemma ReasonReaches(s: Twin, e: Event, env: Env, t: Twin, f: Frame, pair: Pair, session: Option<string>, polled: bool)
    requires Reached(s, e, env, t, polled) && FrameOf(e) == Some(f) && Label(session) == AnswerLabel(e)
    ensures Reached(s, e, env, OnReason(t, f, pair, session, env.now), polled)
  {
    if HasReason(e) {
      CallReaches(s, e, env, t, DoMarkReason(f.deviceId, Label(session)), polled);
      var (t1, marked) := MarkReason(t, f.deviceId, Label(session), env.now);
      if pair.Some? {
        ConfirmReaches(s, e, env, t1, pair.value.0, pair.value.1, AckReasonSetting, Some(Confirmed), session, polled);
      }
    }
  }

  lemma NackReaches(s: Twin, e: Event, env: Env, t: Twin, f: Frame, pair: Pair, session: Option<string>, polled: bool)
    requires Reached(s, e, env, t, polled) && FrameOf(e) == Some(f) && Label(session) == AnswerLabel(e)
    ensures Reached(s, e, env, OnNack(t, f, pair, session), polled)
  {
    if HasNack(e) && pair.Some? {
      ConfirmReaches(s, e, env, t, pair.value.0, pair.value.1, Nack, None, session, polled);
    }
  }

  lemma AnswersReach(s: Twin, e: Event, env: Env, t: Twin, f: Frame, session: Option<string>, polled: bool)
    requires Reached(s, e, env, t, polled) && FrameOf(e) == Some(f) && Label(session) == AnswerLabel(e)
    ensures Reached(s, e, env, HandleTwinFrame(t, f, session, false, env), polled)
  {
    CallReaches(s, e, env, t, DoExpire, polled);
    var t1 := ExpireCloud(t, env.now);
    var pair := InflightSetting(t1);
    BoxAckReaches(s, e, env, t1, f, pair, session, polled);
    var t2 := OnBoxAck(t1, f, pair, session);
    EventReaches(s, e, env, t2, f, pair, session, polled);
    var t3 := OnEvent(t2, f, pair, session, env.now);
    ReasonReaches(s, e, env, t3, f, pair, session, polled);
    NackReaches(s, e, env, OnReason(t3, f, pair, session, env.now), f, pair, session, polled);
  }

  lemma HookReaches(s: Twin, e: Event, env: Env, t: Twin, f: Frame, session: Option<string>)
    requires Reached(s, e, env, t, false) && FrameOf(e) == Some(f) && !e.FromBox? && Label(session) == AnswerLabel(e)
    ensures Says(s, e, env, s.trail, HandleTwinFrame(t, f, session, true, env).trail)
  {
    if f.tableName == "IsNewSet" {
      DeliverReaches(s, e, env, t, f.deviceId, None);
      var (t1, x) := DeliverPending(t, f.deviceId, None, env.now);
      if x.Some? { InjectReaches(s, e, env, t1, x.value, f.deviceId, None, "", false); }
      AnswersReach(s, e, env, IsNewSetHook(t, f, env), f, session, true);
    } else {
      AnswersReach(s, e, env, t, f, session, false);
    }
  }

  lemma ObserveReaches(s: Twin, e: Event, env: Env, t: Twin, f: Frame, polled: bool)
    requires Reached(s, e, env, t, polled)
    ensures Reached(s, e, env, ObserveMsgId(ObserveIdSet(t, f.idSet), f.msgId), polled)
  {
    CallReaches(s, e, env, t, DoObserveIdSet(f.idSet), polled);
    CallReaches(s, e, env, ObserveIdSet(t, f.idSet), DoObserveMsgId(f.msgId), polled);
  }

  lemma CheckReaches(s: Twin, e: Event, env: Env, t: Twin, f: Frame)
    requires Reached(s, e, env, t, false)
    ensures Reached(s, e, env, CheckCloudBeforePoll(t, f, env.now), false)
  {
    CallReaches(s, e, env, t, DoExpire, false);
    CallReaches(s, e, env, ExpireCloud(t, env.now), DoExpire, false);
  }

  lemma AnswerReaches(s: Twin, e: Event, env: Env, t: Twin)
    requires Reached(s, e, env, t, false) && e.FromBox?
    ensures Says(s, e, env, s.trail, AnswerPoll(t, e.f, e.session, env).0.trail)
  {
    if IsPoll(e.f) {
      DeliverReaches(s, e, env, t, e.f.deviceId, e.session);
      var (t1, x) := DeliverPending(t, e.f.deviceId, e.session, env.now);
      if x.Some? { InjectReaches(s, e, env, t1, x.value, e.f.deviceId, e.session, Label(e.session), true); }
    }
  }

  lemma BoxReaches(s: Twin, e: Event, env: Env)
    requires Reached(s, e, env, s, false) && e.FromBox?
    ensures Says(s, e, env, s.trail, BoxFrame(s, e.f, e.session, env).0.trail)
  {
    var f := e.f;
    AnswersReach(s, e, env, s, f, None, false);
    var s1 := HandleTwinFrame(s, f, None, false, env);
    ObserveReaches(s, e, env, s1, f, false);
    var s2 := ObserveMsgId(ObserveIdSet(s1, f.idSet), f.msgId);
    CheckReaches(s, e, env, s2, f);
    AnswerReaches(s, e, env, CheckCloudBeforePoll(s2, f, env.now));
  }

  lemma CloudReaches(s: Twin, e: Event, env: Env)
    requires Reached(s, e, env, s, false) && e.FromCloud?
    ensures Says(s, e, env, s.trail, CloudFrame(s, e.f, e.c, e.session, env).trail)
  {
    ObserveReaches(s, e, env, s, e.f, false);
    var s1 := ObserveMsgId(ObserveIdSet(s, e.f.idSet), e.f.msgId);
    match e.c {
      case FullSetting(x) => CallReaches(s, e, env, s1, DoBeginCloud(x, e.f.deviceId), false);
      case PartialSetting => CallReaches(s, e, env, s1, DoSetLegacy(true), false);
      case NoSetting =>
        CallReaches(s, e, env, s1, DoSetLegacy(false), false);
        CallReaches(s, e, env, s1.(cloudLegacy := false), DoExpire, false);
    }
    HookReaches(s, e, env, TrackCloud(s1, e.f, e.c, env.now), e.f, e.session);
  }

  lemma MessageSaid(s: Twin, e: Event, env: Env)
    requires e.Message?
    ensures Says(s, e, env, s.trail, Admit(s, e.deviceId, e.m).trail)
  {
    LookupSpec(s.queue, SettingKey(e.m.table, e.m.key));
    var rs := AdmissionRecords(s.queue, e.deviceId, e.m);
    forall i | 0 <= i < |rs| ensures Warranted(s, e, env, rs[i]) {
      MessageRecordSaid(s, e, env, i);
    }
    forall i | |s.trail| <= i < |s.trail + rs| ensures Warranted(s, e, env, (s.trail + rs)[i]) {
      assert (s.trail + rs)[i] == rs[i - |s.trail|];
    }
  }

  lemma MessageRecordSaid(s: Twin, e: Event, env: Env, i: nat)
    requires e.Message? && i < |AdmissionRecords(s.queue, e.deviceId, e.m)|
    ensures Warranted(s, e, env, AdmissionRecords(s.queue, e.deviceId, e.m)[i])
  {
    LookupSpec(s.queue, SettingKey(e.m.table, e.m.key));
  }

  lemma SessionEndSaid(s: Twin, e: Event, env: Env)
    requires e.SessionEnds?
    ensures Says(s, e, env, s.trail, DropSession(s, e.sid, SessionCleared).trail)
  {
    if e.sid in s.sessions {
      var id := SettingKey(s.sessions[e.sid].table, s.sessions[e.sid].key);
      LookupSpec(s.queue, id);
      if Lookup(s.queue, id).Some? && s.inflightDevice.Some? {
        RecordSaid(s, e, env, s, Lookup(s.queue, id).value, s.inflightDevice.value, SessionCleared, None, e.sid);
      }
    }
  }

  // ---- Steps and runs ----

  /** Every record a step adds has its cause in that step or in a limit that ran out before it. */
  lemma StepSaysWhatItSaw(s: Twin, e: Event, env: Env)
    requires Slots(s, env.now) && CloudOk(s.cloud, s.timeout, env.now)
    ensures Says(s, e, env, s.trail, Step(s, e, env).trail)
  {
    match e
    case Message(_, _) => MessageSaid(s, e, env);
    case FromBox(_, _) => BoxReaches(s, e, env);
    case FromCloud(_, _, _) => CloudReaches(s, e, env);
    case Offline(f) => HookReaches(s, e, env, s, f, None);
    case SessionEnds(_) => SessionEndSaid(s, e, env);
  }

  /** The record at place i was written by step k, which had cause to. */
  ghost predicate WrittenBy(s: Twin, steps: seq<Timed>, i: nat, k: nat)
    requires k < |steps|
  {
    && |Run(s, steps[..k]).trail| <= i < |Run(s, steps[..k + 1]).trail| <= |Run(s, steps).trail|
    && Warranted(Run(s, steps[..k]), steps[k].e, steps[k].env, Run(s, steps).trail[i])
  }

  ghost predicate HasCause(s: Twin, steps: seq<Timed>, i: nat) {
    exists k: nat :: k < |steps| && WrittenBy(s, steps, i, k)
  }

  lemma {:induction false} RunTrail(s: Twin, clock: real, steps: seq<Timed>)
    requires Sound(s, clock) && Legal(s, clock, steps)
    ensures s.trail <= Run(s, steps).trail
    ensures forall i :: |s.trail| <= i < |Run(s, steps).trail| ==> HasCause(s, steps, i)
    decreases |steps|
  {
    if steps != [] {
      var t := steps[0];
      var r := Step(s, t.e, t.env);
      SoundLater(s, clock, t.env.now);
      StepSaysWhatItSaw(s, t.e, t.env);
      StepSound(s, t.e, t.env, clock);
      RunTrail(r, t.env.now, steps[1..]);
      forall i | |s.trail| <= i < |Run(s, steps).trail| ensures HasCause(s, steps, i) {
        if i < |r.trail| {
          FirstWrote(s, steps, i);
        } else {
          assert HasCause(r, steps[1..], i);
          var k: nat :| k < |steps[1..]| && WrittenBy(r, steps[1..], i, k);
          LaterWrote(s, steps, i, k);
        }
      }
    }
  }

  lemma {:induction false} FirstWrote(s: Twin, steps: seq<Timed>, i: nat)
    requires steps != [] && |s.trail| <= i
    requires var r := Step(s, steps[0].e, steps[0].env);
             i < |r.trail| && r.trail <= Run(s, steps).trail && Warranted(s, steps[0].e, steps[0].env, r.trail[i])
    ensures WrittenBy(s, steps, i, 0)
  {
    assert steps[..0] == [] && steps[..1] == [steps[0]] && [steps[0]][1..] == [];
    assert Run(s, steps[..1]) == Step(s, steps[0].e, steps[0].env);
  }

  lemma {:induction false} LaterWrote(s: Twin, steps: seq<Timed>, i: nat, k: nat)
    requires steps != [] && k < |steps| - 1
    requires WrittenBy(Step(s, steps[0].e, steps[0].env), steps[1..], i, k)
    ensures WrittenBy(s, steps, i, k + 1)
  {
    assert steps[..k + 1][1..] == steps[1..][..k] && steps[..k + 2][1..] == steps[1..][..k + 1];
    assert steps[1..][k] == steps[k + 1];
  }

  /** In every run each record of the trail has its cause in the step that wrote it. */
  lemma EveryRecordHasItsCause(timeout: real, collector: bool, clock: real, steps: seq<Timed>)
    requires Legal(Initial(timeout, collector), clock, steps)
    ensures var s := Initial(timeout, collector);
            forall i :: 0 <= i < |Run(s, steps).trail| ==> HasCause(s, steps, i)
  {
    InitialSound(timeout, collector, clock);
    RunTrail(Initial(timeout, collector), clock, steps);
  }
}
