/**
 One atomic step of the proxy: an MQTT control message, a frame from the Box, a
 frame from the cloud, a frame answered locally, or the end of a Box session.
 A frame comes with what the parsers read from it.
 */
module TwinFrames {
  import opened Options
  import opened SettingsAudit
  import opened SettingsConstraints
  import opened TwinState
  import opened CloudStore
  import opened TwinModel

  datatype AckResult = Ack | End | NackResult

  /** The Result of a Box answer; an absent field is the empty text. */
  datatype BoxAck = BoxAck(result: AckResult, table: string, todo: string, reason: string)

  /** A tbl_events row that reports a setting changed remotely. */
  datatype EventAck = EventAck(table: string, key: string, value: string)

  datatype Frame = Frame(
    tableName: string,
    deviceId: string,
    ack: Option<BoxAck>,
    event: Option<EventAck>,
    idSet: Option<int>,
    msgId: Option<int>)

  /** What a cloud frame says about a setting; x carries a fresh audit id. */
  datatype CloudSetting = NoSetting | PartialSetting | FullSetting(x: TwinSetting)

  /** Clock readings, the random draw and whether a write to the Box succeeds. */
  datatype Env = Env(now: real, second: int, random: int, writeOk: bool)

  datatype ControlMessage = ControlMessage(
    table: string,
    key: string,
    payload: Payload,
    rawText: string,
    auditId: string,
    wallTime: real,
    msgId: int,
    idSet: int,
    handledByProxy: bool)

  datatype Event =
    | Message(deviceId: string, m: ControlMessage)
    | FromBox(f: Frame, session: Option<string>)
    | FromCloud(f: Frame, c: CloudSetting, session: Option<string>)
    | Offline(f: Frame)
    | SessionEnds(sid: string)

  // ---- Admission of a control message ----

  function SettingOf(m: ControlMessage, value: Value): TwinSetting {
    TwinSetting(m.table, m.key, value, m.wallTime, m.rawText, m.auditId, m.msgId, m.idSet, "New")
  }

  function MessageRecord(deviceId: string, m: ControlMessage, step: SettingStep, result: SettingResult): AuditRecord {
    AuditRecord(m.auditId, deviceId, m.table, m.key, step, result, "")
  }

  function SupersededRecord(deviceId: string, x: TwinSetting): AuditRecord {
    AuditRecord(x.auditId, deviceId, x.table, x.key, Superseded, Replaced, "")
  }

  /** The value the message puts in the queue, if it gets that far. */
  function AdmittedValue(m: ControlMessage): Option<Value> {
    if !IsSettingAllowed(m.table, m.key) then None
    else
      match Validate(m.table, m.key, m.payload)
      case Refused(_) => None
      case Accepted(v) => if m.table == "proxy_control" && m.handledByProxy then None else Some(v)
  }

  function AdmissionRecords(queue: seq<TwinSetting>, deviceId: string, m: ControlMessage): seq<AuditRecord> {
    var incoming := [MessageRecord(deviceId, m, Incoming, Pending)];
    if !IsSettingAllowed(m.table, m.key) then
      incoming + [MessageRecord(deviceId, m, RejectedNotAllowed, Rejected)]
    else if Validate(m.table, m.key, m.payload).Refused? then
      incoming + [MessageRecord(deviceId, m, RejectedValidation, Rejected)]
    else if AdmittedValue(m).None? then
      incoming
    else
      var prior := Lookup(queue, SettingKey(m.table, m.key));
      incoming
      + (if prior.Some? && prior.value.auditId != "" then [SupersededRecord(deviceId, prior.value)] else [])
      + [MessageRecord(deviceId, m, Enqueued, Pending)]
  }

  function AdmittedQueue(queue: seq<TwinSetting>, m: ControlMessage): seq<TwinSetting> {
    match AdmittedValue(m)
    case None => queue
    case Some(v) => Put(queue, SettingOf(m, v))
  }

  function AppendAll(s: Twin, rs: seq<AuditRecord>): Twin {
    if s.collector then s.(trail := s.trail + rs) else s
  }

  function Admit(s: Twin, deviceId: string, m: ControlMessage): Twin {
    AppendAll(s.(queue := AdmittedQueue(s.queue, m)), AdmissionRecords(s.queue, deviceId, m))
  }

  // ---- Injection of a selected setting ----

  function Inject(s: Twin, x: TwinSetting, deviceId: string, session: string, numberMessage: bool, env: Env): Twin {
    var id := NextId(s.lastIdSet, env.second);
    var s1 := NextIdSet(s, env.second);
    var s2 := if numberMessage then NextMsgId(s1, env.random) else s1;
    if !env.writeOk then s2
    else RecordStep(s2.(idLog := s2.idLog + [Injected(x, deviceId, id)]), x, deviceId, InjectedBox, None, session)
  }

  /** A poll on the cloud or offline path delivers without a session. */
  function IsNewSetHook(s: Twin, f: Frame, env: Env): Twin {
    var (s1, x) := DeliverPending(s, f.deviceId, None, env.now);
    if x.None? then s1 else Inject(s1, x.value, f.deviceId, "", false, env)
  }

  // ---- Acknowledgements in a frame ----

  type Pair = Option<(TwinSetting, string)>

  predicate IsFor(pair: Pair, id: SettingKey) {
    pair.Some? && pair.value.0.Id() == id
  }

  function OnBoxAck(s: Twin, f: Frame, pair: Pair, session: Option<string>): Twin {
    if f.ack.None? || f.ack.value.result != Ack || f.ack.value.table == "" || f.ack.value.todo == "" then s
    else
      var a := f.ack.value;
      if IsFor(pair, SettingKey(a.table, a.todo)) then
        RecordStep(s, pair.value.0, pair.value.1, AckBoxObserved, None, Label(session))
      else Acknowledge(s, a.table, a.todo, session)
  }

  function OnEvent(s: Twin, f: Frame, pair: Pair, session: Option<string>, now: real): Twin {
    if f.event.None? then s
    else
      var e := f.event.value;
      var (s1, matched) := MatchTblEvents(s, f.deviceId, e.table, e.key, e.value, Label(session), now);
      if matched.Some? then s1
      else
        var s2 := if IsFor(pair, SettingKey(e.table, e.key)) then
                    RecordStep(s1, pair.value.0, pair.value.1, AckTblEvents, None, Label(session))
                  else s1;
        Acknowledge(s2, e.table, e.key, session)
  }

  function OnReason(s: Twin, f: Frame, pair: Pair, session: Option<string>, now: real): Twin {
    if f.ack.None? || f.ack.value.result != Ack || f.ack.value.reason != "Setting" then s
    else
      var (s1, marked) := MarkReason(s, f.deviceId, Label(session), now);
      if marked.Some? || pair.None? then s1
      else
        var (x, device) := pair.value;
        Acknowledge(RecordStep(s1, x, device, AckReasonSetting, Some(Confirmed), Label(session)),
                    x.table, x.key, session)
  }

  function OnNack(s: Twin, f: Frame, pair: Pair, session: Option<string>): Twin {
    if f.ack.None? || f.ack.value.result != NackResult || pair.None? then s
    else
      var (x, device) := pair.value;
      Acknowledge(RecordStep(s, x, device, Nack, None, Label(session)), x.table, x.key, session)
  }

  function HandleTwinFrame(s: Twin, f: Frame, session: Option<string>, hook: bool, env: Env): Twin {
    var s0 := if hook && f.tableName == "IsNewSet" then IsNewSetHook(s, f, env) else s;
    var s1 := ExpireCloud(s0, env.now);
    var pair := InflightSetting(s1);
    var s2 := OnBoxAck(s1, f, pair, session);
    var s3 := OnEvent(s2, f, pair, session, env.now);
    var s4 := OnReason(s3, f, pair, session, env.now);
    OnNack(s4, f, pair, session)
  }

  // ---- Frames on the three paths ----

  predicate IsPoll(f: Frame) {
    f.tableName in {"IsNewSet", "IsNewFW", "IsNewWeather"}
  }

  /** is_cloud_inflight is asked on every poll, and on every frame while settings are queued. */
  function CheckCloudBeforePoll(s: Twin, f: Frame, now: real): Twin {
    var s1 := if IsPoll(f) then ExpireCloud(s, now) else s;
    if s1.queue != [] then ExpireCloud(s1, now) else s1
  }

  /** The new state, and whether a Setting frame was written to the Box. */
  function AnswerPoll(s: Twin, f: Frame, session: Option<string>, env: Env): (Twin, bool) {
    if s.queue == [] || CloudInflight(s) || !IsPoll(f) then (s, false)
    else
      var (s1, x) := DeliverPending(s, f.deviceId, session, env.now);
      if x.None? then (s1, false)
      else (Inject(s1, x.value, f.deviceId, Label(session), true, env), env.writeOk)
  }

  function BoxFrame(s: Twin, f: Frame, session: Option<string>, env: Env): (Twin, bool) {
    var s1 := HandleTwinFrame(s, f, None, false, env);
    var s2 := ObserveMsgId(ObserveIdSet(s1, f.idSet), f.msgId);
    AnswerPoll(CheckCloudBeforePoll(s2, f, env.now), f, session, env)
  }

  function TrackCloud(s: Twin, f: Frame, c: CloudSetting, now: real): Twin {
    match c
    case FullSetting(x) => BeginCloud(s, x, f.deviceId, now)
    case PartialSetting => s.(cloudLegacy := true)
    case NoSetting => if f.tableName == "END" then ExpireCloud(s.(cloudLegacy := false), now) else s
  }

  function CloudFrame(s: Twin, f: Frame, c: CloudSetting, session: Option<string>, env: Env): Twin {
    var s1 := ObserveMsgId(ObserveIdSet(s, f.idSet), f.msgId);
    HandleTwinFrame(TrackCloud(s1, f, c, env.now), f, session, true, env)
  }

  function Step(s: Twin, e: Event, env: Env): Twin {
    match e
    case Message(deviceId, m) => Admit(s, deviceId, m)
    case FromBox(f, session) => BoxFrame(s, f, session, env).0
    case FromCloud(f, c, session) => CloudFrame(s, f, c, session, env)
    case Offline(f) => HandleTwinFrame(s, f, None, true, env)
    case SessionEnds(sid) => DropSession(s, sid, SessionCleared)
  }
}
