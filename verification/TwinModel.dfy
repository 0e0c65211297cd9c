/**
 The state of setting delivery as one value, and what each call does to it.
 Every call reads the monotonic clock once; the reading is its parameter now.
 */
module TwinModel {
  import opened Options
  import opened SettingsAudit
  import opened TwinState
  import opened CloudStore

  datatype SessionInflight = SessionInflight(table: string, key: string, since: real)

  /**
   What happened on the id_set number line, in order: numbers seen on the wire,
   numbers issued in a given second, and Setting frames written to the Box.
   */
  datatype IdEvent =
    | Observed(id: int)
    | Issued(id: int, second: int)
    | Injected(setting: TwinSetting, deviceId: string, id: int)

  /**
   delivered and idLog are histories: the settings deliver_pending returned
   and the events of the id_set line. No call reads them.
   */
  datatype Twin = Twin(
    timeout: real,
    collector: bool,
    queue: seq<TwinSetting>,
    inflightKey: Option<SettingKey>,
    inflightDevice: Option<string>,
    inflightSince: Option<real>,
    sessions: map<string, SessionInflight>,
    cloud: seq<CloudQueue>,
    cloudLegacy: bool,
    lastIdSet: Option<int>,
    lastMsgId: Option<int>,
    ledger: map<string, SettingStep>,
    trail: seq<AuditRecord>,
    delivered: seq<TwinSetting>,
    idLog: seq<IdEvent>)

  function Label(session: Option<string>): string {
    if session.Some? then session.value else ""
  }

  /** Nothing outside the local queue, its in-flight slots and the audit trail differs. */
  predicate SameCloudAndIds(s: Twin, r: Twin) {
    && r.timeout == s.timeout && r.collector == s.collector
    && r.cloud == s.cloud && r.cloudLegacy == s.cloudLegacy
    && r.lastIdSet == s.lastIdSet && r.lastMsgId == s.lastMsgId && r.idLog == s.idLog
  }

  // ---- Audit trail ----

  function StepRecord(x: TwinSetting, deviceId: string, step: SettingStep, result: Option<SettingResult>,
                      sessionId: string): AuditRecord
  {
    AuditRecord(x.auditId, deviceId, x.table, x.key, step, ResultOf(step, result), sessionId)
  }

  /** A terminal step is dropped unless it is stronger than the terminal step in the ledger. */
  function RecordStep(s: Twin, x: TwinSetting, deviceId: string, step: SettingStep,
                      result: Option<SettingResult>, sessionId: string): (r: Twin)
    ensures r == s.(ledger := r.ledger, trail := r.trail)
  {
    var terminal := IsTerminalStep(step) && result != Some(Pending);
    if !s.collector || x.auditId == "" then s
    else if terminal && x.auditId in s.ledger && !IsStrongerAck(step, s.ledger[x.auditId]) then s
    else s.(ledger := if terminal then s.ledger[x.auditId := step] else s.ledger,
            trail := s.trail + [StepRecord(x, deviceId, step, result, sessionId)])
  }

  function Append(s: Twin, r: AuditRecord): Twin {
    if s.collector then s.(trail := s.trail + [r]) else s
  }

  // ---- Message and setting numbers ----

  function ObserveIdSet(s: Twin, id: Option<int>): Twin {
    if id.None? then s
    else s.(lastIdSet := if s.lastIdSet.None? || id.value > s.lastIdSet.value then id else s.lastIdSet,
            idLog := s.idLog + [Observed(id.value)])
  }

  function ObserveMsgId(s: Twin, id: Option<int>): Twin {
    if id.None? then s
    else s.(lastMsgId := if s.lastMsgId.None? || id.value > s.lastMsgId.value then id else s.lastMsgId)
  }

  /** The number next_id_set returns in the given second. */
  function NextId(last: Option<int>, second: int): int {
    (if last.None? || last.value < second then second else last.value) + 1
  }

  function NextIdSet(s: Twin, second: int): Twin {
    var id := NextId(s.lastIdSet, second);
    s.(lastIdSet := Some(id), idLog := s.idLog + [Issued(id, second)])
  }

  /** random stands for the number drawn when no message id is known yet. */
  function NextMsgId(s: Twin, random: int): Twin {
    s.(lastMsgId := Some(if s.lastMsgId.None? then random else s.lastMsgId.value + 1))
  }

  // ---- Local queue ----

  function ClearInflight(s: Twin): Twin {
    s.(inflightKey := None, inflightDevice := None, inflightSince := None)
  }

  /** Records a step for the queued setting of a key, to the in-flight device. */
  function RecordQueued(s: Twin, id: SettingKey, step: SettingStep, sessionId: string): (r: Twin)
    ensures r == s.(ledger := r.ledger, trail := r.trail)
  {
    var x := Lookup(s.queue, id);
    if x.Some? && s.inflightDevice.Some? then
      RecordStep(s, x.value, s.inflightDevice.value, step, None, sessionId)
    else s
  }

  predicate InflightTimedOut(s: Twin, now: real) {
    s.inflightKey.Some? && s.inflightSince.Some? && now - s.inflightSince.value >= s.timeout
  }

  function DropTimedOut(s: Twin, sessionId: string, now: real): (r: Twin)
    ensures SameCloudAndIds(s, r) && r.sessions == s.sessions && r.delivered == s.delivered
  {
    if !InflightTimedOut(s, now) then s
    else
      var id := s.inflightKey.value;
      ClearInflight(RecordQueued(s, id, Timeout, sessionId).(queue := Drop(s.queue, id)))
  }

  predicate SessionBlocks(s: Twin, session: Option<string>, now: real) {
    session.Some? && session.value in s.sessions && now - s.sessions[session.value].since < s.timeout
  }

  function DropSession(s: Twin, session: string, step: SettingStep): (r: Twin)
    ensures r == s.(ledger := r.ledger, trail := r.trail, sessions := r.sessions)
  {
    if session !in s.sessions then s
    else
      var e := s.sessions[session];
      RecordQueued(s, SettingKey(e.table, e.key), step, session).(sessions := s.sessions - {session})
  }

  function Select(s: Twin, x: TwinSetting, deviceId: string, session: Option<string>, now: real): (r: Twin)
    ensures SameCloudAndIds(s, r) && r.queue == s.queue
    ensures r.inflightKey == Some(x.Id()) && r.delivered == s.delivered + [x]
  {
    RecordStep(
      s.(inflightKey := Some(x.Id()),
         inflightDevice := Some(deviceId),
         inflightSince := Some(now),
         sessions := if session.Some? then s.sessions[session.value := SessionInflight(x.table, x.key, now)]
                     else s.sessions,
         delivered := s.delivered + [x]),
      x, deviceId, DeliverSelected, None, Label(session))
  }

  /** The head of the sorted queue goes out, unless a setting is in flight already. */
  function DeliverNext(s: Twin, deviceId: string, session: Option<string>, now: real)
    : (r: (Twin, Option<TwinSetting>))
    ensures SameCloudAndIds(s, r.0)
  {
    if s.inflightKey.Some? || s.queue == [] then (s, None)
    else
      PendingMembers(s.queue);
      var x := GetPending(s.queue)[0];
      (Select(s, x, deviceId, session, now), Some(x))
  }

  /** deliver_pending: the new state and the setting to deliver, if any. */
  function DeliverPending(s: Twin, deviceId: string, session: Option<string>, now: real)
    : (r: (Twin, Option<TwinSetting>))
    ensures SameCloudAndIds(s, r.0)
  {
    var s1 := DropTimedOut(s, Label(session), now);
    if SessionBlocks(s1, session, now) then (s1, None)
    else DeliverNext(if session.Some? then DropSession(s1, session.value, Timeout) else s1, deviceId, session, now)
  }

  /** The session entry goes away only when it is for the acknowledged key. */
  function AcknowledgeSession(s: Twin, id: SettingKey, session: Option<string>): (r: Twin)
    ensures r == s.(sessions := r.sessions)
  {
    if session.Some? && session.value in s.sessions
       && SettingKey(s.sessions[session.value].table, s.sessions[session.value].key) == id
    then s.(sessions := s.sessions - {session.value})
    else s
  }

  /** The in-flight setting of the key goes first, then a queued one, then the first tracked one. */
  function AcknowledgeKey(s: Twin, id: SettingKey): (r: Twin)
    ensures r.trail == s.trail && r.ledger == s.ledger
  {
    if s.inflightKey == Some(id) then ClearInflight(s).(queue := Drop(s.queue, id))
    else if Lookup(s.queue, id).Some? then s.(queue := Drop(s.queue, id))
    else
      match FirstFor(Entries(s.cloud), id)
      case Some(p) => s.(cloud := Remove(s.cloud, p))
      case None => s
  }

  function Acknowledge(s: Twin, table: string, key: string, session: Option<string>): (r: Twin)
    ensures r.trail == s.trail && r.ledger == s.ledger
  {
    AcknowledgeKey(AcknowledgeSession(s, SettingKey(table, key), session), SettingKey(table, key))
  }

  /** What acknowledge returns: whether anything was in flight, queued or tracked under the key. */
  predicate Acknowledged(s: Twin, table: string, key: string) {
    var id := SettingKey(table, key);
    s.inflightKey == Some(id) || Lookup(s.queue, id).Some? || FirstFor(Entries(s.cloud), id).Some?
  }

  // ---- Cloud store ----

  /** Expiry confirms an entry whose Reason=Setting was seen and times out any other. */
  function RecordExpiry(s: Twin, p: CloudPending): (r: Twin)
    ensures r == s.(ledger := r.ledger, trail := r.trail)
  {
    if p.reasonSeen && p.reasonAt.Some? then
      RecordStep(s, p.setting, p.deviceId, AckReasonSetting, Some(Confirmed), "")
    else
      RecordStep(s, p.setting, p.deviceId, Timeout, None, "")
  }

  function RecordExpiries(s: Twin, ps: seq<CloudPending>): (r: Twin)
    ensures r == s.(ledger := r.ledger, trail := r.trail)
    decreases |ps|
  {
    if ps == [] then s else RecordExpiry(RecordExpiries(s, ps[..|ps| - 1]), ps[|ps| - 1])
  }

  function ExpireCloud(s: Twin, now: real): (r: Twin)
    ensures r == s.(ledger := r.ledger, trail := r.trail, cloud := r.cloud)
  {
    var sweep := Expired(now, s.timeout);
    RecordExpiries(s, Hit(Entries(s.cloud), sweep)).(cloud := Prune(s.cloud, sweep))
  }

  function BeginCloud(s: Twin, x: TwinSetting, deviceId: string, now: real): (r: Twin)
    ensures r == s.(ledger := r.ledger, trail := r.trail, cloud := r.cloud)
  {
    var s1 := Append(ExpireCloud(s, now),
                     AuditRecord(x.auditId, deviceId, x.table, x.key, Incoming, Pending, ""));
    s1.(cloud := CloudStore.Append(s1.cloud, CloudPending(x, deviceId, now, false, None)))
  }

  function MarkReason(s: Twin, deviceId: string, session: string, now: real): (r: (Twin, Option<CloudPending>))
    ensures r.0 == s.(ledger := r.0.ledger, trail := r.0.trail, cloud := r.0.cloud)
  {
    var s1 := ExpireCloud(s, now);
    match Oldest(ForDevice(Entries(s1.cloud), Some(deviceId)))
    case None => (s1, None)
    case Some(p) =>
      if p.reasonSeen then (s1, Some(p))
      else
        var p' := p.(reasonSeen := true, reasonAt := Some(now));
        var s2 := RecordStep(s1, p.setting, p.deviceId, AckReasonSetting, Some(Pending), session);
        (s2.(cloud := Replace(s2.cloud, p, p')), Some(p'))
  }

  /** The first entry with the confirmed text, else the head of the queue. */
  function MatchIn(entries: seq<CloudPending>, confirmed: string): CloudPending
    requires entries != []
  {
    match FirstValue(entries, confirmed)
    case Some(p) => p
    case None => entries[0]
  }

  function FirstValue(entries: seq<CloudPending>, confirmed: string): Option<CloudPending> {
    if entries == [] then None
    else if ValueText(entries[0].setting.value) == confirmed then Some(entries[0])
    else FirstValue(entries[1..], confirmed)
  }

  function Digits(n: nat): string {
    if n < 10 then ["0123456789"[n]] else Digits(n / 10) + ["0123456789"[n % 10]]
  }

  /** The text Python prints for a value. */
  function ValueText(v: Value): string {
    match v
    case IntValue(n) => if n < 0 then "-" + Digits(-n) else Digits(n)
    case FloatValue(repr) => repr
    case TextValue(text) => text
  }

  function MatchTblEvents(s: Twin, deviceId: string, table: string, key: string, confirmed: string,
                          session: string, now: real): (r: (Twin, Option<CloudPending>))
    ensures r.0 == s.(ledger := r.0.ledger, trail := r.0.trail, cloud := r.0.cloud)
  {
    var s1 := ExpireCloud(s, now);
    var entries := QueueOf(s1.cloud, CloudKey(deviceId, table, key));
    if entries == [] then (s1, None)
    else
      var p := MatchIn(entries, confirmed);
      var s2 := RecordStep(s1, p.setting, p.deviceId, AckTblEvents, None, session);
      (s2.(cloud := Remove(s2.cloud, p)), Some(p))
  }

  /** inflight_setting: the oldest cloud setting, else the queued setting of the in-flight key. */
  function InflightSetting(s: Twin): Option<(TwinSetting, string)> {
    match Oldest(Entries(s.cloud))
    case Some(p) => Some((p.setting, p.deviceId))
    case None =>
      if s.inflightKey.None? || s.inflightDevice.None? then None
      else
        match Lookup(s.queue, s.inflightKey.value)
        case None => None
        case Some(x) => Some((x, s.inflightDevice.value))
  }

  predicate CloudInflight(s: Twin) {
    s.cloudLegacy || Entries(s.cloud) != []
  }

  // ---- Shutdown ----

  function RecordCleared(s: Twin, ps: seq<CloudPending>): (r: Twin)
    ensures r == s.(ledger := r.ledger, trail := r.trail)
    decreases |ps|
  {
    if ps == [] then s
    else
      var p := ps[|ps| - 1];
      RecordStep(RecordCleared(s, ps[..|ps| - 1]), p.setting, p.deviceId, SessionCleared, None, "")
  }

  function Shutdown(s: Twin): Twin {
    var s1 := if s.inflightKey.Some? && s.inflightDevice.Some? then
                ClearInflight(RecordQueued(s, s.inflightKey.value, SessionCleared, ""))
              else s;
    RecordCleared(s1, Entries(s1.cloud)).(cloud := Prune(s1.cloud, Everything))
  }

  // ---- One call of the delivery interface ----

  datatype Call =
    | DoEnqueue(x: TwinSetting)
    | DoObserveIdSet(seen: Option<int>)
    | DoObserveMsgId(seen: Option<int>)
    | DoNextIdSet(second: int)
    | DoNextMsgId(random: int)
    | DoDeliver(deviceId: string, session: Option<string>)
    | DoAcknowledge(table: string, key: string, session: Option<string>)
    | DoClearSession(sid: string)
    | DoRecord(x: TwinSetting, deviceId: string, step: SettingStep, result: Option<SettingResult>, sid: string)
    | DoExpire
    | DoBeginCloud(x: TwinSetting, deviceId: string)
    | DoMarkReason(deviceId: string, sid: string)
    | DoMatchTblEvents(deviceId: string, table: string, key: string, confirmed: string, sid: string)
    | DoSetLegacy(on: bool)

  function Do(s: Twin, c: Call, now: real): Twin {
    match c
    case DoEnqueue(x) => s.(queue := Put(s.queue, x))
    case DoObserveIdSet(seen) => ObserveIdSet(s, seen)
    case DoObserveMsgId(seen) => ObserveMsgId(s, seen)
    case DoNextIdSet(second) => NextIdSet(s, second)
    case DoNextMsgId(random) => NextMsgId(s, random)
    case DoDeliver(deviceId, session) => DeliverPending(s, deviceId, session, now).0
    case DoAcknowledge(table, key, session) => Acknowledge(s, table, key, session)
    case DoClearSession(sid) => DropSession(s, sid, SessionCleared)
    case DoRecord(x, deviceId, step, result, sid) => RecordStep(s, x, deviceId, step, result, sid)
    case DoExpire => ExpireCloud(s, now)
    case DoBeginCloud(x, deviceId) => BeginCloud(s, x, deviceId, now)
    case DoMarkReason(deviceId, sid) => MarkReason(s, deviceId, sid, now).0
    case DoMatchTblEvents(deviceId, table, key, confirmed, sid) =>
      MatchTblEvents(s, deviceId, table, key, confirmed, sid, now).0
    case DoSetLegacy(on) => s.(cloudLegacy := on)
  }
}
