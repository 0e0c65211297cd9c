/**
 The MQTT control handler and the frame handlers of the proxy server, which
 drive the shared queue and the delivery manager step by step.
 */
module TwinServer {
  import opened Options
  import opened SettingsAudit
  import opened SettingsConstraints
  import TwinState
  import opened TwinModel
  import opened TwinDelivery
  import TwinFrames

  type Frame = TwinFrames.Frame
  type Env = TwinFrames.Env
  type ControlMessage = TwinFrames.ControlMessage
  type Pair = TwinFrames.Pair

  class TwinControlHandler {
    const twinQueue: TwinQueue
    const collector: AuditCollector?
    const deviceId: string

    constructor (queue: TwinQueue, collector: AuditCollector?, deviceId: string)
      ensures this.twinQueue == queue && this.collector == collector && this.deviceId == deviceId
    {
      this.twinQueue, this.collector, this.deviceId := queue, collector, deviceId;
    }

    ghost function Records(): seq<AuditRecord>
      reads collector
    {
      if collector != null then collector.records else []
    }

    method RecordSettingAudit(r: AuditRecord)
      modifies collector
      ensures Records() == if collector != null then old(Records()) + [r] else old(Records())
    {
      if collector != null { collector.RecordSettingAuditStep(r); }
    }

    /**
     One control message, decoded; m.idSet is the number the queue will give.
     The queue and the trail change as TwinFrames.Admit says.
     */
    method OnMessage(m: ControlMessage, second: int)
      requires m.auditId != "" && m.idSet == twinQueue.nextIdSet
      modifies twinQueue, collector
      ensures twinQueue.items == TwinFrames.AdmittedQueue(old(twinQueue.items), m)
      ensures twinQueue.nextIdSet == if TwinFrames.AdmittedValue(m).Some? then
                                       TwinQueue.Following(old(twinQueue.nextIdSet), second)
                                     else old(twinQueue.nextIdSet)
      ensures Records() == old(Records())
              + if collector != null then TwinFrames.AdmissionRecords(old(twinQueue.items), deviceId, m) else []
    {
      RecordSettingAudit(TwinFrames.MessageRecord(deviceId, m, Incoming, Pending));
      if !IsSettingAllowed(m.table, m.key) {
        RecordSettingAudit(TwinFrames.MessageRecord(deviceId, m, RejectedNotAllowed, Rejected));
        return;
      }
      var verdict := Validate(m.table, m.key, m.payload);
      if verdict.Refused? {
        RecordSettingAudit(TwinFrames.MessageRecord(deviceId, m, RejectedValidation, Rejected));
        return;
      }
      if m.table == "proxy_control" && m.handledByProxy { return; }
      var prior := twinQueue.Get(m.table, m.key);
      if prior.Some? && prior.value.auditId != "" {
        RecordSettingAudit(TwinFrames.SupersededRecord(deviceId, prior.value));
      }
      twinQueue.Enqueue(m.table, m.key, verdict.value, "New", m.auditId, m.rawText, "", m.msgId, m.wallTime, second);
      RecordSettingAudit(TwinFrames.MessageRecord(deviceId, m, Enqueued, Pending));
    }
  }

  class ProxyServer {
    const twinDelivery: TwinDelivery

    constructor (twinDelivery: TwinDelivery)
      ensures this.twinDelivery == twinDelivery
    {
      this.twinDelivery := twinDelivery;
    }

    /** Numbers the setting and writes its frame; a failed write leaves it in flight. */
    method Inject(x: TwinSetting, deviceId: string, sessionId: string, numberMessage: bool, env: Env)
      requires twinDelivery.Valid()
      modifies twinDelivery, twinDelivery.collector
      ensures twinDelivery.Valid() && twinDelivery.clock == old(twinDelivery.clock)
      ensures twinDelivery.View() == TwinFrames.Inject(old(twinDelivery.View()), x, deviceId, sessionId, numberMessage, env)
    {
      var id := twinDelivery.NextIdSet(env.second);
      if numberMessage {
        var _ := twinDelivery.NextMsgId(env.random);
      }
      if env.writeOk {
        twinDelivery.idLog := twinDelivery.idLog + [Injected(x, deviceId, id)];
        twinDelivery.RecordAuditStep(x, deviceId, InjectedBox, None, sessionId);
      }
    }

    method DeliverPendingForIsNewSet(f: Frame, env: Env)
      requires twinDelivery.Valid() && twinDelivery.clock <= env.now
      modifies twinDelivery, twinDelivery.twinQueue`items, twinDelivery.collector
      ensures twinDelivery.Valid() && twinDelivery.clock == env.now
      ensures twinDelivery.View() == TwinFrames.IsNewSetHook(old(twinDelivery.View()), f, env)
    {
      var x := twinDelivery.DeliverPending(f.deviceId, None, env.now);
      if x.Some? { Inject(x.value, f.deviceId, "", false, env); }
    }

    /** A record of one of the server's acknowledgement steps. */
    method Record(pair: (TwinSetting, string), step: SettingStep, result: Option<SettingResult>, session: Option<string>)
      requires twinDelivery.Valid()
      modifies twinDelivery, twinDelivery.collector
      ensures twinDelivery.Valid() && twinDelivery.clock == old(twinDelivery.clock)
      ensures twinDelivery.View()
           == RecordStep(old(twinDelivery.View()), pair.0, pair.1, step, result, Label(session))
    {
      twinDelivery.RecordAuditStep(pair.0, pair.1, step, result, Label(session));
    }

    method OnBoxAck(f: Frame, pair: Pair, session: Option<string>)
      requires twinDelivery.Valid()
      modifies twinDelivery, twinDelivery.twinQueue`items, twinDelivery.collector
      ensures twinDelivery.Valid() && twinDelivery.clock == old(twinDelivery.clock)
      ensures twinDelivery.View() == TwinFrames.OnBoxAck(old(twinDelivery.View()), f, pair, session)
    {
      if f.ack.None? || f.ack.value.result != TwinFrames.Ack || f.ack.value.table == "" || f.ack.value.todo == "" {
        return;
      }
      var a := f.ack.value;
      if pair.Some? && (pair.value.0.table, pair.value.0.key) == (a.table, a.todo) {
        Record(pair.value, AckBoxObserved, None, session);
      } else {
        var _ := twinDelivery.Acknowledge(a.table, a.todo, session);
      }
    }

    method OnEvent(f: Frame, pair: Pair, session: Option<string>, now: real)
      requires twinDelivery.Valid() && twinDelivery.clock == now
      modifies twinDelivery, twinDelivery.twinQueue`items, twinDelivery.collector
      ensures twinDelivery.Valid() && twinDelivery.clock == now
      ensures twinDelivery.View() == TwinFrames.OnEvent(old(twinDelivery.View()), f, pair, session, now)
    {
      if f.event.None? { return; }
      var e := f.event.value;
      var matched := twinDelivery.MatchCloudTblEvents(f.deviceId, e.table, e.key, e.value, Label(session), now);
      if matched.Some? { return; }
      if pair.Some? && (pair.value.0.table, pair.value.0.key) == (e.table, e.key) {
        Record(pair.value, AckTblEvents, None, session);
      }
      var _ := twinDelivery.Acknowledge(e.table, e.key, session);
    }

    method OnReason(f: Frame, pair: Pair, session: Option<string>, now: real)
      requires twinDelivery.Valid() && twinDelivery.clock == now
      modifies twinDelivery, twinDelivery.twinQueue`items, twinDelivery.collector
      ensures twinDelivery.Valid() && twinDelivery.clock == now
      ensures twinDelivery.View() == TwinFrames.OnReason(old(twinDelivery.View()), f, pair, session, now)
    {
      if f.ack.None? || f.ack.value.result != TwinFrames.Ack || f.ack.value.reason != "Setting" { return; }
      var marked := twinDelivery.MarkCloudReasonSetting(f.deviceId, Label(session), now);
      if marked.Some? || pair.None? { return; }
      Record(pair.value, AckReasonSetting, Some(Confirmed), session);
      var _ := twinDelivery.Acknowledge(pair.value.0.table, pair.value.0.key, session);
    }

    method OnNack(f: Frame, pair: Pair, session: Option<string>)
      requires twinDelivery.Valid()
      modifies twinDelivery, twinDelivery.twinQueue`items, twinDelivery.collector
      ensures twinDelivery.Valid() && twinDelivery.clock == old(twinDelivery.clock)
      ensures twinDelivery.View() == TwinFrames.OnNack(old(twinDelivery.View()), f, pair, session)
    {
      if f.ack.None? || f.ack.value.result != TwinFrames.NackResult || pair.None? { return; }
      Record(pair.value, Nack, None, session);
      var _ := twinDelivery.Acknowledge(pair.value.0.table, pair.value.0.key, session);
    }

    method HandleTwinFrames(f: Frame, session: Option<string>, runIsNewSetHook: bool, env: Env)
      requires twinDelivery.Valid() && twinDelivery.clock <= env.now
      modifies twinDelivery, twinDelivery.twinQueue`items, twinDelivery.collector
      ensures twinDelivery.Valid() && twinDelivery.clock == env.now
      ensures twinDelivery.View()
           == TwinFrames.HandleTwinFrame(old(twinDelivery.View()), f, session, runIsNewSetHook, env)
    {
      if runIsNewSetHook && f.tableName == "IsNewSet" { DeliverPendingForIsNewSet(f, env); }
      var pair := twinDelivery.CurrentInflight(env.now);
      OnBoxAck(f, pair, session);
      OnEvent(f, pair, session, env.now);
      OnReason(f, pair, session, env.now);
      OnNack(f, pair, session);
    }

    method ObserveNumbers(f: Frame)
      requires twinDelivery.Valid()
      modifies twinDelivery
      ensures twinDelivery.Valid() && twinDelivery.clock == old(twinDelivery.clock)
      ensures twinDelivery.View() == ObserveMsgId(ObserveIdSet(old(twinDelivery.View()), f.idSet), f.msgId)
    {
      twinDelivery.ObserveIdSet(f.idSet);
      twinDelivery.ObserveMsgId(f.msgId);
    }

    method CheckCloudBeforePoll(f: Frame, now: real)
      requires twinDelivery.Valid() && twinDelivery.clock == now
      modifies twinDelivery, twinDelivery.collector
      ensures twinDelivery.Valid() && twinDelivery.clock == now
      ensures twinDelivery.View() == TwinFrames.CheckCloudBeforePoll(old(twinDelivery.View()), f, now)
    {
      if TwinFrames.IsPoll(f) {
        var _ := twinDelivery.IsCloudInflight(now);
      }
      if twinDelivery.twinQueue.items != [] {
        var _ := twinDelivery.IsCloudInflight(now);
      }
    }

    method DeliverAndInject(deviceId: string, session: Option<string>, env: Env) returns (written: bool)
      requires twinDelivery.Valid() && twinDelivery.clock == env.now
      modifies twinDelivery, twinDelivery.twinQueue`items, twinDelivery.collector
      ensures twinDelivery.Valid() && twinDelivery.clock == env.now
      ensures var (s, x) := TwinModel.DeliverPending(old(twinDelivery.View()), deviceId, session, env.now);
              (twinDelivery.View(), written)
              == if x.None? then (s, false)
                 else (TwinFrames.Inject(s, x.value, deviceId, Label(session), true, env), env.writeOk)
    {
      var x := twinDelivery.DeliverPending(deviceId, session, env.now);
      if x.None? { return false; }
      Inject(x.value, deviceId, Label(session), true, env);
      written := env.writeOk;
    }

    method AnswerPoll(f: Frame, session: Option<string>, env: Env) returns (withheld: bool)
      requires twinDelivery.Valid() && twinDelivery.clock == env.now
      modifies twinDelivery, twinDelivery.twinQueue`items, twinDelivery.collector
      ensures twinDelivery.Valid() && twinDelivery.clock == env.now
      ensures (twinDelivery.View(), withheld) == TwinFrames.AnswerPoll(old(twinDelivery.View()), f, session, env)
    {
      if twinDelivery.twinQueue.items == [] || twinDelivery.cloudLegacyInflight
         || CloudStore.Entries(twinDelivery.cloudPending) != [] || !TwinFrames.IsPoll(f)
      {
        return false;
      }
      withheld := DeliverAndInject(f.deviceId, session, env);
    }

    /** One frame of the Box on its way to the cloud; withheld says that it must not be forwarded. */
    method BoxFrame(f: Frame, session: Option<string>, env: Env) returns (withheld: bool)
      requires twinDelivery.Valid() && twinDelivery.clock <= env.now
      modifies twinDelivery, twinDelivery.twinQueue`items, twinDelivery.collector
      ensures twinDelivery.Valid() && twinDelivery.clock == env.now
      ensures (twinDelivery.View(), withheld) == TwinFrames.BoxFrame(old(twinDelivery.View()), f, session, env)
    {
      HandleTwinFrames(f, None, false, env);
      ObserveNumbers(f);
      CheckCloudBeforePoll(f, env.now);
      withheld := AnswerPoll(f, session, env);
    }

    method TrackCloud(f: Frame, c: TwinFrames.CloudSetting, now: real)
      requires twinDelivery.Valid() && twinDelivery.clock <= now
      modifies twinDelivery, twinDelivery.collector
      ensures twinDelivery.Valid() && twinDelivery.clock <= now
      ensures twinDelivery.View() == TwinFrames.TrackCloud(old(twinDelivery.View()), f, c, now)
    {
      match c
      case FullSetting(x) => twinDelivery.BeginCloudSetting(x, f.deviceId, now);
      case PartialSetting => twinDelivery.SetCloudInflight();
      case NoSetting => if f.tableName == "END" { twinDelivery.ClearCloudInflight(now); }
    }

    /** One frame of the cloud, already forwarded to the Box. */
    method CloudFrame(f: Frame, c: TwinFrames.CloudSetting, session: Option<string>, env: Env)
      requires twinDelivery.Valid() && twinDelivery.clock <= env.now
      modifies twinDelivery, twinDelivery.twinQueue`items, twinDelivery.collector
      ensures twinDelivery.Valid() && twinDelivery.clock == env.now
      ensures twinDelivery.View() == TwinFrames.CloudFrame(old(twinDelivery.View()), f, c, session, env)
    {
      ObserveNumbers(f);
      TrackCloud(f, c, env.now);
      HandleTwinFrames(f, session, true, env);
    }
  }
}
