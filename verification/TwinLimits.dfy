/**
 Where the guarantees of setting delivery end: after shutdown, for a value that
 overwrites one in flight, and for a cloud setting acknowledged by its key.
 */
module TwinLimits {
  import opened Options
  import opened SettingsAudit
  import opened SettingsConstraints
  import opened TwinState
  import opened CloudStore
  import opened TwinModel
  import opened TwinInvariants
  import opened TwinFrames
  import opened TwinRuns
  import opened TwinProgress

  // ---- Delivery after shutdown ----

  /** Some audit id occurs twice. */
  predicate Repeats(xs: seq<TwinSetting>) {
    exists i, j :: 0 <= i < j < |xs| && xs[i].auditId == xs[j].auditId
  }

  predicate HasId(xs: seq<TwinSetting>, auditId: string) {
    exists d :: d in xs && d.auditId == auditId
  }

  /** The setting in flight was delivered: its value was not overwritten since. */
  predicate DeliveredInflight(s: Twin) {
    && s.inflightKey.Some?
    && Lookup(s.queue, s.inflightKey.value).Some?
    && HasId(s.delivered, Lookup(s.queue, s.inflightKey.value).value.auditId)
  }

  predicate InOrder(clock: real, polls: seq<Poll>) {
    && (polls != [] ==> clock <= polls[0].now)
    && (forall i :: 0 <= i < |polls| - 1 ==> polls[i].now <= polls[i + 1].now)
  }

  lemma ShutdownShape(s: Twin, clock: real)
    requires Slots(s, clock)
    ensures var r := Shutdown(s);
            && r.queue == s.queue && r.delivered == s.delivered && r.sessions == s.sessions
            && r.timeout == s.timeout && r.inflightKey.None? && Slots(r, clock) && Undelivered(r) == s.queue
  {
  }

  /** What is queued again after shutdown: of the queued settings only the one in flight was delivered. */
  lemma DeliveredOnlyInflight(s: Twin, clock: real)
    requires Slots(s, clock) && Once(s)
    ensures DeliveredInflight(s) <==> exists x :: x in s.queue && HasId(s.delivered, x.auditId)
  {
    if s.inflightKey.Some? { LookupSpec(s.queue, s.inflightKey.value); }
  }

  /** Shutdown keeps delivery at most once exactly when the setting in flight was not delivered. */
  lemma OnceAfterShutdownIff(s: Twin, clock: real)
    requires Slots(s, clock) && Once(s)
    ensures Once(Shutdown(s)) <==> !DeliveredInflight(s)
  {
    ShutdownShape(s, clock);
    DeliveredOnlyInflight(s, clock);
    if x :| x in s.queue && HasId(s.delivered, x.auditId) {
      var d :| d in s.delivered && d.auditId == x.auditId;
    }
  }

  lemma ConcatRepeats(d: seq<TwinSetting>, q: seq<TwinSetting>)
    requires !Repeats(d) && !Repeats(q)
    ensures Repeats(d + q) <==> exists x :: x in q && HasId(d, x.auditId)
  {
    if x :| x in q && HasId(d, x.auditId) {
      var y :| y in d && y.auditId == x.auditId;
      var i :| 0 <= i < |d| && d[i] == y;
      var j :| 0 <= j < |q| && q[j] == x;
      assert (d + q)[i].auditId == (d + q)[|d| + j].auditId;
    } else {
      forall i, j | 0 <= i < j < |d + q| ensures (d + q)[i].auditId != (d + q)[j].auditId {
        if j < |d| {
          assert d[i].auditId != d[j].auditId;
        } else if i >= |d| {
          assert q[i - |d|].auditId != q[j - |d|].auditId;
        } else {
          assert q[j - |d|] in q && !HasId(d, q[j - |d|].auditId) && d[i] in d;
        }
      }
    }
  }

  lemma PendingHasNoRepeats(queue: seq<TwinSetting>)
    requires UniqueKeys(queue) && UniqueAudits(queue)
    ensures !Repeats(GetPending(queue))
  {
    var q := GetPending(queue);
    PendingKeepsKeys(queue);
    PendingMembers(queue);
    forall i, j | 0 <= i < j < |q| ensures q[i].auditId != q[j].auditId {
      assert q[i] in q && q[j] in q && q[i].Id() != q[j].Id();
    }
  }

  /** Delivering the whole queue repeats an audit id exactly when one of the queued ones was delivered. */
  lemma RepeatsOfAll(s: Twin)
    requires UniqueKeys(s.queue) && Once(s)
    ensures Repeats(s.delivered + GetPending(s.queue))
       <==> exists x :: x in s.queue && HasId(s.delivered, x.auditId)
  {
    PendingHasNoRepeats(s.queue);
    ConcatRepeats(s.delivered, GetPending(s.queue));
    PendingMembers(s.queue);
  }

  /** However the polls are spaced, what they deliver is the next part of the sorted queue. */
  lemma {:induction false} PollsAccount(s: Twin, clock: real, polls: seq<Poll>)
    requires Slots(s, clock) && InOrder(clock, polls)
    ensures Polls(s, polls).delivered <= s.delivered + GetPending(Undelivered(s))
    decreases |polls|
  {
    if polls != [] {
      var p := polls[0];
      PollAccounts(s, p.deviceId, p.session, clock, p.now);
      PollsAccount(DeliverPending(s, p.deviceId, p.session, p.now).0, p.now, polls[1..]);
    }
  }

  /** Polls after shutdown deliver an audit id again only if the setting in flight was delivered before. */
  lemma RepeatsNeedDelivered(s: Twin, clock: real, polls: seq<Poll>)
    requires Slots(s, clock) && Once(s) && InOrder(clock, polls)
    requires Repeats(Polls(Shutdown(s), polls).delivered)
    ensures DeliveredInflight(s)
  {
    ShutdownShape(s, clock);
    PollsAccount(Shutdown(s), clock, polls);
    var got, all := Polls(Shutdown(s), polls).delivered, s.delivered + GetPending(s.queue);
    var i, j :| 0 <= i < j < |got| && got[i].auditId == got[j].auditId;
    assert all[i] == got[i] && all[j] == got[j];
    RepeatsOfAll(s);
    DeliveredOnlyInflight(s, clock);
  }

  /** And enough polls then do, in every well-formed state, whatever else is queued. */
  lemma ShutdownRedeliversIff(s: Twin, clock: real, polls: seq<Poll>)
    requires Slots(s, clock) && Once(s) && Spaced(s.timeout, clock, polls)
    requires |polls| >= |s.queue| + 2
    ensures Repeats(Polls(Shutdown(s), polls).delivered) <==> DeliveredInflight(s)
  {
    ShutdownShape(s, clock);
    DrainBound(Shutdown(s), clock, polls);
    RepeatsOfAll(s);
    DeliveredOnlyInflight(s, clock);
  }

  /** One setting, enqueued and polled for once. */
  function PolledOnce(timeout: real, collector: bool, x: TwinSetting, p: Poll): Twin {
    Do(Do(Initial(timeout, collector), DoEnqueue(x), p.now), DoDeliver(p.deviceId, p.session), p.now)
  }

  lemma PolledOnceKeepsInv(timeout: real, collector: bool, x: TwinSetting, p: Poll)
    ensures Inv(PolledOnce(timeout, collector, x, p), p.now)
  {
    var start := Initial(timeout, collector);
    InitialSound(timeout, collector, p.now);
    DoKeepsInv(start, DoEnqueue(x), p.now, p.now);
    DoKeepsInv(Do(start, DoEnqueue(x), p.now), DoDeliver(p.deviceId, p.session), p.now, p.now);
  }

  lemma PolledOnceShape(timeout: real, collector: bool, x: TwinSetting, p: Poll)
    ensures var s := PolledOnce(timeout, collector, x, p);
            s.queue == [x] && s.delivered == [x] && s.timeout == timeout && s.inflightKey == Some(x.Id())
  {
    var queued := Do(Initial(timeout, collector), DoEnqueue(x), p.now);
    assert queued.queue == [x];
    FreePollShape(queued, p.deviceId, p.session, p.now);
    assert GetPending([x]) == [x];
    DoFrame(queued, DoDeliver(p.deviceId, p.session), p.now);
  }

  /** It happens in a reachable state: the one setting goes out a second time. */
  lemma {:induction false} ShutdownRedeliversSetting(timeout: real, collector: bool, x: TwinSetting, p: Poll,
                                                     polls: seq<Poll>)
    requires Spaced(timeout, p.now, polls) && |polls| >= 3
    ensures var s := PolledOnce(timeout, collector, x, p);
            Inv(s, p.now) && DeliveredInflight(s) && Polls(Shutdown(s), polls).delivered == [x, x]
  {
    var s := PolledOnce(timeout, collector, x, p);
    PolledOnceKeepsInv(timeout, collector, x, p);
    PolledOnceShape(timeout, collector, x, p);
    assert GetPending([x]) == [x] && x in s.delivered;
    ShutdownShape(s, p.now);
    DrainBound(Shutdown(s), p.now, polls);
  }

  // ---- A value that overwrites one in flight ----

  /** Of the queued settings not yet delivered, the polls that drain the queue leave out exactly the one in flight. */
  lemma DeliveredIffNotInflight(s: Twin, clock: real, polls: seq<Poll>, x: TwinSetting)
    requires Slots(s, clock) && Spaced(s.timeout, clock, polls) && |polls| >= |s.queue| + 2
    requires x in s.queue && x !in s.delivered
    ensures Polls(s, polls).queue == []
    ensures x in Polls(s, polls).delivered <==> s.inflightKey != Some(x.Id())
  {
    DrainBound(s, clock, polls);
    PendingMembers(Undelivered(s));
    if s.inflightKey.Some? { DropSpec(s.queue, s.inflightKey.value); }
  }

  lemma AdmitToEmpty(s: Twin, deviceId: string, m: ControlMessage)
    requires AdmittedValue(m).Some? && forall x :: x in s.queue ==> x.Id() == SettingKey(m.table, m.key)
    requires |s.queue| <= 1
    ensures Admit(s, deviceId, m)
         == s.(queue := [SettingOf(m, AdmittedValue(m).value)], trail := Admit(s, deviceId, m).trail)
  {
    if s.queue != [] { assert s.queue == [s.queue[0]] && s.queue[0] in s.queue; }
  }

  /**
   A message, a poll, a second message for the same key, and as many spaced
   polls as one likes: the first value went out, the second one never does.
   */
  lemma {:induction false} OverwrittenIsLost(timeout: real, collector: bool, deviceId: string,
                                             m1: ControlMessage, m2: ControlMessage, p: Poll, polls: seq<Poll>)
    requires AdmittedValue(m1).Some? && AdmittedValue(m2).Some?
    requires (m1.table, m1.key) == (m2.table, m2.key) && m1.auditId != m2.auditId
    requires Spaced(timeout, p.now, polls) && |polls| >= 3
    ensures var x1, x2 := SettingOf(m1, AdmittedValue(m1).value), SettingOf(m2, AdmittedValue(m2).value);
            var s1 := Admit(Initial(timeout, collector), deviceId, m1);
            var s2 := DeliverPending(s1, p.deviceId, p.session, p.now).0;
            var s3 := Admit(s2, deviceId, m2);
            && s3.queue == [x2]
            && Polls(s3, polls).queue == [] && Polls(s3, polls).delivered == [x1] && x2 !in Polls(s3, polls).delivered
  {
    var x1, x2 := SettingOf(m1, AdmittedValue(m1).value), SettingOf(m2, AdmittedValue(m2).value);
    var s0 := Initial(timeout, collector);
    AdmitToEmpty(s0, deviceId, m1);
    var s1 := Admit(s0, deviceId, m1);
    FreePollShape(s1, p.deviceId, p.session, p.now);
    assert GetPending([x1]) == [x1];
    DeliverSlots(s1, p.deviceId, p.session, p.now, p.now);
    var s2 := DeliverPending(s1, p.deviceId, p.session, p.now).0;
    AdmitToEmpty(s2, deviceId, m2);
    var s3 := Admit(s2, deviceId, m2);
    assert Slots(s3, p.now);
    DrainBound(s3, p.now, polls);
    assert Undelivered(s3) == [];
  }

  /** Such messages exist. */
  lemma ModeIsAdmitted(m: ControlMessage, on: bool)
    requires m.table == "tbl_box_prms" && m.key == "MODE" && m.payload == Flag(on)
    ensures AdmittedValue(m) == Some(IntValue(if on then 1 else 0))
  {
  }

  // ---- A cloud setting acknowledged by its key ----

  /** The frame of a Box that acknowledges one setting. */
  predicate IsPlainAck(f: Frame, id: SettingKey) {
    && f.ack == Some(BoxAck(Ack, id.table, id.key, "")) && id.table != "" && id.key != ""
    && f.event.None? && f.tableName != "IsNewSet"
  }

  lemma {:induction false} NothingHit(entries: seq<CloudPending>, sweep: Sweep)
    requires forall p :: p in entries ==> !sweep.Hits(p)
    ensures Hit(entries, sweep) == [] && Kept(entries, sweep) == entries
  {
    if entries != [] {
      NothingHit(entries[1..], sweep);
      assert entries == [entries[0]] + entries[1..];
    }
  }

  lemma {:induction false} NothingPruned(cloud: seq<CloudQueue>, sweep: Sweep)
    requires forall q :: q in cloud ==> q.entries != []
    requires forall p :: p in Entries(cloud) ==> !sweep.Hits(p)
    ensures Prune(cloud, sweep) == cloud
  {
    if cloud != [] {
      NothingPruned(cloud[1..], sweep);
      NothingHit(cloud[0].entries, sweep);
      assert cloud == [cloud[0]] + cloud[1..];
    }
  }

  lemma NothingExpires(s: Twin, now: real)
    requires forall q :: q in s.cloud ==> q.entries != []
    requires forall p :: p in Entries(s.cloud) ==> now - p.LimitedFrom() < s.timeout
    ensures ExpireCloud(s, now) == s
  {
    NothingHit(Entries(s.cloud), Expired(now, s.timeout));
    NothingPruned(s.cloud, Expired(now, s.timeout));
  }

  lemma OneQueue(p: CloudPending)
    ensures Entries([CloudQueue(p.Id(), [p])]) == [p]
  {
    assert [CloudQueue(p.Id(), [p])][1..] == [];
    assert [p] + [] == [p];
  }

  lemma TwoQueues(p: CloudPending, q: CloudPending)
    ensures Entries([CloudQueue(p.Id(), [p]), CloudQueue(q.Id(), [q])]) == [p, q]
  {
    OneQueue(q);
    assert [CloudQueue(p.Id(), [p]), CloudQueue(q.Id(), [q])][1..] == [CloudQueue(q.Id(), [q])];
    assert [p] + [q] == [p, q];
  }

  lemma TrackOne(s: Twin, a: TwinSetting, deviceId: string, now: real)
    requires forall q :: q in s.cloud ==> q.entries != []
    requires forall p :: p in Entries(s.cloud) ==> now - p.LimitedFrom() < s.timeout
    ensures var p := CloudPending(a, deviceId, now, false, None);
            BeginCloud(s, a, deviceId, now)
            == s.(cloud := CloudStore.Append(s.cloud, p), trail := BeginCloud(s, a, deviceId, now).trail)
  {
    NothingExpires(s, now);
  }

  lemma TrackTwo(s: Twin, p: CloudPending, q: CloudPending, now: real)
    requires s.cloud == [] && s.timeout > 0.0 && p.setting.Id() != q.setting.Id() && p.deviceId == q.deviceId
    requires p == CloudPending(p.setting, p.deviceId, now, false, None)
    requires q == CloudPending(q.setting, q.deviceId, now, false, None)
    ensures var r := BeginCloud(BeginCloud(s, p.setting, p.deviceId, now), q.setting, q.deviceId, now);
            r == s.(cloud := [CloudQueue(p.Id(), [p]), CloudQueue(q.Id(), [q])], trail := r.trail)
  {
    TrackOne(s, p.setting, p.deviceId, now);
    var s1 := BeginCloud(s, p.setting, p.deviceId, now);
    assert s1.cloud == [CloudQueue(p.Id(), [p])];
    OneQueue(p);
    TrackOne(s1, q.setting, q.deviceId, now);
    assert s1.cloud[1..] == [];
  }

  lemma OfTwo(p: CloudPending, q: CloudPending)
    requires p.setting.Id() != q.setting.Id() && p.trackedAt <= q.trackedAt
    ensures Oldest([p, q]) == Some(p) && FirstFor([p, q], q.setting.Id()) == Some(q)
  {
    assert [p, q][1..] == [q] && [q][1..] == [];
    assert Oldest([]) == None;
    assert Oldest([q]) == Some(q);
    assert FirstFor([q], q.setting.Id()) == Some(q);
  }

  lemma AckOfYounger(s: Twin, p: CloudPending, q: CloudPending, f: Frame, env: Env)
    requires s.cloud == [CloudQueue(p.Id(), [p]), CloudQueue(q.Id(), [q])]
    requires p.setting.Id() != q.setting.Id() && p.deviceId == q.deviceId && p.trackedAt <= q.trackedAt
    requires env.now - p.LimitedFrom() < s.timeout && env.now - q.LimitedFrom() < s.timeout
    requires IsPlainAck(f, q.setting.Id()) && s.queue == [] && s.inflightKey.None?
    ensures var r := HandleTwinFrame(s, f, None, false, env);
            r.cloud == [CloudQueue(p.Id(), [p])] && r.ledger == s.ledger
  {
    TwoQueues(p, q);
    NothingExpires(s, env.now);
    OfTwo(p, q);
    assert HandleTwinFrame(s, f, None, false, env) == Acknowledge(s, q.setting.table, q.setting.key, None);
    assert s.cloud[1..] == [CloudQueue(q.Id(), [q])] && s.cloud[1..][1..] == [];
    assert Remove(s.cloud[1..], q) == [];
  }

  /**
   Two cloud settings are tracked and the Box acknowledges the younger one: it
   leaves the store, and no terminal step of it is in the ledger.
   */
  lemma YoungerIsDroppedUnreported(timeout: real, a: TwinSetting, b: TwinSetting, deviceId: string, f: Frame, env: Env)
    requires timeout > 0.0 && a.Id() != b.Id() && IsPlainAck(f, b.Id())
    ensures var s := BeginCloud(BeginCloud(Initial(timeout, true), a, deviceId, env.now), b, deviceId, env.now);
            var r := HandleTwinFrame(s, f, None, false, env);
            && Entries(s.cloud) == [CloudPending(a, deviceId, env.now, false, None),
                                    CloudPending(b, deviceId, env.now, false, None)]
            && Entries(r.cloud) == [CloudPending(a, deviceId, env.now, false, None)]
            && b.auditId !in r.ledger && !Accounted(r, b)
  {
    var p, q := CloudPending(a, deviceId, env.now, false, None), CloudPending(b, deviceId, env.now, false, None);
    TrackTwo(Initial(timeout, true), p, q, env.now);
    TwoQueues(p, q);
    OneQueue(p);
    var s := BeginCloud(BeginCloud(Initial(timeout, true), a, deviceId, env.now), b, deviceId, env.now);
    AckOfYounger(s, p, q, f, env);
  }
}
