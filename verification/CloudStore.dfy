/**
 The store of settings the cloud sent to the Box: one first-in first-out queue
 per device, table and key, kept in the order in which the queues were opened.
 */
module CloudStore {
  import opened Options
  import opened TwinState

  datatype CloudKey = CloudKey(deviceId: string, table: string, key: string)

  datatype CloudPending = CloudPending(
    setting: TwinSetting,
    deviceId: string,
    trackedAt: real,
    reasonSeen: bool,
    reasonAt: Option<real>)
  {
    function Id(): CloudKey {
      CloudKey(deviceId, setting.table, setting.key)
    }

    /** The instant from which the time limit runs. */
    function LimitedFrom(): real {
      if reasonSeen && reasonAt.Some? then reasonAt.value else trackedAt
    }
  }

  datatype CloudQueue = CloudQueue(id: CloudKey, entries: seq<CloudPending>)

  /** Which entries a pass over the store removes. */
  datatype Sweep = Expired(now: real, timeout: real) | Everything {
    predicate Hits(p: CloudPending) {
      match this
      case Expired(now, timeout) => now - p.LimitedFrom() >= timeout
      case Everything => true
    }
  }

  function Entries(cloud: seq<CloudQueue>): seq<CloudPending> {
    if cloud == [] then [] else cloud[0].entries + Entries(cloud[1..])
  }

  function QueueOf(cloud: seq<CloudQueue>, id: CloudKey): seq<CloudPending> {
    if cloud == [] then []
    else if cloud[0].id == id then cloud[0].entries
    else QueueOf(cloud[1..], id)
  }

  /** deque.append on the queue of the entry's key, opening the queue if needed. */
  function Append(cloud: seq<CloudQueue>, p: CloudPending): seq<CloudQueue> {
    if cloud == [] then [CloudQueue(p.Id(), [p])]
    else if cloud[0].id == p.Id() then [CloudQueue(p.Id(), cloud[0].entries + [p])] + cloud[1..]
    else [cloud[0]] + Append(cloud[1..], p)
  }

  function RemoveFirst(entries: seq<CloudPending>, p: CloudPending): seq<CloudPending> {
    if entries == [] then []
    else if entries[0] == p then entries[1..]
    else [entries[0]] + RemoveFirst(entries[1..], p)
  }

  /** deque.remove drops the first equal entry; a queue left empty is closed. */
  function Remove(cloud: seq<CloudQueue>, p: CloudPending): seq<CloudQueue> {
    if cloud == [] then []
    else if cloud[0].id != p.Id() then [cloud[0]] + Remove(cloud[1..], p)
    else WithEntries(cloud[0].id, RemoveFirst(cloud[0].entries, p)) + cloud[1..]
  }

  function WithEntries(id: CloudKey, entries: seq<CloudPending>): seq<CloudQueue> {
    if entries == [] then [] else [CloudQueue(id, entries)]
  }

  function ReplaceFirst(entries: seq<CloudPending>, p: CloudPending, p': CloudPending): seq<CloudPending> {
    if entries == [] then []
    else if entries[0] == p then [p'] + entries[1..]
    else [entries[0]] + ReplaceFirst(entries[1..], p, p')
  }

  /** An update in place of the first entry equal to p. */
  function Replace(cloud: seq<CloudQueue>, p: CloudPending, p': CloudPending): seq<CloudQueue> {
    if cloud == [] then []
    else if cloud[0].id != p.Id() then [cloud[0]] + Replace(cloud[1..], p, p')
    else [CloudQueue(cloud[0].id, ReplaceFirst(cloud[0].entries, p, p'))] + cloud[1..]
  }

  function Hit(entries: seq<CloudPending>, sweep: Sweep): seq<CloudPending> {
    if entries == [] then []
    else (if sweep.Hits(entries[0]) then [entries[0]] else []) + Hit(entries[1..], sweep)
  }

  function Kept(entries: seq<CloudPending>, sweep: Sweep): seq<CloudPending> {
    if entries == [] then []
    else (if sweep.Hits(entries[0]) then [] else [entries[0]]) + Kept(entries[1..], sweep)
  }

  /** The store without the entries the sweep hits and without empty queues. */
  function Prune(cloud: seq<CloudQueue>, sweep: Sweep): seq<CloudQueue> {
    if cloud == [] then []
    else WithEntries(cloud[0].id, Kept(cloud[0].entries, sweep)) + Prune(cloud[1..], sweep)
  }

  function RemoveAll(cloud: seq<CloudQueue>, ps: seq<CloudPending>): seq<CloudQueue>
    decreases ps
  {
    if ps == [] then cloud else RemoveAll(Remove(cloud, ps[0]), ps[1..])
  }

  function ForDevice(entries: seq<CloudPending>, deviceId: Option<string>): seq<CloudPending> {
    if entries == [] then []
    else
      (if deviceId.None? || entries[0].deviceId == deviceId.value then [entries[0]] else [])
      + ForDevice(entries[1..], deviceId)
  }

  /** The first entry among those tracked longest. */
  function Oldest(entries: seq<CloudPending>): Option<CloudPending> {
    if entries == [] then None
    else
      match Oldest(entries[1..])
      case None => Some(entries[0])
      case Some(p) => Some(if entries[0].trackedAt <= p.trackedAt then entries[0] else p)
  }

  function FirstFor(entries: seq<CloudPending>, id: SettingKey): Option<CloudPending> {
    if entries == [] then None
    else if entries[0].setting.Id() == id then Some(entries[0])
    else FirstFor(entries[1..], id)
  }

  // ---- What a reachable store looks like ----

  /** An entry is as old as the clock allows and its Reason=Setting came in time. */
  predicate EntryOk(p: CloudPending, timeout: real, clock: real) {
    && p.trackedAt <= clock
    && (p.reasonSeen ==> p.reasonAt.Some? && p.trackedAt <= p.reasonAt.value <= clock
                         && p.reasonAt.value - p.trackedAt < timeout)
    && (!p.reasonSeen ==> p.reasonAt.None?)
  }

  predicate InOrder(entries: seq<CloudPending>) {
    forall i, j :: 0 <= i < j < |entries| ==> entries[i].trackedAt <= entries[j].trackedAt
  }

  predicate QueueOk(q: CloudQueue, timeout: real, clock: real) {
    && q.entries != []
    && InOrder(q.entries)
    && forall p :: p in q.entries ==> p.Id() == q.id && EntryOk(p, timeout, clock)
  }

  predicate CloudOk(cloud: seq<CloudQueue>, timeout: real, clock: real) {
    && (forall i :: 0 <= i < |cloud| ==> QueueOk(cloud[i], timeout, clock))
    && (forall i, j :: 0 <= i < j < |cloud| ==> cloud[i].id != cloud[j].id)
  }

  /** Every entry sits in the queue of its own key. */
  predicate Filed(cloud: seq<CloudQueue>) {
    && (forall i, p :: 0 <= i < |cloud| && p in cloud[i].entries ==> p.Id() == cloud[i].id)
    && (forall i, j :: 0 <= i < j < |cloud| ==> cloud[i].id != cloud[j].id)
  }

  // ---- Sweeping: removal one by one equals filtering ----

  lemma {:induction false} RemoveAllSplit(cloud: seq<CloudQueue>, a: seq<CloudPending>, b: seq<CloudPending>)
    ensures RemoveAll(cloud, a + b) == RemoveAll(RemoveAll(cloud, a), b)
    decreases a
  {
    if a == [] {
      assert a + b == b;
    } else {
      assert (a + b)[1..] == a[1..] + b;
      RemoveAllSplit(Remove(cloud, a[0]), a[1..], b);
    }
  }

  lemma {:induction false} RemoveAllElsewhere(q: CloudQueue, rest: seq<CloudQueue>, ps: seq<CloudPending>)
    requires forall p :: p in ps ==> p.Id() != q.id
    ensures RemoveAll([q] + rest, ps) == [q] + RemoveAll(rest, ps)
    decreases ps
  {
    if ps != [] {
      assert Remove([q] + rest, ps[0]) == [q] + Remove(rest, ps[0]);
      RemoveAllElsewhere(q, Remove(rest, ps[0]), ps[1..]);
    }
  }

  lemma {:induction false} HitMembers(entries: seq<CloudPending>, sweep: Sweep)
    ensures forall p :: p in Hit(entries, sweep) <==> p in entries && sweep.Hits(p)
    ensures forall p :: p in Kept(entries, sweep) <==> p in entries && !sweep.Hits(p)
  {
    if entries != [] {
      HitMembers(entries[1..], sweep);
      assert forall p :: p in entries <==> p == entries[0] || p in entries[1..];
    }
  }

  lemma {:induction false} RemoveFirstAfter(kept: seq<CloudPending>, p: CloudPending, rest: seq<CloudPending>)
    requires p !in kept
    ensures RemoveFirst(kept + [p] + rest, p) == kept + rest
  {
    if kept == [] {
      assert kept + [p] + rest == [p] + rest;
      assert kept + rest == rest;
    } else {
      assert (kept + [p] + rest)[1..] == kept[1..] + [p] + rest;
      RemoveFirstAfter(kept[1..], p, rest);
      assert kept + rest == [kept[0]] + (kept[1..] + rest);
    }
  }

  lemma {:induction false} SweepQueue(id: CloudKey, kept: seq<CloudPending>, todo: seq<CloudPending>,
                                      rest: seq<CloudQueue>, sweep: Sweep)
    requires forall p :: p in kept ==> !sweep.Hits(p)
    requires forall p :: p in todo ==> p.Id() == id
    ensures RemoveAll(WithEntries(id, kept + todo) + rest, Hit(todo, sweep))
         == WithEntries(id, kept + Kept(todo, sweep)) + rest
    decreases todo
  {
    if todo == [] {
    } else {
      var p, tail := todo[0], todo[1..];
      assert todo == [p] + tail;
      if sweep.Hits(p) {
        RemoveFirstAfter(kept, p, tail);
        assert kept + todo == kept + [p] + tail;
        var q := CloudQueue(id, kept + todo);
        assert WithEntries(id, kept + todo) + rest == [q] + rest;
        assert ([q] + rest)[1..] == rest;
        assert Remove([q] + rest, p) == WithEntries(id, kept + tail) + rest;
        SweepQueue(id, kept, tail, rest, sweep);
        assert ([p] + Hit(tail, sweep))[1..] == Hit(tail, sweep);
        assert Kept(todo, sweep) == Kept(tail, sweep);
      } else {
        SweepQueue(id, kept + [p], tail, rest, sweep);
        assert kept + todo == kept + [p] + tail;
        assert kept + Kept(todo, sweep) == kept + [p] + Kept(tail, sweep);
        assert Hit(todo, sweep) == Hit(tail, sweep);
      }
    }
  }

  lemma FiledTail(cloud: seq<CloudQueue>)
    requires Filed(cloud) && cloud != []
    ensures Filed(cloud[1..])
    ensures forall p :: p in Entries(cloud[1..]) ==> p.Id() != cloud[0].id
  {
    forall i, p | 0 <= i < |cloud[1..]| && p in cloud[1..][i].entries ensures p.Id() == cloud[1..][i].id {
      assert cloud[i + 1] == cloud[1..][i];
    }
    EntriesMembers(cloud[1..]);
  }

  lemma {:induction false} EntriesMembers(cloud: seq<CloudQueue>)
    ensures forall p :: p in Entries(cloud) <==> exists i :: 0 <= i < |cloud| && p in cloud[i].entries
  {
    if cloud != [] {
      EntriesMembers(cloud[1..]);
      forall p ensures p in Entries(cloud) <==> exists i :: 0 <= i < |cloud| && p in cloud[i].entries {
        if p in Entries(cloud[1..]) {
          var i :| 0 <= i < |cloud[1..]| && p in cloud[1..][i].entries;
          assert p in cloud[i + 1].entries;
        }
        if i :| 0 <= i < |cloud| && p in cloud[i].entries {
          if i > 0 { assert p in cloud[1..][i - 1].entries; }
        }
      }
    }
  }

  lemma {:induction false} HitConcat(a: seq<CloudPending>, b: seq<CloudPending>, sweep: Sweep)
    ensures Hit(a + b, sweep) == Hit(a, sweep) + Hit(b, sweep)
    ensures Kept(a + b, sweep) == Kept(a, sweep) + Kept(b, sweep)
  {
    if a == [] {
      assert a + b == b;
    } else {
      var rest := a[1..];
      assert a + b == [a[0]] + (rest + b) && (a + b)[1..] == rest + b && (a + b)[0] == a[0];
      HitConcat(rest, b, sweep);
      ConcatAssoc(if sweep.Hits(a[0]) then [a[0]] else [], Hit(rest, sweep), Hit(b, sweep));
      ConcatAssoc(if sweep.Hits(a[0]) then [] else [a[0]], Kept(rest, sweep), Kept(b, sweep));
    }
  }

  lemma ConcatAssoc(a: seq<CloudPending>, b: seq<CloudPending>, c: seq<CloudPending>)
    ensures (a + b) + c == a + (b + c)
  {
  }

  lemma {:induction false} PruneEntries(cloud: seq<CloudQueue>, sweep: Sweep)
    ensures Entries(Prune(cloud, sweep)) == Kept(Entries(cloud), sweep)
  {
    if cloud != [] {
      PruneEntries(cloud[1..], sweep);
      HitConcat(cloud[0].entries, Entries(cloud[1..]), sweep);
      var left, rest := Kept(cloud[0].entries, sweep), Prune(cloud[1..], sweep);
      if left == [] {
        assert WithEntries(cloud[0].id, left) + rest == rest;
      } else {
        assert (WithEntries(cloud[0].id, left) + rest)[1..] == rest;
      }
    }
  }

  /** Removing the hit entries of the first queue leaves the other queues alone. */
  lemma SweepFirstQueue(q: CloudQueue, rest: seq<CloudQueue>, ps: seq<CloudPending>, sweep: Sweep)
    requires q.entries != []
    requires forall p :: p in q.entries ==> p.Id() == q.id
    requires forall p :: p in ps ==> p.Id() != q.id
    ensures RemoveAll(RemoveAll([q] + rest, Hit(q.entries, sweep)), ps)
         == WithEntries(q.id, Kept(q.entries, sweep)) + RemoveAll(rest, ps)
  {
    SweepQueue(q.id, [], q.entries, rest, sweep);
    assert [] + q.entries == q.entries && [] + Kept(q.entries, sweep) == Kept(q.entries, sweep);
    assert [q] == WithEntries(q.id, q.entries);
    var left := Kept(q.entries, sweep);
    if left == [] {
      assert WithEntries(q.id, left) + rest == rest;
    } else {
      RemoveAllElsewhere(CloudQueue(q.id, left), rest, ps);
    }
  }

  /**
   The pass that the code makes over a snapshot, removing one hit entry at a
   time by equality, leaves exactly the entries that are not hit, in order.
   */
  lemma {:induction false} SweepIsFilter(cloud: seq<CloudQueue>, sweep: Sweep)
    requires Filed(cloud) && forall i :: 0 <= i < |cloud| ==> cloud[i].entries != []
    ensures RemoveAll(cloud, Hit(Entries(cloud), sweep)) == Prune(cloud, sweep)
  {
    if cloud != [] {
      var q, rest := cloud[0], cloud[1..];
      FiledTail(cloud);
      SweepIsFilter(rest, sweep);
      HitConcat(q.entries, Entries(rest), sweep);
      RemoveAllSplit(cloud, Hit(q.entries, sweep), Hit(Entries(rest), sweep));
      HitMembers(Entries(rest), sweep);
      SweepFirstQueue(q, rest, Hit(Entries(rest), sweep), sweep);
      assert cloud == [q] + rest;
    }
  }

  // ---- What every operation keeps ----

  function Ids(cloud: seq<CloudQueue>): set<CloudKey> {
    set q | q in cloud :: q.id
  }

  lemma CloudOkFiled(cloud: seq<CloudQueue>, timeout: real, clock: real)
    requires CloudOk(cloud, timeout, clock)
    ensures Filed(cloud) && forall i :: 0 <= i < |cloud| ==> cloud[i].entries != []
    ensures forall p :: p in Entries(cloud) ==> EntryOk(p, timeout, clock)
  {
    EntriesMembers(cloud);
  }

  lemma CloudOkLater(cloud: seq<CloudQueue>, timeout: real, clock: real, later: real)
    requires CloudOk(cloud, timeout, clock) && clock <= later
    ensures CloudOk(cloud, timeout, later)
  {
    forall i | 0 <= i < |cloud| ensures QueueOk(cloud[i], timeout, later) {
      assert QueueOk(cloud[i], timeout, clock);
    }
  }

  lemma CloudOkCons(q: CloudQueue, rest: seq<CloudQueue>, timeout: real, clock: real)
    requires QueueOk(q, timeout, clock) && CloudOk(rest, timeout, clock) && q.id !in Ids(rest)
    ensures CloudOk([q] + rest, timeout, clock)
  {
    var cloud := [q] + rest;
    forall i, j | 0 <= i < j < |cloud| ensures cloud[i].id != cloud[j].id {
      assert cloud[j] == rest[j - 1];
      if i > 0 { assert cloud[i] == rest[i - 1]; }
    }
  }

  lemma CloudOkTail(cloud: seq<CloudQueue>, timeout: real, clock: real)
    requires CloudOk(cloud, timeout, clock) && cloud != []
    ensures QueueOk(cloud[0], timeout, clock) && CloudOk(cloud[1..], timeout, clock)
    ensures cloud[0].id !in Ids(cloud[1..])
    ensures cloud == [cloud[0]] + cloud[1..]
  {
    var rest := cloud[1..];
    forall i | 0 <= i < |rest| ensures QueueOk(rest[i], timeout, clock) && rest[i].id != cloud[0].id {
      assert rest[i] == cloud[i + 1];
    }
    forall i, j | 0 <= i < j < |rest| ensures rest[i].id != rest[j].id {
      assert rest[i] == cloud[i + 1] && rest[j] == cloud[j + 1];
    }
  }

  lemma Unfold(q: CloudQueue, rest: seq<CloudQueue>)
    ensures Ids([q] + rest) == {q.id} + Ids(rest)
    ensures Entries([q] + rest) == q.entries + Entries(rest)
  {
    assert ([q] + rest)[1..] == rest;
  }

  lemma AppendToQueue(q: CloudQueue, p: CloudPending, timeout: real, clock: real)
    requires QueueOk(q, timeout, clock) && p.Id() == q.id
    requires EntryOk(p, timeout, clock) && p.trackedAt == clock
    ensures QueueOk(CloudQueue(q.id, q.entries + [p]), timeout, clock)
  {
    forall i | 0 <= i < |q.entries| ensures q.entries[i].trackedAt <= p.trackedAt {
      assert q.entries[i] in q.entries;
    }
  }

  lemma {:induction false} AppendKeepsOk(cloud: seq<CloudQueue>, p: CloudPending, timeout: real, clock: real)
    requires CloudOk(cloud, timeout, clock)
    requires EntryOk(p, timeout, clock) && p.trackedAt == clock
    ensures CloudOk(Append(cloud, p), timeout, clock)
    ensures Ids(Append(cloud, p)) == Ids(cloud) + {p.Id()}
    ensures forall x :: x in Entries(Append(cloud, p)) <==> x == p || x in Entries(cloud)
  {
    if cloud == [] {
      Unfold(CloudQueue(p.Id(), [p]), []);
    } else {
      var q, rest := cloud[0], cloud[1..];
      CloudOkTail(cloud, timeout, clock);
      Unfold(q, rest);
      if q.id == p.Id() {
        AppendToQueue(q, p, timeout, clock);
        CloudOkCons(CloudQueue(q.id, q.entries + [p]), rest, timeout, clock);
        Unfold(CloudQueue(q.id, q.entries + [p]), rest);
      } else {
        AppendKeepsOk(rest, p, timeout, clock);
        CloudOkCons(q, Append(rest, p), timeout, clock);
        Unfold(q, Append(rest, p));
      }
    }
  }

  lemma {:induction false} RemoveFirstMembers(entries: seq<CloudPending>, p: CloudPending)
    ensures forall x :: x in RemoveFirst(entries, p) ==> x in entries
    ensures forall x :: x in entries && x != p ==> x in RemoveFirst(entries, p)
    ensures |RemoveFirst(entries, p)| == if p in entries then |entries| - 1 else |entries|
  {
    if entries != [] {
      RemoveFirstMembers(entries[1..], p);
      assert forall x :: x in entries <==> x == entries[0] || x in entries[1..];
    }
  }

  lemma {:induction false} RemoveFirstInOrder(entries: seq<CloudPending>, p: CloudPending)
    requires InOrder(entries)
    ensures InOrder(RemoveFirst(entries, p))
  {
    if entries != [] && entries[0] != p {
      RemoveFirstInOrder(entries[1..], p);
      RemoveFirstMembers(entries[1..], p);
      var rest := RemoveFirst(entries[1..], p);
      forall j | 0 <= j < |rest| ensures entries[0].trackedAt <= rest[j].trackedAt {
        assert rest[j] in entries[1..];
      }
    }
  }

  lemma {:induction false} RemoveFirstConcat(a: seq<CloudPending>, b: seq<CloudPending>, p: CloudPending)
    ensures RemoveFirst(a + b, p) == if p in a then RemoveFirst(a, p) + b else a + RemoveFirst(b, p)
  {
    if a == [] {
      assert a + b == b;
      assert a + RemoveFirst(b, p) == RemoveFirst(b, p);
    } else {
      assert (a + b)[1..] == a[1..] + b;
      if a[0] != p { RemoveFirstConcat(a[1..], b, p); }
    }
  }

  /** Removal takes the first equal entry out of the whole store and keeps the order of the rest. */
  lemma {:induction false} RemoveTakesFirst(cloud: seq<CloudQueue>, p: CloudPending)
    requires Filed(cloud)
    ensures Entries(Remove(cloud, p)) == RemoveFirst(Entries(cloud), p)
  {
    if cloud != [] {
      var q, rest := cloud[0], cloud[1..];
      FiledTail(cloud);
      RemoveFirstConcat(q.entries, Entries(rest), p);
      if q.id != p.Id() {
        RemoveTakesFirst(rest, p);
        Unfold(q, Remove(rest, p));
        assert p !in q.entries;
      } else {
        assert p !in Entries(rest);
        RemoveAbsent(q.entries, p);
        RemoveAbsent(Entries(rest), p);
        var left := RemoveFirst(q.entries, p);
        if left == [] {
          assert Remove(cloud, p) == rest;
        } else {
          Unfold(CloudQueue(q.id, left), rest);
        }
      }
    }
  }

  lemma {:induction false} RemoveAbsent(entries: seq<CloudPending>, p: CloudPending)
    ensures p !in entries ==> RemoveFirst(entries, p) == entries
  {
    if entries != [] { RemoveAbsent(entries[1..], p); }
  }

  lemma {:induction false} RemoveKeepsOk(cloud: seq<CloudQueue>, p: CloudPending, timeout: real, clock: real)
    requires CloudOk(cloud, timeout, clock)
    ensures CloudOk(Remove(cloud, p), timeout, clock)
    ensures Ids(Remove(cloud, p)) <= Ids(cloud)
  {
    if cloud != [] {
      var q, rest := cloud[0], cloud[1..];
      CloudOkTail(cloud, timeout, clock);
      Unfold(q, rest);
      if q.id != p.Id() {
        RemoveKeepsOk(rest, p, timeout, clock);
        CloudOkCons(q, Remove(rest, p), timeout, clock);
        Unfold(q, Remove(rest, p));
      } else {
        var left := RemoveFirst(q.entries, p);
        RemoveFirstInOrder(q.entries, p);
        RemoveFirstMembers(q.entries, p);
        if left == [] {
          assert Remove(cloud, p) == rest;
        } else {
          CloudOkCons(CloudQueue(q.id, left), rest, timeout, clock);
          Unfold(CloudQueue(q.id, left), rest);
        }
      }
    }
  }

  lemma {:induction false} ReplaceFirstSpec(entries: seq<CloudPending>, p: CloudPending, p': CloudPending)
    requires p in entries && p'.trackedAt == p.trackedAt
    ensures forall x :: x in ReplaceFirst(entries, p, p') ==> x == p' || x in entries
    ensures p' in ReplaceFirst(entries, p, p')
    ensures |ReplaceFirst(entries, p, p')| == |entries|
    ensures forall i :: 0 <= i < |entries| ==> ReplaceFirst(entries, p, p')[i].trackedAt == entries[i].trackedAt
  {
    if entries[0] != p { ReplaceFirstSpec(entries[1..], p, p'); }
  }

  lemma ReplaceInQueue(q: CloudQueue, p: CloudPending, p': CloudPending, timeout: real, clock: real)
    requires QueueOk(q, timeout, clock) && p in q.entries
    requires EntryOk(p', timeout, clock) && p'.trackedAt == p.trackedAt && p'.Id() == q.id
    ensures QueueOk(CloudQueue(q.id, ReplaceFirst(q.entries, p, p')), timeout, clock)
  {
    ReplaceFirstSpec(q.entries, p, p');
  }

  lemma {:induction false} ReplaceKeepsOk(cloud: seq<CloudQueue>, p: CloudPending, p': CloudPending,
                                          timeout: real, clock: real)
    requires CloudOk(cloud, timeout, clock) && p in Entries(cloud)
    requires EntryOk(p', timeout, clock) && p'.trackedAt == p.trackedAt && p'.Id() == p.Id()
    ensures CloudOk(Replace(cloud, p, p'), timeout, clock)
    ensures Ids(Replace(cloud, p, p')) == Ids(cloud)
    ensures forall x :: x in Entries(Replace(cloud, p, p')) ==> x == p' || x in Entries(cloud)
    ensures p' in Entries(Replace(cloud, p, p'))
  {
    var q, rest := cloud[0], cloud[1..];
    CloudOkTail(cloud, timeout, clock);
    Unfold(q, rest);
    if q.id != p.Id() {
      assert p !in q.entries;
      ReplaceKeepsOk(rest, p, p', timeout, clock);
      CloudOkCons(q, Replace(rest, p, p'), timeout, clock);
      Unfold(q, Replace(rest, p, p'));
    } else {
      CloudOkFiled(cloud, timeout, clock);
      FiledTail(cloud);
      ReplaceInQueue(q, p, p', timeout, clock);
      ReplaceFirstSpec(q.entries, p, p');
      var q' := CloudQueue(q.id, ReplaceFirst(q.entries, p, p'));
      CloudOkCons(q', rest, timeout, clock);
      Unfold(q', rest);
    }
  }

  lemma {:induction false} KeptInOrder(entries: seq<CloudPending>, sweep: Sweep)
    requires InOrder(entries)
    ensures InOrder(Kept(entries, sweep))
  {
    if entries != [] {
      KeptInOrder(entries[1..], sweep);
      HitMembers(entries[1..], sweep);
      var rest := Kept(entries[1..], sweep);
      forall i | 0 <= i < |rest| ensures entries[0].trackedAt <= rest[i].trackedAt {
        assert rest[i] in entries[1..];
      }
    }
  }

  lemma {:induction false} PruneKeepsOk(cloud: seq<CloudQueue>, sweep: Sweep, timeout: real, clock: real)
    requires CloudOk(cloud, timeout, clock)
    ensures CloudOk(Prune(cloud, sweep), timeout, clock)
    ensures Ids(Prune(cloud, sweep)) <= Ids(cloud)
  {
    if cloud != [] {
      var rest := cloud[1..];
      CloudOkTail(cloud, timeout, clock);
      PruneKeepsOk(rest, sweep, timeout, clock);
      assert Ids(cloud) == {cloud[0].id} + Ids(rest);
      var left := Kept(cloud[0].entries, sweep);
      if left == [] {
        assert Prune(cloud, sweep) == Prune(rest, sweep);
      } else {
        HitMembers(cloud[0].entries, sweep);
        KeptInOrder(cloud[0].entries, sweep);
        var q := CloudQueue(cloud[0].id, left);
        CloudOkCons(q, Prune(rest, sweep), timeout, clock);
        assert Ids([q] + Prune(rest, sweep)) == {q.id} + Ids(Prune(rest, sweep));
      }
    }
  }

  lemma {:induction false} OldestSpec(entries: seq<CloudPending>)
    ensures Oldest(entries).None? <==> entries == []
    ensures Oldest(entries).Some? ==>
              Oldest(entries).value in entries
              && forall p :: p in entries ==> Oldest(entries).value.trackedAt <= p.trackedAt
  {
    if entries != [] { OldestSpec(entries[1..]); }
  }

  lemma {:induction false} ForDeviceMembers(entries: seq<CloudPending>, deviceId: Option<string>)
    ensures forall p :: p in ForDevice(entries, deviceId)
                        <==> p in entries && (deviceId.None? || p.deviceId == deviceId.value)
  {
    if entries != [] {
      ForDeviceMembers(entries[1..], deviceId);
      assert forall p :: p in entries <==> p == entries[0] || p in entries[1..];
    }
  }

  lemma {:induction false} FirstForSpec(entries: seq<CloudPending>, id: SettingKey)
    ensures FirstFor(entries, id).Some? ==>
              FirstFor(entries, id).value in entries && FirstFor(entries, id).value.setting.Id() == id
    ensures FirstFor(entries, id).None? ==> forall p :: p in entries ==> p.setting.Id() != id
  {
    if entries != [] { FirstForSpec(entries[1..], id); }
  }

  // ---- No audit id twice ----

  /** The entries carry different audit ids. */
  predicate DistinctIds(entries: seq<CloudPending>) {
    entries == []
    || ((forall q :: q in entries[1..] ==> q.setting.auditId != entries[0].setting.auditId) && DistinctIds(entries[1..]))
  }

  predicate NoneWithId(entries: seq<CloudPending>, auditId: string) {
    forall q :: q in entries ==> q.setting.auditId != auditId
  }

  lemma {:induction false} DistinctConcat(a: seq<CloudPending>, b: seq<CloudPending>)
    ensures DistinctIds(a + b)
       <==> DistinctIds(a) && DistinctIds(b) && forall p :: p in a ==> NoneWithId(b, p.setting.auditId)
  {
    if a == [] {
      assert a + b == b;
    } else {
      assert (a + b)[1..] == a[1..] + b;
      DistinctConcat(a[1..], b);
      assert forall p :: p in a <==> p == a[0] || p in a[1..];
      assert (forall q :: q in a[1..] + b ==> q.setting.auditId != a[0].setting.auditId)
        <==> NoneWithId(a[1..], a[0].setting.auditId) && NoneWithId(b, a[0].setting.auditId);
    }
  }

  lemma {:induction false} RemoveFirstDistinct(entries: seq<CloudPending>, p: CloudPending)
    requires DistinctIds(entries)
    ensures DistinctIds(RemoveFirst(entries, p))
  {
    if entries != [] && entries[0] != p {
      RemoveFirstDistinct(entries[1..], p);
      RemoveFirstMembers(entries[1..], p);
    }
  }

  lemma {:induction false} KeptDistinct(entries: seq<CloudPending>, sweep: Sweep)
    requires DistinctIds(entries)
    ensures DistinctIds(Kept(entries, sweep))
  {
    if entries != [] {
      KeptDistinct(entries[1..], sweep);
      HitMembers(entries[1..], sweep);
      var rest := Kept(entries[1..], sweep);
      if sweep.Hits(entries[0]) {
        assert [] + rest == rest;
      } else {
        assert ([entries[0]] + rest)[1..] == rest;
      }
    }
  }

  lemma DistinctOne(p: CloudPending)
    ensures DistinctIds([p])
  {
    assert [p][1..] == [];
  }

  lemma {:induction false} AppendDistinct(cloud: seq<CloudQueue>, p: CloudPending)
    requires DistinctIds(Entries(cloud)) && NoneWithId(Entries(cloud), p.setting.auditId)
    ensures DistinctIds(Entries(Append(cloud, p)))
    ensures forall q :: q in Entries(Append(cloud, p)) ==> q == p || q in Entries(cloud)
  {
    if cloud == [] {
      Unfold(CloudQueue(p.Id(), [p]), []);
    } else {
      var q, rest := cloud[0], cloud[1..];
      assert cloud == [q] + rest;
      Unfold(q, rest);
      DistinctConcat(q.entries, Entries(rest));
      assert NoneWithId(q.entries, p.setting.auditId) && NoneWithId(Entries(rest), p.setting.auditId);
      if q.id == p.Id() {
        Unfold(CloudQueue(q.id, q.entries + [p]), rest);
        DistinctOne(p);
        DistinctConcat(q.entries, [p]);
        DistinctConcat(q.entries + [p], Entries(rest));
      } else {
        AppendDistinct(rest, p);
        Unfold(q, Append(rest, p));
        DistinctConcat(q.entries, Entries(Append(rest, p)));
      }
    }
  }

  lemma {:induction false} ReplaceFirstDistinct(entries: seq<CloudPending>, p: CloudPending, p': CloudPending)
    requires DistinctIds(entries) && p'.setting == p.setting
    ensures DistinctIds(ReplaceFirst(entries, p, p'))
    ensures forall a :: NoneWithId(entries, a) ==> NoneWithId(ReplaceFirst(entries, p, p'), a)
  {
    if entries != [] {
      ReplaceFirstDistinct(entries[1..], p, p');
      var r := ReplaceFirst(entries, p, p');
      assert r[1..] == if entries[0] == p then entries[1..] else ReplaceFirst(entries[1..], p, p');
      assert NoneWithId(entries[1..], entries[0].setting.auditId);
      forall a | NoneWithId(entries, a) ensures NoneWithId(r, a) {
        assert NoneWithId(entries[1..], a);
        assert entries[0] in entries;
      }
    }
  }

  lemma {:induction false} ReplaceDistinct(cloud: seq<CloudQueue>, p: CloudPending, p': CloudPending)
    requires DistinctIds(Entries(cloud)) && p'.setting == p.setting
    ensures DistinctIds(Entries(Replace(cloud, p, p')))
    ensures forall a :: NoneWithId(Entries(cloud), a) ==> NoneWithId(Entries(Replace(cloud, p, p')), a)
  {
    if cloud != [] {
      var q, rest := cloud[0], cloud[1..];
      assert cloud == [q] + rest;
      Unfold(q, rest);
      DistinctConcat(q.entries, Entries(rest));
      if q.id != p.Id() {
        ReplaceDistinct(rest, p, p');
        Unfold(q, Replace(rest, p, p'));
        DistinctConcat(q.entries, Entries(Replace(rest, p, p')));
        NoneInBoth(q.entries, Entries(rest), q.entries, Entries(Replace(rest, p, p')));
      } else {
        var es := ReplaceFirst(q.entries, p, p');
        ReplaceFirstDistinct(q.entries, p, p');
        Unfold(CloudQueue(q.id, es), rest);
        forall x | x in es ensures NoneWithId(Entries(rest), x.setting.auditId) {
          if NoneWithId(q.entries, x.setting.auditId) { assert NoneWithId(es, x.setting.auditId); }
        }
        DistinctConcat(es, Entries(rest));
        NoneInBoth(q.entries, Entries(rest), es, Entries(rest));
      }
    }
  }

  lemma NoneInBoth(a: seq<CloudPending>, b: seq<CloudPending>, a': seq<CloudPending>, b': seq<CloudPending>)
    requires forall x :: NoneWithId(a, x) ==> NoneWithId(a', x)
    requires forall x :: NoneWithId(b, x) ==> NoneWithId(b', x)
    ensures forall x :: NoneWithId(a + b, x) ==> NoneWithId(a' + b', x)
  {
    forall x | NoneWithId(a + b, x) ensures NoneWithId(a' + b', x) {
      assert forall q :: q in a ==> q in a + b;
      assert forall q :: q in b ==> q in a + b;
      assert NoneWithId(a, x) && NoneWithId(b, x);
    }
  }
}
