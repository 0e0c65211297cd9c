/**
 The keyed queue of settings that wait for the Box. A Python dictionary keeps
 insertion order, so the queue is the sequence of its values in that order.
 */
module TwinState {
  import opened Options

  datatype SettingKey = SettingKey(table: string, key: string)

  /** A setting's value; a float carries the text Python prints for it. */
  datatype Value = IntValue(n: int) | FloatValue(repr: string) | TextValue(text: string)

  datatype TwinSetting = TwinSetting(
    table: string,
    key: string,
    value: Value,
    enqueuedAt: real,
    rawText: string,
    auditId: string,
    msgId: int,
    idSet: int,
    confirm: string)
  {
    function Id(): SettingKey {
      SettingKey(table, key)
    }
  }

  function Lookup(queue: seq<TwinSetting>, id: SettingKey): Option<TwinSetting> {
    if queue == [] then None
    else if queue[0].Id() == id then Some(queue[0])
    else Lookup(queue[1..], id)
  }

  /** Dictionary assignment: an existing key keeps its place, a new one goes last. */
  function Put(queue: seq<TwinSetting>, x: TwinSetting): seq<TwinSetting> {
    if queue == [] then [x]
    else if queue[0].Id() == x.Id() then [x] + queue[1..]
    else [queue[0]] + Put(queue[1..], x)
  }

  function Drop(queue: seq<TwinSetting>, id: SettingKey): seq<TwinSetting> {
    if queue == [] then []
    else if queue[0].Id() == id then queue[1..]
    else [queue[0]] + Drop(queue[1..], id)
  }

  /** Stable insertion: x goes before the first element that is not older. */
  function Insert(x: TwinSetting, sorted: seq<TwinSetting>): seq<TwinSetting> {
    if sorted == [] || x.enqueuedAt <= sorted[0].enqueuedAt then [x] + sorted
    else [sorted[0]] + Insert(x, sorted[1..])
  }

  /** The queue by enqueue time; equal times stay in dictionary order. */
  function GetPending(queue: seq<TwinSetting>): seq<TwinSetting> {
    if queue == [] then [] else Insert(queue[0], GetPending(queue[1..]))
  }

  predicate UniqueKeys(queue: seq<TwinSetting>) {
    forall i, j :: 0 <= i < j < |queue| ==> queue[i].Id() != queue[j].Id()
  }

  predicate SortedByTime(queue: seq<TwinSetting>) {
    forall i, j :: 0 <= i < j < |queue| ==> queue[i].enqueuedAt <= queue[j].enqueuedAt
  }

  /** The elements with one enqueue time, in order: what a stable sort must keep. */
  function AtTime(queue: seq<TwinSetting>, t: real): seq<TwinSetting> {
    if queue == [] then []
    else (if queue[0].enqueuedAt == t then [queue[0]] else []) + AtTime(queue[1..], t)
  }

  lemma {:induction false} LookupSpec(queue: seq<TwinSetting>, id: SettingKey)
    ensures Lookup(queue, id).Some? ==> Lookup(queue, id).value in queue && Lookup(queue, id).value.Id() == id
    ensures Lookup(queue, id).None? ==> forall x :: x in queue ==> x.Id() != id
    ensures UniqueKeys(queue) ==> forall x :: x in queue && x.Id() == id ==> Lookup(queue, id) == Some(x)
  {
    if queue != [] {
      LookupSpec(queue[1..], id);
      assert forall x :: x in queue <==> x == queue[0] || x in queue[1..];
    }
  }

  lemma ConsKeys(x: TwinSetting, xs: seq<TwinSetting>)
    requires UniqueKeys(xs) && forall y :: y in xs ==> y.Id() != x.Id()
    ensures UniqueKeys([x] + xs)
  {
    forall i, j | 0 <= i < j < |[x] + xs| ensures ([x] + xs)[i].Id() != ([x] + xs)[j].Id() {
      assert ([x] + xs)[j] == xs[j - 1];
      if i > 0 { assert ([x] + xs)[i] == xs[i - 1]; }
    }
  }

  lemma TailKeys(xs: seq<TwinSetting>)
    requires xs != [] && UniqueKeys(xs)
    ensures UniqueKeys(xs[1..]) && forall y :: y in xs[1..] ==> y.Id() != xs[0].Id()
  {
    forall i | 0 <= i < |xs[1..]| ensures xs[1..][i].Id() != xs[0].Id() {
      assert xs[1..][i] == xs[i + 1];
    }
    forall i, j | 0 <= i < j < |xs[1..]| ensures xs[1..][i].Id() != xs[1..][j].Id() {
      assert xs[1..][i] == xs[i + 1] && xs[1..][j] == xs[j + 1];
    }
  }

  lemma {:induction false} PutSpec(queue: seq<TwinSetting>, x: TwinSetting)
    requires UniqueKeys(queue)
    ensures UniqueKeys(Put(queue, x))
    ensures forall y :: y in Put(queue, x) <==> y == x || (y in queue && y.Id() != x.Id())
  {
    if queue != [] {
      TailKeys(queue);
      assert forall y :: y in queue <==> y == queue[0] || y in queue[1..];
      if queue[0].Id() == x.Id() {
        ConsKeys(x, queue[1..]);
      } else {
        PutSpec(queue[1..], x);
        ConsKeys(queue[0], Put(queue[1..], x));
      }
    }
  }

  lemma {:induction false} DropSpec(queue: seq<TwinSetting>, id: SettingKey)
    requires UniqueKeys(queue)
    ensures UniqueKeys(Drop(queue, id))
    ensures forall y :: y in Drop(queue, id) <==> y in queue && y.Id() != id
    ensures |Drop(queue, id)| == if Lookup(queue, id).Some? then |queue| - 1 else |queue|
    ensures Lookup(queue, id).None? ==> Drop(queue, id) == queue
  {
    if queue != [] {
      TailKeys(queue);
      assert forall y :: y in queue <==> y == queue[0] || y in queue[1..];
      if queue[0].Id() != id {
        DropSpec(queue[1..], id);
        ConsKeys(queue[0], Drop(queue[1..], id));
      }
    }
  }

  lemma {:induction false} InsertKeepsAll(x: TwinSetting, sorted: seq<TwinSetting>)
    ensures multiset(Insert(x, sorted)) == multiset{x} + multiset(sorted)
  {
    if sorted != [] && x.enqueuedAt > sorted[0].enqueuedAt {
      InsertKeepsAll(x, sorted[1..]);
      assert sorted == [sorted[0]] + sorted[1..];
    }
  }

  lemma {:induction false} InsertKeepsSorted(x: TwinSetting, sorted: seq<TwinSetting>)
    requires SortedByTime(sorted)
    ensures SortedByTime(Insert(x, sorted))
    ensures Insert(x, sorted) != []
    ensures Insert(x, sorted)[0] == x || (sorted != [] && Insert(x, sorted)[0] == sorted[0])
  {
    if sorted != [] && x.enqueuedAt > sorted[0].enqueuedAt {
      InsertKeepsSorted(x, sorted[1..]);
      var rest := Insert(x, sorted[1..]);
      forall i, j | 0 <= i < j < |rest| + 1
        ensures ([sorted[0]] + rest)[i].enqueuedAt <= ([sorted[0]] + rest)[j].enqueuedAt
      {
        if i == 0 && j > 1 { assert rest[0].enqueuedAt <= rest[j - 1].enqueuedAt; }
      }
    }
  }

  lemma {:induction false} InsertIsStable(x: TwinSetting, sorted: seq<TwinSetting>, t: real)
    ensures AtTime(Insert(x, sorted), t) == AtTime([x] + sorted, t)
  {
    assert ([x] + sorted)[1..] == sorted;
    if sorted != [] && x.enqueuedAt > sorted[0].enqueuedAt {
      InsertIsStable(x, sorted[1..], t);
      assert ([x] + sorted[1..])[1..] == sorted[1..];
      assert ([sorted[0]] + Insert(x, sorted[1..]))[1..] == Insert(x, sorted[1..]);
    }
  }

  /** get_pending sorts by enqueue time, keeps every setting and is stable. */
  lemma {:induction false} GetPendingIsStableSort(queue: seq<TwinSetting>, t: real)
    ensures SortedByTime(GetPending(queue))
    ensures multiset(GetPending(queue)) == multiset(queue)
    ensures AtTime(GetPending(queue), t) == AtTime(queue, t)
  {
    if queue != [] {
      GetPendingIsStableSort(queue[1..], t);
      InsertKeepsAll(queue[0], GetPending(queue[1..]));
      InsertKeepsSorted(queue[0], GetPending(queue[1..]));
      InsertIsStable(queue[0], GetPending(queue[1..]), t);
      assert queue == [queue[0]] + queue[1..];
      assert ([queue[0]] + GetPending(queue[1..]))[1..] == GetPending(queue[1..]);
    }
  }

  lemma PendingMembers(queue: seq<TwinSetting>)
    ensures |GetPending(queue)| == |queue|
    ensures forall x :: x in GetPending(queue) <==> x in queue
    ensures queue != [] ==> GetPending(queue) != [] && GetPending(queue)[0] in queue
  {
    GetPendingIsStableSort(queue, 0.0);
    assert |multiset(GetPending(queue))| == |multiset(queue)|;
    forall x ensures x in GetPending(queue) <==> x in queue {
      assert x in GetPending(queue) <==> x in multiset(GetPending(queue));
      assert x in queue <==> x in multiset(queue);
    }
    if queue != [] { assert GetPending(queue)[0] in GetPending(queue); }
  }

  /** Taking the head of the sorted queue and dropping its key is a selection sort. */
  lemma {:induction false} PendingAfterHead(queue: seq<TwinSetting>)
    requires queue != [] && UniqueKeys(queue)
    ensures GetPending(queue) != []
    ensures GetPending(queue)[1..] == GetPending(Drop(queue, GetPending(queue)[0].Id()))
  {
    var rest := queue[1..];
    PendingMembers(queue);
    if rest != [] {
      PendingMembers(rest);
      var h := GetPending(rest)[0];
      if queue[0].enqueuedAt <= h.enqueuedAt {
        assert GetPending(queue) == [queue[0]] + GetPending(rest);
      } else {
        PendingAfterHead(rest);
        var i :| 0 <= i < |rest| && rest[i] == h;
        assert queue[i + 1] == h;
        var left := Drop(rest, h.Id());
        assert GetPending(queue) == [h] + Insert(queue[0], GetPending(rest)[1..]);
        assert Drop(queue, h.Id()) == [queue[0]] + left;
        assert ([queue[0]] + left)[1..] == left;
      }
    }
  }

  lemma {:induction false} InsertKeepsKeys(x: TwinSetting, sorted: seq<TwinSetting>)
    requires UniqueKeys(sorted) && forall y :: y in sorted ==> y.Id() != x.Id()
    ensures UniqueKeys(Insert(x, sorted))
    ensures forall y :: y in Insert(x, sorted) <==> y == x || y in sorted
  {
    if sorted == [] || x.enqueuedAt <= sorted[0].enqueuedAt {
      ConsKeys(x, sorted);
    } else {
      TailKeys(sorted);
      InsertKeepsKeys(x, sorted[1..]);
      ConsKeys(sorted[0], Insert(x, sorted[1..]));
      assert forall y :: y in sorted <==> y == sorted[0] || y in sorted[1..];
    }
  }

  lemma {:induction false} PendingKeepsKeys(queue: seq<TwinSetting>)
    requires UniqueKeys(queue)
    ensures UniqueKeys(GetPending(queue))
  {
    if queue != [] {
      TailKeys(queue);
      PendingKeepsKeys(queue[1..]);
      PendingMembers(queue[1..]);
      InsertKeepsKeys(queue[0], GetPending(queue[1..]));
    }
  }
}
