/** The scheduler of the emulation: a pool of which only a prefix is kept sorted. */
module Schedulers {
  import opened Bytes

  // An activation time is an unsigned 64-bit integer; the greatest one stands for unscheduled.
  const UNSCHEDULED: nat := 0xFFFF_FFFF_FFFF_FFFF

  type Time = t: nat | t <= UNSCHEDULED

  datatype Entry = Entry(time: Time, id: nat)

  datatype State = State(pool: seq<Entry>, count: nat, counter: Time, executed: Time)

  // The schedulables in the order of their identifiers, which are given from 0 on.
  function Entries(times: seq<Time>): (entries: seq<Entry>)
    ensures |entries| == |times|
    ensures forall k :: 0 <= k < |times| ==> entries[k] == Entry(times[k], k)
  {
    seq(|times|, k requires 0 <= k < |times| => Entry(times[k], k))
  }

  // The pool holds each schedulable once, with the time it was last seen to have.
  ghost predicate Holds(pool: seq<Entry>, times: seq<Time>) {
    multiset(pool) == multiset(Entries(times))
  }

  // Whatever is scheduled is in the prefix.
  predicate InPrefix(s: State) {
    && s.count <= |s.pool|
    && forall k :: s.count <= k < |s.pool| ==> s.pool[k].time == UNSCHEDULED
  }

  predicate NoEarlier(pool: seq<Entry>, executed: Time) {
    forall k :: 0 <= k < |pool| ==> executed <= pool[k].time
  }

  ghost predicate Invariant(s: State, times: seq<Time>) {
    Holds(s.pool, times) && InPrefix(s) && NoEarlier(s.pool, s.executed) && s.counter == s.executed
  }

  predicate Ascending(entries: seq<Entry>) {
    forall j, k :: 0 <= j < k < |entries| ==> entries[j].time <= entries[k].time
  }

  // sort_everything: the prefix becomes any of its sorted permutations, and ends at the first
  // unscheduled entry.
  ghost predicate Sorts(s: State, r: State) {
    && s.count <= |s.pool| == |r.pool|
    && multiset(r.pool[..s.count]) == multiset(s.pool[..s.count])
    && r.pool[s.count..] == s.pool[s.count..]
    && Ascending(r.pool[..s.count])
    && r.count <= |r.pool|
    && (forall k :: 0 <= k < r.count ==> r.pool[k].time != UNSCHEDULED)
    && (r.count < |r.pool| ==> r.pool[r.count].time == UNSCHEDULED)
    && r.counter == s.counter && r.executed == s.executed
  }

  // After a sort the prefix is exactly what is scheduled, in the order of the times.
  predicate Settled(s: State) {
    && InPrefix(s)
    && Ascending(s.pool)
    && (forall k :: 0 <= k < s.count ==> s.pool[k].time != UNSCHEDULED)
  }

  lemma Permuted(s: State, r: State)
    requires Sorts(s, r)
    ensures multiset(r.pool) == multiset(s.pool)
  {
    assert s.pool == s.pool[..s.count] + s.pool[s.count..];
    assert r.pool == r.pool[..s.count] + r.pool[s.count..];
  }

  // A sort of the prefix sorts everything, and loses and duplicates nothing.
  lemma SortSettles(s: State, r: State, times: seq<Time>)
    requires Invariant(s, times) && Sorts(s, r)
    ensures Invariant(r, times) && Settled(r)
  {
    Permuted(s, r);
    var n := s.count;
    forall k | n <= k < |r.pool|
      ensures r.pool[k].time == UNSCHEDULED
    {
      assert r.pool[k] == r.pool[n..][k - n] == s.pool[n..][k - n] == s.pool[k];
    }
    assert forall k :: 0 <= k < n ==> r.pool[k] == r.pool[..n][k];
    forall k | 0 <= k < |r.pool|
      ensures r.executed <= r.pool[k].time
    {
      assert r.pool[k] in multiset(r.pool);
      assert r.pool[k] in s.pool;
    }
  }

  // The first entry of a schedulable, or the length of the pool.
  function Find(pool: seq<Entry>, id: nat): (k: nat)
    ensures k <= |pool| && (k < |pool| ==> pool[k].id == id)
    ensures forall j :: 0 <= j < k ==> pool[j].id != id
  {
    if pool == [] || pool[0].id == id then 0 else 1 + Find(pool[1..], id)
  }

  function Swapped(pool: seq<Entry>, j: nat, k: nat): (r: seq<Entry>)
    requires j < |pool| && k < |pool|
    ensures |r| == |pool|
  {
    pool[j := pool[k]][k := pool[j]]
  }

  // A schedulable notifies its new activation time. It is an error to go back in time.
  function Notified(s: State, id: nat, time: Time): Option<State> {
    var k := Find(s.pool, id);
    if k == |s.pool| then Some(s)
    else if time < s.executed then None
    else
      var pool := s.pool[k := Entry(time, id)];
      if s.pool[k].time == UNSCHEDULED && time != UNSCHEDULED then
        Some(s.(pool := if s.count < |pool| then Swapped(pool, s.count, k) else pool, count := s.count + 1))
      else Some(s.(pool := pool))
  }

  lemma HeldEntry(s: State, times: seq<Time>, k: nat)
    requires Holds(s.pool, times) && k < |s.pool|
    ensures s.pool[k].id < |times| && s.pool[k].time == times[s.pool[k].id]
  {
    assert s.pool[k] in multiset(s.pool);
    assert s.pool[k] in Entries(times);
  }

  lemma HeldId(s: State, times: seq<Time>, id: nat)
    requires Holds(s.pool, times) && id < |times|
    ensures Entry(times[id], id) in s.pool && Find(s.pool, id) < |s.pool|
  {
    assert Entries(times)[id] == Entry(times[id], id);
    assert Entry(times[id], id) in multiset(Entries(times));
    assert Entry(times[id], id) in multiset(s.pool);
  }

  lemma SwappedSame(pool: seq<Entry>, j: nat, k: nat)
    requires j < |pool| && k < |pool|
    ensures multiset(Swapped(pool, j, k)) == multiset(pool)
  {
  }

  // The prefix would be longer than the pool.
  predicate Overflows(s: State, times: seq<Time>, id: nat, time: Time)
    requires id < |times|
  {
    s.count == |s.pool| && times[id] == UNSCHEDULED && time != UNSCHEDULED
  }

  lemma ChangeHolds(s: State, times: seq<Time>, id: nat, time: Time)
    requires Invariant(s, times) && id < |times| && s.executed <= time
    ensures Notified(s, id, time).Some? && Holds(Notified(s, id, time).value.pool, times[id := time])
  {
    hide Swapped, InPrefix, NoEarlier;
    HeldId(s, times, id);
    var k := Find(s.pool, id);
    HeldEntry(s, times, k);
    var pool := s.pool[k := Entry(time, id)];
    assert Entries(times[id := time]) == Entries(times)[id := Entry(time, id)];
    assert multiset(pool) == multiset(Entries(times[id := time]));
    if s.count < |pool| {
      SwappedSame(pool, s.count, k);
    }
  }

  lemma ChangePrefix(s: State, times: seq<Time>, id: nat, time: Time)
    requires Invariant(s, times) && id < |times| && s.executed <= time && Notified(s, id, time).Some?
    ensures InPrefix(Notified(s, id, time).value) <==> !Overflows(s, times, id, time)
  {
    HeldId(s, times, id);
    HeldEntry(s, times, Find(s.pool, id));
    hide Holds, NoEarlier;
  }

  lemma ChangeOrder(s: State, times: seq<Time>, id: nat, time: Time)
    requires Invariant(s, times) && id < |times| && s.executed <= time && Notified(s, id, time).Some?
    ensures var r := Notified(s, id, time).value; NoEarlier(r.pool, r.executed) && r.counter == r.executed == s.executed
  {
    hide Holds, InPrefix;
  }

  // A notification keeps the scheduled entries in the prefix exactly when there is room for one more.
  lemma ChangeKeeps(s: State, times: seq<Time>, id: nat, time: Time)
    requires Invariant(s, times) && id < |times| && s.executed <= time
    ensures Notified(s, id, time).Some?
    ensures var r := Notified(s, id, time).value;
            && Holds(r.pool, times[id := time]) && NoEarlier(r.pool, r.executed)
            && r.counter == r.executed == s.executed
            && (InPrefix(r) <==> !Overflows(s, times, id, time))
  {
    hide Holds, InPrefix, NoEarlier, Notified, Overflows;
    ChangeHolds(s, times, id, time);
    ChangePrefix(s, times, id, time);
    ChangeOrder(s, times, id, time);
  }

  lemma ChangeRefused(s: State, times: seq<Time>, id: nat, time: Time)
    requires Invariant(s, times) && id < |times| && time < s.executed
    ensures Notified(s, id, time).None?
  {
    HeldId(s, times, id);
  }

  // An entry that is scheduled, unscheduled and scheduled again between two sorts overflows the prefix.
  lemma OverflowExample()
    ensures var s := State([Entry(5, 0)], 1, 0, 0);
            && Invariant(s, [5]) && Settled(s)
            && var s1 := Notified(s, 0, UNSCHEDULED).value;
               && Invariant(s1, [UNSCHEDULED]) && Overflows(s1, [UNSCHEDULED], 0, 7)
               && Notified(s1, 0, 7).value.count > |s1.pool|
  {
    var s := State([Entry(5, 0)], 1, 0, 0);
    assert Entries([5]) == [Entry(5, 0)];
    assert Entries([UNSCHEDULED]) == [Entry(UNSCHEDULED, 0)];
    assert Find(s.pool, 0) == 0;
  }

  predicate PrefixScheduled(s: State) {
    forall k :: 0 <= k < s.count && k < |s.pool| ==> s.pool[k].time != UNSCHEDULED
  }

  // It takes a schedulable that was unscheduled since the last sort: until then there is room.
  lemma RoomUntilUnscheduled(s: State, times: seq<Time>, id: nat, time: Time)
    requires Invariant(s, times) && PrefixScheduled(s) && id < |times|
    ensures !Overflows(s, times, id, time)
    ensures s.executed <= time != UNSCHEDULED ==>
              Notified(s, id, time).Some? && PrefixScheduled(Notified(s, id, time).value)
  {
    HeldId(s, times, id);
    HeldEntry(s, times, Find(s.pool, id));
  }

  // While the front entry is stepping, notifications of the others do not move it.
  lemma FrontStays(s: State, id: nat, time: Time)
    requires InPrefix(s) && Notified(s, id, time).Some?
    ensures var r := Notified(s, id, time).value;
            && |r.pool| == |s.pool| && r.count >= s.count
            && (0 < s.count && s.pool[0].id != id ==> r.pool[0] == s.pool[0])
  {
  }

  // The front of a settled pool is due before all the others.
  lemma FrontIsMinimum(s: State, times: seq<Time>)
    requires Invariant(s, times) && Settled(s) && |s.pool| > 0
    ensures var id := s.pool[0].id;
            && id < |times| && s.pool[0].time == times[id]
            && (forall j :: 0 <= j < |times| ==> times[id] <= times[j])
            && s.executed <= times[id]
            && (times[id] == UNSCHEDULED <==> forall j :: 0 <= j < |times| ==> times[j] == UNSCHEDULED)
  {
    HeldEntry(s, times, 0);
    forall j | 0 <= j < |times|
      ensures s.pool[0].time <= times[j]
    {
      HeldId(s, times, j);
      var k := Find(s.pool, j);
      HeldEntry(s, times, k);
    }
  }

  // The step of the front is over, and it has a new activation time.
  lemma FrontMoves(s: State, times: seq<Time>, next: Time)
    requires Invariant(s, times) && 0 < s.count && s.executed <= next
    ensures s.pool[0].id < |times|
    ensures Invariant(s.(pool := s.pool[0 := Entry(next, s.pool[0].id)]), times[s.pool[0].id := next])
  {
    HeldEntry(s, times, 0);
    var id := s.pool[0].id;
    assert Entries(times[id := next]) == Entries(times)[id := Entry(next, id)];
  }

  // Sorting, for which the source relies on its standard library.

  function InsertByTime(e: Entry, entries: seq<Entry>): (r: seq<Entry>)
    ensures |r| == |entries| + 1
  {
    if entries == [] || e.time <= entries[0].time then [e] + entries
    else [entries[0]] + InsertByTime(e, entries[1..])
  }

  function SortByTime(entries: seq<Entry>): (r: seq<Entry>)
    ensures |r| == |entries|
  {
    if entries == [] then [] else InsertByTime(entries[0], SortByTime(entries[1..]))
  }

  lemma {:induction false} InsertSame(e: Entry, entries: seq<Entry>)
    ensures multiset(InsertByTime(e, entries)) == multiset(entries) + multiset{e}
  {
    if entries != [] {
      InsertSame(e, entries[1..]);
      assert entries == [entries[0]] + entries[1..];
    }
  }

  predicate NotBefore(entries: seq<Entry>, time: Time) {
    forall k :: 0 <= k < |entries| ==> time <= entries[k].time
  }

  lemma {:induction false} InsertAscends(e: Entry, entries: seq<Entry>, time: Time)
    requires Ascending(entries)
    ensures Ascending(InsertByTime(e, entries))
    ensures NotBefore(entries, time) && time <= e.time ==> NotBefore(InsertByTime(e, entries), time)
  {
    if entries != [] && e.time > entries[0].time {
      InsertAscends(e, entries[1..], time);
      InsertAscends(e, entries[1..], entries[0].time);
    }
  }

  lemma {:induction false} SortIsSort(entries: seq<Entry>)
    ensures Ascending(SortByTime(entries)) && multiset(SortByTime(entries)) == multiset(entries)
  {
    if entries != [] {
      SortIsSort(entries[1..]);
      InsertSame(entries[0], SortByTime(entries[1..]));
      InsertAscends(entries[0], SortByTime(entries[1..]), 0);
      assert entries == [entries[0]] + entries[1..];
    }
  }

  function FirstUnscheduled(pool: seq<Entry>): (k: nat)
    ensures k <= |pool| && (k < |pool| ==> pool[k].time == UNSCHEDULED)
    ensures forall j :: 0 <= j < k ==> pool[j].time != UNSCHEDULED
  {
    if pool == [] || pool[0].time == UNSCHEDULED then 0 else 1 + FirstUnscheduled(pool[1..])
  }

  // A schedulable and those that come with it.
  datatype Device = Device(activation: Time, subs: seq<Device>)

  function Activations(d: Device): seq<Time> {
    [d.activation] + AllActivations(d.subs)
  }

  function AllActivations(devices: seq<Device>): seq<Time> {
    if devices == [] then [] else Activations(devices[0]) + AllActivations(devices[1..])
  }

  lemma {:induction false} ActivationsOneMore(devices: seq<Device>, k: nat)
    requires k < |devices|
    ensures AllActivations(devices[..k + 1]) == AllActivations(devices[..k]) + Activations(devices[k])
  {
    if k > 0 {
      ActivationsOneMore(devices[1..], k - 1);
      assert devices[..k + 1][1..] == devices[1..][..k];
      assert devices[..k][1..] == devices[1..][..k - 1];
    }
  }

  // None of the activation times is in the past.
  predicate NotPast(times: seq<Time>, executed: Time) {
    forall k :: 0 <= k < |times| ==> executed <= times[k]
  }

  lemma SortCollects(s: State, r: State, times: seq<Time>)
    requires Sorts(s, r) && Holds(s.pool, times) && NoEarlier(s.pool, s.executed)
    ensures Holds(r.pool, times) && NoEarlier(r.pool, r.executed)
  {
    Permuted(s, r);
    forall k | 0 <= k < |r.pool|
      ensures r.executed <= r.pool[k].time
    {
      assert r.pool[k] in multiset(r.pool);
      assert r.pool[k] in s.pool;
    }
  }

  lemma AppendHolds(s: State, times: seq<Time>, time: Time)
    requires Holds(s.pool, times) && NoEarlier(s.pool, s.executed) && s.executed <= time
    ensures var r := s.(pool := s.pool + [Entry(time, |times|)]);
            Holds(r.pool, times + [time]) && NoEarlier(r.pool, r.executed) && |s.pool| == |times|
  {
    assert Entries(times + [time]) == Entries(times) + [Entry(time, |times|)];
    assert |multiset(s.pool)| == |s.pool| && |multiset(Entries(times))| == |times|;
  }

  class Scheduler {
    var schedulablePool: seq<Entry>
    var scheduledCount: nat
    var counter: Time
    var executedTime: Time
    var idCounter: nat
    ghost var times: seq<Time>     // the activation times last seen

    ghost function Value(): State
      reads this
    {
      State(schedulablePool, scheduledCount, counter, executedTime)
    }

    // During an addition the new entries are not yet in the prefix.
    ghost predicate Collected()
      reads this
    {
      && Holds(schedulablePool, times) && NoEarlier(schedulablePool, executedTime)
      && scheduledCount <= |schedulablePool| == |times| == idCounter
      && counter == executedTime
    }

    ghost predicate Valid()
      reads this
    {
      Collected() && InPrefix(Value())
    }

    constructor ()
      ensures Valid() && times == []
    {
      schedulablePool, scheduledCount, counter, executedTime, idCounter, times := [], 0, 0, 0, 0, [];
    }

    method SortEverything()
      requires scheduledCount <= |schedulablePool|
      modifies this`schedulablePool, this`scheduledCount
      ensures Sorts(old(Value()), Value())
    {
      var n := scheduledCount;
      ghost var before := schedulablePool;
      SortIsSort(before[..n]);
      schedulablePool := SortByTime(schedulablePool[..n]) + schedulablePool[n..];
      assert schedulablePool[..n] == SortByTime(before[..n]);
      assert schedulablePool[n..] == before[n..];
      scheduledCount := FirstUnscheduled(schedulablePool);
    }

    // A schedulable joins the pool, then those that come with it.
    method Add(d: Device)
      requires Collected() && NotPast(Activations(d), executedTime)
      modifies this
      ensures Collected() && times == old(times) + Activations(d) && executedTime == old(executedTime)
      ensures old(InPrefix(Value())) || d.activation != UNSCHEDULED ==> Valid() && Settled(Value())
      decreases d
    {
      hide Holds, NoEarlier, Sorts, Settled;
      assert Activations(d)[0] == d.activation;
      AppendHolds(Value(), times, d.activation);
      ghost var before := times;
      schedulablePool := schedulablePool + [Entry(d.activation, idCounter)];
      times := times + [d.activation];
      idCounter := idCounter + 1;
      ghost var first := Value();
      for k := 0 to |d.subs|
        invariant Collected() && executedTime == old(executedTime)
        invariant times == before + [d.activation] + AllActivations(d.subs[..k])
        invariant old(InPrefix(Value())) && d.activation == UNSCHEDULED ==> InPrefix(Value())
      {
        ActivationsOneMore(d.subs, k);
        SubNotPast(d, k, executedTime);
        Add(d.subs[k]);
      }
      assert d.subs[..|d.subs|] == d.subs;
      if d.activation != UNSCHEDULED {
        scheduledCount := |schedulablePool|;
      }
      label sorting:
      SortEverything();
      SortCollects(old@sorting(Value()), Value(), times);
      SortBounds(old@sorting(Value()), Value());
      if old@sorting(InPrefix(Value())) {
        SortSettles(old@sorting(Value()), Value(), times);
      }
    }

    // A schedulable has a new activation time. The source throws when that is in the past.
    method ChangeSchedule(id: nat, newTime: Time) returns (thrown: bool)
      requires Valid() && (id < |times| ==> !Overflows(Value(), times, id, newTime))
      modifies this
      ensures Valid() && executedTime == old(executedTime)
      ensures thrown == (id < |old(times)| && newTime < old(executedTime))
      ensures times == if thrown || id >= |old(times)| then old(times) else old(times)[id := newTime]
      ensures 0 < old(scheduledCount) && old(schedulablePool)[0].id != id ==>
                0 < scheduledCount && schedulablePool != [] && schedulablePool[0] == old(schedulablePool)[0]
    {
      hide Holds, NoEarlier, Overflows, Notified;
      ghost var before := Value();
      var k := Find(schedulablePool, id);
      thrown := false;
      if id < |times| {
        HeldId(before, times, id);
        if newTime < executedTime {
          ChangeRefused(before, times, id, newTime);
        } else {
          ChangeKeeps(before, times, id, newTime);
        }
      } else if k < |schedulablePool| {
        HeldEntry(before, times, k);
      }
      if k < |schedulablePool| {
        var previousTime := schedulablePool[k].time;
        if newTime < executedTime {
          thrown := true;
          return;
        }
        schedulablePool := schedulablePool[k := Entry(newTime, id)];
        if previousTime == UNSCHEDULED && newTime != UNSCHEDULED {
          if scheduledCount < |schedulablePool| {
            schedulablePool := Swapped(schedulablePool, scheduledCount, k);
          }
          scheduledCount := scheduledCount + 1;
        }
        ChangedIs(before, id, newTime, Value());
        FrontStays(before, id, newTime);
        times := times[id := newTime];
      }
    }

    // The part of step that precedes the step of the front schedulable: the one that is due first.
    method BeginStep() returns (id: nat)
      requires Valid() && schedulablePool != []
      modifies this`schedulablePool, this`scheduledCount, this`counter, this`executedTime
      ensures Valid() && Settled(Value())
      ensures id < |times| && schedulablePool != [] && schedulablePool[0].id == id
      ensures counter == times[id] && (forall j :: 0 <= j < |times| ==> counter <= times[j])
      ensures old(counter) <= counter
    {
      ghost var before := Value();
      SortEverything();
      SortSettles(before, Value(), times);
      FrontIsMinimum(Value(), times);
      counter := schedulablePool[0].time;
      executedTime := schedulablePool[0].time;
      id := schedulablePool[0].id;
    }

    // What follows it.
    method EndStep(nextActivationTime: Time)
      requires Valid() && 0 < scheduledCount && executedTime <= nextActivationTime
      modifies this`schedulablePool, this`scheduledCount, this`times
      ensures Valid() && Settled(Value())
      ensures old(schedulablePool) != [] && old(schedulablePool)[0].id < |old(times)|
      ensures times == old(times)[old(schedulablePool)[0].id := nextActivationTime]
    {
      FrontMoves(Value(), times, nextActivationTime);
      times := times[schedulablePool[0].id := nextActivationTime];
      schedulablePool := schedulablePool[0 := Entry(nextActivationTime, schedulablePool[0].id)];
      ghost var before := Value();
      SortEverything();
      SortSettles(before, Value(), times);
    }
  }

  lemma ChangedIs(s: State, id: nat, time: Time, r: State)
    requires Find(s.pool, id) < |s.pool| && s.executed <= time
    requires var k := Find(s.pool, id);
             var moves := s.pool[k].time == UNSCHEDULED && time != UNSCHEDULED;
             var pool := s.pool[k := Entry(time, id)];
             r == s.(pool := if moves && s.count < |s.pool| then Swapped(pool, s.count, k) else pool,
                     count := if moves then s.count + 1 else s.count)
    ensures Notified(s, id, time) == Some(r)
  {
    hide Swapped;
  }

  lemma SortBounds(s: State, r: State)
    requires Sorts(s, r)
    ensures r.count <= |r.pool| == |s.pool| && r.counter == s.counter && r.executed == s.executed
  {
  }

  lemma SubNotPast(d: Device, k: nat, executed: Time)
    requires k < |d.subs| && NotPast(Activations(d), executed)
    ensures NotPast(Activations(d.subs[k]), executed)
  {
    AllNotPast(d.subs, k, executed);
    forall j | 0 <= j < |AllActivations(d.subs)|
      ensures executed <= AllActivations(d.subs)[j]
    {
      assert Activations(d)[j + 1] == AllActivations(d.subs)[j];
    }
  }

  lemma {:induction false} AllNotPast(devices: seq<Device>, k: nat, executed: Time)
    requires k < |devices|
    ensures NotPast(AllActivations(devices), executed) ==> NotPast(Activations(devices[k]), executed)
  {
    if NotPast(AllActivations(devices), executed) {
      var first, rest := Activations(devices[0]), AllActivations(devices[1..]);
      assert AllActivations(devices) == first + rest;
      assert forall j :: 0 <= j < |first| ==> first[j] == AllActivations(devices)[j];
      assert forall j :: 0 <= j < |rest| ==> rest[j] == AllActivations(devices)[|first| + j];
      if k > 0 {
        AllNotPast(devices[1..], k - 1, executed);
      }
    }
  }

  // Without a scheduled entry a step goes to the end of time (TODO.md:107-109).
  lemma VoidStep(s: State, r: State, times: seq<Time>)
    requires Invariant(s, times) && Sorts(s, r) && |s.pool| > 0
    ensures |r.pool| > 0
    ensures r.pool[0].time == UNSCHEDULED <==> forall j :: 0 <= j < |times| ==> times[j] == UNSCHEDULED
  {
    SortSettles(s, r, times);
    FrontIsMinimum(r, times);
  }

  // Progress, when nothing but the steps themselves changes the schedule.

  datatype Turn = Turn(id: nat, next: Time)

  // Each turn is that of a schedulable due first, and moves it strictly later.
  ghost predicate Turns(times: seq<Time>, turns: seq<Turn>)
    decreases |turns|
  {
    turns == [] ||
    (&& turns[0].id < |times|
     && (forall j :: 0 <= j < |times| ==> times[turns[0].id] <= times[j])
     && times[turns[0].id] < turns[0].next
     && Turns(times[turns[0].id := turns[0].next], turns[1..]))
  }

  function Wait(due: Time, time: Time): nat {
    if time <= due then due + 1 - time else 0
  }

  // How long the others can keep a schedulable waiting.
  function Work(times: seq<Time>, id: nat, due: Time): nat {
    if times == [] then 0
    else Work(times[..|times| - 1], id, due) + (if |times| - 1 == id then 0 else Wait(due, times[|times| - 1]))
  }

  lemma {:induction false} WorkAfter(times: seq<Time>, id: nat, due: Time, other: nat, time: Time)
    requires other < |times| && other != id
    ensures Work(times[other := time], id, due) == Work(times, id, due) - Wait(due, times[other]) + Wait(due, time)
    decreases |times|
  {
    hide Wait;
    var n := |times| - 1;
    if other < n {
      WorkAfter(times[..n], id, due, other, time);
      assert times[other := time][..n] == times[..n][other := time];
    } else {
      assert times[other := time][..n] == times[..n];
    }
  }

  // A schedulable due at T steps within one turn more than the sum, over the others, of what is left
  // from their times to T + 1.
  lemma {:induction false} Progress(times: seq<Time>, id: nat, turns: seq<Turn>)
    requires id < |times| && Turns(times, turns) && forall k :: 0 <= k < |turns| ==> turns[k].id != id
    ensures |turns| <= Work(times, id, times[id])
    decreases |turns|
  {
    if turns != [] {
      var other, next := turns[0].id, turns[0].next;
      WorkAfter(times, id, times[id], other, next);
      Progress(times[other := next], id, turns[1..]);
    }
  }
}
