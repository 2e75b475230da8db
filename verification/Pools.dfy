/** Reference-counted entries shared by processes.

    `Pool` is the value of a table that maps process ids to entries: which process points to which entry,
    and for every entry that has not been freed its reference count and its contents. Entries are named
    by values of a type `K`; `EntryMap` is the mutable form, in which they are heap objects. File
    descriptor tables and umasks are two instances.
  */
module Pools {
  import opened Collections

  type Pid = int

  datatype Counted<+T> = Counted(rc: nat, body: T)

  datatype Pool<K(==), T> = Pool(of: map<Pid, K>, live: map<K, Counted<T>>) {
    ghost function Sharers(id: K): set<Pid> {
      set pid | pid in of && of[pid] == id
    }

    /** No process points to a freed entry, and no count is below the number of its processes. */
    ghost predicate Safe() {
      && (forall pid :: pid in of ==> of[pid] in live)
      && (forall id :: id in live ==> |Sharers(id)| <= live[id].rc)
    }

    /** Every count is the number of processes that point to the entry, and none is zero. */
    ghost predicate Accurate() {
      && Safe()
      && forall id :: id in live ==> live[id].rc == |Sharers(id)| && live[id].rc > 0
    }

    predicate Has(pid: Pid) {
      pid in of && of[pid] in live
    }

    function Get(pid: Pid): T
      requires Has(pid)
    {
      live[of[pid]].body
    }

    function Set(pid: Pid, body: T): Pool<K, T>
      requires Has(pid)
    {
      this.(live := live[of[pid] := live[of[pid]].(body := body)])
    }

    /** `pid` gets the new entry `id`. */
    function Create(pid: Pid, id: K, body: T): Pool<K, T> {
      Pool(of[pid := id], live[id := Counted(1, body)])
    }

    /** `pid` points to the entry of `ppid`, whose count goes up. */
    function Share(ppid: Pid, pid: Pid): Pool<K, T>
      requires Has(ppid)
    {
      var id := of[ppid];
      Pool(of[pid := id], live[id := live[id].(rc := live[id].rc + 1)])
    }

    /** The count of the entry of `pid` goes down, and at zero the entry is freed. */
    function Release(pid: Pid): Pool<K, T>
      requires Has(pid) && live[of[pid]].rc > 0
    {
      var id := of[pid];
      var entry := live[id].(rc := live[id].rc - 1);
      Pool(Without(of, pid), if entry.rc == 0 then live - {id} else live[id := entry])
    }
  }

  // ----- what the operations do to the counts

  lemma SafeHas<K, T>(p: Pool<K, T>, pid: Pid)
    requires p.Safe() && pid in p.of
    ensures p.Has(pid) && p.live[p.of[pid]].rc > 0
  {
    assert pid in p.Sharers(p.of[pid]);
  }

  lemma SharersSize<K, T>(p: Pool<K, T>, id: K, pid: Pid)
    ensures pid in p.Sharers(id) <==> pid in p.of && p.of[pid] == id
    ensures |p.Sharers(id) - {pid}| == |p.Sharers(id)| - (if pid in p.Sharers(id) then 1 else 0)
    ensures |p.Sharers(id) + {pid}| == |p.Sharers(id)| + (if pid in p.Sharers(id) then 0 else 1)
  {
  }

  lemma SetKeeps<K, T>(p: Pool<K, T>, pid: Pid, body: T)
    requires p.Safe() && pid in p.of
    ensures p.Has(pid) && p.Set(pid, body).Safe() && (p.Accurate() ==> p.Set(pid, body).Accurate())
  {
  }

  lemma CreateSharers<K, T>(p: Pool<K, T>, pid: Pid, made: K, body: T, id: K)
    requires p.Safe() && made !in p.live
    ensures p.Create(pid, made, body).Sharers(id) == if id == made then {pid} else p.Sharers(id) - {pid}
  {
    if id == made {
      forall other | other in p.Create(pid, made, body).Sharers(id)
        ensures other == pid
      {
        assert other in p.of ==> p.of[other] in p.live;
      }
    }
  }

  /** A new entry for `pid` keeps the counts exact if and only if `pid` was not in use: otherwise the
      entry it pointed to is leaked with a count that is too high. */
  lemma CreateKeepsCountsIff<K, T>(p: Pool<K, T>, pid: Pid, made: K, body: T)
    requires p.Safe() && made !in p.live
    ensures p.Create(pid, made, body).Safe()
    ensures p.Accurate() ==> (p.Create(pid, made, body).Accurate() <==> pid !in p.of)
  {
    var q := p.Create(pid, made, body);
    forall id | id in q.live
      ensures |q.Sharers(id)| ==
          if id == made then 1 else |p.Sharers(id)| - (if pid in p.of && p.of[pid] == id then 1 else 0)
    {
      CreateSharers(p, pid, made, body, id);
      SharersSize(p, id, pid);
    }
    hide Pool.Sharers;
    if pid in p.of && p.Accurate() {
      assert p.of[pid] in q.live;
    }
  }

  lemma ShareSharers<K, T>(p: Pool<K, T>, ppid: Pid, pid: Pid, id: K)
    requires p.Safe() && ppid in p.of
    ensures p.Has(ppid)
    ensures p.Share(ppid, pid).Sharers(id) == if id == p.of[ppid] then p.Sharers(id) + {pid} else p.Sharers(id) - {pid}
  {
  }

  /** The same for sharing the entry of `ppid`. */
  lemma ShareKeepsCountsIff<K, T>(p: Pool<K, T>, ppid: Pid, pid: Pid)
    requires p.Safe() && ppid in p.of
    ensures p.Has(ppid) && p.Share(ppid, pid).Safe()
    ensures p.Accurate() ==> (p.Share(ppid, pid).Accurate() <==> pid !in p.of)
  {
    var q, shared := p.Share(ppid, pid), p.of[ppid];
    forall id | id in q.live
      ensures |q.Sharers(id)| ==
          |p.Sharers(id)| + (if id == shared then 1 else 0) - (if pid in p.of && p.of[pid] == id then 1 else 0)
    {
      ShareSharers(p, ppid, pid, id);
      SharersSize(p, id, pid);
    }
    hide Pool.Sharers;
    if pid in p.of && p.Accurate() {
      assert p.of[pid] in q.live;
    }
  }

  lemma ReleaseSharers<K, T>(p: Pool<K, T>, pid: Pid, id: K)
    requires p.Has(pid) && p.live[p.of[pid]].rc > 0
    ensures p.Release(pid).Sharers(id) == p.Sharers(id) - {pid}
  {
  }

  lemma LastSharer<K, T>(p: Pool<K, T>, id: K, pid: Pid)
    requires pid in p.Sharers(id)
    ensures |p.Sharers(id)| <= 1 <==> p.Sharers(id) == {pid}
    ensures |p.Sharers(id)| <= 1 ==> forall other :: other in p.of && other != pid ==> p.of[other] != id
  {
    SharersSize(p, id, pid);
    if |p.Sharers(id)| <= 1 {
      assert p.Sharers(id) - {pid} == {};
      forall other | other in p.of && other != pid
        ensures p.of[other] != id
      {
        assert p.of[other] == id ==> other in p.Sharers(id) - {pid};
      }
    }
  }

  /** A release keeps the counts exact; it frees the entry exactly when `pid` was its last process, so no
      freed entry is ever reachable; the count it lowers is never zero. */
  lemma ReleaseKeepsCounts<K, T>(p: Pool<K, T>, pid: Pid)
    requires p.Safe() && pid in p.of
    ensures p.Has(pid) && p.live[p.of[pid]].rc > 0
    ensures p.Release(pid).Safe()
    ensures p.Accurate() ==> p.Release(pid).Accurate()
    ensures p.Accurate() ==> (p.of[pid] !in p.Release(pid).live <==> p.Sharers(p.of[pid]) == {pid})
  {
    SafeHas(p, pid);
    var q, freed := p.Release(pid), p.of[pid];
    LastSharer(p, freed, pid);
    forall id | id in q.live
      ensures |q.Sharers(id)| == |p.Sharers(id)| - (if id == freed then 1 else 0)
    {
      ReleaseSharers(p, pid, id);
      SharersSize(p, id, pid);
    }
    hide Pool.Sharers;
  }

  // ----- the mutable form

  class Entry<T> {
    var rc: nat
    var body: T

    /** A new entry belongs to one process. */
    constructor (body: T)
      ensures rc == 1 && this.body == body
    {
      rc, this.body := 1, body;
    }

    method IncrementRc()
      modifies `rc
      ensures rc == old(rc) + 1
    {
      rc := rc + 1;
    }

    /** The source asserts that the count is not zero. */
    method DecrementRc() returns (left: nat)
      requires rc != 0
      modifies `rc
      ensures rc == old(rc) - 1 && left == rc
    {
      rc := rc - 1;
      left := rc;
    }
  }

  class EntryMap<T> {
    var of: map<Pid, Entry<T>>
    ghost var live: map<Entry<T>, Counted<T>>    // the entries that have not been freed, with their contents

    ghost function Repr(): set<object>
      reads this
    {
      {this} + live.Keys
    }

    ghost function State(): Pool<Entry<T>, T>
      reads this
    {
      Pool(of, live)
    }

    ghost predicate Valid()
      reads this, live.Keys
    {
      && (forall e :: e in live ==> live[e] == Counted(e.rc, e.body))
      && State().Safe()
    }

    constructor ()
      ensures Valid() && State() == Pool(map[], map[]) && fresh(Repr())
    {
      of, live := map[], map[];
    }

    method Create(pid: Pid, body: T)
      requires Valid()
      modifies this
      ensures Valid() && fresh(Repr() - old(Repr()))
      ensures pid in of && fresh(of[pid]) && of[pid] !in old(live)
      ensures State() == old(State()).Create(pid, of[pid], body)
    {
      var entry := new Entry(body);
      CreateKeepsCountsIff(State(), pid, entry, body);
      of, live := of[pid := entry], live[entry := Counted(1, body)];
    }

    method Share(ppid: Pid, pid: Pid)
      requires Valid() && ppid in of
      modifies Repr()
      ensures Valid() && Repr() == old(Repr())
      ensures old(State()).Has(ppid) && State() == old(State()).Share(ppid, pid)
    {
      ShareKeepsCountsIff(State(), ppid, pid);
      var entry := of[ppid];
      of := of[pid := entry];
      entry.IncrementRc();
      live := live[entry := Counted(entry.rc, entry.body)];
    }

    /** Removes the pointer of `pid` and lowers the count; at zero the entry is freed. */
    method Release(pid: Pid) returns (freed: bool, body: T)
      requires Valid() && pid in of
      modifies Repr()
      ensures Valid() && Repr() <= old(Repr())
      ensures old(State()).Has(pid) && old(State()).live[old(of[pid])].rc > 0
      ensures State() == old(State()).Release(pid)
      ensures freed <==> old(State()).live[old(of[pid])].rc == 1
      ensures body == old(State()).Get(pid)
    {
      ReleaseKeepsCounts(State(), pid);
      hide Pool.Safe, Pool.Sharers, Pool.Accurate, Without;
      ghost var want := State().Release(pid);
      var entry := of[pid];
      body := entry.body;
      var left := entry.DecrementRc();
      freed := left == 0;
      if freed {
        live := live - {entry};
      } else {
        live := live[entry := Counted(left, body)];
      }
      of := Without(of, pid);
      assert State() == want;
    }

    method Set(pid: Pid, body: T)
      requires Valid() && pid in of
      modifies Repr()
      ensures Valid() && Repr() == old(Repr()) && of == old(of)
      ensures old(State()).Has(pid) && State() == old(State()).Set(pid, body)
    {
      SetKeeps(State(), pid, body);
      of[pid].body := body;
      live := live[of[pid] := Counted(of[pid].rc, body)];
    }
  }
}
