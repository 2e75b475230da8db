/** The resource manager as objects: tables and umasks are entries on the heap, reached from maps by
    process id, and the one kernel behind them changes with every call.

    Every method is proved against the functions of `Descriptors` and `Pools`; a precondition is an
    assertion of the program.
  */
module ResourcesManager {
  import opened Collections
  import opened Pools
  import opened Descriptors
  import Umasks

  type Table = Entry<FdTable>

  /** The kernel under the replayer. Open and dup return a descriptor that is not open, or fail. */
  class OsKernel {
    var open: map<int, Description>

    constructor (open: map<int, Description>)
      ensures this.open == open
    {
      this.open := open;
    }

    method FreeFd() returns (fd: int)
      ensures Fresh(open, fd)
    {
      if * {
        return FAILURE;
      }
      fd := FirstFree(open.Keys, 0);
    }

    method Open(next: nat) returns (fd: int)
      modifies this
      ensures Fresh(old(open), fd) && open == Bind(old(open), fd, CopyOf(next))
    {
      fd := FreeFd();
      open := Bind(open, fd, CopyOf(next));
    }

    method Dup(fd: int) returns (answer: int)
      modifies this
      ensures Fresh(old(open), answer) && (fd !in old(open) ==> answer == FAILURE)
      ensures open == DupInKernel(old(open), fd, answer)
    {
      if fd !in open {
        return FAILURE;
      }
      answer := FreeFd();
      open := DupInKernel(open, fd, answer);
    }

    method Dup2(fd: int, target: int) returns (answer: int)
      modifies this
      ensures (open, answer) == Dup2InKernel(old(open), fd, target)
    {
      var r := Dup2InKernel(open, fd, target);
      open, answer := r.0, r.1;
    }

    method Dup3(fd: int, target: int) returns (answer: int)
      modifies this
      ensures (open, answer) == Dup3InKernel(old(open), fd, target)
    {
      var r := Dup3InKernel(open, fd, target);
      open, answer := r.0, r.1;
    }

    method Close(fd: int) returns (answer: int)
      modifies this
      ensures open == old(open) - {fd} && answer == if fd in old(open) then 0 else FAILURE
    {
      answer := if fd in open then 0 else FAILURE;
      open := open - {fd};
    }
  }

  class ReplayerResourcesManager {
    const fdTableMap: EntryMap<FdTable>
    const umaskTable: EntryMap<bv32>
    var replayerUsedFds: set<int>

    ghost predicate Valid()
      reads this, fdTableMap, fdTableMap.live.Keys, umaskTable, umaskTable.live.Keys
    {
      && fdTableMap.Valid() && umaskTable.Valid()
      && this !in fdTableMap.Repr() && this !in umaskTable.Repr() && fdTableMap.Repr() !! umaskTable.Repr()
    }

    ghost function Repr(): set<object>
      reads this, fdTableMap, umaskTable
    {
      {this} + fdTableMap.Repr() + umaskTable.Repr()
    }

    /** The state of the descriptors, with the kernel. */
    ghost function World(kernel: OsKernel): Replay<Table>
      reads this, fdTableMap, kernel
    {
      Replay(fdTableMap.State(), replayerUsedFds, kernel.open)
    }

    ghost function TableOf(pid: Pid): FdTable
      requires fdTableMap.State().Has(pid)
      reads fdTableMap
    {
      fdTableMap.State().Get(pid)
    }

    constructor ()
      ensures Valid() && fresh(Repr()) && fresh(fdTableMap) && fresh(umaskTable)
      ensures fdTableMap.State() == Pool(map[], map[]) && umaskTable.State() == Pool(map[], map[])
      ensures replayerUsedFds == {}
    {
      fdTableMap := new EntryMap();
      umaskTable := new EntryMap();
      replayerUsedFds := {};
    }

    lemma HasEntry(pid: Pid)
      requires Valid() && pid in fdTableMap.of
      ensures fdTableMap.State().Has(pid) && TableOf(pid) == fdTableMap.of[pid].body
      ensures fdTableMap.State().live[fdTableMap.of[pid]].rc > 0
    {
      SafeHas(fdTableMap.State(), pid);
    }

    method GetFd(pid: Pid, traced: int) returns (fd: int)
      requires Valid() && pid in fdTableMap.of
      ensures fdTableMap.State().Has(pid) && fd == Descriptors.GetFd(TableOf(pid), traced)
    {
      HasEntry(pid);
      var table := fdTableMap.of[pid].body;
      fd := if traced in table then table[traced].fd else FAILURE;
    }

    method HasFd(pid: Pid, traced: int) returns (has: bool)
      requires Valid() && pid in fdTableMap.of
      ensures fdTableMap.State().Has(pid) && (has <==> traced in TableOf(pid))
    {
      HasEntry(pid);
      has := traced in fdTableMap.of[pid].body;
    }

    method GetFlags(pid: Pid, traced: int) returns (flags: Flags)
      requires Valid() && pid in fdTableMap.of && fdTableMap.State().Has(pid) && traced in TableOf(pid)
      ensures flags == TableOf(pid)[traced].flags
    {
      HasEntry(pid);
      flags := fdTableMap.of[pid].body[traced].flags;
    }

    method GetAllTracedFds(pid: Pid) returns (fds: set<int>)
      requires Valid() && pid in fdTableMap.of
      ensures fdTableMap.State().Has(pid) && fds == TableOf(pid).Keys
    {
      HasEntry(pid);
      fds := fdTableMap.of[pid].body.Keys;
    }

    method AddFd(pid: Pid, traced: int, fd: int, flags: Flags)
      requires Valid() && pid in fdTableMap.of && fdTableMap.State().Has(pid) && MayAdd(TableOf(pid), traced)
      modifies fdTableMap.Repr()
      ensures Valid() && fdTableMap.Repr() == old(fdTableMap.Repr())
      ensures fdTableMap.State() == old(fdTableMap.State()).Set(pid, AddEntry(old(TableOf(pid)), traced, fd, flags))
    {
      HasEntry(pid);
      fdTableMap.Set(pid, AddEntry(fdTableMap.of[pid].body, traced, fd, flags));
    }

    method RemoveFd(pid: Pid, traced: int) returns (fd: int)
      requires Valid() && pid in fdTableMap.of
      modifies fdTableMap.Repr()
      ensures Valid() && fdTableMap.Repr() == old(fdTableMap.Repr())
      ensures old(fdTableMap.State().Has(pid)) && fd == Descriptors.GetFd(old(TableOf(pid)), traced)
      ensures fdTableMap.State() == old(fdTableMap.State()).Set(pid, old(TableOf(pid)) - {traced})
    {
      HasEntry(pid);
      fd := GetFd(pid, traced);
      fdTableMap.Set(pid, fdTableMap.of[pid].body - {traced});
    }

    /** `initialize`: one process with the given descriptors and umask 0; every other descriptor up to the
        limit that is open belongs to the replayer itself. */
    method Initialize(pid: Pid, fdMap: map<int, int>, maxFds: nat, kernel: OsKernel)
      requires Valid() && fdTableMap.State() == Pool(map[], map[]) && umaskTable.State() == Pool(map[], map[])
      modifies Repr()
      ensures Valid() && pid in fdTableMap.of && pid in umaskTable.of
      ensures fdTableMap.State() ==
          Pool(map[pid := fdTableMap.of[pid]], map[fdTableMap.of[pid] := Counted(1, InitialTable(fdMap, fdMap.Keys))])
      ensures umaskTable.State() == Pool(map[pid := umaskTable.of[pid]], map[umaskTable.of[pid] := Counted(1, 0)])
      ensures replayerUsedFds ==
          old(replayerUsedFds) + OpenUpTo(kernel.open, maxFds + 1, ReplayedFds(InitialTable(fdMap, fdMap.Keys)))
    {
      umaskTable.Create(pid, 0);
      fdTableMap.Create(pid, map[]);
      AddAll(pid, fdMap);
      hide Pool.Set, Pool.Create, InitialTable, OpenUpTo, Valid;
      ScanFds(ReplayedFds(InitialTable(fdMap, fdMap.Keys)), maxFds, kernel);
    }

    method AddInitial(pid: Pid, fdMap: map<int, int>, traced: int, ghost start: Pool<Table, FdTable>,
                      ghost done: set<int>)
      requires Valid() && pid in fdTableMap.of && start.Has(pid) && traced in fdMap && traced !in done
      requires fdTableMap.State() == start.Set(pid, InitialTable(fdMap, done))
      modifies fdTableMap.Repr()
      ensures Valid() && fdTableMap.Repr() == old(fdTableMap.Repr()) && pid in fdTableMap.of
      ensures fdTableMap.State() == start.Set(pid, InitialTable(fdMap, done + {traced}))
    {
      InitialGrows(fdMap, done, traced);
      hide InitialTable;
      AddFd(pid, traced, fdMap[traced], 0);
    }

    /** The initial entries are added one by one, with no flags. */
    method AddAll(pid: Pid, fdMap: map<int, int>)
      requires Valid() && pid in fdTableMap.of && fdTableMap.State().Has(pid) && TableOf(pid) == map[]
      modifies fdTableMap.Repr()
      ensures Valid() && fdTableMap.Repr() == old(fdTableMap.Repr()) && pid in fdTableMap.of
      ensures fdTableMap.State() == old(fdTableMap.State()).Set(pid, InitialTable(fdMap, fdMap.Keys))
    {
      var todo := fdMap.Keys;
      ghost var start := fdTableMap.State();
      NothingInitial(start, pid, fdMap);
      hide Valid, Pool.Set, InitialTable;
      while todo != {}
        invariant Valid() && fdTableMap.Repr() == old(fdTableMap.Repr()) && todo <= fdMap.Keys && pid in fdTableMap.of
        invariant fdTableMap.State() == start.Set(pid, InitialTable(fdMap, fdMap.Keys - todo))
        decreases |todo|
      {
        ghost var some := Member(todo);
        var traced :| traced in todo;
        ghost var done := fdMap.Keys - todo;
        AddInitial(pid, fdMap, traced, start, done);
        todo := todo - {traced};
        assert fdMap.Keys - todo == done + {traced};
      }
      assert fdMap.Keys - todo == fdMap.Keys;
    }

    /** The scan for descriptors that are in use and not known. */
    method ScanFds(known: set<int>, maxFds: nat, kernel: OsKernel)
      modifies `replayerUsedFds
      ensures replayerUsedFds == old(replayerUsedFds) + OpenUpTo(kernel.open, maxFds + 1, known)
    {
      for fd := 0 to maxFds + 1
        invariant replayerUsedFds == old(replayerUsedFds) + OpenUpTo(kernel.open, fd, known)
      {
        if fd in kernel.open && fd !in known {
          replayerUsedFds := replayerUsedFds + {fd};
        }
      }
    }

    /** All replayed descriptors of the first processes that were visited. */
    ghost predicate Gathered(used: set<int>, pids: set<Pid>)
      reads fdTableMap
    {
      forall fd :: fd in used <==>
          exists p, k :: p in pids && fdTableMap.State().Has(p) && k in TableOf(p) && TableOf(p)[k].fd == fd
    }

    lemma GatheredAll(used: set<int>, kernel: OsKernel)
      requires Valid() && Gathered(used, fdTableMap.of.Keys)
      ensures used + replayerUsedFds == World(kernel).UsedFds()
    {
      var tables := fdTableMap.State();
      forall fd | fd in World(kernel).UsedFds() && fd !in replayerUsedFds
        ensures fd in used
      {
        var p, k :| p in tables.of && tables.Has(p) && k in tables.Get(p) && tables.Get(p)[k].fd == fd;
        assert p in fdTableMap.of.Keys && k in TableOf(p);
      }
      forall fd | fd in used
        ensures fd in World(kernel).UsedFds()
      {
        var p, k :| p in fdTableMap.of.Keys && tables.Has(p) && k in TableOf(p) && TableOf(p)[k].fd == fd;
        assert k in tables.Get(p);
      }
    }

    lemma GatherMore(used: set<int>, pids: set<Pid>, p: Pid)
      requires Valid() && p in fdTableMap.of && Gathered(used, pids)
      ensures Gathered(used + ReplayedFds(fdTableMap.of[p].body), pids + {p})
    {
      HasEntry(p);
      var more := used + ReplayedFds(fdTableMap.of[p].body);
      forall fd
        ensures fd in more <==>
            exists q, k :: q in pids + {p} && fdTableMap.State().Has(q) && k in TableOf(q) && TableOf(q)[k].fd == fd
      {
        if fd in ReplayedFds(fdTableMap.of[p].body) {
          var k :| k in fdTableMap.of[p].body && fdTableMap.of[p].body[k].fd == fd;
          assert k in TableOf(p);
        }
      }
    }

    method GatherUsedFds() returns (usedFds: set<int>)
      requires Valid()
      ensures Gathered(usedFds, fdTableMap.of.Keys)
    {
      usedFds := {};
      var todo := fdTableMap.of.Keys;
      while todo != {}
        invariant todo <= fdTableMap.of.Keys && Gathered(usedFds, fdTableMap.of.Keys - todo)
        decreases |todo|
      {
        ghost var some := Member(todo);
        var p :| p in todo;
        GatherMore(usedFds, fdTableMap.of.Keys - todo, p);
        usedFds := usedFds + ReplayedFds(fdTableMap.of[p].body);
        todo := todo - {p};
        assert fdTableMap.of.Keys - todo == (fdTableMap.of.Keys - (todo + {p})) + {p};
      }
      assert fdTableMap.of.Keys - todo == fdTableMap.of.Keys;
    }

    /** `generate_unused_fd`: the least number that no table and no descriptor of the replayer uses. */
    method GenerateUnusedFd(pid: Pid, ghost kernel: OsKernel) returns (unused: nat)
      requires Valid() && pid in fdTableMap.of
      ensures unused == FirstFree(World(kernel).UsedFds(), 0) && Unused(unused, World(kernel).UsedFds())
    {
      hide Valid, Gathered, Replay.UsedFds, Unused;
      var usedFds := GatherUsedFds();
      GatheredAll(usedFds, kernel);
      unused := LeastUnused(usedFds + replayerUsedFds);
    }

    /** One turn of the loop over the parent's table. */
    method DupSlot(table: FdTable, traced: int, kernel: OsKernel, copy: FdTable,
                   ghost open: Descriptors.Kernel, ghost done: set<int>, ghost before: map<int, int>)
      returns (copy': FdTable, ghost fds: map<int, int>)
      requires traced in table && traced !in done && DupsOf(open, table, done, before, kernel.open)
      requires CopiesOf(copy, table, done, before)
      modifies kernel
      ensures DupsOf(open, table, done + {traced}, fds, kernel.open) && CopiesOf(copy', table, done + {traced}, fds)
    {
      hide DupsOf, DupInKernel;
      var newFd;
      newFd, fds := table[traced].fd, before;
      ghost var now := kernel.open;
      if table[traced].fd > 0 {
        newFd := kernel.Dup(table[traced].fd);
        fds := before[traced := newFd];
      }
      DupsExtend(open, table, done, before, now, traced, newFd);
      copy' := copy[traced := FdEntry(newFd, table[traced].flags)];
    }

    /** The copy of the parent's table, with each descriptor above 0 dup'd. */
    method DupTable(table: FdTable, kernel: OsKernel) returns (copy: FdTable, ghost fds: map<int, int>)
      modifies kernel
      ensures copy == ClonedTable(table, fds) && DupsOf(old(kernel.open), table, table.Keys, fds, kernel.open)
    {
      hide DupsOf, CopiesOf, ClonedTable;
      NoDups(kernel.open, table);
      copy, fds := map[], map[];
      var todo := table.Keys;
      while todo != {}
        invariant todo <= table.Keys && CopiesOf(copy, table, table.Keys - todo, fds)
        invariant DupsOf(old(kernel.open), table, table.Keys - todo, fds, kernel.open)
        decreases |todo|
      {
        ghost var some := Member(todo);
        var traced :| traced in todo;
        ghost var done := table.Keys - todo;
        copy, fds := DupSlot(table, traced, kernel, copy, old(kernel.open), done, fds);
        todo := todo - {traced};
        assert table.Keys - todo == done + {traced};
      }
      assert table.Keys - todo == table.Keys;
      CopiesAll(copy, table, fds);
    }

    /** `clone_fd_table`: the child shares the table of its parent, or gets the copy that the dups made. */
    method CloneFdTable(ppid: Pid, pid: Pid, shared: bool, kernel: OsKernel) returns (ghost answer: Answer<Table>)
      requires Valid() && ppid in fdTableMap.of && kernel !in Repr()
      modifies fdTableMap.Repr(), kernel
      ensures Valid() && fresh(fdTableMap.Repr() - old(fdTableMap.Repr())) && old(fdTableMap.State()).Has(ppid)
      ensures shared ==>
          fdTableMap.State() == old(fdTableMap.State()).Share(ppid, pid) && kernel.open == old(kernel.open)
      ensures !shared ==>
                && answer.TableAnswer? && answer.id !in old(fdTableMap.live)
                && fdTableMap.State() ==
                    old(fdTableMap.State()).Create(pid, answer.id, ClonedTable(old(TableOf(ppid)), answer.fds))
                && DupsOf(old(kernel.open), old(TableOf(ppid)), old(TableOf(ppid)).Keys, answer.fds, kernel.open)
    {
      HasEntry(ppid);
      answer := NoAnswer;
      if shared {
        fdTableMap.Share(ppid, pid);
      } else {
        var copy;
        ghost var fds;
        copy, fds := DupTable(fdTableMap.of[ppid].body, kernel);
        fdTableMap.Create(pid, copy);
        answer := TableAnswer(fdTableMap.of[pid], fds);
      }
    }

    /** `remove_fd_table`: the descriptors to close are all of the table when its last process leaves. */
    method RemoveFdTable(pid: Pid) returns (fds: set<int>)
      requires Valid() && pid in fdTableMap.of
      modifies fdTableMap.Repr()
      ensures Valid() && fdTableMap.Repr() <= old(fdTableMap.Repr())
      ensures old(fdTableMap.State()).Has(pid) && old(fdTableMap.State()).live[old(fdTableMap.of[pid])].rc > 0
      ensures fdTableMap.State() == old(fdTableMap.State()).Release(pid)
      ensures fds ==
          if old(fdTableMap.State()).live[old(fdTableMap.of[pid])].rc == 1 then ReplayedFds(old(TableOf(pid))) else {}
    {
      HasEntry(pid);
      var freed, table := fdTableMap.Release(pid);
      fds := if freed then ReplayedFds(table) else {};
    }

    // ----- umasks

    method GetUmask(pid: Pid) returns (mask: bv32)
      requires Valid() && pid in umaskTable.of
      ensures umaskTable.State().Has(pid) && mask == umaskTable.State().Get(pid)
    {
      SafeHas(umaskTable.State(), pid);
      mask := umaskTable.of[pid].body;
    }

    method SetUmask(pid: Pid, mask: bv32)
      requires Valid() && pid in umaskTable.of
      modifies umaskTable.Repr()
      ensures Valid() && umaskTable.Repr() == old(umaskTable.Repr())
      ensures old(umaskTable.State()).Has(pid) && umaskTable.State() == old(umaskTable.State()).Set(pid, mask)
    {
      umaskTable.Set(pid, mask);
    }

    method CloneUmask(ppid: Pid, pid: Pid, shared: bool) returns (ghost id: Entry<bv32>)
      requires Valid() && ppid in umaskTable.of
      modifies umaskTable.Repr()
      ensures Valid() && fresh(umaskTable.Repr() - old(umaskTable.Repr())) && (shared || id !in old(umaskTable.live))
      ensures Umasks.CloneUmask(old(umaskTable.State()), ppid, pid, shared, id) ==
          Umasks.MaskRunning(umaskTable.State())
    {
      SafeHas(umaskTable.State(), ppid);
      id := umaskTable.of[ppid];
      if shared {
        umaskTable.Share(ppid, pid);
      } else {
        var mask := GetUmask(ppid);
        umaskTable.Create(pid, mask);
        id := umaskTable.of[pid];
      }
    }

    method RemoveUmask(pid: Pid)
      requires Valid() && pid in umaskTable.of
      modifies umaskTable.Repr()
      ensures Valid() && umaskTable.Repr() <= old(umaskTable.Repr())
      ensures old(umaskTable.State()).Has(pid) && old(umaskTable.State()).live[old(umaskTable.of[pid])].rc > 0
      ensures umaskTable.State() == old(umaskTable.State()).Release(pid)
    {
      SafeHas(umaskTable.State(), pid);
      var freed, mask := umaskTable.Release(pid);
    }
  }

  // ----- the start

  /** The entries of the descriptors in `done`. */
  function InitialTable(fdMap: map<int, int>, done: set<int>): FdTable {
    map traced | traced in fdMap && traced in done :: FdEntry(fdMap[traced], 0)
  }

  lemma NothingInitial<K>(p: Pool<K, FdTable>, pid: Pid, fdMap: map<int, int>)
    requires p.Has(pid) && p.Get(pid) == map[]
    ensures p.Set(pid, InitialTable(fdMap, fdMap.Keys - fdMap.Keys)) == p
  {
  }

  lemma InitialGrows(fdMap: map<int, int>, done: set<int>, traced: int)
    requires traced in fdMap && traced !in done
    ensures InitialTable(fdMap, done + {traced}) == AddEntry(InitialTable(fdMap, done), traced, fdMap[traced], 0)
  {
  }

  /** The open descriptors below `n` that are not known. */
  function OpenUpTo(open: Kernel, n: nat, known: set<int>): set<int> {
    set fd | fd in open && 0 <= fd < n && fd !in known
  }

  // ----- a series of dups

  /** What the dups of the slots in `done` returned: different descriptors that were not open and now are, or
      failures. */
  ghost predicate DupAnswers(open: Kernel, t: FdTable, done: set<int>, fds: map<int, int>, open': Kernel) {
    && (forall k :: k in fds <==> k in done && k in t && t[k].fd > 0)
    && (forall k :: k in fds ==> Fresh(open, fds[k]) && (fds[k] >= 0 ==> fds[k] in open'))
    && (forall a, b :: a in fds && b in fds && a != b && fds[a] >= 0 ==> fds[a] != fds[b])
  }

  /** What they made of `open`: nothing but the new descriptors, each of which refers to the description of
      the one it copies; that one may come from an earlier dup. */
  ghost predicate DupBinds(open: Kernel, t: FdTable, fds: map<int, int>, open': Kernel) {
    && (forall fd :: fd in open ==> fd in open' && open'[fd] == open[fd])
    && (forall fd :: fd in open' && fd !in open ==> exists k :: k in fds && fds[k] == fd && fd >= 0)
    && (forall k :: k in fds && k in t && fds[k] >= 0 ==>
          fds[k] in open' && t[k].fd in open' && open'[fds[k]] == open'[t[k].fd])
  }

  ghost predicate DupsOf(open: Kernel, t: FdTable, done: set<int>, fds: map<int, int>, open': Kernel) {
    DupAnswers(open, t, done, fds, open') && DupBinds(open, t, fds, open')
  }

  /** The copies of the slots in `done`. */
  ghost predicate CopiesOf(copy: FdTable, t: FdTable, done: set<int>, fds: map<int, int>) {
    && copy.Keys == done && done <= t.Keys && fds.Keys <= done
    && forall k :: k in done ==> copy[k] == FdEntry(Copied(t, fds, k), t[k].flags)
  }

  lemma CopiesAll(copy: FdTable, t: FdTable, fds: map<int, int>)
    requires CopiesOf(copy, t, t.Keys, fds)
    ensures copy == ClonedTable(t, fds)
  {
  }

  lemma NoDups(open: Kernel, t: FdTable)
    ensures DupsOf(open, t, t.Keys - t.Keys, map[], open) && CopiesOf(map[], t, t.Keys - t.Keys, map[])
  {
  }

  lemma DupFails(open: Kernel, t: FdTable, done: set<int>, fds: map<int, int>, before: Kernel, traced: int)
    requires DupsOf(open, t, done, fds, before) && traced in t && traced !in done && t[traced].fd > 0
    ensures DupsOf(open, t, done + {traced}, fds[traced := FAILURE], before)
  {
    assert traced !in fds;
    hide DupAnswers, DupBinds;
    FailAnswered(open, t, done, fds, before, traced);
    FailBinds(open, t, fds, before, traced);
  }

  lemma FailAnswered(open: Kernel, t: FdTable, done: set<int>, fds: map<int, int>, before: Kernel, traced: int)
    requires DupAnswers(open, t, done, fds, before) && traced in t && traced !in done && t[traced].fd > 0
    ensures DupAnswers(open, t, done + {traced}, fds[traced := FAILURE], before)
  {
  }

  lemma FailBinds(open: Kernel, t: FdTable, fds: map<int, int>, before: Kernel, traced: int)
    requires DupBinds(open, t, fds, before) && traced !in fds
    ensures DupBinds(open, t, fds[traced := FAILURE], before)
  {
    var fds' := fds[traced := FAILURE];
    forall x | x in before && x !in open
      ensures exists k :: k in fds' && fds'[k] == x && x >= 0
    {
      var k :| k in fds && fds[k] == x && x >= 0;
      assert fds'[k] == x;
    }
  }

  lemma DupAnswered(open: Kernel, t: FdTable, done: set<int>, fds: map<int, int>, before: Kernel, traced: int, fd: int)
    requires DupAnswers(open, t, done, fds, before) && traced in t && traced !in done && t[traced].fd > 0
    requires fd >= 0 && fd !in open && fd !in before && t[traced].fd in before
    ensures DupAnswers(open, t, done + {traced}, fds[traced := fd], before[fd := before[t[traced].fd]])
  {
  }

  lemma DupBound(open: Kernel, t: FdTable, fds: map<int, int>, before: Kernel, traced: int, fd: int)
    requires DupBinds(open, t, fds, before) && traced in t && traced !in fds
    requires fd >= 0 && fd !in before && t[traced].fd in before
    ensures DupBinds(open, t, fds[traced := fd], before[fd := before[t[traced].fd]])
  {
    var fds', open' := fds[traced := fd], before[fd := before[t[traced].fd]];
    forall x | x in open' && x !in open
      ensures exists k :: k in fds' && fds'[k] == x && x >= 0
    {
      if x == fd {
        assert fds'[traced] == x;
      } else {
        var k :| k in fds && fds[k] == x && x >= 0;
        assert fds'[k] == x;
      }
    }
  }

  lemma DupSucceeds(open: Kernel, t: FdTable, done: set<int>, fds: map<int, int>, before: Kernel, traced: int, fd: int)
    requires DupsOf(open, t, done, fds, before) && traced in t && traced !in done && t[traced].fd > 0
    requires fd >= 0 && fd !in before && t[traced].fd in before
    ensures DupsOf(open, t, done + {traced}, fds[traced := fd], before[fd := before[t[traced].fd]])
  {
    assert traced !in fds && fd !in open;
    hide DupAnswers, DupBinds;
    DupAnswered(open, t, done, fds, before, traced, fd);
    DupBound(open, t, fds, before, traced, fd);
  }

  lemma DupsExtend(open: Kernel, t: FdTable, done: set<int>, fds: map<int, int>, before: Kernel, traced: int, fd: int)
    requires DupsOf(open, t, done, fds, before) && traced in t && traced !in done
    requires t[traced].fd > 0 ==> Fresh(before, fd) && (t[traced].fd !in before ==> fd == FAILURE)
    ensures t[traced].fd > 0 ==>
        DupsOf(open, t, done + {traced}, fds[traced := fd], DupInKernel(before, t[traced].fd, fd))
    ensures t[traced].fd <= 0 ==> DupsOf(open, t, done + {traced}, fds, before)
  {
    if t[traced].fd > 0 {
      hide DupsOf;
      if fd == FAILURE {
        DupFails(open, t, done, fds, before, traced);
      } else {
        DupSucceeds(open, t, done, fds, before, traced, fd);
      }
    }
  }

  /** When every descriptor to be dup'd is open, the dups are an unshared clone of the kernel's side. */
  lemma DupsAreClone<K>(w: Replay<K>, t: FdTable, id: K, fds: map<int, int>, open': Kernel)
    requires DupsOf(w.open, t, t.Keys, fds, open') && id !in w.tables.live
    requires forall k :: k in t && t[k].fd > 0 ==> t[k].fd in w.open
    ensures AnswersClone(w, t, TableAnswer(id, fds)) && open' == ClonedKernel(w.open, t, fds)
  {
    forall k, fd
      ensures MadeBy(t, fds, k, fd) <==> k in fds && fds[k] == fd && fd >= 0
    {
    }
    var cloned := ClonedKernel(w.open, t, fds);
    forall fd
      ensures fd in cloned <==> fd in open'
      ensures fd in cloned ==> cloned[fd] == open'[fd]
    {
      if fd in open' && fd !in w.open {
        var k :| k in fds && fds[k] == fd && fd >= 0;
        assert MadeBy(t, fds, k, fd) && Copied(t, fds, k) == fd;
      }
      if exists k :: MadeBy(t, fds, k, fd) {
        var k := Maker(t, fds, fd);
        assert MadeBy(t, fds, k, fd);
      }
    }
  }

  /** The search for a number that is not in use. */
  predicate Unused(n: nat, used: set<int>) {
    n !in used && n <= |used| && forall k :: 0 <= k < n ==> k in used
  }

  method LeastUnused(used: set<int>) returns (unused: nat)
    ensures unused == FirstFree(used, 0) && Unused(unused, used)
  {
    unused := 0;
    ghost var least := FirstFree(used, 0);
    while unused in used
      invariant unused <= least && forall k :: 0 <= k < unused ==> k in used
      decreases least - unused
    {
      unused := unused + 1;
    }
  }
}
