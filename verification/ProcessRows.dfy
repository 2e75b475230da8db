/** `processRow` of the modules that touch descriptors and umasks, over the one resource manager and the
    one kernel. Each is proved to make exactly the step that `Descriptors` and `Umasks` describe; the
    preconditions are the assertions of the program.
  */
module ProcessRows {
  import opened Collections
  import opened Pools
  import opened Descriptors
  import opened ResourcesManager
  import FdSimulation
  import FdLaws
  import Umasks

  class Replayer {
    const manager: ReplayerResourcesManager
    const kernel: OsKernel

    ghost predicate Valid()
      reads manager, manager.fdTableMap, manager.fdTableMap.live.Keys, manager.umaskTable, manager.umaskTable.live.Keys
    {
      manager.Valid() && kernel !in manager.Repr()
    }

    ghost function World(): Replay<Table>
      reads manager, manager.fdTableMap, kernel
    {
      manager.World(kernel)
    }

    ghost function Masks(): Pool<Entry<bv32>, bv32>
      reads manager, manager.umaskTable
    {
      manager.umaskTable.State()
    }

    /** The process has a descriptor table. */
    ghost predicate Known(pid: Pid)
      reads manager.fdTableMap
    {
      manager.fdTableMap.State().Has(pid)
    }

    constructor (manager: ReplayerResourcesManager, kernel: OsKernel)
      requires manager.Valid() && kernel !in manager.Repr()
      ensures Valid() && this.manager == manager && this.kernel == kernel
    {
      this.manager, this.kernel := manager, kernel;
    }

    /** Each process has both a table and a umask. */
    ghost predicate Registered()
      reads manager, manager.fdTableMap, manager.umaskTable, kernel
    {
      Masks().of.Keys == World().tables.of.Keys
    }

    /** The part of `prepare_replay` that concerns descriptors and umasks. When the replay inherits the standard
        descriptors of the traced process and all others that are open are its own, it simulates the traced
        process from then on. */
    method Prepare(pid: Pid, maxFds: nat)
      requires Valid() && manager.fdTableMap.State() == Pool(map[], map[]) && Masks() == Pool(map[], map[])
      requires FdLaws.StandardKernel(kernel.open, manager.replayerUsedFds)
      requires forall fd :: fd in kernel.open && fd > FdLaws.STDERR ==> kernel.open[fd] == Own
      modifies manager.Repr()
      ensures Valid() && Registered() && Known(pid) && pid in manager.umaskTable.of
      ensures World().open == old(kernel.open)
      ensures forall fd :: 0 <= fd <= maxFds && fd in kernel.open && fd > FdLaws.STDERR ==> fd in World().own
      ensures forall lo: nat :: FdSimulation.Simulates(FdLaws.StartTraced(pid, World().tables.of[pid]), World(), lo)
      ensures Umasks.PoolAfter(pid, Masks().of[pid], []) == Umasks.MaskRunning(Masks())
    {
      hide FdSimulation.Simulates, InitialTable;
      ghost var own := manager.replayerUsedFds;
      var standard := map[0 := 0, 1 := 1, 2 := 2, AT_FDCWD := AT_FDCWD];
      manager.Initialize(pid, standard, maxFds, kernel);
      StandardTable();
      OwnIsStandard(kernel.open, own, maxFds + 1);
      forall lo: nat
        ensures FdSimulation.Simulates(FdLaws.StartTraced(pid, World().tables.of[pid]), World(), lo)
      {
        FdLaws.StartSimulatesIn(pid, World().tables.of[pid], kernel.open, manager.replayerUsedFds, lo);
      }
    }

    /** Any row, in a replay that simulates the traced processes: no assertion of the resource manager fails,
        and the simulation goes on. */
    method ReplayRow(e: Event, next: nat, ghost t: Traced<Table>, ghost lo: nat)
      returns (ghost answer: Answer<Table>, ghost id: Entry<bv32>)
      requires Valid() && Registered() && FdSimulation.Simulates(t, World(), lo) && lo <= 1 && next == t.next
      requires WellFormed(t, e) && FdSimulation.Covered(World(), e, lo)
      modifies manager.fdTableMap.Repr(), manager.umaskTable.Repr(), kernel
      ensures Valid() && Registered()
      ensures KernelAnswers(old(World()), e, answer)
      ensures FdSimulation.Simulates(TracedStep(t, e, answer), World(), lo)
      ensures Umasks.UmaskStep(old(Masks()), Umasks.MaskCall(e, id)) == Umasks.MaskRunning(Masks())
    {
      hide FdSimulation.Simulates, FdSimulation.Covered, WellFormed, KernelAnswers, Step, TracedStep, Valid;
      hide OpenAbove0, ThreadSharesFiles, Ready, Umasks.UmaskStep;
      ghost var w, p := World(), Masks();
      RowReady(t, w, e, lo);
      if e.Clone? || e.VFork? || e.Exit? || e.Umask? {
        RowShares(w, e, lo);
        answer, id := SharingRow(e, next);
      } else {
        answer := DescriptorRow(e, next);
        id := manager.umaskTable.of[e.pid];
        NoMask(p, e, id);
      }
      FdSimulation.StepKeeps(t, w, e, answer, lo);
      StaysRegistered(w, e, answer, next, World(), p, id, Masks());
    }

    /** The rows that concern one table. */
    method DescriptorRow(e: Event, next: nat) returns (ghost answer: Answer<Table>)
      requires Valid() && Ready(World(), e) && !e.Clone? && !e.VFork? && !e.Exit? && !e.Umask?
      modifies manager.fdTableMap.Repr(), kernel
      ensures Valid() && Masks() == old(Masks())
      ensures KernelAnswers(old(World()), e, answer) && Step(old(World()), e, answer, next) == Running(World())
    {
      hide Valid, OpenStep, SocketStep, CloseStep, DupStep, DupToStep, ExecveStep, Fresh;
      answer := NoAnswer;
      match e {
        case Open(pid, ret, flags) =>
          var replayed := Open(pid, ret, flags, next);
          answer := FdAnswer(replayed);
        case Socket(pid, ret, flags) =>
          var replayed := Socket(pid, ret, flags);
        case Close(pid, fd) => Close(pid, fd);
        case Dup(pid, traced, ret) =>
          var replayed := Dup(pid, traced, ret);
          answer := FdAnswer(replayed);
        case Dup2(pid, oldFd, newFd) =>
          var replayed := Dup2(pid, oldFd, newFd);
        case Dup3(pid, oldFd, newFd, flags) =>
          var replayed := Dup3(pid, oldFd, newFd, flags);
        case Execve(pid, ret) => Execve(pid, ret);
      }
    }

    /** The rows that concern the process and its umask. */
    method SharingRow(e: Event, next: nat) returns (ghost answer: Answer<Table>, ghost id: Entry<bv32>)
      requires Valid() && Known(e.pid) && e.pid in manager.umaskTable.of && OpenAbove0(World(), e.pid)
      requires e.Clone? || e.VFork? || e.Exit? || e.Umask?
      requires e.Clone? ==> ThreadSharesFiles(e.cloneFlags)
      modifies manager.fdTableMap.Repr(), manager.umaskTable.Repr(), kernel
      ensures Valid()
      ensures KernelAnswers(old(World()), e, answer) && Step(old(World()), e, answer, next) == Running(World())
      ensures Umasks.UmaskStep(old(Masks()), Umasks.MaskCall(e, id)) == Umasks.MaskRunning(Masks())
    {
      hide Valid, OpenAbove0, ThreadSharesFiles, CloneStep, ExitStep, ClonedAs, AnswersClone, NamesTable;
      answer, id := NoAnswer, manager.umaskTable.of[e.pid];
      match e {
        case Clone(pid, child, flags) => answer, id := Clone(pid, child, flags);
        case VFork(pid, child) => answer, id := VFork(pid, child);
        case Exit(pid) => Exit(pid);
        case Umask(pid, mode) =>
          var replayed := Umask(pid, mode);
      }
    }

    /** open: when only the replay succeeds, the new descriptor is closed again. */
    method Open(pid: Pid, ret: int, flags: Flags, next: nat) returns (replayed: int)
      requires Valid() && Known(pid) && MayAdd(World().Table(pid), ret)
      modifies manager.fdTableMap.Repr(), kernel
      ensures Valid() && Masks() == old(Masks())
      ensures KernelAnswers(old(World()), Event.Open(pid, ret, flags), FdAnswer(replayed))
      ensures Step(old(World()), Event.Open(pid, ret, flags), FdAnswer(replayed), next) == Running(World())
    {
      replayed := kernel.Open(next);
      if ret <= -1 && replayed != FAILURE {
        var closed := kernel.Close(replayed);
        assert kernel.open == old(kernel.open);
      } else {
        manager.AddFd(pid, ret, replayed, flags);
      }
    }

    /** socket is not replayed: a successful one gets an entry that marks it as simulated. */
    method Socket(pid: Pid, ret: int, flags: Flags) returns (replayed: int)
      requires Valid() && Known(pid) && (ret != FAILURE ==> MayAdd(World().Table(pid), ret))
      modifies manager.fdTableMap.Repr()
      ensures Valid() && Masks() == old(Masks()) && replayed == ret
      ensures Step(old(World()), Event.Socket(pid, ret, flags), NoAnswer, 0) == Running(World())
    {
      if ret != FAILURE {
        manager.AddFd(pid, ret, SIMULATED, flags);
        replayed := ret;
      } else {
        replayed := -1;
      }
    }

    method Close(pid: Pid, traced: int)
      requires Valid() && Known(pid)
      modifies manager.fdTableMap.Repr(), kernel
      ensures Valid() && Masks() == old(Masks())
      ensures Step(old(World()), Event.Close(pid, traced), NoAnswer, 0) == Running(World())
    {
      var fd := manager.RemoveFd(pid, traced);
      if fd == SIMULATED {
        return;
      }
      var closed := kernel.Close(fd);
    }

    method Dup(pid: Pid, traced: int, ret: int) returns (replayed: int)
      requires Valid() && Known(pid) && traced in World().Table(pid) && MayAdd(World().Table(pid), ret)
      modifies manager.fdTableMap.Repr(), kernel
      ensures Valid() && Masks() == old(Masks())
      ensures KernelAnswers(old(World()), Event.Dup(pid, traced, ret), FdAnswer(replayed))
      ensures old(World().Table(pid)[traced].fd) == SIMULATED ==> replayed == ret
      ensures Step(old(World()), Event.Dup(pid, traced, ret), FdAnswer(replayed), 0) == Running(World())
    {
      var fd := manager.GetFd(pid, traced);
      var flags := manager.GetFlags(pid, traced);
      if fd == SIMULATED {
        replayed := ret;
      } else {
        replayed := kernel.Dup(fd);
      }
      manager.AddFd(pid, ret, replayed, ClearCloseOnExec(flags));
    }

    method ReadSlot(pid: Pid, traced: int) returns (fd: int, flags: Flags)
      requires Valid() && Known(pid) && traced in World().Table(pid)
      ensures World().Table(pid)[traced] == FdEntry(fd, flags)
    {
      fd := manager.GetFd(pid, traced);
      flags := manager.GetFlags(pid, traced);
    }

    /** The slot is emptied, and the descriptor it held is returned. */
    method TakeSlot(pid: Pid, traced: int) returns (fd: int)
      requires Valid() && Known(pid)
      modifies manager.fdTableMap.Repr()
      ensures Valid() && Masks() == old(Masks()) && Known(pid) && pid in manager.fdTableMap.of
      ensures manager.fdTableMap.Repr() == old(manager.fdTableMap.Repr())
      ensures fd == if traced in old(World().Table(pid)) then old(World().Table(pid)[traced].fd) else SIMULATED
      ensures World() == old(World()).With(pid, old(World().Table(pid)) - {traced}, old(kernel.open))
    {
      fd := SIMULATED;
      var has := manager.HasFd(pid, traced);
      if has {
        fd := manager.GetFd(pid, traced);
        var removed := manager.RemoveFd(pid, traced);
      } else {
        assert World().Table(pid) - {traced} == World().Table(pid);
      }
    }

    method Put(pid: Pid, traced: int, fd: int, flags: Flags)
      requires Valid() && Known(pid) && MayAdd(World().Table(pid), traced)
      modifies manager.fdTableMap.Repr()
      ensures Valid() && Masks() == old(Masks())
      ensures World() == old(World()).With(pid, AddEntry(old(World().Table(pid)), traced, fd, flags), old(kernel.open))
    {
      manager.AddFd(pid, traced, fd, flags);
    }

    /** dup2 or dup3 in the kernel, and the new entry. */
    method DupInto(pid: Pid, traced: int, fd: int, target: int, flags: Flags, dup3: bool) returns (replayed: int)
      requires Valid() && Known(pid) && MayAdd(World().Table(pid), traced)
      modifies manager.fdTableMap.Repr(), kernel
      ensures Valid() && Masks() == old(Masks())
      ensures var (open, ret) := if dup3 then Dup3InKernel(old(kernel.open), fd, target)
                                 else Dup2InKernel(old(kernel.open), fd, target);
              && replayed == ret
              && World() == old(World()).With(pid, AddEntry(old(World().Table(pid)), traced, ret, flags), open)
    {
      hide Dup2InKernel, Dup3InKernel, AddEntry;
      if dup3 {
        replayed := kernel.Dup3(fd, target);
      } else {
        replayed := kernel.Dup2(fd, target);
      }
      manager.AddFd(pid, traced, replayed, flags);
    }

    /** The common part of dup2 and dup3: the slot of the new descriptor is emptied, and the descriptor it
        held is the target; without one, or if it was simulated, the target is a number not in use. */
    method DupTo(pid: Pid, oldTraced: int, newTraced: int, dup3: bool) returns (replayed: int)
      requires Valid() && Known(pid) && oldTraced in World().Table(pid)
      modifies manager.fdTableMap.Repr(), kernel
      ensures Valid() && Masks() == old(Masks())
      ensures DupToStep(old(World()), pid, oldTraced, newTraced, dup3) == Running(World())
      ensures Known(pid) && newTraced in World().Table(pid)
      ensures replayed == if old(World().Table(pid)[oldTraced].fd) == SIMULATED then newTraced
                          else World().Table(pid)[newTraced].fd
    {
      hide Replay.UsedFds, Unused, Replay.With, Valid, Pool.Has, AddEntry, Dup2InKernel, Dup3InKernel, ClearCloseOnExec;
      var oldFd, oldFlags := ReadSlot(pid, oldTraced);
      ghost var w, t := World(), World().Table(pid);
      var replayedNew := TakeSlot(pid, newTraced);
      WithMeaning(w, pid, t - {newTraced}, w.open);
      var newFlags := if dup3 then oldFlags else ClearCloseOnExec(oldFlags);
      if oldFd == SIMULATED {
        replayed := newTraced;
        Put(pid, newTraced, SIMULATED, newFlags);
        WithTwice(w, pid, t - {newTraced}, w.open, AddEntry(t - {newTraced}, newTraced, SIMULATED, newFlags), w.open);
        AddedSlot(w, pid, t - {newTraced}, newTraced, SIMULATED, newFlags, w.open);
        return;
      }
      if replayedNew == SIMULATED {
        replayedNew := GenerateUnused(pid);
      }
      assert replayedNew == Target(w, pid, newTraced);
      assert kernel.open == w.open;
      ghost var r := if dup3 then Dup3InKernel(w.open, oldFd, replayedNew)
                     else Dup2InKernel(w.open, oldFd, replayedNew);
      replayed := DupInto(pid, newTraced, oldFd, replayedNew, newFlags, dup3);
      WithTwice(w, pid, t - {newTraced}, w.open, AddEntry(t - {newTraced}, newTraced, replayed, newFlags), r.0);
      AddedSlot(w, pid, t - {newTraced}, newTraced, replayed, newFlags, r.0);
    }

    method GenerateUnused(pid: Pid) returns (unused: nat)
      requires Valid() && Known(pid)
      ensures unused == FirstFree(World().UsedFds(), 0)
    {
      hide Unused, Replay.UsedFds;
      unused := manager.GenerateUnusedFd(pid, kernel);
    }

    method Dup2(pid: Pid, oldTraced: int, newTraced: int) returns (replayed: int)
      requires Valid() && Known(pid) && oldTraced in World().Table(pid)
      modifies manager.fdTableMap.Repr(), kernel
      ensures Valid() && Masks() == old(Masks())
      ensures Step(old(World()), Event.Dup2(pid, oldTraced, newTraced), NoAnswer, 0) == Running(World())
      ensures Known(pid) && newTraced in World().Table(pid)
      ensures replayed == if old(World().Table(pid)[oldTraced].fd) == SIMULATED then newTraced
                          else World().Table(pid)[newTraced].fd
    {
      hide DupToStep;
      replayed := DupTo(pid, oldTraced, newTraced, false);
    }

    method Dup3(pid: Pid, oldTraced: int, newTraced: int, flags: Flags) returns (replayed: int)
      requires Valid() && Known(pid) && oldTraced in World().Table(pid)
      modifies manager.fdTableMap.Repr(), kernel
      ensures Valid() && Masks() == old(Masks())
      ensures Step(old(World()), Event.Dup3(pid, oldTraced, newTraced, flags), NoAnswer, 0) == Running(World())
      ensures Known(pid) && newTraced in World().Table(pid)
      ensures replayed == if old(World().Table(pid)[oldTraced].fd) == SIMULATED then newTraced
                          else World().Table(pid)[newTraced].fd
    {
      hide DupToStep;
      replayed := DupTo(pid, oldTraced, newTraced, true);
    }

    /** The two tests of the sweep, for one descriptor. */
    method SweepFd(pid: Pid, traced: int, ret: int)
      requires Valid() && Known(pid) && traced in World().Table(pid)
      modifies manager.fdTableMap.Repr()
      ensures Valid() && Masks() == old(Masks()) && Known(pid)
      ensures manager.fdTableMap.Repr() == old(manager.fdTableMap.Repr())
      ensures var t := old(World().Table(pid));
              World() == old(World()).With(pid, if SweptAway(t[traced], ret) then t - {traced} else t, old(kernel.open))
    {
      var flags := manager.GetFlags(pid, traced);
      var replayed := manager.GetFd(pid, traced);
      ghost var w, t := World(), World().Table(pid);
      assert w.With(pid, t, w.open) == w;
      if flags & O_CLOEXEC != 0 && ret >= 0 {
        var removed := manager.RemoveFd(pid, traced);
        assert World() == w.With(pid, t - {traced}, w.open);
      }
      if replayed == SIMULATED {
        if flags & SOCK_CLOEXEC != 0 || flags & 0x80000 != 0 {
          assert (t - {traced}) - {traced} == t - {traced};
          var removed := manager.RemoveFd(pid, traced);
          assert World() == w.With(pid, t - {traced}, w.open);
        }
      }
    }

    method AllTracedFds(pid: Pid) returns (fds: set<int>)
      requires Valid() && Known(pid)
      ensures fds == World().Table(pid).Keys
    {
      fds := manager.GetAllTracedFds(pid);
    }

    /** One turn of the loop over the snapshot. */
    method SweepTurn(pid: Pid, traced: int, ret: int, ghost w: Replay<Table>, ghost todo: set<int>)
      requires Valid() && Known(pid) && w.tables.Has(pid) && traced in todo && todo <= w.Table(pid).Keys
      requires World() == w.With(pid, SweptSoFar(w.Table(pid), ret, todo), w.open)
      modifies manager.fdTableMap.Repr()
      ensures Valid() && Masks() == old(Masks()) && Known(pid)
      ensures manager.fdTableMap.Repr() == old(manager.fdTableMap.Repr())
      ensures World() == w.With(pid, SweptSoFar(w.Table(pid), ret, todo - {traced}), w.open)
    {
      ghost var t := w.Table(pid);
      SweepOne(t, ret, todo, traced);
      hide Valid, SweptAway, SweptSoFar, Replay.With;
      WithMeaning(w, pid, SweptSoFar(t, ret, todo), w.open);
      SweepFd(pid, traced, ret);
      WithTwice(w, pid, SweptSoFar(t, ret, todo), w.open, SweptSoFar(t, ret, todo - {traced}), w.open);
    }

    /** The close-on-exec sweep over a snapshot of the traced descriptors. */
    method Execve(pid: Pid, ret: int)
      requires Valid() && Known(pid)
      modifies manager.fdTableMap.Repr()
      ensures Valid() && Masks() == old(Masks())
      ensures Step(old(World()), Event.Execve(pid, ret), NoAnswer, 0) == Running(World())
    {
      hide SweptAway, Sweep, SweptSoFar, Replay.With, Valid;
      ghost var w, t := World(), World().Table(pid);
      SweepEnds(w, pid, ret);
      var tracedFds := AllTracedFds(pid);
      var todo := tracedFds;
      while todo != {}
        invariant Valid() && Masks() == old(Masks()) && todo <= t.Keys && Known(pid)
        invariant manager.fdTableMap.Repr() == old(manager.fdTableMap.Repr())
        invariant World() == w.With(pid, SweptSoFar(t, ret, todo), w.open)
        decreases |todo|
      {
        ghost var some := Member(todo);
        var traced :| traced in todo;
        SweepTurn(pid, traced, ret, w, todo);
        todo := todo - {traced};
      }
    }

    method CloseAll(fds: set<int>)
      modifies kernel
      ensures kernel.open == old(kernel.open) - fds
    {
      var todo := fds;
      while todo != {}
        invariant todo <= fds && kernel.open == old(kernel.open) - (fds - todo)
        decreases |todo|
      {
        ghost var some := Member(todo);
        var fd :| fd in todo;
        var closed := kernel.Close(fd);
        todo := todo - {fd};
      }
      assert fds - todo == fds;
    }

    /** exit releases the umask and the table, and closes what the table returns. */
    method Exit(pid: Pid)
      requires Valid() && Known(pid) && pid in manager.umaskTable.of
      modifies manager.fdTableMap.Repr(), manager.umaskTable.Repr(), kernel
      ensures Valid()
      ensures Step(old(World()), Event.Exit(pid), NoAnswer, 0) == Running(World())
      ensures Umasks.UmaskStep(old(Masks()), Umasks.MaskCall(Event.Exit(pid), old(manager.umaskTable.of[pid]))) ==
          Umasks.MaskRunning(Masks())
    {
      hide Pool.Safe, Pool.Release, ReplayedFds;
      manager.RemoveUmask(pid);
      var fdsToClose := manager.RemoveFdTable(pid);
      CloseAll(fdsToClose);
    }

    /** clone registers the child in both tables. Of the kernel a shared clone changes nothing, and an
        unshared one what the dups did. */
    method CloneResources(pid: Pid, child: Pid, sharedUmask: bool, sharedFiles: bool)
      returns (ghost answer: Answer<Table>, ghost id: Entry<bv32>)
      requires Valid() && Known(pid) && pid in manager.umaskTable.of
      modifies manager.fdTableMap.Repr(), manager.umaskTable.Repr(), kernel
      ensures Valid() && ClonedAs(old(World()), pid, child, sharedFiles, answer, World())
      ensures Umasks.CloneUmask(old(Masks()), pid, child, sharedUmask, id) == Umasks.MaskRunning(Masks())
    {
      hide Pool.Safe, Pool.Share, Pool.Create, DupsOf, ClonedTable, ClonedAs;
      ghost var w := World();
      id := manager.CloneUmask(pid, child, sharedUmask);
      assert World() == w && Known(pid) && manager.Valid();
      answer := manager.CloneFdTable(pid, child, sharedFiles, kernel);
      CloneIsStep(w, pid, child, sharedFiles, answer, World());
    }

    method Clone(pid: Pid, child: Pid, flags: bv32) returns (ghost answer: Answer<Table>, ghost id: Entry<bv32>)
      requires Valid() && Known(pid) && pid in manager.umaskTable.of
      modifies manager.fdTableMap.Repr(), manager.umaskTable.Repr(), kernel
      ensures Valid() && ClonedAs(old(World()), pid, child, SharesFiles(flags), answer, World())
      ensures SharesFiles(flags) || OpenAbove0(old(World()), pid) ==>
                Step(old(World()), Event.Clone(pid, child, flags), answer, 0) == Running(World())
      ensures ThreadSharesFiles(flags) && OpenAbove0(old(World()), pid) ==>
                KernelAnswers(old(World()), Event.Clone(pid, child, flags), answer)
      ensures Umasks.UmaskStep(old(Masks()), Umasks.MaskCall(Event.Clone(pid, child, flags), id)) ==
          Umasks.MaskRunning(Masks())
    {
      hide CloneStep, Umasks.CloneUmask, AnswersClone, NamesTable, OpenAbove0, SharesFiles, SharesUmask, Valid, DupsOf;
      hide KernelSharesFiles, ThreadSharesFiles, ClonedTable;
      FdLaws.FlagsOfThread(flags);
      answer, id := CloneResources(pid, child, SharesUmask(flags), SharesFiles(flags));
    }

    method VFork(pid: Pid, child: Pid) returns (ghost answer: Answer<Table>, ghost id: Entry<bv32>)
      requires Valid() && Known(pid) && pid in manager.umaskTable.of
      modifies manager.fdTableMap.Repr(), manager.umaskTable.Repr(), kernel
      ensures Valid() && ClonedAs(old(World()), pid, child, false, answer, World())
      ensures OpenAbove0(old(World()), pid) ==>
                && Step(old(World()), Event.VFork(pid, child), answer, 0) == Running(World())
                && KernelAnswers(old(World()), Event.VFork(pid, child), answer)
      ensures Umasks.UmaskStep(old(Masks()), Umasks.MaskCall(Event.VFork(pid, child), id)) ==
          Umasks.MaskRunning(Masks())
    {
      hide CloneStep, Umasks.CloneUmask, AnswersClone, OpenAbove0, Valid;
      answer, id := CloneResources(pid, child, false, false);
    }

    method Umask(pid: Pid, mode: bv32) returns (replayed: int)
      requires Valid() && pid in manager.umaskTable.of
      modifies manager.umaskTable.Repr()
      ensures Valid() && World() == old(World()) && replayed == 0
      ensures var c := Umasks.MaskCall(Event.Umask(pid, mode), old(manager.umaskTable.of[pid]));
              Umasks.UmaskStep(old(Masks()), c) == Umasks.MaskRunning(Masks())
    {
      manager.SetUmask(pid, mode);
      replayed := 0;
    }

    method ReadUmask(pid: Pid) returns (mask: bv32)
      requires Valid() && pid in manager.umaskTable.of
      ensures Masks().Has(pid) && mask == Masks().Get(pid)
    {
      mask := manager.GetUmask(pid);
    }

    method GetMode(pid: Pid, mode: bv32) returns (masked: bv32)
      requires Valid() && pid in manager.umaskTable.of
      ensures Masks().Has(pid) && Umasks.WithoutMask(mode, Masks().Get(pid), masked)
      ensures masked == Umasks.GetMode(Masks(), pid, mode)
    {
      hide Umasks.Masked, Umasks.WithoutMask, Valid;
      var mask := ReadUmask(pid);
      masked := Umasks.Masked(mode, mask);
      Umasks.MaskedMeaning(mode, mask);
    }
  }

  lemma StandardTable()
    ensures var standard := map[0 := 0, 1 := 1, 2 := 2, AT_FDCWD := AT_FDCWD];
            InitialTable(standard, standard.Keys) == FdLaws.StartTable()
  {
  }

  /** The scan adds open descriptors of the replayer only. */
  lemma OwnIsStandard(open: Descriptors.Kernel, own: set<int>, n: nat)
    requires FdLaws.StandardKernel(open, own) && forall fd :: fd in open && fd > FdLaws.STDERR ==> open[fd] == Own
    ensures FdLaws.StandardKernel(open, own + OpenUpTo(open, n, ReplayedFds(FdLaws.StartTable())))
    ensures forall fd :: 0 <= fd < n && fd in open && fd > FdLaws.STDERR ==>
              fd in OpenUpTo(open, n, ReplayedFds(FdLaws.StartTable()))
  {
    var t := FdLaws.StartTable();
    assert t[0].fd in ReplayedFds(t) && t[1].fd in ReplayedFds(t) && t[2].fd in ReplayedFds(t);
  }

  /** What the simulation and the traced kernel guarantee of a record: all that the assertions ask for. */
  predicate Ready<K(==)>(w: Replay<K>, e: Event) {
    && w.tables.Has(e.pid)
    && match e
       case Open(pid, ret, _) => MayAdd(w.Table(pid), ret)
       case Socket(pid, ret, _) => ret != FAILURE ==> MayAdd(w.Table(pid), ret)
       case Dup(pid, traced, ret) => traced in w.Table(pid) && MayAdd(w.Table(pid), ret)
       case Dup2(pid, oldFd, _) => oldFd in w.Table(pid)
       case Dup3(pid, oldFd, _, _) => oldFd in w.Table(pid)
       case _ => true
  }

  lemma RowReady<K>(t: Traced<K>, w: Replay<K>, e: Event, lo: nat)
    requires FdSimulation.Simulates(t, w, lo) && WellFormed(t, e) && lo <= 1
    ensures Ready(w, e) && OpenAbove0(w, e.pid) && e.pid in w.tables.of && w.tables.Has(e.pid)
  {
    FdSimulation.HasTable(t, w, lo, e.pid);
    SimulatedIsOpen(t, w, lo, e.pid);
    hide FdSimulation.Simulates, OpenAbove0;
    assert forall k :: k >= 0 ==> (k in t.Table(e.pid) <==> k in w.Table(e.pid));
  }

  /** The simulation covers only clones of threads that ask for the files. */
  lemma RowShares<K>(w: Replay<K>, e: Event, lo: nat)
    requires FdSimulation.Covered(w, e, lo) && w.tables.Has(e.pid)
    ensures e.Clone? ==> ThreadSharesFiles(e.cloneFlags)
  {
  }

  lemma NoMask<K>(p: Pool<K, bv32>, e: Event, id: K)
    requires !e.Clone? && !e.VFork? && !e.Exit? && !e.Umask?
    ensures Umasks.UmaskStep(p, Umasks.MaskCall(e, id)) == Umasks.MaskRunning(p)
  {
  }

  /** Processes come and go in both maps together. */
  lemma StaysRegistered<K, L>(w: Replay<K>, e: Event, a: Answer<K>, next: nat, w': Replay<K>, p: Pool<L, bv32>, id: L,
                              p': Pool<L, bv32>)
    requires Step(w, e, a, next) == Running(w') && Umasks.UmaskStep(p, Umasks.MaskCall(e, id)) == Umasks.MaskRunning(p')
    requires p.of.Keys == w.tables.of.Keys
    ensures p'.of.Keys == w'.tables.of.Keys
  {
    if !e.Clone? && !e.VFork? && !e.Exit? {
      FdLaws.StepSets(w, e, a, next);
      hide Step;
    }
    hide ClonedKernel, SharesFiles, SharesUmask;
  }

  lemma WithMeaning<K>(w: Replay<K>, pid: Pid, t: FdTable, open: Descriptors.Kernel)
    requires w.tables.Has(pid)
    ensures var w' := w.With(pid, t, open);
            w'.tables.Has(pid) && w'.Table(pid) == t && w'.open == open && w'.own == w.own
  {
  }

  lemma AddedSlot<K>(w: Replay<K>, pid: Pid, t: FdTable, traced: int, fd: int, flags: Flags, open: Descriptors.Kernel)
    requires w.tables.Has(pid) && traced !in t
    ensures var w' := w.With(pid, AddEntry(t, traced, fd, flags), open);
            w'.tables.Has(pid) && traced in w'.Table(pid) && w'.Table(pid)[traced].fd == fd
  {
  }

  lemma WithTwice<K>(w: Replay<K>, pid: Pid, t1: FdTable, open1: Descriptors.Kernel, t2: FdTable,
                     open2: Descriptors.Kernel)
    requires w.tables.Has(pid)
    ensures w.With(pid, t1, open1).tables.Has(pid)
    ensures w.With(pid, t1, open1).With(pid, t2, open2) == w.With(pid, t2, open2)
  {
  }

  /** Every descriptor above 0 in the table of the process is open. */
  ghost predicate OpenAbove0<K>(w: Replay<K>, pid: Pid) {
    w.tables.Has(pid) && forall k :: k in w.Table(pid) && w.Table(pid)[k].fd > 0 ==> w.Table(pid)[k].fd in w.open
  }

  /** In a simulated state they are, so there the clones are exact. */
  lemma SimulatedIsOpen<K>(t: Traced<K>, w: Replay<K>, lo: nat, pid: Pid)
    requires FdSimulation.Simulates(t, w, lo) && lo <= 1 && pid in t.of
    ensures OpenAbove0(w, pid)
  {
  }

  /** A clone: the table is shared, or copied with what the dups returned, and the kernel is what these dups
      made of it. When the descriptors to be dup'd are open, that is the clone of `Descriptors`. */
  ghost predicate ClonedAs<K>(w: Replay<K>, ppid: Pid, pid: Pid, shared: bool, answer: Answer<K>, w': Replay<K>)
    requires w.tables.Has(ppid)
  {
    && (!shared ==>
          && NamesTable(w, answer)
          && w'.tables == w.tables.Create(pid, answer.id, ClonedTable(w.Table(ppid), answer.fds))
          && DupsOf(w.open, w.Table(ppid), w.Table(ppid).Keys, answer.fds, w'.open))
    && (shared || OpenAbove0(w, ppid) ==> CloneStep(w, ppid, pid, shared, answer) == Running(w'))
    && (!shared && OpenAbove0(w, ppid) ==> AnswersClone(w, w.Table(ppid), answer))
  }

  lemma CloneIsStep<K>(w: Replay<K>, ppid: Pid, pid: Pid, shared: bool, answer: Answer<K>, w': Replay<K>)
    requires w.tables.Has(ppid) && w'.own == w.own
    requires shared ==> w'.tables == w.tables.Share(ppid, pid) && w'.open == w.open
    requires !shared ==>
               && answer.TableAnswer? && answer.id !in w.tables.live
               && w'.tables == w.tables.Create(pid, answer.id, ClonedTable(w.Table(ppid), answer.fds))
               && DupsOf(w.open, w.Table(ppid), w.Table(ppid).Keys, answer.fds, w'.open)
    ensures ClonedAs(w, ppid, pid, shared, answer, w')
  {
    if !shared && OpenAbove0(w, ppid) {
      DupsAreClone(w, w.Table(ppid), answer.id, answer.fds, w'.open);
    }
    hide DupsOf, ClonedKernel, ClonedTable, AnswersClone;
  }

  /** The table while the sweep has the slots in `todo` still to visit. */
  ghost function SweptSoFar(t: FdTable, ret: int, todo: set<int>): FdTable {
    map k | k in t && (k in todo || !SweptAway(t[k], ret)) :: t[k]
  }

  lemma SweepEnds<K>(w: Replay<K>, pid: Pid, ret: int)
    requires w.tables.Has(pid)
    ensures w.With(pid, SweptSoFar(w.Table(pid), ret, w.Table(pid).Keys), w.open) == w
    ensures SweptSoFar(w.Table(pid), ret, {}) == Sweep(w.Table(pid), ret)
  {
    assert SweptSoFar(w.Table(pid), ret, w.Table(pid).Keys) == w.Table(pid);
  }

  lemma SweepOne(t: FdTable, ret: int, todo: set<int>, traced: int)
    requires traced in todo && traced in t
    ensures SweptSoFar(t, ret, todo - {traced}) ==
            if SweptAway(t[traced], ret) then SweptSoFar(t, ret, todo) - {traced} else SweptSoFar(t, ret, todo)
  {
  }
}
