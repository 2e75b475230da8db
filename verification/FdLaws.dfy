/** Consequences of the simulation, and where its conditions cannot be dropped. */
module FdLaws {
  import opened Collections
  import opened Pools
  import opened Descriptors
  import opened FdSimulation

  // ----- the start

  const STDIN: int := 0
  const STDOUT: int := 1
  const STDERR: int := 2

  function StartTable(): FdTable {
    map[STDIN := FdEntry(STDIN, 0), STDOUT := FdEntry(STDOUT, 0), STDERR := FdEntry(STDERR, 0),
        AT_FDCWD := FdEntry(AT_FDCWD, 0)]
  }

  /** After `initialize`: one process with the standard descriptors, and the replayer's own descriptors. */
  function StartReplay<K(==)>(pid: Pid, id: K, own: set<int>): Replay<K> {
    Replay(Pool(map[pid := id], map[id := Counted(1, StartTable())]), own,
           map fd | fd in own + {STDIN, STDOUT, STDERR} :: if 0 <= fd <= 2 then CopyOf(fd) else Own)
  }

  function StartTraced<K(==)>(pid: Pid, id: K): Traced<K> {
    Traced(map[pid := id],
           map[id := map[0 := Slot(0, false, false), 1 := Slot(1, false, false), 2 := Slot(2, false, false)]], 3)
  }

  /** A kernel in which the standard descriptors are those of the traced process, and which has the
      replayer's own descriptors open. */
  ghost predicate StandardKernel(open: Kernel, own: set<int>) {
    && (forall fd :: 0 <= fd <= STDERR ==> fd in open && open[fd] == CopyOf(fd))
    && (forall fd :: fd in own ==> fd in open && open[fd] == Own)
    && (forall fd :: fd in open ==> fd >= 0)
  }

  lemma StartMatches(open: Kernel, own: set<int>, lo: nat)
    requires StandardKernel(open, own)
    ensures TableMatches(StartTraced(0, 0).tables[0], StartTable(), open, lo, 3)
  {
    assert !CloseOnExec(0);
    hide CloseOnExec;
  }

  /** From such a kernel the simulation starts, whatever else is open. */
  lemma StartSimulatesIn<K>(pid: Pid, id: K, open: Kernel, own: set<int>, lo: nat)
    requires StandardKernel(open, own)
    ensures Simulates(StartTraced(pid, id), Replay(StartReplay(pid, id, own).tables, own, open), lo)
  {
    StartMatches(open, own, lo);
    var w, t := Replay(StartReplay(pid, id, own).tables, own, open), StartTraced(pid, id);
    assert w.tables.Sharers(id) == {pid};
    assert t.tables[id] == StartTraced(0, 0).tables[0];
    StartHolds(pid, id, own);
    hide TableMatches, StartTable, StartTraced, Holds;
  }

  /** What the slots hold at the start. */
  lemma StartHolds<K>(pid: Pid, id: K, own: set<int>)
    ensures forall i, k, fd :: Holds(StartReplay(pid, id, own).tables.live, i, k, fd) ==>
              i == id && k == fd && (fd == AT_FDCWD || 0 <= fd <= STDERR)
  {
  }

  lemma StartSimulates<K>(pid: Pid, id: K, own: set<int>, lo: nat)
    requires forall fd :: fd in own ==> fd > STDERR
    ensures Simulates(StartTraced(pid, id), StartReplay(pid, id, own), lo)
  {
    hide Simulates;
    StartSimulatesIn(pid, id, StartReplay(pid, id, own).open, own, lo);
  }

  // ----- what the simulation says about two slots

  /** Two claimed slots refer to one replayed description exactly when the traced ones share theirs: a
      file offset is shared in the replay exactly when it was shared in the trace. */
  lemma DescriptionsSharedAlike<K>(t: Traced<K>, w: Replay<K>, lo: nat, p: Pid, a: int, q: Pid, b: int)
    requires Simulates(t, w, lo) && t.Has(p) && t.Has(q) && a in t.Table(p) && b in t.Table(q)
    ensures w.tables.Has(p) && w.tables.Has(q) && a in w.Table(p) && b in w.Table(q)
    ensures var x, y := w.Table(p)[a].fd, w.Table(q)[b].fd;
            x >= lo && y >= lo ==>
              && x in w.open && y in w.open
              && (w.open[x] == w.open[y] <==> t.Table(p)[a].description == t.Table(q)[b].description)
  {
  }

  // ----- dup2 and dup3, case by case

  /** Every slot but slot `key` of table `id` holds the descriptor it held, open and unchanged. */
  ghost predicate OthersKept<K>(w: Replay<K>, w': Replay<K>, id: K, key: int, lo: nat) {
    && w'.tables.live.Keys == w.tables.live.Keys
    && (forall i, k, fd :: i in w.tables.live && !(i == id && k == key) ==>
          (Holds(w'.tables.live, i, k, fd) <==> Holds(w.tables.live, i, k, fd)))
    && (forall i, k, fd ::
          i in w.tables.live && !(i == id && k == key) && Holds(w.tables.live, i, k, fd) && fd >= lo ==>
          fd in w'.open && fd in w.open && w'.open[fd] == w.open[fd])
  }

  lemma DupToSparesOthers<K>(t: Traced<K>, w: Replay<K>, lo: nat, pid: Pid, oldFd: int, newFd: int, dup3: bool)
    requires Simulates(t, w, lo) && pid in t.of && newFd >= 0
    requires w.tables.Has(pid) && oldFd in w.Table(pid)
    ensures var r := DupToStep(w, pid, oldFd, newFd, dup3);
            r.Running? && OthersKept(w, r.state, w.tables.of[pid], newFd, lo)
  {
    HasTable(t, w, lo, pid);
    var id, body := w.tables.of[pid], w.Table(pid);
    var fd, target := body[oldFd].fd, Target(w, pid, newFd);
    TargetFits(t, w, lo, pid, newFd, 0);
    NegativeFits(t, w, lo, id, newFd, FAILURE, 0);
    DupToResult(w, pid, oldFd, newFd, dup3);
    var (open', ret) := DupToKernel(w, fd, target, dup3);
    var flags := if dup3 then body[oldFd].flags else ClearCloseOnExec(body[oldFd].flags);
    if target >= 0 && fd in w.open {
      OwnSlotSpares(t, w, lo, id, newFd, target, w.open[fd]);
    }
    forall i, k, held | !(i == id && k == newFd)
      ensures Holds(w.With(pid, body[newFd := FdEntry(ret, flags)], open').tables.live, i, k, held) <==>
          Holds(w.tables.live, i, k, held)
    {
      HoldsOneSlot(w, pid, body[newFd := FdEntry(ret, flags)], open', newFd, i, k, held);
    }
    hide Simulates, TableMatches, Exclusive, OwnApart, Target, DupToStep, Holds, Fits;
    assert open' == w.open || (target >= 0 && fd in w.open && open' == w.open[target := w.open[fd]]);
  }

  /** What the slot `newFd` refers to afterwards. */
  ghost predicate NowDenotes<K>(w: Replay<K>, w': Replay<K>, pid: Pid, oldFd: int, newFd: int)
    requires w.tables.Has(pid) && oldFd in w.Table(pid)
  {
    && w'.tables.Has(pid) && newFd in w'.Table(pid)
    && var (before, now, source) := (w.Table(pid), w'.Table(pid)[newFd].fd, w.Table(pid)[oldFd].fd);
       && (source == SIMULATED ==> now == SIMULATED && w'.open == w.open)
       && (source >= 0 && (newFd !in before || before[newFd].fd == SIMULATED || before[newFd].fd >= 0) ==>
             now >= 0 && now in w'.open && source in w.open && w'.open[now] == w.open[source])
  }

  lemma DupToDenotes<K>(t: Traced<K>, w: Replay<K>, lo: nat, pid: Pid, oldFd: int, newFd: int, dup3: bool)
    requires Simulates(t, w, lo) && t.Has(pid) && newFd >= 0 && oldFd in t.Table(pid) && (dup3 ==> oldFd != newFd)
    requires w.tables.Has(pid) && oldFd in w.Table(pid) && Claimed(w.Table(pid)[oldFd], lo)
    ensures var r := DupToStep(w, pid, oldFd, newFd, dup3);
            r.Running? && NowDenotes(w, r.state, pid, oldFd, newFd)
  {
    HasTable(t, w, lo, pid);
    var id, body := w.tables.of[pid], w.Table(pid);
    var fd, target := body[oldFd].fd, Target(w, pid, newFd);
    TargetFits(t, w, lo, pid, newFd, 0);
    DupToResult(w, pid, oldFd, newFd, dup3);
    assert SlotMatches(t.Table(pid)[oldFd], body[oldFd], w.open, lo, t.next);
    assert Holds(w.tables.live, id, oldFd, fd);
    assert newFd in body ==> Holds(w.tables.live, id, newFd, body[newFd].fd);
    var (open', ret) := DupToKernel(w, fd, target, dup3);
    assert dup3 && fd == target && fd >= lo ==> false;
    assert newFd !in body || body[newFd].fd == SIMULATED || body[newFd].fd >= 0 ==> target >= 0;
    hide Simulates, TableMatches, Exclusive, OwnApart, Target, DupToStep, Holds, Fits;
  }

  /** The six cases: a simulated source makes the slot simulated; otherwise, if the slot was absent,
      simulated or open, it now refers to the description of the source. Every other slot of every
      process holds what it held, and no descriptor of another slot was closed or rebound. */
  lemma DupToSixCases<K>(t: Traced<K>, w: Replay<K>, lo: nat, pid: Pid, oldFd: int, newFd: int, dup3: bool)
    requires Simulates(t, w, lo) && t.Has(pid) && newFd >= 0 && oldFd in t.Table(pid) && (dup3 ==> oldFd != newFd)
    requires w.tables.Has(pid) && oldFd in w.Table(pid) && Claimed(w.Table(pid)[oldFd], lo)
    ensures var r := DupToStep(w, pid, oldFd, newFd, dup3);
            && r.Running? && NowDenotes(w, r.state, pid, oldFd, newFd)
            && OthersKept(w, r.state, w.tables.of[pid], newFd, lo)
  {
    DupToDenotes(t, w, lo, pid, oldFd, newFd, dup3);
    DupToSparesOthers(t, w, lo, pid, oldFd, newFd, dup3);
  }

  // ----- exit

  /** An exit closes all descriptors of the table exactly when its last process leaves, and none
      otherwise; none of them, from `lo` on, is left in a surviving table. */
  lemma ExitClosesExactly<K>(t: Traced<K>, w: Replay<K>, lo: nat, pid: Pid)
    requires Simulates(t, w, lo) && pid in t.of
    ensures w.tables.Has(pid) && w.tables.live[w.tables.of[pid]].rc > 0
    ensures FdsToClose(w, pid) ==
            if w.tables.Sharers(w.tables.of[pid]) == {pid} then ReplayedFds(w.Table(pid)) else {}
    ensures forall id, k, fd :: Holds(w.tables.Release(pid).live, id, k, fd) && fd >= lo ==> fd !in FdsToClose(w, pid)
  {
    HasTable(t, w, lo, pid);
    var id := w.tables.of[pid];
    assert pid in w.tables.Sharers(id);
    LastSharer(w.tables, id, pid);
    forall i, k, fd | Holds(w.tables.Release(pid).live, i, k, fd) && fd >= lo
      ensures fd !in FdsToClose(w, pid)
    {
      ExitClosesNoSurvivor(t, w, lo, pid, i, k, fd);
    }
  }

  // ----- the conditions of the simulation are exact

  /** Outside the covered records the simulation is lost, so that `Covered` says exactly which records
      keep it: a dup of a simulated slot stores a number that is no socket; dup2 onto itself, dup3 and a
      failed execve leave a close-on-exec flag that the traced kernel does not have; a clone of a thread
      that does not ask for the files shares a table that the traced kernel copied; and an unshared clone
      that reuses descriptor 0 puts it into two tables. */
  lemma StepKeepsIff<K>(t: Traced<K>, w: Replay<K>, e: Event, a: Answer<K>, lo: nat)
    requires Simulates(t, w, lo) && WellFormed(t, e) && KernelAnswers(w, e, a) && lo <= 1
    requires w.tables.Has(e.pid) && (e.Dup? ==> ClaimedSlot(w, e.pid, e.fd, lo))
    requires e.Dup2? || e.Dup3? ==> ClaimedSlot(w, e.pid, e.oldFd, lo)
    ensures Continues(TracedStep(t, e, a), Step(w, e, a, t.next), lo) <==> Covered(w, e, lo)
  {
    if Covered(w, e, lo) {
      StepKeeps(t, w, e, a, lo);
    } else {
      HasTable(t, w, lo, e.pid);
      match e
      case Dup(_, _, _) => DupOfSimulatedBreaks(t, w, e, a, lo);
      case Dup2(_, _, _) => DupOntoItselfBreaks(t, w, e, a, lo);
      case Dup3(_, _, _, _) => Dup3FlagBreaks(t, w, e, a, lo);
      case Execve(_, _) => FailedExecveBreaks(t, w, e, a, lo);
      case Clone(_, _, flags) =>
        if ThreadSharesFiles(flags) {
          CopyOfZeroBreaks(t, w, e, a, lo);
        } else {
          CloneOfThreadBreaks(t, w, e, a, lo);
        }
      case VFork(_, _) => CopyOfZeroBreaks(t, w, e, a, lo);
      case _ =>
    }
  }

  ghost predicate ClaimedSlot<K>(w: Replay<K>, pid: Pid, k: int, lo: nat)
    requires w.tables.Has(pid)
  {
    k in w.Table(pid) ==> Claimed(w.Table(pid)[k], lo)
  }

  /** The table that `initialize` makes holds descriptor 0, so the first process that forks without
      sharing files already puts 0 into two tables. */
  lemma FirstForkReusesZero<K>(pid: Pid, child: Pid, id: K, own: set<int>, a: Answer<K>)
    requires (forall fd :: fd in own ==> fd > STDERR) && child != pid
    requires KernelAnswers(StartReplay(pid, id, own), VFork(pid, child), a)
    ensures Simulates(StartTraced(pid, id), StartReplay(pid, id, own), 0)
    ensures !Continues(TracedStep(StartTraced(pid, id), VFork(pid, child), a),
                       Step(StartReplay(pid, id, own), VFork(pid, child), a, 3), 0)
  {
    var t, w := StartTraced(pid, id), StartReplay(pid, id, own);
    StartSimulates(pid, id, own, 0);
    assert w.Table(pid)[STDIN].fd == 0;
    hide Simulates, TracedStep, Step;
    StepKeepsIff(t, w, VFork(pid, child), a, 0);
  }

  /** A slot of the state after the step that does not match its traced slot. */
  lemma MismatchBreaks<K>(t: Traced<K>, o: Outcome<K>, lo: nat, pid: Pid, k: int)
    requires o.Running? && t.Has(pid) && o.state.tables.Has(pid) && k >= 0
    requires !(k in t.Table(pid) <==> k in o.state.Table(pid)) ||
             (k in t.Table(pid) && !SlotMatches(t.Table(pid)[k], o.state.Table(pid)[k], o.state.open, lo, t.next))
    ensures !Continues(t, o, lo)
  {
  }

  lemma DupOfSimulatedBreaks<K>(t: Traced<K>, w: Replay<K>, e: Event, a: Answer<K>, lo: nat)
    requires e.Dup? && Simulates(t, w, lo) && WellFormed(t, e) && !Covered(w, e, lo)
    requires w.tables.Has(e.pid) && ClaimedSlot(w, e.pid, e.fd, lo)
    ensures !Continues(TracedStep(t, e, a), Step(w, e, a, t.next), lo)
  {
    HasTable(t, w, lo, e.pid);
    assert SlotMatches(t.Table(e.pid)[e.fd], w.Table(e.pid)[e.fd], w.open, lo, t.next);
    hide Simulates, TableMatches, CloseOnExec, ClearCloseOnExec;
    MismatchBreaks(TracedStep(t, e, a), Step(w, e, a, t.next), lo, e.pid, e.ret);
  }

  lemma DupOntoItselfBreaks<K>(t: Traced<K>, w: Replay<K>, e: Event, a: Answer<K>, lo: nat)
    requires e.Dup2? && Simulates(t, w, lo) && WellFormed(t, e) && !Covered(w, e, lo)
    requires w.tables.Has(e.pid) && ClaimedSlot(w, e.pid, e.oldFd, lo)
    ensures !Continues(TracedStep(t, e, a), Step(w, e, a, t.next), lo)
  {
    HasTable(t, w, lo, e.pid);
    DupToResult(w, e.pid, e.oldFd, e.newFd, false);
    assert SlotMatches(t.Table(e.pid)[e.oldFd], w.Table(e.pid)[e.oldFd], w.open, lo, t.next);
    hide Simulates, TableMatches, CloseOnExec, ClearCloseOnExec, DupToStep, DupToKernel, Target;
    MismatchBreaks(TracedStep(t, e, a), Step(w, e, a, t.next), lo, e.pid, e.newFd);
  }

  lemma Dup3FlagBreaks<K>(t: Traced<K>, w: Replay<K>, e: Event, a: Answer<K>, lo: nat)
    requires e.Dup3? && Simulates(t, w, lo) && WellFormed(t, e) && !Covered(w, e, lo)
    requires w.tables.Has(e.pid) && ClaimedSlot(w, e.pid, e.oldFd, lo)
    ensures !Continues(TracedStep(t, e, a), Step(w, e, a, t.next), lo)
  {
    HasTable(t, w, lo, e.pid);
    DupToResult(w, e.pid, e.oldFd, e.newFd, true);
    hide Simulates, TableMatches, CloseOnExec, ClearCloseOnExec, DupToStep, DupToKernel, Target;
    MismatchBreaks(TracedStep(t, e, a), Step(w, e, a, t.next), lo, e.pid, e.newFd);
  }

  lemma FailedExecveBreaks<K>(t: Traced<K>, w: Replay<K>, e: Event, a: Answer<K>, lo: nat)
    requires e.Execve? && Simulates(t, w, lo) && WellFormed(t, e) && !Covered(w, e, lo)
    ensures !Continues(TracedStep(t, e, a), Step(w, e, a, t.next), lo)
  {
    HasTable(t, w, lo, e.pid);
    var k :| k in w.Table(e.pid) && k >= 0 && SweptAway(w.Table(e.pid)[k], e.ret);
    assert k in t.Table(e.pid);
    hide Simulates, TableMatches, SweptAway;
    MismatchBreaks(TracedStep(t, e, a), Step(w, e, a, t.next), lo, e.pid, k);
  }

  lemma CopyOfZeroBreaks<K>(t: Traced<K>, w: Replay<K>, e: Event, a: Answer<K>, lo: nat)
    requires (e.Clone? || e.VFork?) && Simulates(t, w, lo) && WellFormed(t, e) && KernelAnswers(w, e, a)
    requires w.tables.Has(e.pid) && !Covered(w, e, lo) && lo <= 1 && (e.Clone? ==> ThreadSharesFiles(e.cloneFlags))
    ensures !Continues(TracedStep(t, e, a), Step(w, e, a, t.next), lo)
  {
    var w' := Step(w, e, a, t.next).state;
    var body := w.Table(e.pid);
    var k :| k in body && body[k].fd == 0;
    HoldsAfterClone(w, e.child, a.id, ClonedTable(body, a.fds), a.id, k, 0);
    HoldsAfterClone(w, e.child, a.id, ClonedTable(body, a.fds), w.tables.of[e.pid], k, 0);
    hide ClonedKernel, TableMatches, OwnApart;
    assert Holds(w'.tables.live, a.id, k, 0) && Holds(w'.tables.live, w.tables.of[e.pid], k, 0);
  }

  /** A clone of a thread that does not ask for the files: the replay puts parent and child into one class,
      and the traced kernel does not. */
  lemma CloneOfThreadBreaks<K>(t: Traced<K>, w: Replay<K>, e: Event, a: Answer<K>, lo: nat)
    requires e.Clone? && Simulates(t, w, lo) && WellFormed(t, e) && KernelAnswers(w, e, a)
    requires w.tables.Has(e.pid) && !ThreadSharesFiles(e.cloneFlags)
    ensures var t', o := TracedStep(t, e, a), Step(w, e, a, t.next);
            && o.Running? && o.state.tables.of[e.child] == o.state.tables.of[e.pid] && t'.of[e.child] != t'.of[e.pid]
            && !Continues(t', o, lo)
  {
    HasTable(t, w, lo, e.pid);
    hide ThreadSharesFiles, TableMatches, Exclusive, OwnApart, ClonedKernel;
    assert SharesFiles(e.cloneFlags) && !KernelSharesFiles(e.cloneFlags) by { FlagsOfThread(e.cloneFlags); }
    hide SharesFiles, KernelSharesFiles;
  }

  lemma FlagsOfThread(flags: bv32)
    ensures ThreadSharesFiles(flags) <==> (SharesFiles(flags) <==> KernelSharesFiles(flags))
    ensures !ThreadSharesFiles(flags) ==> SharesFiles(flags) && !KernelSharesFiles(flags)
  {
  }

  /** The traced kernel can have run these records. */
  ghost predicate Possible<K>(t: Traced<K>, calls: seq<Call<K>>)
    decreases |calls|
  {
    calls != [] ==>
      WellFormed(t, calls[0].event) && Possible(TracedStep(t, calls[0].event, calls[0].answer), calls[1..])
  }

  /** The child opens a file, and then the parent opens one and gets the same number. */
  function TwoOpens<K>(pid: Pid, child: Pid, flags: bv32, n: nat, a: Answer<K>, x: int, y: int): seq<Call<K>> {
    [Call(Clone(pid, child, flags), a), Call(Open(child, n, 0), FdAnswer(x)), Call(Open(pid, n, 0), FdAnswer(y))]
  }

  /** What that leads to, from every state: two records later an assertion of the resource manager fails on
      a trace that a kernel can have run. */
  lemma CloneOfThreadAborts<K>(t: Traced<K>, w: Replay<K>, lo: nat, pid: Pid, child: Pid, flags: bv32, n: nat,
                               a: Answer<K>, x: int, y: int)
    requires Simulates(t, w, lo) && WellFormed(t, Clone(pid, child, flags))
    requires KernelAnswers(w, Clone(pid, child, flags), a)
    requires w.tables.Has(pid) && !ThreadSharesFiles(flags) && n !in t.Table(pid)
    ensures var calls := TwoOpens(pid, child, flags, n, a, x, y); Possible(t, calls) && Replayed(t, w, calls).Aborted?
  {
    HasTable(t, w, lo, pid);
    FlagsOfThread(flags);
    hide Simulates, SharesFiles, KernelSharesFiles, ThreadSharesFiles, CloseOnExec, Possible, Replayed;
    var calls := TwoOpens(pid, child, flags, n, a, x, y);
    var (c0, c1, c2) := (calls[0], calls[1], calls[2]);
    var t1, w1 := TracedStep(t, c0.event, a), Step(w, c0.event, a, t.next).state;
    assert t1.Has(child) && t1.Table(child) == t.Table(pid) && t1.Has(pid) && t1.Table(pid) == t.Table(pid);
    assert w1.tables.Has(child) && w1.tables.Has(pid) && w1.tables.of[child] == w1.tables.of[pid];
    var t2 := TracedStep(t1, c1.event, c1.answer);
    assert t2.Has(pid) && t2.Table(pid) == t.Table(pid);
    PossibleTwo(t1, c1, c2);
    PossibleNext(t, c0, [c1, c2]);
    assert calls == [c0] + [c1, c2];
    OpensTwice(t1, w1, [c1, c2]);
    ReplayedNext(t, w, c0, [c1, c2]);
  }

  lemma PossibleNext<K>(t: Traced<K>, c: Call<K>, rest: seq<Call<K>>)
    requires WellFormed(t, c.event) && Possible(TracedStep(t, c.event, c.answer), rest)
    ensures Possible(t, [c] + rest)
  {
    assert ([c] + rest)[1..] == rest;
    hide WellFormed, TracedStep;
  }

  lemma PossibleTwo<K>(t: Traced<K>, c1: Call<K>, c2: Call<K>)
    requires WellFormed(t, c1.event) && WellFormed(TracedStep(t, c1.event, c1.answer), c2.event)
    ensures Possible(t, [c1, c2])
  {
    PossibleNext(TracedStep(t, c1.event, c1.answer), c2, []);
    assert [c2] + [] == [c2] && [c1] + [c2] == [c1, c2];
    hide Possible, WellFormed, TracedStep;
    PossibleNext(t, c1, [c2]);
  }

  lemma ReplayedNext<K>(t: Traced<K>, w: Replay<K>, c: Call<K>, rest: seq<Call<K>>)
    requires t.Has(c.event.pid) && Step(w, c.event, c.answer, t.next).Running?
    ensures Replayed(t, w, [c] + rest) ==
        Replayed(TracedStep(t, c.event, c.answer), Step(w, c.event, c.answer, t.next).state, rest)
  {
    assert ([c] + rest)[1..] == rest;
    hide Step, TracedStep;
  }

  /** Two opens of one number in one table. */
  lemma OpensTwice<K>(t: Traced<K>, w: Replay<K>, calls: seq<Call<K>>)
    requires |calls| == 2 && calls[0].event.Open? && calls[1].event.Open?
    requires calls[0].event.ret == calls[1].event.ret >= 0
    requires t.Has(calls[0].event.pid) && TracedStep(t, calls[0].event, calls[0].answer).Has(calls[1].event.pid)
    requires w.tables.Has(calls[0].event.pid) && w.tables.Has(calls[1].event.pid)
    requires w.tables.of[calls[0].event.pid] == w.tables.of[calls[1].event.pid]
    ensures Replayed(t, w, calls).Aborted?
  {
    var o := Step(w, calls[0].event, calls[0].answer, t.next);
    if o.Running? {
      assert o.state.tables.Has(calls[1].event.pid) && calls[1].event.ret in o.state.Table(calls[1].event.pid);
      assert Step(o.state, calls[1].event, calls[1].answer,
                  TracedStep(t, calls[0].event, calls[0].answer).next).Aborted?;
    }
  }

  const CLONE_VM: bv32 := 0x100
  const CLONE_SIGHAND: bv32 := 0x800

  /** The first such clone of a replay: with the flags that the kernel asks of a thread and no others, and
      with 3 as the number that both get, the replay aborts. */
  lemma FirstThreadAborts<K>(pid: Pid, child: Pid, id: K, own: set<int>, copy: K, x: int, y: int)
    requires (forall fd :: fd in own ==> fd > STDERR) && child != pid && copy != id
    ensures var calls := TwoOpens(pid, child, CLONE_VM | CLONE_SIGHAND | CLONE_THREAD, 3,
                                  TableAnswer(copy, map[]), x, y);
            && Possible(StartTraced(pid, id), calls)
            && Replayed(StartTraced(pid, id), StartReplay(pid, id, own), calls).Aborted?
  {
    var flags := CLONE_VM | CLONE_SIGHAND | CLONE_THREAD;
    var t, w, a := StartTraced(pid, id), StartReplay(pid, id, own), TableAnswer(copy, map[]);
    StartSimulates(pid, id, own, 1);
    assert flags & CLONE_THREAD != 0 && flags & CLONE_FILES == 0;
    assert 3 !in t.Table(pid) && WellFormed(t, Clone(pid, child, flags));
    assert KernelAnswers(w, Clone(pid, child, flags), a);
    hide Possible, Replayed, Simulates;
    CloneOfThreadAborts(t, w, 1, pid, child, flags, 3, a, x, y);
  }

  /** The traced number that a dup of a simulated slot stores becomes a second owner unless it is below
      the claim or in no slot. */
  lemma DupOfSimulatedOwnershipIff<K>(t: Traced<K>, w: Replay<K>, lo: nat, pid: Pid, k: int, ret: int, answer: int)
    requires Simulates(t, w, lo) && WellFormed(t, Dup(pid, k, ret))
    requires w.tables.Has(pid) && k in w.Table(pid) && w.Table(pid)[k].fd == SIMULATED
    ensures var r := DupStep(w, pid, k, ret, answer);
            && r.Running?
            && (Exclusive(r.state.tables.live, lo) <==> ret < lo || forall i, j :: !Holds(w.tables.live, i, j, ret))
  {
    HasTable(t, w, lo, pid);
    var body' := w.Table(pid)[ret := FdEntry(ret, ClearCloseOnExec(w.Table(pid)[k].flags))];
    var w' := DupStep(w, pid, k, ret, answer).state;
    forall i, j, fd
      ensures Holds(w'.tables.live, i, j, fd) <==>
              if i == w.tables.of[pid] && j == ret then fd == ret else Holds(w.tables.live, i, j, fd)
    {
      HoldsOneSlot(w, pid, body', w.open, ret, i, j, fd);
    }
    assert forall fd :: !Holds(w.tables.live, w.tables.of[pid], ret, fd);
    assert Holds(w'.tables.live, w.tables.of[pid], ret, ret);
    hide Holds, TableMatches, OwnApart;
  }

  // ----- execve

  /** A successful execve never closes what it sweeps: the replayed descriptor stays open in the kernel
      while no table holds it any more. */
  lemma ExecveLeaks<K>(t: Traced<K>, w: Replay<K>, lo: nat, pid: Pid, ret: int, k: int)
    requires Simulates(t, w, lo) && pid in t.of && ret >= 0
    requires w.tables.Has(pid) && k in w.Table(pid) && CloseOnExec(w.Table(pid)[k].flags) && w.Table(pid)[k].fd >= lo
    ensures var r, fd := ExecveStep(w, pid, ret).state, w.Table(pid)[k].fd;
            fd in r.open && r.open[fd] == w.open[fd] && forall i, j :: !Holds(r.tables.live, i, j, fd)
  {
    var id, fd := w.tables.of[pid], w.Table(pid)[k].fd;
    var r := ExecveStep(w, pid, ret).state;
    assert Holds(w.tables.live, id, k, fd);
    HeldIsOpen(t, w, lo, id, k, fd);
    forall i, j
      ensures !Holds(r.tables.live, i, j, fd)
    {
      assert Holds(r.tables.live, i, j, fd) ==> Holds(w.tables.live, i, j, fd);
    }
  }

  // ----- counts and sharing over runs, whatever the records

  /** New processes and new tables have new names. */
  ghost predicate FreshNames<K>(w: Replay<K>, e: Event, a: Answer<K>) {
    && (e.Clone? || e.VFork? ==> e.child !in w.tables.of)
    && (a.TableAnswer? ==> a.id !in w.tables.live)
  }

  ghost predicate FreshRun<K>(t: Traced<K>, w: Replay<K>, calls: seq<Call<K>>)
    decreases |calls|
  {
    calls != [] && t.Has(calls[0].event.pid) ==>
      var Call(e, a) := calls[0];
      && FreshNames(w, e, a)
      && var o := Step(w, e, a, t.next);
         o.Running? ==> FreshRun(TracedStep(t, e, a), o.state, calls[1..])
  }

  /** All steps but clone and exit change at most the contents of the table of their process. */
  lemma StepSets<K>(w: Replay<K>, e: Event, a: Answer<K>, next: nat)
    requires Step(w, e, a, next).Running? && !e.Clone? && !e.VFork? && !e.Exit?
    ensures var w' := Step(w, e, a, next).state;
            w'.tables == w.tables || (w.tables.Has(e.pid) && exists body :: w'.tables == w.tables.Set(e.pid, body))
  {
    var w' := Step(w, e, a, next).state;
    hide Target;
    if w.tables.Has(e.pid) && w'.tables != w.tables {
      assert w'.tables == w.tables.Set(e.pid, w'.tables.live[w.tables.of[e.pid]].body);
    }
  }

  lemma CountsStep<K>(w: Replay<K>, e: Event, a: Answer<K>, next: nat)
    requires w.tables.Accurate() && FreshNames(w, e, a)
    ensures Step(w, e, a, next).Running? ==> Step(w, e, a, next).state.tables.Accurate()
    ensures e.Exit? && e.pid in w.tables.of ==> Step(w, e, a, next).Running?
  {
    if e.pid in w.tables.of {
      SafeHas(w.tables, e.pid);
      if e.Exit? {
        ReleaseKeepsCounts(w.tables, e.pid);
      } else if e.Clone? || e.VFork? {
        ShareKeepsCountsIff(w.tables, e.pid, e.child);
        if a.TableAnswer? {
          CreateKeepsCountsIff(w.tables, e.child, a.id, ClonedTable(w.Table(e.pid), a.fds));
        }
      } else if Step(w, e, a, next).Running? {
        StepSets(w, e, a, next);
        forall body
          ensures w.tables.Set(e.pid, body).Accurate()
        {
          SetKeeps(w.tables, e.pid, body);
        }
      }
    } else if !e.Clone? && !e.VFork? && !e.Exit? && Step(w, e, a, next).Running? {
      StepSets(w, e, a, next);
    }
    hide Pool.Accurate, DupToStep, ClonedKernel, Pool.Set;
  }

  /** Over any run with fresh names every reference count stays the number of processes that share the
      table, whether or not the simulation holds. */
  lemma {:induction false} CountsOverRuns<K>(t: Traced<K>, w: Replay<K>, calls: seq<Call<K>>)
    requires w.tables.Accurate() && FreshRun(t, w, calls)
    ensures var o := Replayed(t, w, calls); o.Running? ==> o.state.tables.Accurate()
    decreases |calls|
  {
    if calls != [] && t.Has(calls[0].event.pid) {
      var Call(e, a) := calls[0];
      CountsStep(w, e, a, t.next);
      var o := Step(w, e, a, t.next);
      if o.Running? {
        CountsOverRuns(TracedStep(t, e, a), o.state, calls[1..]);
      }
    }
  }

  /** The process, its table and the table's sharers are the same in both states. */
  ghost predicate SameClass<K>(w: Replay<K>, w': Replay<K>, q: Pid) {
    && w.tables.Has(q) && w'.tables.Has(q) && w'.tables.of[q] == w.tables.of[q]
    && w'.tables.live[w.tables.of[q]] == w.tables.live[w.tables.of[q]]
    && w'.tables.Sharers(w.tables.of[q]) == w.tables.Sharers(w.tables.of[q])
  }

  lemma IsolationStep<K>(w: Replay<K>, e: Event, a: Answer<K>, next: nat, q: Pid)
    requires w.tables.Accurate() && FreshNames(w, e, a) && q in w.tables.of
    requires e.pid !in w.tables.Sharers(w.tables.of[q]) && Step(w, e, a, next).Running?
    ensures SameClass(w, Step(w, e, a, next).state, q)
  {
    SafeHas(w.tables, q);
    if !e.Clone? && !e.VFork? && !e.Exit? {
      StepSets(w, e, a, next);
    }
    hide DupToStep, ClonedKernel, Pool.Accurate;
  }

  /** No record of a process outside the sharing class of `q` can be seen by `q`: over any run of such
      records the table of `q`, its count and its class stay the same. An unshared clone starts a class
      of its own, so neither side sees what the other does later. */
  lemma {:induction false} IsolationOverRuns<K>(t: Traced<K>, w: Replay<K>, calls: seq<Call<K>>, q: Pid)
    requires w.tables.Accurate() && FreshRun(t, w, calls) && q in w.tables.of
    requires forall i :: 0 <= i < |calls| ==> calls[i].event.pid !in w.tables.Sharers(w.tables.of[q])
    ensures var o := Replayed(t, w, calls); o.Running? ==> SameClass(w, o.state, q)
    decreases |calls|
  {
    SafeHas(w.tables, q);
    if calls != [] && t.Has(calls[0].event.pid) {
      var Call(e, a) := calls[0];
      var o := Step(w, e, a, t.next);
      if o.Running? {
        CountsStep(w, e, a, t.next);
        IsolationStep(w, e, a, t.next, q);
        hide Step, TracedStep, Pool.Accurate, Pool.Sharers;
        IsolationOverRuns(TracedStep(t, e, a), o.state, calls[1..], q);
      }
    }
  }

  lemma PointerStep<K>(w: Replay<K>, e: Event, a: Answer<K>, next: nat, p: Pid)
    requires FreshNames(w, e, a) && p in w.tables.of && Step(w, e, a, next).Running? && e != Exit(p)
    ensures var tables := Step(w, e, a, next).state.tables; p in tables.of && tables.of[p] == w.tables.of[p]
  {
    if !e.Clone? && !e.VFork? && !e.Exit? {
      StepSets(w, e, a, next);
    }
    hide DupToStep, ClonedKernel;
  }

  /** Processes joined by a shared clone have one table, over any run until one of them exits. */
  lemma {:induction false} SharingOverRuns<K>(t: Traced<K>, w: Replay<K>, calls: seq<Call<K>>, p: Pid, q: Pid)
    requires w.tables.Accurate() && FreshRun(t, w, calls) && p in w.tables.of && q in w.tables.of
    requires w.tables.of[p] == w.tables.of[q]
    requires forall i :: 0 <= i < |calls| ==> calls[i].event != Exit(p) && calls[i].event != Exit(q)
    ensures var o := Replayed(t, w, calls);
            o.Running? ==> o.state.tables.Has(p) && o.state.tables.Has(q) && o.state.Table(p) == o.state.Table(q)
    decreases |calls|
  {
    SafeHas(w.tables, p);
    SafeHas(w.tables, q);
    if calls != [] && t.Has(calls[0].event.pid) {
      var Call(e, a) := calls[0];
      var o := Step(w, e, a, t.next);
      if o.Running? {
        CountsStep(w, e, a, t.next);
        PointerStep(w, e, a, t.next, p);
        PointerStep(w, e, a, t.next, q);
        hide Step, TracedStep, Pool.Accurate;
        SharingOverRuns(TracedStep(t, e, a), o.state, calls[1..], p, q);
      }
    }
  }

  /** A clone joins the class of its parent in the replay and in the traced kernel alike exactly when a
      thread asks for the files: otherwise only the replay joins them. */
  lemma CloneJoinsIff<K>(t: Traced<K>, w: Replay<K>, ppid: Pid, pid: Pid, flags: bv32, a: Answer<K>, lo: nat)
    requires Simulates(t, w, lo) && WellFormed(t, Clone(ppid, pid, flags))
    requires KernelAnswers(w, Clone(ppid, pid, flags), a)
    ensures var t', o := TracedStep(t, Clone(ppid, pid, flags), a), Step(w, Clone(ppid, pid, flags), a, t.next);
            && o.Running? && pid in t'.of && ppid in t'.of && pid in o.state.tables.of && ppid in o.state.tables.of
            && ((o.state.tables.of[pid] == o.state.tables.of[ppid] <==> t'.of[pid] == t'.of[ppid]) <==>
                  ThreadSharesFiles(flags))
            && (t'.of[pid] == t'.of[ppid] ==> o.state.tables.of[pid] == o.state.tables.of[ppid])
  {
    HasTable(t, w, lo, ppid);
    FlagsOfThread(flags);
    hide SharesFiles, KernelSharesFiles, ThreadSharesFiles, ClonedKernel, TableMatches, Exclusive, OwnApart;
  }
}
