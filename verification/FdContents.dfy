/** What the records leave behind: which descriptor a slot holds, and which descriptors stay open.

    The simulation lets a slot fail and lets the kernel keep descriptors that no table holds. Here it is
    said when neither happens: a slot fails only if the kernel refused, and a descriptor that no table holds
    was dropped by one of three records.
  */
module FdContents {
  import opened Collections
  import opened Pools
  import opened Descriptors
  import opened FdSimulation
  import opened FdLaws

  // ----- what a record stores

  /** Only the table of the process changes, and the classes and counts of all processes stay. */
  ghost predicate OnlyTable<K>(w: Replay<K>, w': Replay<K>, pid: Pid) {
    && w.tables.Has(pid) && w'.tables.of == w.tables.of && w'.tables.live.Keys == w.tables.live.Keys
    && w'.own == w.own
    && (forall id :: id in w.tables.live ==> w'.tables.live[id].rc == w.tables.live[id].rc)
    && (forall id :: id in w.tables.live && id != w.tables.of[pid] ==> w'.tables.live[id] == w.tables.live[id])
  }

  /** A traced open that succeeded: the slot gets the descriptor that the kernel answered with, which is open
      as the copy of the new description, unless the kernel refused. */
  lemma OpenStores<K>(w: Replay<K>, pid: Pid, ret: int, flags: Flags, fd: int, next: nat)
    requires w.tables.Has(pid) && ret >= 0 && ret !in w.Table(pid)
    ensures var o := Step(w, Open(pid, ret, flags), FdAnswer(fd), next);
            && o.Running? && OnlyTable(w, o.state, pid)
            && o.state.Table(pid) == w.Table(pid)[ret := FdEntry(fd, flags)]
            && o.state.open == if fd >= 0 then w.open[fd := CopyOf(next)] else w.open
  {
  }

  /** A traced open that failed leaves the kernel as it was, also when the replay could open the file. */
  lemma FailedOpenStores<K>(w: Replay<K>, pid: Pid, flags: Flags, fd: int, next: nat)
    requires w.tables.Has(pid)
    ensures var o := Step(w, Open(pid, -1, flags), FdAnswer(fd), next);
            && o.Running? && OnlyTable(w, o.state, pid) && o.state.open == w.open
            && (fd != -1 ==> o.state == w)
            && forall k :: k != -1 ==>
                 (k in o.state.Table(pid) <==> k in w.Table(pid))
                 && (k in w.Table(pid) ==> o.state.Table(pid)[k] == w.Table(pid)[k])
  {
  }

  /** A socket that the traced process got: the slot is marked as simulated, and the kernel stays as it is. */
  lemma SocketStores<K>(w: Replay<K>, pid: Pid, ret: int, flags: Flags, a: Answer<K>, next: nat)
    requires w.tables.Has(pid) && ret >= 0 && ret !in w.Table(pid)
    ensures var o := Step(w, Socket(pid, ret, flags), a, next);
            && o.Running? && OnlyTable(w, o.state, pid) && o.state.open == w.open
            && o.state.Table(pid) == w.Table(pid)[ret := FdEntry(SIMULATED, flags)]
  {
  }

  /** All flags but close-on-exec are those of `g`. */
  predicate ClearedFrom(f: Flags, g: Flags) {
    !CloseOnExec(f) && f | O_CLOEXEC == g | O_CLOEXEC
  }

  lemma ClearsOneFlag(g: Flags)
    ensures ClearedFrom(ClearCloseOnExec(g), g)
  {
  }

  /** A dup that is not simulated: the new slot gets the descriptor that the kernel answered with, which refers
      to the description of the old one. */
  lemma DupStores<K>(w: Replay<K>, pid: Pid, traced: int, ret: int, fd: int, next: nat)
    requires w.tables.Has(pid) && traced in w.Table(pid) && w.Table(pid)[traced].fd != SIMULATED
    requires ret >= 0 && ret !in w.Table(pid)
    ensures var o, source := Step(w, Dup(pid, traced, ret), FdAnswer(fd), next), w.Table(pid)[traced];
            && o.Running? && OnlyTable(w, o.state, pid) && ret in o.state.Table(pid)
            && o.state.Table(pid) == w.Table(pid)[ret := FdEntry(fd, o.state.Table(pid)[ret].flags)]
            && ClearedFrom(o.state.Table(pid)[ret].flags, source.flags)
            && o.state.open == if fd >= 0 && source.fd in w.open then w.open[fd := w.open[source.fd]] else w.open
  {
    ClearsOneFlag(w.Table(pid)[traced].flags);
    hide ClearedFrom, ClearCloseOnExec;
  }

  /** The flags that dup2 and dup3 store: dup2 clears close-on-exec, and dup3 copies all. */
  lemma DupToFlags<K>(w: Replay<K>, pid: Pid, oldFd: int, newFd: int, dup3: bool)
    requires w.tables.Has(pid) && oldFd in w.Table(pid)
    ensures var r := DupToStep(w, pid, oldFd, newFd, dup3);
            && r.Running? && OnlyTable(w, r.state, pid) && newFd in r.state.Table(pid)
            && var (e, source) := (r.state.Table(pid)[newFd], w.Table(pid)[oldFd]);
               if dup3 then e.flags == source.flags else ClearedFrom(e.flags, source.flags)
  {
    DupToResult(w, pid, oldFd, newFd, dup3);
    ClearsOneFlag(w.Table(pid)[oldFd].flags);
    hide ClearedFrom, ClearCloseOnExec, DupToStep, DupToKernel, Target;
  }

  /** A clone that does not share: each slot of the copy holds the descriptor that its dup returned, which
      refers to the description of the parent's; a slot without a descriptor above 0 holds what the
      parent's holds. */
  lemma CloneStores<K>(w: Replay<K>, ppid: Pid, pid: Pid, a: Answer<K>)
    requires w.tables.Has(ppid) && AnswersClone(w, w.Table(ppid), a)
    ensures var o, t := CloneStep(w, ppid, pid, false, a), w.Table(ppid);
            && o.Running? && o.state.tables.Has(pid) && o.state.Table(pid).Keys == t.Keys
            && (forall k :: k in t ==> o.state.Table(pid)[k].flags == t[k].flags)
            && (forall k :: k in t && t[k].fd <= 0 ==> o.state.Table(pid)[k].fd == t[k].fd)
            && (forall k :: k in t && t[k].fd > 0 ==> k in a.fds && o.state.Table(pid)[k].fd == a.fds[k])
            && (forall k :: k in t && t[k].fd > 0 && a.fds[k] >= 0 ==>
                  t[k].fd in w.open && a.fds[k] in o.state.open && o.state.open[a.fds[k]] == w.open[t[k].fd])
  {
    var t := w.Table(ppid);
    forall k | k in t && t[k].fd > 0 && a.fds[k] >= 0
      ensures a.fds[k] in ClonedKernel(w.open, t, a.fds) && ClonedKernel(w.open, t, a.fds)[a.fds[k]] == w.open[t[k].fd]
    {
      assert MadeBy(t, a.fds, k, a.fds[k]);
      ClonedKernelMeaning(w.open, t, a.fds, k, a.fds[k]);
    }
    hide ClonedKernel;
  }

  /** The first test of the sweep asks for a successful execve and the second does not: a failed one takes the
      simulated descriptors with the flag, and only these. */
  lemma FailedExecveSweeps<K>(w: Replay<K>, pid: Pid, ret: int, a: Answer<K>, next: nat, k: int)
    requires w.tables.Has(pid) && ret < 0 && k in w.Table(pid)
    ensures var o, e := Step(w, Execve(pid, ret), a, next), w.Table(pid)[k];
            && o.Running? && o.state.tables.Has(pid)
            && (k !in o.state.Table(pid) <==> e.fd == SIMULATED && CloseOnExec(e.flags))
  {
  }

  // ----- the kernel grants what is asked

  /** No slot holds -1. */
  ghost predicate AllReplayed<K>(live: map<K, Counted<FdTable>>) {
    forall id, k :: id in live && k >= 0 ==> !Holds(live, id, k, FAILURE)
  }

  /** No call that the record makes in the replay was refused. */
  ghost predicate Granted<K>(w: Replay<K>, e: Event, a: Answer<K>)
    requires w.tables.Has(e.pid)
  {
    match e
    case Open(_, ret, _) => ret >= 0 ==> a.FdAnswer? && a.fd != FAILURE
    case Dup(_, _, _) => a.FdAnswer? && a.fd != FAILURE
    case Clone(_, _, flags) => SharesFiles(flags) || CopiesGranted(w.Table(e.pid), a)
    case VFork(_, _) => CopiesGranted(w.Table(e.pid), a)
    case _ => true
  }

  ghost predicate CopiesGranted<K>(t: FdTable, a: Answer<K>) {
    a.TableAnswer? && forall k :: k in t && t[k].fd > 0 ==> k in a.fds && a.fds[k] != FAILURE
  }

  lemma OneSlotReplayed<K>(w: Replay<K>, pid: Pid, body': FdTable, open': Kernel, key: int)
    requires w.tables.Has(pid) && AllReplayed(w.tables.live) && AgreeExcept(w.Table(pid), body', key)
    requires key >= 0 && key in body' ==> body'[key].fd != FAILURE
    ensures AllReplayed(w.With(pid, body', open').tables.live)
  {
    forall id, k | id in w.With(pid, body', open').tables.live && k >= 0
      ensures !Holds(w.With(pid, body', open').tables.live, id, k, FAILURE)
    {
      HoldsOneSlot(w, pid, body', open', key, id, k, FAILURE);
    }
  }

  /** Tables that only lose slots or processes. */
  lemma FewerReplayed<K>(live: map<K, Counted<FdTable>>, live': map<K, Counted<FdTable>>)
    requires AllReplayed(live)
    requires forall id, k, fd :: Holds(live', id, k, fd) ==> Holds(live, id, k, fd)
    ensures AllReplayed(live')
  {
    forall id, k | id in live' && k >= 0
      ensures !Holds(live', id, k, FAILURE)
    {
      assert Holds(live', id, k, FAILURE) ==> id in live && Holds(live, id, k, FAILURE);
    }
  }

  lemma DupToReplayed<K>(t: Traced<K>, w: Replay<K>, lo: nat, pid: Pid, oldFd: int, newFd: int, dup3: bool)
    requires Simulates(t, w, lo) && t.Has(pid) && newFd >= 0 && oldFd in t.Table(pid) && (dup3 ==> oldFd != newFd)
    requires w.tables.Has(pid) && oldFd in w.Table(pid) && Claimed(w.Table(pid)[oldFd], lo)
    requires AllReplayed(w.tables.live)
    ensures var r := DupToStep(w, pid, oldFd, newFd, dup3); r.Running? && AllReplayed(r.state.tables.live)
  {
    HasTable(t, w, lo, pid);
    var id, body := w.tables.of[pid], w.Table(pid);
    assert oldFd >= 0 && SlotMatches(t.Table(pid)[oldFd], body[oldFd], w.open, lo, t.next);
    assert !Holds(w.tables.live, id, oldFd, FAILURE);
    if newFd in body {
      assert newFd in t.Table(pid) && SlotMatches(t.Table(pid)[newFd], body[newFd], w.open, lo, t.next);
      assert !Holds(w.tables.live, id, newFd, FAILURE);
    }
    DupToDenotes(t, w, lo, pid, oldFd, newFd, dup3);
    DupToResult(w, pid, oldFd, newFd, dup3);
    var (open', ret) := DupToKernel(w, body[oldFd].fd, Target(w, pid, newFd), dup3);
    var flags := if dup3 then body[oldFd].flags else ClearCloseOnExec(body[oldFd].flags);
    hide Simulates, TableMatches, DupToStep, Target, AllReplayed, Holds, DupToKernel, SlotMatches;
    OneSlotReplayed(w, pid, body[newFd := FdEntry(ret, flags)], open', newFd);
  }

  lemma CopyReplayed<K>(w: Replay<K>, ppid: Pid, pid: Pid, a: Answer<K>)
    requires w.tables.Has(ppid) && AnswersClone(w, w.Table(ppid), a) && CopiesGranted(w.Table(ppid), a)
    requires AllReplayed(w.tables.live)
    ensures var o := CloneStep(w, ppid, pid, false, a); o.Running? && AllReplayed(o.state.tables.live)
  {
    var t, copy := w.Table(ppid), ClonedTable(w.Table(ppid), a.fds);
    forall id, k | k >= 0
      ensures !Holds(w.tables.Create(pid, a.id, copy).live, id, k, FAILURE)
    {
      HoldsAfterClone(w, pid, a.id, copy, id, k, FAILURE);
      assert k in t ==> Holds(w.tables.live, w.tables.of[ppid], k, t[k].fd);
      assert id in w.tables.live ==> !Holds(w.tables.live, id, k, FAILURE);
      assert w.tables.of[ppid] in w.tables.live && !Holds(w.tables.live, w.tables.of[ppid], k, FAILURE);
    }
    hide ClonedKernel, ClonedTable, Holds;
  }

  lemma SweepReplayed<K>(w: Replay<K>, pid: Pid, ret: int)
    requires w.tables.Has(pid) && AllReplayed(w.tables.live)
    ensures AllReplayed(w.With(pid, Sweep(w.Table(pid), ret), w.open).tables.live)
  {
    hide AllReplayed, SweptAway;
    FewerReplayed(w.tables.live, w.With(pid, Sweep(w.Table(pid), ret), w.open).tables.live);
  }

  lemma ExitReplayed<K>(w: Replay<K>, pid: Pid)
    requires w.tables.Has(pid) && w.tables.live[w.tables.of[pid]].rc > 0 && AllReplayed(w.tables.live)
    ensures AllReplayed(w.tables.Release(pid).live)
  {
    hide AllReplayed;
    FewerReplayed(w.tables.live, w.tables.Release(pid).live);
  }

  /** One record. */
  lemma StepStaysReplayed<K>(t: Traced<K>, w: Replay<K>, e: Event, a: Answer<K>, lo: nat)
    requires Simulates(t, w, lo) && WellFormed(t, e) && KernelAnswers(w, e, a) && Covered(w, e, lo)
    requires w.tables.Has(e.pid) && Granted(w, e, a) && AllReplayed(w.tables.live)
    ensures var o := Step(w, e, a, t.next); o.Running? ==> AllReplayed(o.state.tables.live)
  {
    HasTable(t, w, lo, e.pid);
    var body := w.Table(e.pid);
    hide Simulates, TableMatches, AllReplayed, DupToStep, CloneStep, ClearCloseOnExec;
    match e
    case Open(pid, ret, flags) =>
      OneSlotReplayed(w, pid, AddEntry(body, ret, a.fd, flags), Bind(w.open, a.fd, CopyOf(t.next)), ret);
    case Socket(pid, ret, flags) => OneSlotReplayed(w, pid, AddEntry(body, ret, SIMULATED, flags), w.open, ret);
    case Close(pid, k) => OneSlotReplayed(w, pid, body - {k}, Step(w, e, a, t.next).state.open, k);
    case Dup(pid, k, ret) =>
      var flags := ClearCloseOnExec(body[k].flags);
      OneSlotReplayed(w, pid, AddEntry(body, ret, a.fd, flags), DupInKernel(w.open, body[k].fd, a.fd), ret);
    case Dup2(pid, oldFd, newFd) => DupToReplayed(t, w, lo, pid, oldFd, newFd, false);
    case Dup3(pid, oldFd, newFd, _) => DupToReplayed(t, w, lo, pid, oldFd, newFd, true);
    case Clone(pid, child, flags) => CloneReplayed(w, pid, child, SharesFiles(flags), a);
    case VFork(pid, child) => CloneReplayed(w, pid, child, false, a);
    case Execve(pid, ret) => SweepReplayed(w, pid, ret);
    case Exit(pid) => ExitReplayed(w, pid);
    case Umask(_, _) =>
  }

  lemma CloneReplayed<K>(w: Replay<K>, ppid: Pid, pid: Pid, shared: bool, a: Answer<K>)
    requires w.tables.Has(ppid) && AllReplayed(w.tables.live)
    requires shared || (AnswersClone(w, w.Table(ppid), a) && CopiesGranted(w.Table(ppid), a))
    ensures var o := CloneStep(w, ppid, pid, shared, a); o.Running? ==> AllReplayed(o.state.tables.live)
  {
    if shared {
      hide AllReplayed;
      FewerReplayed(w.tables.live, w.tables.Share(ppid, pid).live);
    } else {
      CopyReplayed(w, ppid, pid, a);
    }
  }

  /** The kernel refuses nothing in the whole run. */
  ghost predicate GrantedRun<K>(t: Traced<K>, w: Replay<K>, calls: seq<Call<K>>)
    decreases |calls|
  {
    calls != [] && t.Has(calls[0].event.pid) && w.tables.Has(calls[0].event.pid) ==>
      var Call(e, a) := calls[0];
      && Granted(w, e, a)
      && var o := Step(w, e, a, t.next);
         o.Running? ==> GrantedRun(TracedStep(t, e, a), o.state, calls[1..])
  }

  lemma {:induction false} RunStaysReplayed<K>(t: Traced<K>, w: Replay<K>, calls: seq<Call<K>>, lo: nat)
    requires Simulates(t, w, lo) && GoodRun(t, w, calls, lo) && GrantedRun(t, w, calls) && AllReplayed(w.tables.live)
    ensures var o := Replayed(t, w, calls); o.Running? && AllReplayed(o.state.tables.live)
    decreases |calls|
  {
    if calls != [] {
      var Call(e, a) := calls[0];
      HasTable(t, w, lo, e.pid);
      StepKeeps(t, w, e, a, lo);
      StepStaysReplayed(t, w, e, a, lo);
      hide Simulates, Step, TracedStep, AllReplayed;
      RunStaysReplayed(TracedStep(t, e, a), Step(w, e, a, t.next).state, calls[1..], lo);
    }
  }

  /** Over any run that begins in a state without failed slots, the start among them, and in which the kernel
      grants what is asked: every slot of every process that is no socket holds a descriptor, and every
      claimed one is open as the copy of what the traced slot refers to. */
  lemma EverySlotNamesItsFile<K>(t: Traced<K>, w: Replay<K>, calls: seq<Call<K>>, lo: nat, p: Pid, k: int)
    requires Simulates(t, w, lo) && GoodRun(t, w, calls, lo) && GrantedRun(t, w, calls) && AllReplayed(w.tables.live)
    requires TracedRun(t, calls).Has(p) && k in TracedRun(t, calls).Table(p)
    ensures var o, s := Replayed(t, w, calls), TracedRun(t, calls).Table(p)[k];
            && o.Running? && o.state.tables.Has(p) && k in o.state.Table(p)
            && var fd := o.state.Table(p)[k].fd;
               && (s.socket ==> fd == SIMULATED)
               && (!s.socket ==> fd >= 0)
               && (!s.socket && fd >= lo ==> fd in o.state.open && o.state.open[fd] == CopyOf(s.description))
  {
    RunSimulates(t, w, calls, lo);
    RunStaysReplayed(t, w, calls, lo);
    var t', w' := TracedRun(t, calls), Replayed(t, w, calls).state;
    hide TracedRun, Replayed, GoodRun, GrantedRun;
    HasTable(t', w', lo, p);
    assert SlotMatches(t'.Table(p)[k], w'.Table(p)[k], w'.open, lo, t'.next);
    assert Holds(w'.tables.live, w'.tables.of[p], k, w'.Table(p)[k].fd);
    assert !Holds(w'.tables.live, w'.tables.of[p], k, FAILURE);
    hide Simulates;
  }

  lemma StartReplayed<K>(pid: Pid, id: K, own: set<int>)
    ensures AllReplayed(StartReplay(pid, id, own).tables.live)
  {
    StartHolds(pid, id, own);
    hide Holds;
  }

  /** From the start. */
  lemma EverySlotFromTheStart<K>(pid: Pid, id: K, own: set<int>, calls: seq<Call<K>>, p: Pid, k: int)
    requires forall fd :: fd in own ==> fd > STDERR
    requires GoodRun(StartTraced(pid, id), StartReplay(pid, id, own), calls, 1)
    requires GrantedRun(StartTraced(pid, id), StartReplay(pid, id, own), calls)
    requires TracedRun(StartTraced(pid, id), calls).Has(p) && k in TracedRun(StartTraced(pid, id), calls).Table(p)
    ensures var o, s := Replayed(StartTraced(pid, id), StartReplay(pid, id, own), calls),
                        TracedRun(StartTraced(pid, id), calls).Table(p)[k];
            && o.Running? && o.state.tables.Has(p) && k in o.state.Table(p)
            && var fd := o.state.Table(p)[k].fd;
               if s.socket then fd == SIMULATED
               else fd >= 0 && (fd > 0 ==> fd in o.state.open && o.state.open[fd] == CopyOf(s.description))
  {
    StartSimulates(pid, id, own, 1);
    StartReplayed(pid, id, own);
    hide GoodRun, GrantedRun, TracedRun, Replayed, StartTraced, StartReplay, Simulates, AllReplayed;
    EverySlotNamesItsFile(StartTraced(pid, id), StartReplay(pid, id, own), calls, 1, p, k);
  }

  // ----- what is closed

  /** An exit: if the process is the last one of its table, exactly the descriptors in that table leave the
      kernel, and the table is gone; otherwise the kernel stays as it is. */
  lemma ExitCloses<K>(w: Replay<K>, pid: Pid, a: Answer<K>, next: nat)
    requires w.tables.Accurate() && pid in w.tables.of
    ensures w.tables.Has(pid)
    ensures var o, id, t := Step(w, Exit(pid), a, next), w.tables.of[pid], w.Table(pid);
            && o.Running? && pid !in o.state.tables.of && o.state.own == w.own
            && (forall fd :: fd in o.state.open ==> fd in w.open && o.state.open[fd] == w.open[fd])
            && if w.tables.Sharers(id) == {pid} then
                 && id !in o.state.tables.live
                 && forall fd :: fd in w.open ==> (fd !in o.state.open <==> exists k :: k in t && t[k].fd == fd)
               else o.state.open == w.open && id in o.state.tables.live && o.state.tables.live[id].body == t
  {
    SafeHas(w.tables, pid);
    var id := w.tables.of[pid];
    assert pid in w.tables.Sharers(id);
    LastSharer(w.tables, id, pid);
    hide Pool.Accurate, Pool.Sharers;
    forall fd
      ensures fd in ReplayedFds(w.Table(pid)) <==> exists k :: k in w.Table(pid) && w.Table(pid)[k].fd == fd
    {
    }
    hide ReplayedFds;
  }

  // ----- what stays open

  /** Some slot of a live table holds the descriptor. */
  ghost predicate Held<K>(live: map<K, Counted<FdTable>>, fd: int) {
    exists id, k :: id in live && Holds(live, id, k, fd)
  }

  /** The descriptors whose slots a record takes or replaces without closing them: a successful execve takes
      those with close-on-exec, and dup2 and dup3 take the one in the new slot although the old descriptor is
      simulated or not open. */
  ghost function Dropped<K>(w: Replay<K>, e: Event): set<int> {
    if !w.tables.Has(e.pid) then {}
    else
      var t := w.Table(e.pid);
      match e
      case Execve(_, ret) => set k | k in t && ret >= 0 && CloseOnExec(t[k].flags) :: t[k].fd
      case Dup2(_, oldFd, newFd) =>
        if newFd in t && oldFd in t && (t[oldFd].fd == SIMULATED || t[oldFd].fd !in w.open) then {t[newFd].fd} else {}
      case Dup3(_, oldFd, newFd, _) =>
        if newFd in t && oldFd in t && (t[oldFd].fd == SIMULATED || t[oldFd].fd !in w.open) then {t[newFd].fd} else {}
      case _ => {}
  }

  /** New slots are for new numbers, as the traced kernel chose them. */
  predicate NewNumbers(e: Event) {
    (e.Dup? ==> e.ret >= 0) && (e.Dup3? ==> e.oldFd != e.newFd)
  }

  lemma StillHeld<K>(w: Replay<K>, pid: Pid, body': FdTable, open': Kernel, fd: int)
    requires w.tables.Has(pid) && Held(w.tables.live, fd)
    requires forall k :: k in w.Table(pid) && w.Table(pid)[k].fd == fd ==>
               exists j :: j in body' && body'[j].fd == fd
    ensures Held(w.With(pid, body', open').tables.live, fd)
  {
    var id, k :| id in w.tables.live && Holds(w.tables.live, id, k, fd);
    var live' := w.With(pid, body', open').tables.live;
    if id == w.tables.of[pid] {
      assert k in w.Table(pid) && w.Table(pid)[k].fd == fd;
      var j :| j in body' && body'[j].fd == fd;
      assert Holds(live', id, j, fd);
    } else {
      assert Holds(live', id, k, fd);
    }
  }

  lemma NowHeld<K>(w: Replay<K>, pid: Pid, body': FdTable, open': Kernel, k: int)
    requires w.tables.Has(pid) && k in body'
    ensures Held(w.With(pid, body', open').tables.live, body'[k].fd)
  {
    assert Holds(w.With(pid, body', open').tables.live, w.tables.of[pid], k, body'[k].fd);
  }

  /** A slot is added, for a number that was not in use or for -1. */
  lemma AddedHeld<K>(w: Replay<K>, pid: Pid, ret: int, e: FdEntry, open': Kernel, fd: int)
    requires w.tables.Has(pid) && MayAdd(w.Table(pid), ret) && fd in open'
    requires fd in w.open ==> Held(w.tables.live, fd)
    requires fd in open' && fd !in w.open ==> fd == e.fd && (ret != -1 || ret !in w.Table(pid))
    ensures Held(w.With(pid, AddEntry(w.Table(pid), ret, e.fd, e.flags), open').tables.live, fd)
  {
    hide Held;
    var t, body' := w.Table(pid), AddEntry(w.Table(pid), ret, e.fd, e.flags);
    if fd in w.open {
      if ret == -1 || ret !in t {
        forall k | k in t && t[k].fd == fd
          ensures exists j :: j in body' && body'[j].fd == fd
        {
          assert body'[k] == t[k];
        }
      }
      StillHeld(w, pid, body', open', fd);
    } else {
      NowHeld(w, pid, body', open', ret);
    }
  }

  lemma DupToHeld<K>(w: Replay<K>, e: Event, fd: int)
    requires (e.Dup2? || e.Dup3?) && w.tables.Has(e.pid) && e.oldFd in w.Table(e.pid) && NewNumbers(e)
    requires fd >= 0 && fd !in Dropped(w, e)
    ensures var r := DupToStep(w, e.pid, e.oldFd, e.newFd, e.Dup3?);
            && r.Running?
            && ((fd in w.open ==> Held(w.tables.live, fd)) && fd in r.state.open ==> Held(r.state.tables.live, fd))
  {
    var (pid, oldFd, newFd) := (e.pid, e.oldFd, e.newFd);
    var t, target := w.Table(pid), Target(w, pid, newFd);
    DupToResult(w, pid, oldFd, newFd, e.Dup3?);
    assert newFd in t && t[newFd].fd != SIMULATED ==> target == t[newFd].fd;
    assert !(newFd in t && t[newFd].fd != SIMULATED) ==> target >= 0;
    hide Target, DupToStep, Held;
    var (open', ret) := DupToKernel(w, t[oldFd].fd, target, e.Dup3?);
    var flags := if e.Dup3? then t[oldFd].flags else ClearCloseOnExec(t[oldFd].flags);
    hide ClearCloseOnExec;
    var body' := t[newFd := FdEntry(ret, flags)];
    if (fd in w.open ==> Held(w.tables.live, fd)) && fd in open' {
      if ret == fd {
        NowHeld(w, pid, body', open', newFd);
      } else {
        assert fd in w.open;
        forall k | k in t && t[k].fd == fd
          ensures exists j :: j in body' && body'[j].fd == fd
        {
          if k != newFd {
            assert body'[k].fd == fd;
          } else {
            assert oldFd != newFd && body'[oldFd].fd == fd;
          }
        }
        StillHeld(w, pid, body', open', fd);
      }
    }
  }

  /** Fewer slots of the table. */
  lemma RemovedHeld<K>(w: Replay<K>, pid: Pid, body': FdTable, open': Kernel, fd: int)
    requires w.tables.Has(pid) && Held(w.tables.live, fd)
    requires forall k :: k in w.Table(pid) && w.Table(pid)[k].fd == fd ==> k in body' && body'[k].fd == fd
    ensures Held(w.With(pid, body', open').tables.live, fd)
  {
    hide Held;
    StillHeld(w, pid, body', open', fd);
  }

  lemma ExitHeld<K>(w: Replay<K>, pid: Pid, fd: int)
    requires w.tables.Has(pid) && w.tables.live[w.tables.of[pid]].rc > 0 && Held(w.tables.live, fd)
    requires fd !in FdsToClose(w, pid)
    ensures Held(w.tables.Release(pid).live, fd)
  {
    var id, k :| id in w.tables.live && Holds(w.tables.live, id, k, fd);
    assert Holds(w.tables.Release(pid).live, id, k, fd);
  }

  lemma CloneHeld<K>(w: Replay<K>, ppid: Pid, pid: Pid, shared: bool, a: Answer<K>, fd: int)
    requires w.tables.Has(ppid) && (a.TableAnswer? ==> a.id !in w.tables.live)
    requires fd in w.open ==> Held(w.tables.live, fd)
    ensures var o := CloneStep(w, ppid, pid, shared, a);
            o.Running? && fd in o.state.open ==> Held(o.state.tables.live, fd)
  {
    var o, t := CloneStep(w, ppid, pid, shared, a), w.Table(ppid);
    if o.Running? && fd in o.state.open {
      if fd in w.open {
        var id, k :| id in w.tables.live && Holds(w.tables.live, id, k, fd);
        assert Holds(o.state.tables.live, id, k, fd);
      } else {
        var k :| k in t && MadeBy(t, a.fds, k, Copied(t, a.fds, k)) && Copied(t, a.fds, k) == fd;
        assert Holds(o.state.tables.live, a.id, k, fd);
      }
    }
  }

  /** After a record, a descriptor that is open is in a slot, if it was in one or was not open, unless the
      record dropped it. */
  lemma StaysHeld<K>(w: Replay<K>, e: Event, a: Answer<K>, next: nat, fd: int)
    requires FreshNames(w, e, a) && NewNumbers(e) && fd >= 0 && fd !in Dropped(w, e)
    requires fd in w.open ==> Held(w.tables.live, fd)
    ensures var o := Step(w, e, a, next); o.Running? && fd in o.state.open ==> Held(o.state.tables.live, fd)
  {
    var o := Step(w, e, a, next);
    if o.Running? && fd in o.state.open && w.tables.Has(e.pid) {
      var t := w.Table(e.pid);
      hide Held, DupToStep, CloneStep, ClearCloseOnExec;
      match e
      case Open(pid, ret, flags) =>
        var answer := if a.FdAnswer? then a.fd else FAILURE;
        if o.state != w {
          AddedHeld(w, pid, ret, FdEntry(answer, flags), o.state.open, fd);
        }
      case Socket(pid, ret, flags) =>
        if o.state != w {
          AddedHeld(w, pid, ret, FdEntry(SIMULATED, flags), o.state.open, fd);
        }
      case Close(pid, k) => RemovedHeld(w, pid, t - {k}, o.state.open, fd);
      case Dup(pid, k, ret) => DupHeld(w, pid, k, ret, if a.FdAnswer? then a.fd else FAILURE, fd);
      case Dup2(_, _, _) => DupToHeld(w, e, fd);
      case Dup3(_, _, _, _) => DupToHeld(w, e, fd);
      case Clone(pid, child, flags) => CloneHeld(w, pid, child, SharesFiles(flags), a, fd);
      case VFork(pid, child) => CloneHeld(w, pid, child, false, a, fd);
      case Execve(pid, ret) => RemovedHeld(w, pid, Sweep(t, ret), w.open, fd);
      case Exit(pid) => ExitHeld(w, pid, fd);
      case Umask(_, _) =>
    }
  }

  lemma DupHeld<K>(w: Replay<K>, pid: Pid, traced: int, ret: int, answer: int, fd: int)
    requires w.tables.Has(pid) && ret >= 0 && fd >= 0 && (fd in w.open ==> Held(w.tables.live, fd))
    ensures var o := DupStep(w, pid, traced, ret, answer);
            o.Running? && fd in o.state.open ==> Held(o.state.tables.live, fd)
  {
    hide Held, ClearCloseOnExec;
    var o, t := DupStep(w, pid, traced, ret, answer), w.Table(pid);
    if o.Running? && fd in o.state.open {
      var flags := ClearCloseOnExec(t[traced].flags);
      var e := if t[traced].fd == SIMULATED then FdEntry(ret, flags) else FdEntry(answer, flags);
      AddedHeld(w, pid, ret, e, o.state.open, fd);
    }
  }

  /** Every open descriptor is the replayer's own, in a slot of a live table, or lost. */
  ghost predicate Accounted<K>(w: Replay<K>, lost: set<int>) {
    forall fd :: fd in w.open && fd >= 0 && fd !in w.own && fd !in lost ==> Held(w.tables.live, fd)
  }

  lemma StepAccounts<K>(w: Replay<K>, e: Event, a: Answer<K>, next: nat, lost: set<int>)
    requires FreshNames(w, e, a) && NewNumbers(e) && Accounted(w, lost) && Step(w, e, a, next).Running?
    ensures Accounted(Step(w, e, a, next).state, lost + Dropped(w, e))
  {
    var w' := Step(w, e, a, next).state;
    StepKeepsOwn(w, e, a, next);
    hide Step, Held, Dropped, FreshNames;
    forall fd | fd in w'.open && fd >= 0 && fd !in w'.own && fd !in lost + Dropped(w, e)
      ensures Held(w'.tables.live, fd)
    {
      StaysHeld(w, e, a, next, fd);
    }
  }

  lemma StepKeepsOwn<K>(w: Replay<K>, e: Event, a: Answer<K>, next: nat)
    requires Step(w, e, a, next).Running?
    ensures Step(w, e, a, next).state.own == w.own
  {
    hide ClonedKernel, Target, ClearCloseOnExec;
  }

  /** What the records of a run drop. */
  ghost function Lost<K>(t: Traced<K>, w: Replay<K>, calls: seq<Call<K>>): set<int>
    decreases |calls|
  {
    if calls == [] || !t.Has(calls[0].event.pid) then {}
    else
      var Call(e, a) := calls[0];
      var o := Step(w, e, a, t.next);
      Dropped(w, e) + if o.Running? then Lost(TracedStep(t, e, a), o.state, calls[1..]) else {}
  }

  /** Over any run that a traced kernel can have produced, whatever the replay makes of it: every descriptor
      that is open at the end is the replayer's own, is in a slot of a live table, or was dropped by an
      execve, or by a dup2 or dup3 of a simulated or failed descriptor. Every close that a record owes is
      made: of close, of exit, and of an open that only the replay made. */
  lemma {:induction false} RunAccounts<K>(t: Traced<K>, w: Replay<K>, calls: seq<Call<K>>, lost: set<int>)
    requires Possible(t, calls) && FreshRun(t, w, calls) && Accounted(w, lost)
    ensures var o := Replayed(t, w, calls); o.Running? ==> Accounted(o.state, lost + Lost(t, w, calls))
    decreases |calls|
  {
    if calls == [] {
      assert lost + {} == lost;
    } else {
      var Call(e, a) := calls[0];
      var o := Step(w, e, a, t.next);
      if o.Running? {
        WellFormedNumbers(t, e);
        StepAccounts(w, e, a, t.next, lost);
        hide Step, TracedStep, WellFormed, FreshNames, Accounted, Dropped;
        RunAccounts(TracedStep(t, e, a), o.state, calls[1..], lost + Dropped(w, e));
        assert lost + Dropped(w, e) + Lost(TracedStep(t, e, a), o.state, calls[1..]) == lost + Lost(t, w, calls);
      }
    }
  }

  lemma WellFormedNumbers<K>(t: Traced<K>, e: Event)
    requires WellFormed(t, e)
    ensures t.Has(e.pid) && NewNumbers(e)
  {
  }

  lemma StartAccounted<K>(pid: Pid, id: K, own: set<int>)
    requires forall fd :: fd in own ==> fd > STDERR
    ensures Accounted(StartReplay(pid, id, own), {})
  {
    var w := StartReplay(pid, id, own);
    forall fd | fd in w.open && fd !in w.own
      ensures Held(w.tables.live, fd)
    {
      assert Holds(w.tables.live, id, fd, fd);
    }
  }

  /** What a record drops is lost: the descriptor stays open, and no slot holds it any more. */
  lemma DroppedIsLost<K>(t: Traced<K>, w: Replay<K>, e: Event, a: Answer<K>, lo: nat, fd: int)
    requires Simulates(t, w, lo) && WellFormed(t, e) && fd in Dropped(w, e) && fd in w.open && fd >= lo
    ensures var o := Step(w, e, a, t.next);
            o.Running? && fd in o.state.open && o.state.open[fd] == w.open[fd] && !Held(o.state.tables.live, fd)
  {
    HasTable(t, w, lo, e.pid);
    if e.Execve? {
      var k :| k in w.Table(e.pid) && CloseOnExec(w.Table(e.pid)[k].flags) && w.Table(e.pid)[k].fd == fd;
      ExecveLeaks(t, w, lo, e.pid, e.ret, k);
    } else {
      DupToLoses(t, w, e, lo, fd);
    }
  }

  lemma DupToLoses<K>(t: Traced<K>, w: Replay<K>, e: Event, lo: nat, fd: int)
    requires (e.Dup2? || e.Dup3?) && Simulates(t, w, lo) && WellFormed(t, e)
    requires fd in Dropped(w, e) && fd in w.open && fd >= lo
    ensures w.tables.Has(e.pid)
    ensures var r := DupToStep(w, e.pid, e.oldFd, e.newFd, e.Dup3?);
            r.Running? && r.state.open == w.open && !Held(r.state.tables.live, fd)
  {
    HasTable(t, w, lo, e.pid);
    var (pid, oldFd, newFd) := (e.pid, e.oldFd, e.newFd);
    var t0, target, id := w.Table(pid), Target(w, pid, newFd), w.tables.of[pid];
    DupToResult(w, pid, oldFd, newFd, e.Dup3?);
    var (open', ret) := DupToKernel(w, t0[oldFd].fd, target, e.Dup3?);
    var flags := if e.Dup3? then t0[oldFd].flags else ClearCloseOnExec(t0[oldFd].flags);
    assert open' == w.open && ret < 0;
    assert Holds(w.tables.live, id, newFd, fd);
    hide Target, DupToStep, DupToKernel, ClearCloseOnExec, Dropped, WellFormed, TableMatches;
    var live' := w.With(pid, t0[newFd := FdEntry(ret, flags)], open').tables.live;
    forall i, k
      ensures !Holds(live', i, k, fd)
    {
      HoldsOneSlot(w, pid, t0[newFd := FdEntry(ret, flags)], open', newFd, i, k, fd);
    }
  }
}
