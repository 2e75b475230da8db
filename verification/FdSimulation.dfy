/** The descriptor tables of the replay simulate those of the traced processes, over whole runs.

    `lo` is the least replayed descriptor about which a claim is made. Runs in which no unshared clone
    copies a table that holds descriptor 0 satisfy the claims with `lo == 0`; all others with `lo == 1`.
  */
module FdSimulation {
  import opened Collections
  import opened Pools
  import opened Descriptors

  // ----- the invariant

  /** Slot `traced` of table `id` holds the replayed descriptor `fd`. */
  ghost predicate Holds<K>(live: map<K, Counted<FdTable>>, id: K, traced: int, fd: int) {
    id in live && traced in live[id].body && live[id].body[traced].fd == fd
  }

  /** A slot of a traced table and the entry that replays it. */
  ghost predicate SlotMatches(s: Slot, e: FdEntry, open: Kernel, lo: nat, next: nat) {
    && s.description < next
    && s.closeOnExec == CloseOnExec(e.flags)
    && (s.socket <==> e.fd == SIMULATED)
    && (e.fd == FAILURE || e.fd == SIMULATED || e.fd >= 0)
    && (e.fd >= lo ==> e.fd in open && open[e.fd] == CopyOf(s.description))
  }

  ghost predicate TableMatches(st: SlotTable, t: FdTable, open: Kernel, lo: nat, next: nat) {
    && (forall k :: k in st ==> k >= 0)
    && (forall k :: k in t && k < 0 ==> t[k].fd < 0)
    && (forall k :: k >= 0 ==> (k in st <==> k in t))
    && (forall k :: k in st && k in t ==> SlotMatches(st[k], t[k], open, lo, next))
  }

  /** Each replayed descriptor from `lo` on is in at most one slot of one table. */
  ghost predicate Exclusive<K>(live: map<K, Counted<FdTable>>, lo: nat) {
    forall i, j, a, b, fd :: i in live && j in live && fd >= lo && Holds(live, i, a, fd) && Holds(live, j, b, fd) ==>
      i == j && a == b
  }

  /** The replayer's own descriptors stay open and are in no table. */
  ghost predicate OwnApart<K>(own: set<int>, live: map<K, Counted<FdTable>>, open: Kernel) {
    && (forall fd :: fd in own ==> fd >= 0 && fd in open && open[fd] == Own)
    && (forall id, traced, fd :: id in live && Holds(live, id, traced, fd) ==> fd !in own)
  }

  ghost predicate Simulates<K>(t: Traced<K>, w: Replay<K>, lo: nat) {
    && w.tables.Accurate() && t.of == w.tables.of
    && (forall id :: id in w.tables.live ==>
          id in t.tables && TableMatches(t.tables[id], w.tables.live[id].body, w.open, lo, t.next))
    && Exclusive(w.tables.live, lo)
    && OwnApart(w.own, w.tables.live, w.open)
    && (forall fd :: fd in w.open ==> fd >= 0)
  }

  /** No assertion failed, and the simulation goes on. */
  ghost predicate Continues<K>(t: Traced<K>, o: Outcome<K>, lo: nat) {
    o.Running? && Simulates(t, o.state, lo)
  }

  // ----- changing one slot of one table

  ghost predicate AgreeExcept<V>(a: map<int, V>, b: map<int, V>, key: int) {
    forall k :: k != key ==> (k in a <==> k in b) && (k in a && k in b ==> a[k] == b[k])
  }

  /** A kernel `open'` that leaves alone every descriptor of every slot but slot `key` of table `id`,
      and the replayer's own. */
  ghost predicate Spares<K>(w: Replay<K>, id: K, key: int, lo: nat, open': Kernel) {
    && (forall i, k, fd ::
          i in w.tables.live && Holds(w.tables.live, i, k, fd) && fd >= lo && !(i == id && k == key) ==>
          fd in open' && fd in w.open && open'[fd] == w.open[fd])
    && (forall fd :: fd in w.own ==> fd in open' && open'[fd] == Own)
    && (forall fd :: fd in open' ==> fd >= 0)
  }

  /** The entry for slot `key` is fit: its descriptor belongs to no other slot. */
  ghost predicate Fits<K>(w: Replay<K>, id: K, key: int, lo: nat, e: FdEntry) {
    && e.fd !in w.own
    && (e.fd >= lo ==> forall i, k :: i in w.tables.live && Holds(w.tables.live, i, k, e.fd) ==> i == id && k == key)
  }

  lemma MatchesOthers(st: SlotTable, t: FdTable, open: Kernel, open': Kernel, lo: nat, next: nat, next': nat)
    requires TableMatches(st, t, open, lo, next) && next <= next'
    requires forall k :: k in t && t[k].fd >= lo && t[k].fd in open ==>
        t[k].fd in open' && open'[t[k].fd] == open[t[k].fd]
    ensures TableMatches(st, t, open', lo, next')
  {
  }

  lemma MatchesOneSlot(st: SlotTable, st': SlotTable, t: FdTable, t': FdTable, open: Kernel, open': Kernel,
                       lo: nat, next: nat, next': nat, key: int)
    requires TableMatches(st, t, open, lo, next) && next <= next'
    requires AgreeExcept(st, st', key) && AgreeExcept(t, t', key)
    requires forall k :: k in t && k != key && t[k].fd >= lo && t[k].fd in open ==>
        t[k].fd in open' && open'[t[k].fd] == open[t[k].fd]
    requires key in st' <==> key in t' && key >= 0
    requires key in t' ==> if key < 0 then t'[key].fd < 0 else SlotMatches(st'[key], t'[key], open', lo, next')
    ensures TableMatches(st', t', open', lo, next')
  {
  }

  /** After the change every slot but slot `key` of table `id` holds what it held before. */
  lemma HoldsOneSlot<K>(w: Replay<K>, pid: Pid, body': FdTable, open': Kernel, key: int, i: K, k: int, fd: int)
    requires w.tables.Has(pid) && AgreeExcept(w.Table(pid), body', key)
    ensures var now := Holds(w.With(pid, body', open').tables.live, i, k, fd);
            if i == w.tables.of[pid] && k == key then now <==> key in body' && body'[key].fd == fd
            else now <==> Holds(w.tables.live, i, k, fd)
  {
  }

  lemma ExclusiveOneSlot<K>(w: Replay<K>, pid: Pid, body': FdTable, open': Kernel, key: int, lo: nat)
    requires w.tables.Has(pid) && AgreeExcept(w.Table(pid), body', key)
    requires Exclusive(w.tables.live, lo) && OwnApart(w.own, w.tables.live, w.open)
    requires key in body' ==> Fits(w, w.tables.of[pid], key, lo, body'[key])
    requires Spares(w, w.tables.of[pid], key, lo, open')
    ensures Exclusive(w.With(pid, body', open').tables.live, lo)
    ensures OwnApart(w.own, w.With(pid, body', open').tables.live, open')
  {
    forall i, k, fd
      ensures var now := Holds(w.With(pid, body', open').tables.live, i, k, fd);
              if i == w.tables.of[pid] && k == key then now <==> key in body' && body'[key].fd == fd
              else now <==> Holds(w.tables.live, i, k, fd)
    {
      HoldsOneSlot(w, pid, body', open', key, i, k, fd);
    }
    hide Holds;
  }

  lemma TablesOneSlot<K>(t: Traced<K>, w: Replay<K>, t': Traced<K>, pid: Pid, key: int,
                               st': SlotTable, body': FdTable, open': Kernel, lo: nat, i: K)
    requires Simulates(t, w, lo) && t.Has(pid) && w.tables.Has(pid) && i in w.tables.live
    requires t' == t.With(pid, st').(next := t'.next) && t.next <= t'.next
    requires AgreeExcept(t.Table(pid), st', key) && AgreeExcept(w.Table(pid), body', key)
    requires key in st' <==> key in body' && key >= 0
    requires key in body' ==>
        if key < 0 then body'[key].fd < 0 else SlotMatches(st'[key], body'[key], open', lo, t'.next)
    requires Spares(w, w.tables.of[pid], key, lo, open')
    ensures i in t'.tables
    ensures TableMatches(t'.tables[i], w.With(pid, body', open').tables.live[i].body, open', lo, t'.next)
  {
    var id, live := w.tables.of[pid], w.tables.live;
    assert TableMatches(t.tables[i], live[i].body, w.open, lo, t.next);
    forall k | k in live[i].body && !(i == id && k == key) && live[i].body[k].fd >= lo
      ensures live[i].body[k].fd in open' && live[i].body[k].fd in w.open
      ensures open'[live[i].body[k].fd] == w.open[live[i].body[k].fd]
    {
      assert Holds(live, i, k, live[i].body[k].fd);
    }
    if i == id {
      MatchesOneSlot(t.tables[i], st', live[i].body, body', w.open, open', lo, t.next, t'.next, key);
    } else {
      MatchesOthers(t.tables[i], live[i].body, w.open, open', lo, t.next, t'.next);
    }
  }

  lemma OneSlot<K>(t: Traced<K>, w: Replay<K>, t': Traced<K>, pid: Pid, key: int,
                         st': SlotTable, body': FdTable, open': Kernel, lo: nat)
    requires Simulates(t, w, lo) && t.Has(pid) && w.tables.Has(pid)
    requires t' == t.With(pid, st').(next := t'.next) && t.next <= t'.next
    requires AgreeExcept(t.Table(pid), st', key) && AgreeExcept(w.Table(pid), body', key)
    requires key in st' <==> key in body' && key >= 0
    requires key in body' ==>
        if key < 0 then body'[key].fd < 0 else SlotMatches(st'[key], body'[key], open', lo, t'.next)
    requires key in body' ==> Fits(w, w.tables.of[pid], key, lo, body'[key])
    requires Spares(w, w.tables.of[pid], key, lo, open')
    ensures Simulates(t', w.With(pid, body', open'), lo)
  {
    SetKeeps(w.tables, pid, body');
    ExclusiveOneSlot(w, pid, body', open', key, lo);
    forall i | i in w.tables.live
      ensures i in t'.tables
      ensures TableMatches(t'.tables[i], w.With(pid, body', open').tables.live[i].body, open', lo, t'.next)
    {
      TablesOneSlot(t, w, t', pid, key, st', body', open', lo, i);
    }
    hide Exclusive, OwnApart, TableMatches, Pool.Accurate;
  }

  /** A slot is set in the traced table and in its replay. */
  lemma PutSlot<K>(t: Traced<K>, w: Replay<K>, pid: Pid, key: int, s: Slot, e: FdEntry, open': Kernel, next': nat,
                   lo: nat)
    requires Simulates(t, w, lo) && t.Has(pid) && w.tables.Has(pid)
    requires key >= 0 && t.next <= next' && SlotMatches(s, e, open', lo, next')
    requires Fits(w, w.tables.of[pid], key, lo, e) && Spares(w, w.tables.of[pid], key, lo, open')
    ensures Simulates(t.With(pid, t.Table(pid)[key := s]).(next := next'),
                      w.With(pid, w.Table(pid)[key := e], open'), lo)
  {
    var t' := t.With(pid, t.Table(pid)[key := s]).(next := next');
    OneSlot(t, w, t', pid, key, t.Table(pid)[key := s], w.Table(pid)[key := e], open', lo);
  }

  // ----- facts about held descriptors

  lemma HeldIsOpen<K>(t: Traced<K>, w: Replay<K>, lo: nat, id: K, traced: int, fd: int)
    requires Simulates(t, w, lo) && Holds(w.tables.live, id, traced, fd)
    ensures fd !in w.own
    ensures fd >= lo ==> fd in w.open && traced >= 0
  {
  }

  /** A descriptor that was not open fits into any slot, and binding it spares all other slots. */
  lemma FreshFits<K>(t: Traced<K>, w: Replay<K>, lo: nat, id: K, key: int, fd: int, flags: Flags, d: Description)
    requires Simulates(t, w, lo) && Fresh(w.open, fd)
    ensures Fits(w, id, key, lo, FdEntry(fd, flags))
    ensures Spares(w, id, key, lo, Bind(w.open, fd, d))
    ensures Spares(w, id, key, lo, w.open)
  {
    forall i, k, held | Holds(w.tables.live, i, k, held) && held >= lo
      ensures held in w.open
    {
      HeldIsOpen(t, w, lo, i, k, held);
    }
  }

  /** So does a negative one. */
  lemma NegativeFits<K>(t: Traced<K>, w: Replay<K>, lo: nat, id: K, key: int, fd: int, flags: Flags)
    requires Simulates(t, w, lo) && fd < 0
    ensures Fits(w, id, key, lo, FdEntry(fd, flags)) && Spares(w, id, key, lo, w.open)
  {
  }

  /** A descriptor that only slot `key` of table `id` may hold is free to be closed or rebound. */
  lemma OwnSlotSpares<K>(t: Traced<K>, w: Replay<K>, lo: nat, id: K, key: int, fd: int, d: Description)
    requires Simulates(t, w, lo) && fd !in w.own
    requires fd >= lo ==> forall i, k :: Holds(w.tables.live, i, k, fd) ==> i == id && k == key
    ensures Spares(w, id, key, lo, w.open - {fd})
    ensures fd >= 0 ==> Spares(w, id, key, lo, w.open[fd := d])
  {
    forall i, k, held | Holds(w.tables.live, i, k, held) && held >= lo
      ensures held in w.open
    {
      HeldIsOpen(t, w, lo, i, k, held);
    }
  }

  // ----- the steps

  /** The records the simulation covers: no dup of a simulated descriptor; no duplicate of a descriptor
      below `lo`; no unshared clone of a table that holds 0 when `lo` is 0; no clone of a thread that does
      not ask for the files; and where the stored
      close-on-exec flag does not follow the kernel (dup2 onto itself, dup3, a failed execve), only
      records for which it makes no difference. */
  ghost predicate Covered<K>(w: Replay<K>, e: Event, lo: nat) {
    w.tables.Has(e.pid) ==>
      var t := w.Table(e.pid);
      match e
      case Dup(_, fd, _) => fd in t ==> t[fd].fd != SIMULATED && Claimed(t[fd], lo)
      case Dup2(_, oldFd, newFd) =>
        oldFd in t ==>
          Claimed(t[oldFd], lo) && (oldFd == newFd ==> !CloseOnExec(t[oldFd].flags))
      case Dup3(_, oldFd, _, flags) =>
        oldFd in t ==>
          Claimed(t[oldFd], lo) && (CloseOnExec(flags) <==> CloseOnExec(t[oldFd].flags))
      case Clone(_, _, flags) => ThreadSharesFiles(flags) && (SharesFiles(flags) || CloneCovered(t, lo))
      case VFork(_, _) => CloneCovered(t, lo)
      case Execve(_, ret) => ret < 0 ==> forall k :: k in t && k >= 0 ==> !SweptAway(t[k], ret)
      case _ => true
  }

  predicate Claimed(e: FdEntry, lo: nat) {
    e.fd < 0 || e.fd >= lo
  }

  ghost predicate CloneCovered(t: FdTable, lo: nat) {
    lo <= 1 && (lo == 0 ==> forall k :: k in t ==> t[k].fd != 0)
  }

  lemma HasTable<K>(t: Traced<K>, w: Replay<K>, lo: nat, pid: Pid)
    requires Simulates(t, w, lo) && pid in t.of
    ensures w.tables.Has(pid) && t.Has(pid) && w.tables.live[w.tables.of[pid]].rc > 0
    ensures TableMatches(t.Table(pid), w.Table(pid), w.open, lo, t.next)
    ensures forall k :: k in w.Table(pid) ==> Holds(w.tables.live, w.tables.of[pid], k, w.Table(pid)[k].fd)
  {
  }

  lemma OpenKeeps<K>(t: Traced<K>, w: Replay<K>, e: Event, a: Answer<K>, lo: nat)
    requires e.Open? && Simulates(t, w, lo) && WellFormed(t, e) && KernelAnswers(w, e, a)
    ensures Continues(TracedStep(t, e, a), Step(w, e, a, t.next), lo)
  {
    var Open(pid, ret, flags) := e;
    HasTable(t, w, lo, pid);
    hide Simulates;
    if ret >= 0 {
      NewSlotKeeps(t, w, pid, ret, flags, a.fd, lo);
    } else if a.fd == FAILURE {
      FailedOpenKeeps(t, w, pid, flags, lo);
    }
  }

  /** A new traced description and, if the replay opened the file too, its copy. */
  lemma NewSlotKeeps<K>(t: Traced<K>, w: Replay<K>, pid: Pid, ret: int, flags: Flags, fd: int, lo: nat)
    requires Simulates(t, w, lo) && t.Has(pid) && w.tables.Has(pid) && ret >= 0 && Fresh(w.open, fd)
    ensures Simulates(t.With(pid, t.Table(pid)[ret := Slot(t.next, CloseOnExec(flags), false)]).(next := t.next + 1),
                      w.With(pid, w.Table(pid)[ret := FdEntry(fd, flags)], Bind(w.open, fd, CopyOf(t.next))), lo)
  {
    FreshFits(t, w, lo, w.tables.of[pid], ret, fd, flags, CopyOf(t.next));
    hide Simulates, Spares, Fits;
    PutSlot(t, w, pid, ret, Slot(t.next, CloseOnExec(flags), false), FdEntry(fd, flags),
            Bind(w.open, fd, CopyOf(t.next)), t.next + 1, lo);
  }

  /** An open that failed on both sides makes an entry for -1, once. */
  lemma FailedOpenKeeps<K>(t: Traced<K>, w: Replay<K>, pid: Pid, flags: Flags, lo: nat)
    requires Simulates(t, w, lo) && pid in t.of && w.tables.Has(pid)
    ensures Simulates(t, w.With(pid, AddEntry(w.Table(pid), -1, FAILURE, flags), w.open), lo)
  {
    HasTable(t, w, lo, pid);
    FreshFits(t, w, lo, w.tables.of[pid], -1, FAILURE, flags, Own);
    if -1 in w.Table(pid) {
      HeldIsOpen(t, w, lo, w.tables.of[pid], -1, w.Table(pid)[-1].fd);
    }
    assert t.With(pid, t.Table(pid)) == t;
    OneSlot(t, w, t, pid, -1, t.Table(pid), AddEntry(w.Table(pid), -1, FAILURE, flags), w.open, lo);
  }

  lemma SocketKeeps<K>(t: Traced<K>, w: Replay<K>, e: Event, a: Answer<K>, lo: nat)
    requires e.Socket? && Simulates(t, w, lo) && WellFormed(t, e)
    ensures Continues(TracedStep(t, e, a), Step(w, e, a, t.next), lo)
  {
    hide Simulates, Spares, Fits, ClonedKernel, ClonedTable, Target, Sweep, FdsToClose, CloseOnExec;
    var Socket(pid, ret, flags) := e;
    HasTable(t, w, lo, pid);
    NegativeFits(t, w, lo, w.tables.of[pid], ret, SIMULATED, flags);
    if ret >= 0 {
      assert MayAdd(w.Table(pid), ret);
      PutSlot(t, w, pid, ret, Slot(t.next, CloseOnExec(flags), true), FdEntry(SIMULATED, flags), w.open,
              t.next + 1, lo);
    }
  }

  lemma CloseKeeps<K>(t: Traced<K>, w: Replay<K>, e: Event, a: Answer<K>, lo: nat)
    requires e.Close? && Simulates(t, w, lo) && WellFormed(t, e)
    ensures Continues(TracedStep(t, e, a), Step(w, e, a, t.next), lo)
  {
    var Close(pid, traced) := e;
    HasTable(t, w, lo, pid);
    var id, body := w.tables.of[pid], w.Table(pid);
    var fd := GetFd(body, traced);
    var t' := TracedStep(t, e, a);
    if traced in body {
      HeldIsOpen(t, w, lo, id, traced, fd);
    }
    OwnSlotSpares(t, w, lo, id, traced, fd, Own);
    FreshFits(t, w, lo, id, traced, FAILURE, 0, Own);
    OneSlot(t, w, t', pid, traced, t'.Table(pid), body - {traced},
            if fd == SIMULATED then w.open else w.open - {fd}, lo);
  }

  lemma DupKeeps<K>(t: Traced<K>, w: Replay<K>, e: Event, a: Answer<K>, lo: nat)
    requires e.Dup? && Simulates(t, w, lo) && WellFormed(t, e) && KernelAnswers(w, e, a) && Covered(w, e, lo)
    ensures Continues(TracedStep(t, e, a), Step(w, e, a, t.next), lo)
  {
    var Dup(pid, traced, ret) := e;
    HasTable(t, w, lo, pid);
    var id, body := w.tables.of[pid], w.Table(pid);
    var fd, flags := body[traced].fd, ClearCloseOnExec(body[traced].flags);
    var d := if fd in w.open then w.open[fd] else Own;
    FreshFits(t, w, lo, id, ret, a.fd, flags, d);
    hide Exclusive, OwnApart, Spares, Fits, Pool.Accurate;
    PutSlot(t, w, pid, ret, t.Table(pid)[traced].(closeOnExec := false), FdEntry(a.fd, flags),
            DupInKernel(w.open, fd, a.fd), t.next, lo);
  }

  // ----- dup2 and dup3

  lemma InUse<K>(w: Replay<K>, id: K, k: int, fd: int)
    requires w.tables.Accurate() && Holds(w.tables.live, id, k, fd)
    ensures fd in w.UsedFds()
  {
    var pid := Member(w.tables.Sharers(id));
    assert w.tables.Has(pid) && k in w.tables.Get(pid) && w.tables.Get(pid)[k].fd == fd;
  }

  /** A number that no table uses once slot `key` is gone is in no other slot. */
  lemma UnusedFits<K>(w: Replay<K>, pid: Pid, key: int, fd: int)
    requires w.tables.Accurate() && w.tables.Has(pid)
    requires fd !in w.With(pid, w.Table(pid) - {key}, w.open).UsedFds()
    ensures forall i, k :: Holds(w.tables.live, i, k, fd) ==> i == w.tables.of[pid] && k == key
  {
    var w' := w.With(pid, w.Table(pid) - {key}, w.open);
    SetKeeps(w.tables, pid, w.Table(pid) - {key});
    forall i, k | Holds(w.tables.live, i, k, fd)
      ensures i == w.tables.of[pid] && k == key
    {
      if !(i == w.tables.of[pid] && k == key) {
        assert Holds(w'.tables.live, i, k, fd);
        InUse(w', i, k, fd);
      }
    }
  }

  /** The target of dup2 is not the descriptor of any other slot, nor one of the replayer's own. */
  lemma TargetFits<K>(t: Traced<K>, w: Replay<K>, lo: nat, pid: Pid, newFd: int, flags: Flags)
    requires Simulates(t, w, lo) && pid in t.of && w.tables.Has(pid) && newFd >= 0
    ensures var target := Target(w, pid, newFd);
            && (newFd in w.Table(pid) && w.Table(pid)[newFd].fd == FAILURE ==> target == FAILURE)
            && (target < 0 ==> target == FAILURE && newFd in w.Table(pid))
            && Fits(w, w.tables.of[pid], newFd, lo, FdEntry(target, flags))
            && (newFd !in w.Table(pid) || w.Table(pid)[newFd].fd == SIMULATED ==>
                  forall k :: k in w.Table(pid) && k != newFd ==> w.Table(pid)[k].fd != target)
  {
    HasTable(t, w, lo, pid);
    var id, body, target := w.tables.of[pid], w.Table(pid), Target(w, pid, newFd);
    if newFd in body && body[newFd].fd != SIMULATED {
      HeldIsOpen(t, w, lo, id, newFd, target);
      assert SlotMatches(t.Table(pid)[newFd], body[newFd], w.open, lo, t.next);
      hide TableMatches;
    } else {
      UnusedFits(w, pid, newFd, target);
      hide Simulates, TableMatches, Holds;
    }
  }

  /** The kernel after dup2 or dup3, and the replayed return value. */
  function DupToKernel<K>(w: Replay<K>, fd: int, target: int, dup3: bool): (Kernel, int) {
    if fd == SIMULATED then (w.open, SIMULATED)
    else if dup3 then Dup3InKernel(w.open, fd, target) else Dup2InKernel(w.open, fd, target)
  }

  lemma DupToResult<K>(w: Replay<K>, pid: Pid, oldFd: int, newFd: int, dup3: bool)
    requires w.tables.Has(pid) && oldFd in w.Table(pid)
    ensures var body := w.Table(pid);
            var flags := if dup3 then body[oldFd].flags else ClearCloseOnExec(body[oldFd].flags);
            var (open', ret) := DupToKernel(w, body[oldFd].fd, Target(w, pid, newFd), dup3);
            DupToStep(w, pid, oldFd, newFd, dup3) == Running(w.With(pid, body[newFd := FdEntry(ret, flags)], open'))
  {
    var body := w.Table(pid);
    forall ret, flags
      ensures AddEntry(body - {newFd}, newFd, ret, flags) == body[newFd := FdEntry(ret, flags)]
    {
    }
    hide Target, AddEntry;
  }

  lemma DupToKeeps<K>(t: Traced<K>, w: Replay<K>, lo: nat, pid: Pid, oldFd: int, newFd: int, dup3: bool, s: Slot)
    requires Simulates(t, w, lo) && t.Has(pid) && newFd >= 0 && oldFd in t.Table(pid)
    requires w.tables.Has(pid) && oldFd in w.Table(pid) && Claimed(w.Table(pid)[oldFd], lo)
    requires dup3 ==> oldFd != newFd
    requires s == t.Table(pid)[oldFd].(closeOnExec := dup3 && CloseOnExec(w.Table(pid)[oldFd].flags))
    ensures Continues(t.With(pid, t.Table(pid)[newFd := s]), DupToStep(w, pid, oldFd, newFd, dup3), lo)
  {
    HasTable(t, w, lo, pid);
    var id, body := w.tables.of[pid], w.Table(pid);
    var fd := body[oldFd].fd;
    var flags := if dup3 then body[oldFd].flags else ClearCloseOnExec(body[oldFd].flags);
    var target := Target(w, pid, newFd);
    TargetFits(t, w, lo, pid, newFd, flags);
    NegativeFits(t, w, lo, id, newFd, FAILURE, flags);
    NegativeFits(t, w, lo, id, newFd, SIMULATED, flags);
    assert SlotMatches(t.Table(pid)[oldFd], body[oldFd], w.open, lo, t.next);
    var (open', ret) := DupToKernel(w, fd, target, dup3);
    DupToResult(w, pid, oldFd, newFd, dup3);
    if ret >= 0 {
      OwnSlotSpares(t, w, lo, id, newFd, target, w.open[fd]);
    }
    assert t.With(pid, t.Table(pid)[newFd := s]).(next := t.next) == t.With(pid, t.Table(pid)[newFd := s]);
    hide Simulates, Spares, Holds;
    PutSlot(t, w, pid, newFd, s, FdEntry(ret, flags), open', t.next, lo);
  }

  lemma Dup2Keeps<K>(t: Traced<K>, w: Replay<K>, e: Event, a: Answer<K>, lo: nat)
    requires e.Dup2? && Simulates(t, w, lo) && WellFormed(t, e) && Covered(w, e, lo)
    ensures Continues(TracedStep(t, e, a), Step(w, e, a, t.next), lo)
  {
    hide Simulates, Continues, DupToStep, CloseOnExec;
    var Dup2(pid, oldFd, newFd) := e;
    assert pid in t.of && t.Has(pid);
    HasTable(t, w, lo, pid);
    var st := t.Table(pid);
    assert SlotMatches(st[oldFd], w.Table(pid)[oldFd], w.open, lo, t.next);
    DupToKeeps(t, w, lo, pid, oldFd, newFd, false, st[oldFd].(closeOnExec := false));
    if oldFd == newFd {
      assert st[newFd := st[oldFd].(closeOnExec := false)] == st;
      assert t.With(pid, st) == t;
    }
  }

  lemma Dup3Keeps<K>(t: Traced<K>, w: Replay<K>, e: Event, a: Answer<K>, lo: nat)
    requires e.Dup3? && Simulates(t, w, lo) && WellFormed(t, e) && Covered(w, e, lo)
    ensures Continues(TracedStep(t, e, a), Step(w, e, a, t.next), lo)
  {
    var Dup3(pid, oldFd, newFd, flags) := e;
    HasTable(t, w, lo, pid);
    DupToKeeps(t, w, lo, pid, oldFd, newFd, true, t.Table(pid)[oldFd].(closeOnExec := CloseOnExec(flags)));
  }

  // ----- execve, exit and clone

  /** A table loses the same slots on both sides. */
  lemma ShrinkKeeps<K>(t: Traced<K>, w: Replay<K>, pid: Pid, st': SlotTable, body': FdTable, lo: nat)
    requires Simulates(t, w, lo) && t.Has(pid) && w.tables.Has(pid)
    requires forall k :: k in st' ==> k in t.Table(pid) && st'[k] == t.Table(pid)[k]
    requires forall k :: k in body' ==> k in w.Table(pid) && body'[k] == w.Table(pid)[k]
    requires forall k :: k >= 0 ==> (k in st' <==> k in body')
    ensures Simulates(t.With(pid, st'), w.With(pid, body', w.open), lo)
  {
    HasTable(t, w, lo, pid);
    SetKeeps(w.tables, pid, body');
    var live' := w.With(pid, body', w.open).tables.live;
    assert TableMatches(st', body', w.open, lo, t.next);
    forall i, k, fd | Holds(live', i, k, fd)
      ensures Holds(w.tables.live, i, k, fd)
    {
    }
    hide TableMatches, Pool.Accurate;
    assert Exclusive(live', lo) && OwnApart(w.own, live', w.open);
  }

  lemma ExecveKeeps<K>(t: Traced<K>, w: Replay<K>, e: Event, a: Answer<K>, lo: nat)
    requires e.Execve? && Simulates(t, w, lo) && WellFormed(t, e) && Covered(w, e, lo)
    ensures Continues(TracedStep(t, e, a), Step(w, e, a, t.next), lo)
  {
    var Execve(pid, ret) := e;
    HasTable(t, w, lo, pid);
    var st, body := t.Table(pid), w.Table(pid);
    var st' := if ret >= 0 then map fd | fd in st && !st[fd].closeOnExec :: st[fd] else st;
    forall k | k >= 0
      ensures k in st' <==> k in Sweep(body, ret)
    {
      if k in st {
        assert SlotMatches(st[k], body[k], w.open, lo, t.next);
      }
    }
    if ret < 0 {
      assert t.With(pid, st) == t;
    }
    ShrinkKeeps(t, w, pid, st', Sweep(body, ret), lo);
  }

  /** Fewer pointers and entries, the same contents, and a kernel that keeps what these hold. */
  lemma SubtablesKeep<K>(t: Traced<K>, w: Replay<K>, tables': Pool<K, FdTable>, open': Kernel, lo: nat)
    requires Simulates(t, w, lo) && tables'.Accurate()
    requires forall id :: id in tables'.live ==> id in w.tables.live && tables'.live[id].body == w.tables.live[id].body
    requires forall fd :: fd in open' ==> fd in w.open && open'[fd] == w.open[fd]
    requires forall id, k, fd :: Holds(tables'.live, id, k, fd) && fd >= lo && fd in w.open ==> fd in open'
    requires forall fd :: fd in w.own && fd in w.open ==> fd in open'
    ensures Simulates(t.(of := tables'.of), Replay(tables', w.own, open'), lo)
  {
    forall id | id in tables'.live
      ensures id in t.tables && TableMatches(t.tables[id], tables'.live[id].body, open', lo, t.next)
    {
      var body := tables'.live[id].body;
      forall k | k in body && body[k].fd >= lo && body[k].fd in w.open
        ensures body[k].fd in open' && open'[body[k].fd] == w.open[body[k].fd]
      {
        assert Holds(tables'.live, id, k, body[k].fd);
      }
      MatchesOthers(t.tables[id], body, w.open, open', lo, t.next, t.next);
    }
    forall id, k, fd | Holds(tables'.live, id, k, fd)
      ensures Holds(w.tables.live, id, k, fd)
    {
    }
    hide TableMatches, Pool.Accurate, Holds;
    assert Exclusive(tables'.live, lo) && OwnApart(w.own, tables'.live, open');
  }

  /** No descriptor that an exit closes is still in a table of a surviving process. */
  lemma ExitClosesNoSurvivor<K>(t: Traced<K>, w: Replay<K>, lo: nat, pid: Pid, id: K, k: int, fd: int)
    requires Simulates(t, w, lo) && pid in t.of && w.tables.Has(pid)
    requires w.tables.live[w.tables.of[pid]].rc > 0
    requires Holds(w.tables.Release(pid).live, id, k, fd) && fd >= lo
    ensures fd !in FdsToClose(w, pid)
  {
    var gone := w.tables.of[pid];
    if w.tables.live[gone].rc == 1 {
      assert id != gone;
      forall j | j in w.Table(pid)
        ensures w.Table(pid)[j].fd != fd
      {
        assert Holds(w.tables.live, id, k, fd) && Holds(w.tables.live, gone, j, w.Table(pid)[j].fd);
      }
    }
  }

  lemma ExitKeeps<K>(t: Traced<K>, w: Replay<K>, e: Event, a: Answer<K>, lo: nat)
    requires e.Exit? && Simulates(t, w, lo) && WellFormed(t, e)
    ensures Continues(TracedStep(t, e, a), Step(w, e, a, t.next), lo)
  {
    var pid := e.pid;
    HasTable(t, w, lo, pid);
    ReleaseKeepsCounts(w.tables, pid);
    var tables', open' := w.tables.Release(pid), w.open - FdsToClose(w, pid);
    forall id, k, fd | Holds(tables'.live, id, k, fd) && fd >= lo
      ensures fd !in FdsToClose(w, pid)
    {
      ExitClosesNoSurvivor(t, w, lo, pid, id, k, fd);
    }
    forall j | j in w.Table(pid)
      ensures w.Table(pid)[j].fd !in w.own
    {
      HeldIsOpen(t, w, lo, w.tables.of[pid], j, w.Table(pid)[j].fd);
    }
    assert forall fd :: fd in FdsToClose(w, pid) ==> fd !in w.own;
    hide Pool.Accurate, FdsToClose, Holds;
    SubtablesKeep(t, w, tables', open', lo);
  }

  lemma ShareKeeps<K>(t: Traced<K>, w: Replay<K>, ppid: Pid, pid: Pid, lo: nat)
    requires Simulates(t, w, lo) && t.Has(ppid) && w.tables.Has(ppid) && pid !in t.of
    ensures Simulates(t.(of := t.of[pid := t.of[ppid]]), w.(tables := w.tables.Share(ppid, pid)), lo)
  {
    ShareKeepsCountsIff(w.tables, ppid, pid);
    hide Pool.Accurate;
    SubtablesKeep(t, w, w.tables.Share(ppid, pid), w.open, lo);
  }

  // ----- the unshared clone

  lemma ClonedKernelMeaning(open: Kernel, t: FdTable, fds: map<int, int>, traced: int, fd: int)
    requires forall a, b, f :: MadeBy(t, fds, a, f) && MadeBy(t, fds, b, f) ==> a == b
    requires MadeBy(t, fds, traced, fd) && t[traced].fd in open
    ensures fd in ClonedKernel(open, t, fds) && ClonedKernel(open, t, fds)[fd] == open[t[traced].fd]
  {
  }

  /** The dups of a clone leave every descriptor that was open as it was. */
  lemma ClonedKernelKeeps<K>(w: Replay<K>, t: FdTable, a: Answer<K>, fd: int)
    requires AnswersClone(w, t, a)
    ensures fd in w.open ==> fd in ClonedKernel(w.open, t, a.fds) && ClonedKernel(w.open, t, a.fds)[fd] == w.open[fd]
    ensures fd in ClonedKernel(w.open, t, a.fds) && fd !in w.open ==> fd >= 0
  {
  }

  /** A slot of the copied table that claims a descriptor has it from a dup of the parent's. */
  lemma ClonedSlot<K>(t: Traced<K>, w: Replay<K>, ppid: Pid, a: Answer<K>, lo: nat, k: int)
    requires Simulates(t, w, lo) && ppid in t.of && w.tables.Has(ppid) && t.Has(ppid)
    requires AnswersClone(w, w.Table(ppid), a) && CloneCovered(w.Table(ppid), lo) && k in w.Table(ppid)
    ensures var fd := Copied(w.Table(ppid), a.fds, k);
            && fd !in w.own
            && (k < 0 ==> fd < 0)
            && (fd >= lo ==> MadeBy(w.Table(ppid), a.fds, k, fd) && fd !in w.open)
            && (k >= 0 ==>
                  && k in t.Table(ppid)
                  && SlotMatches(t.Table(ppid)[k], ClonedTable(w.Table(ppid), a.fds)[k],
                                 ClonedKernel(w.open, w.Table(ppid), a.fds), lo, t.next))
  {
    HasTable(t, w, lo, ppid);
    var body := w.Table(ppid);
    HeldIsOpen(t, w, lo, w.tables.of[ppid], k, body[k].fd);
    var fd := Copied(body, a.fds, k);
    if fd >= lo {
      assert body[k].fd > 0 && fd !in w.open && body[k].fd in w.open;
      ClonedKernelMeaning(w.open, body, a.fds, k, fd);
    }
    assert k >= 0 ==> SlotMatches(t.Table(ppid)[k], body[k], w.open, lo, t.next);
  }

  lemma CopyMatches<K>(t: Traced<K>, w: Replay<K>, ppid: Pid, a: Answer<K>, lo: nat)
    requires Simulates(t, w, lo) && ppid in t.of && w.tables.Has(ppid) && t.Has(ppid)
    requires AnswersClone(w, w.Table(ppid), a) && CloneCovered(w.Table(ppid), lo)
    ensures TableMatches(t.Table(ppid), ClonedTable(w.Table(ppid), a.fds),
                         ClonedKernel(w.open, w.Table(ppid), a.fds), lo, t.next)
  {
    HasTable(t, w, lo, ppid);
    forall k | k in w.Table(ppid)
      ensures var fd := Copied(w.Table(ppid), a.fds, k);
              && (k < 0 ==> fd < 0)
              && (k >= 0 ==>
                    && k in t.Table(ppid)
                    && SlotMatches(t.Table(ppid)[k], ClonedTable(w.Table(ppid), a.fds)[k],
                                   ClonedKernel(w.open, w.Table(ppid), a.fds), lo, t.next))
    {
      ClonedSlot(t, w, ppid, a, lo, k);
    }
    hide SlotMatches, ClonedKernel, Simulates, Copied;
  }

  /** What the slots hold after an unshared clone. */
  lemma HoldsAfterClone<K>(w: Replay<K>, pid: Pid, made: K, copy: FdTable, i: K, k: int, fd: int)
    requires made !in w.tables.live
    ensures Holds(w.tables.Create(pid, made, copy).live, i, k, fd) <==>
            if i == made then k in copy && copy[k].fd == fd else Holds(w.tables.live, i, k, fd)
  {
  }

  lemma CopyExclusive<K>(t: Traced<K>, w: Replay<K>, ppid: Pid, pid: Pid, a: Answer<K>, lo: nat)
    requires Simulates(t, w, lo) && ppid in t.of && w.tables.Has(ppid) && t.Has(ppid)
    requires AnswersClone(w, w.Table(ppid), a) && CloneCovered(w.Table(ppid), lo)
    ensures var live' := w.tables.Create(pid, a.id, ClonedTable(w.Table(ppid), a.fds)).live;
            && Exclusive(live', lo)
            && OwnApart(w.own, live', ClonedKernel(w.open, w.Table(ppid), a.fds))
  {
    var body := w.Table(ppid);
    var copy := ClonedTable(body, a.fds);
    var live' := w.tables.Create(pid, a.id, copy).live;
    forall i, k, fd
      ensures Holds(live', i, k, fd) <==>
          if i == a.id then k in copy && copy[k].fd == fd else Holds(w.tables.live, i, k, fd)
    {
      HoldsAfterClone(w, pid, a.id, copy, i, k, fd);
    }
    forall k | k in copy
      ensures copy[k].fd !in w.own
      ensures copy[k].fd >= lo ==> MadeBy(body, a.fds, k, copy[k].fd) && copy[k].fd !in w.open
    {
      ClonedSlot(t, w, ppid, a, lo, k);
    }
    forall i, k, fd | Holds(w.tables.live, i, k, fd)
      ensures fd !in w.own && (fd >= lo ==> fd in w.open)
    {
      HeldIsOpen(t, w, lo, i, k, fd);
    }
    forall fd | fd in w.own
      ensures fd >= 0 && fd in ClonedKernel(w.open, body, a.fds) && ClonedKernel(w.open, body, a.fds)[fd] == Own
    {
      ClonedKernelKeeps(w, body, a, fd);
    }
    hide Holds, ClonedKernel, ClonedTable, MadeBy;
  }

  lemma CopyKeeps<K>(t: Traced<K>, w: Replay<K>, ppid: Pid, pid: Pid, a: Answer<K>, lo: nat)
    requires Simulates(t, w, lo) && t.Has(ppid) && w.tables.Has(ppid) && pid !in t.of
    requires AnswersClone(w, w.Table(ppid), a) && CloneCovered(w.Table(ppid), lo)
    ensures Continues(TracedFork(t, ppid, pid, false, a), CloneStep(w, ppid, pid, false, a), lo)
  {
    var body := w.Table(ppid);
    var copy, open' := ClonedTable(body, a.fds), ClonedKernel(w.open, body, a.fds);
    var tables' := w.tables.Create(pid, a.id, copy);
    CreateKeepsCountsIff(w.tables, pid, a.id, copy);
    CopyExclusive(t, w, ppid, pid, a, lo);
    CopyMatches(t, w, ppid, a, lo);
    forall fd
      ensures fd in w.open ==> fd in open' && open'[fd] == w.open[fd]
      ensures fd in open' ==> fd >= 0
    {
      ClonedKernelKeeps(w, body, a, fd);
    }
    forall id | id in w.tables.live
      ensures id in t.tables && TableMatches(t.tables[id], w.tables.live[id].body, open', lo, t.next)
    {
      MatchesOthers(t.tables[id], w.tables.live[id].body, w.open, open', lo, t.next, t.next);
    }
    hide TableMatches, Exclusive, OwnApart, Pool.Accurate, ClonedKernel, ClonedTable;
  }

  lemma CloneKeeps<K>(t: Traced<K>, w: Replay<K>, e: Event, a: Answer<K>, lo: nat)
    requires e.Clone? || e.VFork?
    requires Simulates(t, w, lo) && WellFormed(t, e) && KernelAnswers(w, e, a) && Covered(w, e, lo)
    ensures Continues(TracedStep(t, e, a), Step(w, e, a, t.next), lo)
  {
    HasTable(t, w, lo, e.pid);
    hide Simulates;
    if e.Clone? && SharesFiles(e.cloneFlags) {
      ShareKeeps(t, w, e.pid, e.child, lo);
    } else {
      CopyKeeps(t, w, e.pid, e.child, a, lo);
    }
  }

  // ----- whole runs

  /** One record: no assertion of the resource manager fails, and the simulation is kept. */
  lemma StepKeeps<K>(t: Traced<K>, w: Replay<K>, e: Event, a: Answer<K>, lo: nat)
    requires Simulates(t, w, lo) && WellFormed(t, e) && KernelAnswers(w, e, a) && Covered(w, e, lo)
    ensures Continues(TracedStep(t, e, a), Step(w, e, a, t.next), lo)
  {
    match e
    case Open(_, _, _) => OpenKeeps(t, w, e, a, lo);
    case Socket(_, _, _) => SocketKeeps(t, w, e, a, lo);
    case Close(_, _) => CloseKeeps(t, w, e, a, lo);
    case Dup(_, _, _) => DupKeeps(t, w, e, a, lo);
    case Dup2(_, _, _) => Dup2Keeps(t, w, e, a, lo);
    case Dup3(_, _, _, _) => Dup3Keeps(t, w, e, a, lo);
    case Clone(_, _, _) => CloneKeeps(t, w, e, a, lo);
    case VFork(_, _) => CloneKeeps(t, w, e, a, lo);
    case Execve(_, _) => ExecveKeeps(t, w, e, a, lo);
    case Exit(_) => ExitKeeps(t, w, e, a, lo);
    case Umask(_, _) =>
  }

  /** A record and what the environment of the replay answered to it. */
  datatype Call<K> = Call(event: Event, answer: Answer<K>)

  ghost function Replayed<K>(t: Traced<K>, w: Replay<K>, calls: seq<Call<K>>): Outcome<K>
    decreases |calls|
  {
    if calls == [] then Running(w)
    else if !t.Has(calls[0].event.pid) then Aborted
    else
      var o := Step(w, calls[0].event, calls[0].answer, t.next);
      if o.Aborted? then Aborted
      else Replayed(TracedStep(t, calls[0].event, calls[0].answer), o.state, calls[1..])
  }

  function TracedRun<K(==)>(t: Traced<K>, calls: seq<Call<K>>): Traced<K>
    decreases |calls|
  {
    if calls == [] || !t.Has(calls[0].event.pid) then t
    else TracedRun(TracedStep(t, calls[0].event, calls[0].answer), calls[1..])
  }

  /** Every record of the run is well-formed when its turn comes, and the simulation covers it. */
  ghost predicate GoodRun<K>(t: Traced<K>, w: Replay<K>, calls: seq<Call<K>>, lo: nat)
    decreases |calls|
  {
    calls != [] ==>
      var Call(e, a) := calls[0];
      && WellFormed(t, e) && KernelAnswers(w, e, a) && Covered(w, e, lo)
      && var o := Step(w, e, a, t.next);
         o.Running? ==> GoodRun(TracedStep(t, e, a), o.state, calls[1..], lo)
  }

  /** Over any run the replay never aborts, and in the end each table has the traced process's
      descriptors as keys, and each claimed slot names the copy of the same description. */
  lemma {:induction false} RunSimulates<K>(t: Traced<K>, w: Replay<K>, calls: seq<Call<K>>, lo: nat)
    requires Simulates(t, w, lo) && GoodRun(t, w, calls, lo)
    ensures Continues(TracedRun(t, calls), Replayed(t, w, calls), lo)
    decreases |calls|
  {
    if calls != [] {
      var Call(e, a) := calls[0];
      StepKeeps(t, w, e, a, lo);
      RunSimulates(TracedStep(t, e, a), Step(w, e, a, t.next).state, calls[1..], lo);
    }
  }
}
