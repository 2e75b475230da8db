/** The umask of each traced process, kept in reference-counted entries, against its meaning: the last mask
    set in the sharing class of the process, or the one it inherited when its class split off.
  */
module Umasks {
  import opened Collections
  import opened Pools
  import opened Descriptors

  type Mode = bv32

  /** A record and the name of the entry it creates, if it creates one. */
  datatype MaskCall<K> = MaskCall(event: Event, id: K)

  datatype MaskOutcome<K(==)> = MaskAborted | MaskRunning(pool: Pool<K, Mode>)

  // ----- the manager

  function CloneUmask<K(==)>(p: Pool<K, Mode>, ppid: Pid, pid: Pid, shared: bool, id: K): MaskOutcome<K> {
    if !p.Has(ppid) then MaskAborted
    else MaskRunning(if shared then p.Share(ppid, pid) else p.Create(pid, id, p.Get(ppid)))
  }

  /** An assertion of the resource manager that fails aborts the replay. */
  function UmaskStep<K(==)>(p: Pool<K, Mode>, c: MaskCall<K>): MaskOutcome<K> {
    match c.event
    case Umask(pid, mode) => if p.Has(pid) then MaskRunning(p.Set(pid, mode)) else MaskAborted
    case Clone(ppid, pid, flags) => CloneUmask(p, ppid, pid, SharesUmask(flags), c.id)
    case VFork(ppid, pid) => CloneUmask(p, ppid, pid, false, c.id)
    case Exit(pid) => if p.Has(pid) && p.live[p.of[pid]].rc > 0 then MaskRunning(p.Release(pid)) else MaskAborted
    case _ => MaskRunning(p)
  }

  /** The pool after a history that began with the process `root`, whose entry is `id0`. */
  function PoolAfter<K(==)>(root: Pid, id0: K, h: seq<MaskCall<K>>): MaskOutcome<K> {
    if h == [] then MaskRunning(Pool(map[root := id0], map[id0 := Counted(1, 0)]))
    else
      var before := PoolAfter(root, id0, h[..|h| - 1]);
      if before.MaskAborted? then MaskAborted else UmaskStep(before.pool, h[|h| - 1])
  }

  // ----- the meaning of a history

  predicate Creates(e: Event) {
    e.Clone? || e.VFork?
  }

  /** The replay, and the traced kernel, put the child into the class of its parent. */
  predicate Joins(e: Event) {
    e.Clone? && SharesUmask(e.cloneFlags)
  }

  predicate KernelJoins(e: Event) {
    e.Clone? && KernelSharesUmask(e.cloneFlags)
  }

  /** A clone of a thread asks for the umask too. */
  predicate ThreadSharesUmask(e: Event) {
    e.Clone? && e.cloneFlags & CLONE_THREAD != 0 ==> e.cloneFlags & CLONE_FS != 0
  }

  predicate Faithful<K(==)>(h: seq<MaskCall<K>>) {
    forall k :: 0 <= k < |h| ==> ThreadSharesUmask(h[k].event)
  }

  lemma JoinsAlikeIff(e: Event)
    ensures (Joins(e) <==> KernelJoins(e)) <==> ThreadSharesUmask(e)
    ensures KernelJoins(e) ==> Joins(e)
  {
  }

  predicate Alive<K(==)>(root: Pid, h: seq<MaskCall<K>>, p: Pid) {
    if h == [] then p == root
    else
      var e := h[|h| - 1].event;
      if Creates(e) && e.child == p then true
      else if e == Exit(p) then false
      else Alive(root, h[..|h| - 1], p)
  }

  /** Two processes share one umask in the traced kernel: a process created by a clone that asks for it joins
      the class of its parent, and one created otherwise starts a class of its own. */
  predicate SameClass<K(==)>(h: seq<MaskCall<K>>, p: Pid, q: Pid)
    decreases |h|
  {
    if p == q then true
    else if h == [] then false
    else
      var e, rest := h[|h| - 1].event, h[..|h| - 1];
      if Creates(e) && e.child == p then KernelJoins(e) && SameClass(rest, e.pid, q)
      else if Creates(e) && e.child == q then KernelJoins(e) && SameClass(rest, p, e.pid)
      else SameClass(rest, p, q)
  }

  /** The last mask set in the class of `p`; before any, the mask its class was created with. */
  function MaskOf<K(==)>(h: seq<MaskCall<K>>, p: Pid): Mode
    decreases |h|
  {
    if h == [] then 0
    else
      var e, rest := h[|h| - 1].event, h[..|h| - 1];
      match e
      case Umask(q, mode) => if SameClass(rest, q, p) then mode else MaskOf(rest, p)
      case Clone(q, c, _) => MaskOf(rest, if c == p then q else p)
      case VFork(q, c) => MaskOf(rest, if c == p then q else p)
      case _ => MaskOf(rest, p)
  }

  /** Every record is of a live process, new processes are not alive, and new entries have new names. */
  ghost predicate Wellformed<K>(root: Pid, id0: K, h: seq<MaskCall<K>>)
    decreases |h|
  {
    h != [] ==>
      var c, rest := h[|h| - 1], h[..|h| - 1];
      && Wellformed(root, id0, rest) && Alive(root, rest, c.event.pid)
      && (Creates(c.event) ==> !Alive(root, rest, c.event.child))
      && var before := PoolAfter(root, id0, rest);
         before.MaskRunning? && Creates(c.event) && !Joins(c.event) ==> c.id !in before.pool.live
  }

  /** The pool holds exactly the live processes, classes are entries, and each entry holds its mask. */
  ghost predicate Represents<K>(p: Pool<K, Mode>, root: Pid, h: seq<MaskCall<K>>) {
    && p.Accurate()
    && (forall q :: q in p.of <==> Alive(root, h, q))
    && (forall q, r :: q in p.of && r in p.of ==> (p.of[q] == p.of[r] <==> SameClass(h, q, r)))
    && (forall q :: q in p.of ==> p.Has(q) && p.Get(q) == MaskOf(h, q))
  }

  // ----- the refinement

  lemma SetRepresents<K>(p: Pool<K, Mode>, root: Pid, h: seq<MaskCall<K>>, c: MaskCall<K>)
    requires h != [] && c == h[|h| - 1] && c.event.Umask? && Represents(p, root, h[..|h| - 1])
    requires Alive(root, h[..|h| - 1], c.event.pid)
    ensures var o := UmaskStep(p, c); o.MaskRunning? && Represents(o.pool, root, h)
  {
    var Umask(pid, mode) := c.event;
    SetKeeps(p, pid, mode);
    var q := p.Set(pid, mode);
    assert q.of == p.of;
    forall x | x in q.of
      ensures q.Has(x) && q.Get(x) == MaskOf(h, x)
    {
      assert p.of[pid] == p.of[x] <==> SameClass(h[..|h| - 1], pid, x);
    }
    hide Pool.Accurate, MaskOf;
  }

  lemma CreateRepresents<K>(p: Pool<K, Mode>, root: Pid, h: seq<MaskCall<K>>, c: MaskCall<K>)
    requires h != [] && c == h[|h| - 1] && Creates(c.event) && !Joins(c.event) && !KernelJoins(c.event)
    requires Represents(p, root, h[..|h| - 1])
    requires Alive(root, h[..|h| - 1], c.event.pid) && !Alive(root, h[..|h| - 1], c.event.child) && c.id !in p.live
    ensures var o := UmaskStep(p, c); o.MaskRunning? && Represents(o.pool, root, h)
  {
    var ppid, pid := c.event.pid, c.event.child;
    CreateKeepsCountsIff(p, pid, c.id, p.Get(ppid));
    var q := p.Create(pid, c.id, p.Get(ppid));
    assert q.of == p.of[pid := c.id];
    forall x, y | x in q.of && y in q.of
      ensures q.of[x] == q.of[y] <==> SameClass(h, x, y)
    {
      assert x != pid ==> p.of[x] in p.live;
      assert y != pid ==> p.of[y] in p.live;
    }
    hide Pool.Accurate;
  }

  lemma JoinRepresents<K>(p: Pool<K, Mode>, root: Pid, h: seq<MaskCall<K>>, c: MaskCall<K>)
    requires h != [] && c == h[|h| - 1] && Joins(c.event) && KernelJoins(c.event) && Represents(p, root, h[..|h| - 1])
    requires Alive(root, h[..|h| - 1], c.event.pid) && !Alive(root, h[..|h| - 1], c.event.child)
    ensures var o := UmaskStep(p, c); o.MaskRunning? && Represents(o.pool, root, h)
  {
    var ppid, pid := c.event.pid, c.event.child;
    ShareKeepsCountsIff(p, ppid, pid);
    var q := p.Share(ppid, pid);
    assert q.of == p.of[pid := p.of[ppid]];
    forall x, y | x in q.of && y in q.of
      ensures q.of[x] == q.of[y] <==> SameClass(h, x, y)
    {
    }
    hide Pool.Accurate;
  }

  lemma ExitRepresents<K>(p: Pool<K, Mode>, root: Pid, h: seq<MaskCall<K>>, c: MaskCall<K>)
    requires h != [] && c == h[|h| - 1] && c.event.Exit? && Represents(p, root, h[..|h| - 1])
    requires Alive(root, h[..|h| - 1], c.event.pid)
    ensures var o := UmaskStep(p, c); o.MaskRunning? && Represents(o.pool, root, h)
  {
    var pid := c.event.pid;
    ReleaseKeepsCounts(p, pid);
    var q := p.Release(pid);
    forall x | x in q.of
      ensures q.Has(x) && q.Get(x) == p.Get(x)
    {
    }
    hide Pool.Accurate;
  }

  lemma OtherRepresents<K>(p: Pool<K, Mode>, root: Pid, h: seq<MaskCall<K>>, c: MaskCall<K>)
    requires h != [] && c == h[|h| - 1] && Represents(p, root, h[..|h| - 1])
    requires !c.event.Umask? && !Creates(c.event) && !c.event.Exit?
    ensures UmaskStep(p, c) == MaskRunning(p) && Represents(p, root, h)
  {
    hide Pool.Accurate;
  }

  lemma StartRepresents<K>(root: Pid, id0: K)
    ensures Represents(PoolAfter(root, id0, []).pool, root, [])
  {
    var p := PoolAfter(root, id0, []).pool;
    assert p.Sharers(id0) == {root};
  }

  /** A clone of a thread that does not ask for the umask: the replay makes the two processes share. */
  lemma ThreadMisrepresents<K>(p: Pool<K, Mode>, root: Pid, h: seq<MaskCall<K>>, c: MaskCall<K>)
    requires h != [] && c == h[|h| - 1] && Joins(c.event) && !KernelJoins(c.event) && Represents(p, root, h[..|h| - 1])
    requires Alive(root, h[..|h| - 1], c.event.pid) && !Alive(root, h[..|h| - 1], c.event.child)
    ensures var o := UmaskStep(p, c); o.MaskRunning? && !Represents(o.pool, root, h)
  {
    var q := p.Share(c.event.pid, c.event.child);
    assert q.of[c.event.pid] == q.of[c.event.child] && !SameClass(h, c.event.pid, c.event.child);
    hide Pool.Accurate, MaskOf;
  }

  /** One record: no assertion fails, and what the pool stands for is kept exactly when a clone of a thread
      asks for the umask. */
  lemma StepRepresentsIff<K>(p: Pool<K, Mode>, root: Pid, h: seq<MaskCall<K>>, c: MaskCall<K>)
    requires h != [] && c == h[|h| - 1] && Represents(p, root, h[..|h| - 1]) && Alive(root, h[..|h| - 1], c.event.pid)
    requires Creates(c.event) ==> !Alive(root, h[..|h| - 1], c.event.child)
    requires Creates(c.event) && !Joins(c.event) ==> c.id !in p.live
    ensures var o := UmaskStep(p, c); o.MaskRunning? && (Represents(o.pool, root, h) <==> ThreadSharesUmask(c.event))
  {
    hide Represents, UmaskStep, Alive;
    JoinsAlikeIff(c.event);
    if c.event.Umask? {
      SetRepresents(p, root, h, c);
    } else if Joins(c.event) {
      if KernelJoins(c.event) {
        JoinRepresents(p, root, h, c);
      } else {
        ThreadMisrepresents(p, root, h, c);
      }
    } else if Creates(c.event) {
      CreateRepresents(p, root, h, c);
    } else if c.event.Exit? {
      ExitRepresents(p, root, h, c);
    } else {
      OtherRepresents(p, root, h, c);
    }
  }

  /** Over any well-formed history in which threads ask for the umask no assertion on umasks fails, the
      counts are exact, and the umask of each live process is the one its history means. */
  lemma {:induction false} HistoryRefines<K>(root: Pid, id0: K, h: seq<MaskCall<K>>)
    requires Wellformed(root, id0, h) && Faithful(h)
    ensures var o := PoolAfter(root, id0, h); o.MaskRunning? && Represents(o.pool, root, h)
    decreases |h|
  {
    hide Represents, UmaskStep, Alive;
    if h == [] {
      StartRepresents(root, id0);
    } else {
      var c, rest := h[|h| - 1], h[..|h| - 1];
      HistoryRefines(root, id0, rest);
      StepRepresentsIff(PoolAfter(root, id0, rest).pool, root, h, c);
    }
  }

  /** The pool stands for the history at every moment of it. */
  ghost predicate AlwaysRepresents<K>(root: Pid, id0: K, h: seq<MaskCall<K>>)
    decreases |h|
  {
    && (h != [] ==> AlwaysRepresents(root, id0, h[..|h| - 1]))
    && var o := PoolAfter(root, id0, h); o.MaskRunning? && Represents(o.pool, root, h)
  }

  /** And those are all: the umasks of a well-formed history are right throughout if and only if each clone
      of a thread asks for the umask. */
  lemma {:induction false} HistoryRefinesIff<K>(root: Pid, id0: K, h: seq<MaskCall<K>>)
    requires Wellformed(root, id0, h)
    ensures AlwaysRepresents(root, id0, h) <==> Faithful(h)
    decreases |h|
  {
    hide Represents, UmaskStep, Alive, ThreadSharesUmask;
    if h == [] {
      StartRepresents(root, id0);
    } else {
      var c, rest := h[|h| - 1], h[..|h| - 1];
      HistoryRefinesIff(root, id0, rest);
      assert Faithful(h) <==> Faithful(rest) && ThreadSharesUmask(c.event);
      if AlwaysRepresents(root, id0, rest) {
        StepRepresentsIff(PoolAfter(root, id0, rest).pool, root, h, c);
      }
    }
  }

  /** A thread with the flags that the kernel asks for and no others, created by the first process, sets its
      umask to 077 (octal): the replay takes permissions away from the calls of its parent too. */
  lemma ThreadMaskLeaks<K>(root: Pid, child: Pid, id0: K, id1: K)
    requires child != root && id1 != id0
    ensures var h := [MaskCall(Clone(root, child, 0x10900), id1), MaskCall(Umask(child, 0x3F), id1)];
            var o := PoolAfter(root, id0, h);
            && Wellformed(root, id0, h) && o.MaskRunning? && o.pool.Has(root)
            && GetMode(o.pool, root, 0x1FF) == 0x1C0 && Masked(0x1FF, MaskOf(h, root)) == 0x1FF
  {
    var h1 := [MaskCall(Clone(root, child, 0x10900), id1)];
    var h := h1 + [MaskCall(Umask(child, 0x3F), id1)];
    assert h == [MaskCall(Clone(root, child, 0x10900), id1), MaskCall(Umask(child, 0x3F), id1)];
    assert h[..1] == h1 && h1[..0] == [];
    var p := Pool(map[root := id0], map[id0 := Counted(1, 0)]);
    assert PoolAfter(root, id0, h1) == MaskRunning(p.Share(root, child));
    assert PoolAfter(root, id0, h) == MaskRunning(p.Share(root, child).Set(child, 0x3F));
    assert !SameClass(h1, child, root) && MaskOf(h1, root) == 0;
  }

  // ----- get_mode

  function Masked(mode: Mode, mask: Mode): Mode {
    mode & !mask
  }

  predicate HasNone(r: Mode, mask: Mode) {
    r & mask == 0
  }

  predicate IsPart(r: Mode, mode: Mode) {
    r & mode == r
  }

  predicate Completes(r: Mode, mode: Mode, mask: Mode) {
    r | (mode & mask) == mode
  }

  /** `r` has none of the bits of the mask, and of the mode all others and no more. */
  predicate WithoutMask(mode: Mode, mask: Mode, r: Mode) {
    HasNone(r, mask) && IsPart(r, mode) && Completes(r, mode, mask)
  }

  lemma MaskedHasNone(mode: Mode, mask: Mode)
    ensures HasNone(Masked(mode, mask), mask)
  {
  }

  lemma MaskedIsPart(mode: Mode, mask: Mode)
    ensures IsPart(Masked(mode, mask), mode)
  {
  }

  lemma MaskedCompletes(mode: Mode, mask: Mode)
    ensures Completes(Masked(mode, mask), mode, mask)
  {
  }

  lemma MaskedMeaning(mode: Mode, mask: Mode)
    ensures WithoutMask(mode, mask, Masked(mode, mask))
  {
    hide Masked, HasNone, IsPart, Completes;
    MaskedHasNone(mode, mask);
    MaskedIsPart(mode, mask);
    MaskedCompletes(mode, mask);
  }

  /** The mode a replayed call passes on. */
  function GetMode<K(==)>(p: Pool<K, Mode>, pid: Pid, mode: Mode): Mode
    requires p.Has(pid)
  {
    Masked(mode, p.Get(pid))
  }

  const PERMISSIONS: Mode := 0x1FF
  const ALL: Mode := 0xFFFF_FFFF

  lemma PermissionsOnly(mask: Mode)
    ensures mask & PERMISSIONS == mask <==> mask & !PERMISSIONS == 0
  {
  }

  lemma MaskFromAll(mask: Mode, other: Mode)
    ensures Masked(ALL, mask) == Masked(ALL, other) <==> mask == other
  {
  }

  /** The manager stores the argument of umask as it is, where POSIX keeps only its permission bits. The
      modes that a process passes on agree exactly if its mask has no other bits. */
  lemma ModesAgreeIff(mask: Mode)
    ensures (forall mode :: Masked(mode, mask) == Masked(mode, mask & PERMISSIONS)) <==> mask & !PERMISSIONS == 0
  {
    hide Masked;
    PermissionsOnly(mask);
    MaskFromAll(mask, mask & PERMISSIONS);
  }

  lemma HistoryMask<K>(root: Pid, id0: K, h: seq<MaskCall<K>>, pid: Pid)
    requires Wellformed(root, id0, h) && Faithful(h) && Alive(root, h, pid)
    ensures var o := PoolAfter(root, id0, h); o.MaskRunning? && o.pool.Has(pid) && o.pool.Get(pid) == MaskOf(h, pid)
  {
    HistoryRefines(root, id0, h);
    hide Pool.Accurate, MaskOf, SameClass, PoolAfter, Alive;
  }

  /** The mode of a live process after any well-formed history: the given one, without the bits of the mask
      that the history means and with all its others. */
  lemma ModeRefines<K>(root: Pid, id0: K, h: seq<MaskCall<K>>, pid: Pid, mode: Mode)
    requires Wellformed(root, id0, h) && Faithful(h) && Alive(root, h, pid)
    ensures var o := PoolAfter(root, id0, h);
            o.MaskRunning? && o.pool.Has(pid) && WithoutMask(mode, MaskOf(h, pid), GetMode(o.pool, pid, mode))
  {
    hide WithoutMask, Masked, MaskOf, PoolAfter, Alive, Wellformed, Faithful;
    HistoryMask(root, id0, h, pid);
    MaskedMeaning(mode, MaskOf(h, pid));
  }
}
