/** What one replayed call does to the descriptor tables and to the one real kernel behind them.

    `Step` follows the rows of the replay modules; `Outcome` makes a failed assertion of the resource
    manager visible. `TracedStep` is the reference: what the same call did to the descriptor tables of the
    traced processes.
  */
module Descriptors {
  import opened Collections
  import opened Pools

  const FAILURE: int := -1
  const SIMULATED: int := -2
  const AT_FDCWD: int := -100

  type Flags = bv32
  const O_CLOEXEC: Flags := 0x80000
  const SOCK_CLOEXEC: Flags := 0x80000

  predicate CloseOnExec(flags: Flags) {
    flags & O_CLOEXEC != 0
  }

  function ClearCloseOnExec(flags: Flags): (r: Flags)
    ensures !CloseOnExec(r)
  {
    flags & !O_CLOEXEC
  }

  // ----- one descriptor table: traced descriptor -> replayed descriptor and flags

  datatype FdEntry = FdEntry(fd: int, flags: Flags)

  type FdTable = map<int, FdEntry>

  function GetFd(t: FdTable, traced: int): int {
    if traced in t then t[traced].fd else FAILURE
  }

  /** The assertion at the head of add_fd_entry. */
  predicate MayAdd(t: FdTable, traced: int) {
    traced == -1 || traced !in t
  }

  function AddEntry(t: FdTable, traced: int, fd: int, flags: Flags): FdTable {
    if traced != -1 || traced !in t then t[traced := FdEntry(fd, flags)] else t
  }

  function ReplayedFds(t: FdTable): set<int> {
    set traced | traced in t :: t[traced].fd
  }

  // ----- the kernel of the replayer: which open file description a descriptor refers to

  /** The copy, made by the replay, of the description that a traced open created; or a file of the
      replayer's own, such as its log. */
  datatype Description = CopyOf(description: nat) | Own

  type Kernel = map<int, Description>

  /** A descriptor the kernel may answer with: one that is not open, or -1. */
  predicate Fresh(open: Kernel, fd: int) {
    fd == FAILURE || (fd >= 0 && fd !in open)
  }

  function Bind(open: Kernel, fd: int, d: Description): Kernel {
    if fd >= 0 then open[fd := d] else open
  }

  function DupInKernel(open: Kernel, fd: int, answer: int): Kernel {
    if fd in open then Bind(open, answer, open[fd]) else open
  }

  /** dup2: the new descriptor is closed if it was open, and then refers to the description of the old. */
  function Dup2InKernel(open: Kernel, fd: int, target: int): (r: (Kernel, int)) {
    if fd !in open || target < 0 then (open, FAILURE)
    else (open[target := open[fd]], target)
  }

  /** dup3 differs from dup2 in that equal descriptors are an error. */
  function Dup3InKernel(open: Kernel, fd: int, target: int): (r: (Kernel, int)) {
    if fd == target then (open, FAILURE) else Dup2InKernel(open, fd, target)
  }

  /** The least number from `k` on that is not in `used`. */
  function FirstFree(used: set<int>, k: nat): (r: nat)
    ensures k <= r && r !in used
    ensures forall j :: k <= j < r ==> j in used
    ensures r - k <= |used|
    decreases |used|
  {
    if k in used then
      var rest := used - {k};
      assert forall j :: j in rest ==> j in used;
      FirstFree(rest, k + 1)
    else k
  }

  // ----- the state and the calls

  /** Descriptor tables, the descriptors of the replayer itself, and the open descriptors. */
  datatype Replay<K(==)> = Replay(tables: Pool<K, FdTable>, own: set<int>, open: Kernel) {
    function Table(pid: Pid): FdTable
      requires tables.Has(pid)
    {
      tables.Get(pid)
    }

    function With(pid: Pid, t: FdTable, open': Kernel): Replay<K>
      requires tables.Has(pid)
    {
      Replay(tables.Set(pid, t), own, open')
    }

    /** All replayed descriptors in all tables, and the cached ones of the replayer. */
    ghost function UsedFds(): set<int> {
      (set pid, traced | pid in tables.of && tables.Has(pid) && traced in tables.Get(pid) ::
       tables.Get(pid)[traced].fd) + own
    }
  }

  const CLONE_FS: bv32 := 0x200
  const CLONE_FILES: bv32 := 0x400
  const CLONE_THREAD: bv32 := 0x10000

  /** How the replay decodes the flags of a clone. */
  predicate SharesFiles(flags: bv32) {
    flags & CLONE_FILES != 0 || flags & CLONE_THREAD != 0
  }

  predicate SharesUmask(flags: bv32) {
    flags & CLONE_FS != 0 || flags & CLONE_THREAD != 0
  }

  /** How the kernel does: a thread of the same process shares descriptors and umask only if it asks for
      them with the flags of their own. */
  predicate KernelSharesFiles(flags: bv32) {
    flags & CLONE_FILES != 0
  }

  predicate KernelSharesUmask(flags: bv32) {
    flags & CLONE_FS != 0
  }

  /** A clone of a thread asks for the files too. */
  predicate ThreadSharesFiles(flags: bv32) {
    flags & CLONE_THREAD != 0 ==> flags & CLONE_FILES != 0
  }

  /** The records that concern descriptors and umasks. `ret` is the traced return value; dup, dup2, dup3,
      clone and vfork are records of calls that succeeded. */
  datatype Event =
    | Open(pid: Pid, ret: int, flags: Flags)
    | Socket(pid: Pid, ret: int, flags: Flags)
    | Close(pid: Pid, fd: int)
    | Dup(pid: Pid, fd: int, ret: int)
    | Dup2(pid: Pid, oldFd: int, newFd: int)
    | Dup3(pid: Pid, oldFd: int, newFd: int, flags: Flags)
    | Clone(pid: Pid, child: Pid, cloneFlags: bv32)
    | VFork(pid: Pid, child: Pid)
    | Execve(pid: Pid, ret: int)
    | Exit(pid: Pid)
    | Umask(pid: Pid, mode: bv32)

  /** What the environment of the replay answered: the descriptor an open or a dup returned, or for an
      unshared clone the new table object and the descriptor each dup returned. A table that only the
      traced kernel copied takes its name from the answer too. */
  datatype Answer<K> = NoAnswer | FdAnswer(fd: int) | TableAnswer(id: K, fds: map<int, int>)

  datatype Outcome<K(==)> = Aborted | Running(state: Replay<K>)

  // ----- the rows

  /** Three outcomes: only the replay opened the file, and it is closed again; or an entry is added,
      whether or not the replay succeeded. `next` names the description the traced call created. */
  function OpenStep<K(==)>(w: Replay<K>, pid: Pid, ret: int, flags: Flags, fd: int, next: nat): Outcome<K> {
    if ret <= -1 && fd != FAILURE then Running(w)
    else if !w.tables.Has(pid) || !MayAdd(w.Table(pid), ret) then Aborted
    else Running(w.With(pid, AddEntry(w.Table(pid), ret, fd, flags), Bind(w.open, fd, CopyOf(next))))
  }

  function SocketStep<K(==)>(w: Replay<K>, pid: Pid, ret: int, flags: Flags): Outcome<K> {
    if ret == FAILURE then Running(w)
    else if !w.tables.Has(pid) || !MayAdd(w.Table(pid), ret) then Aborted
    else Running(w.With(pid, AddEntry(w.Table(pid), ret, SIMULATED, flags), w.open))
  }

  function CloseStep<K(==)>(w: Replay<K>, pid: Pid, traced: int): Outcome<K> {
    if !w.tables.Has(pid) then Aborted
    else
      var t := w.Table(pid);
      var fd := GetFd(t, traced);
      Running(w.With(pid, t - {traced}, if fd == SIMULATED then w.open else w.open - {fd}))
  }

  /** A simulated descriptor is not dup'd: the traced return value is stored as its replayed number. */
  function DupStep<K(==)>(w: Replay<K>, pid: Pid, traced: int, ret: int, answer: int): Outcome<K> {
    if !w.tables.Has(pid) || traced !in w.Table(pid) || !MayAdd(w.Table(pid), ret) then Aborted
    else
      var t := w.Table(pid);
      var fd, flags := t[traced].fd, ClearCloseOnExec(t[traced].flags);
      if fd == SIMULATED then Running(w.With(pid, AddEntry(t, ret, ret, flags), w.open))
      else Running(w.With(pid, AddEntry(t, ret, answer, flags), DupInKernel(w.open, fd, answer)))
  }

  /** The target that dup2 and dup3 use in the replay: the descriptor in the slot they replace, or one
      that no table uses when the slot is absent or simulated. */
  ghost function Target<K>(w: Replay<K>, pid: Pid, newFd: int): int
    requires w.tables.Has(pid)
  {
    var t := w.Table(pid);
    if newFd in t && t[newFd].fd != SIMULATED then t[newFd].fd
    else FirstFree(w.With(pid, t - {newFd}, w.open).UsedFds(), 0)
  }

  /** dup2 and dup3: the four actions. `flags` are the flags stored with the new entry. */
  ghost function DupToStep<K>(w: Replay<K>, pid: Pid, oldFd: int, newFd: int, dup3: bool): Outcome<K> {
    if !w.tables.Has(pid) || oldFd !in w.Table(pid) then Aborted
    else
      var t := w.Table(pid);
      var fd := t[oldFd].fd;
      var flags := if dup3 then t[oldFd].flags else ClearCloseOnExec(t[oldFd].flags);
      if fd == SIMULATED then Running(w.With(pid, AddEntry(t - {newFd}, newFd, SIMULATED, flags), w.open))
      else
        var target := Target(w, pid, newFd);
        var (open, ret) := if dup3 then Dup3InKernel(w.open, fd, target) else Dup2InKernel(w.open, fd, target);
        Running(w.With(pid, AddEntry(t - {newFd}, newFd, ret, flags), open))
  }

  /** What the dup of the slot `traced` returned when an unshared clone copied the table. */
  function Copied(t: FdTable, fds: map<int, int>, traced: int): int
    requires traced in t
  {
    if t[traced].fd > 0 then (if traced in fds then fds[traced] else FAILURE) else t[traced].fd
  }

  /** Descriptors above 0 are dup'd; all others, 0 among them, are reused as they are. */
  function ClonedTable(t: FdTable, fds: map<int, int>): FdTable {
    map traced | traced in t :: FdEntry(Copied(t, fds, traced), t[traced].flags)
  }

  predicate MadeBy(t: FdTable, fds: map<int, int>, traced: int, fd: int) {
    traced in t && t[traced].fd > 0 && Copied(t, fds, traced) == fd && fd >= 0
  }

  /** The slot whose dup returned `fd`. */
  ghost function Maker(t: FdTable, fds: map<int, int>, fd: int): (traced: int)
    requires exists k :: MadeBy(t, fds, k, fd)
    ensures MadeBy(t, fds, traced, fd)
  {
    var traced :| MadeBy(t, fds, traced, fd);
    traced
  }

  /** The kernel after these dups: each new descriptor refers to the description of the one it copies. */
  ghost function ClonedKernel(open: Kernel, t: FdTable, fds: map<int, int>): Kernel {
    var made := set traced | traced in t && MadeBy(t, fds, traced, Copied(t, fds, traced)) :: Copied(t, fds, traced);
    map fd | fd in open.Keys + made ::
      if exists k :: MadeBy(t, fds, k, fd) then
        var source := t[Maker(t, fds, fd)].fd;
        if source in open then open[source] else Own
      else open[fd]
  }

  ghost function CloneStep<K>(w: Replay<K>, ppid: Pid, pid: Pid, shared: bool, answer: Answer<K>): Outcome<K> {
    if !w.tables.Has(ppid) then Aborted
    else if shared then Running(w.(tables := w.tables.Share(ppid, pid)))
    else if !answer.TableAnswer? then Aborted
    else
      var t := w.Table(ppid);
      Running(Replay(w.tables.Create(pid, answer.id, ClonedTable(t, answer.fds)), w.own,
                     ClonedKernel(w.open, t, answer.fds)))
  }

  /** The two tests of the close-on-exec sweep. */
  predicate SweptAway(e: FdEntry, ret: int) {
    || (e.flags & O_CLOEXEC != 0 && ret >= 0)
    || (e.fd == SIMULATED && (e.flags & SOCK_CLOEXEC != 0 || e.flags & 0x80000 != 0))
  }

  function Sweep(t: FdTable, ret: int): FdTable {
    map traced | traced in t && !SweptAway(t[traced], ret) :: t[traced]
  }

  /** The swept entries leave the table; their replayed descriptors are not closed. */
  function ExecveStep<K(==)>(w: Replay<K>, pid: Pid, ret: int): Outcome<K> {
    if !w.tables.Has(pid) then Aborted else Running(w.With(pid, Sweep(w.Table(pid), ret), w.open))
  }

  /** The descriptors an exit closes: all of them if the last process of the table leaves. */
  function FdsToClose<K(==)>(w: Replay<K>, pid: Pid): set<int>
    requires w.tables.Has(pid)
  {
    if w.tables.live[w.tables.of[pid]].rc == 1 then ReplayedFds(w.Table(pid)) else {}
  }

  function ExitStep<K(==)>(w: Replay<K>, pid: Pid): Outcome<K> {
    if !w.tables.Has(pid) || w.tables.live[w.tables.of[pid]].rc == 0 then Aborted
    else Running(Replay(w.tables.Release(pid), w.own, w.open - FdsToClose(w, pid)))
  }

  ghost function Step<K>(w: Replay<K>, e: Event, answer: Answer<K>, next: nat): Outcome<K> {
    var fd := if answer.FdAnswer? then answer.fd else FAILURE;
    match e
    case Open(pid, ret, flags) => OpenStep(w, pid, ret, flags, fd, next)
    case Socket(pid, ret, flags) => SocketStep(w, pid, ret, flags)
    case Close(pid, traced) => CloseStep(w, pid, traced)
    case Dup(pid, traced, ret) => DupStep(w, pid, traced, ret, fd)
    case Dup2(pid, oldFd, newFd) => DupToStep(w, pid, oldFd, newFd, false)
    case Dup3(pid, oldFd, newFd, _) => DupToStep(w, pid, oldFd, newFd, true)
    case Clone(pid, child, flags) => CloneStep(w, pid, child, SharesFiles(flags), answer)
    case VFork(pid, child) => CloneStep(w, pid, child, false, answer)
    case Execve(pid, ret) => ExecveStep(w, pid, ret)
    case Exit(pid) => ExitStep(w, pid)
    case Umask(_, _) => Running(w)
  }

  // ----- the traced processes

  datatype Slot = Slot(description: nat, closeOnExec: bool, socket: bool)

  type SlotTable = map<int, Slot>

  /** Which table a process uses (tables have the same names as in the replay), the tables, and the
      name of the next open file description. */
  datatype Traced<K(==)> = Traced(of: map<Pid, K>, tables: map<K, SlotTable>, next: nat) {
    predicate Has(pid: Pid) {
      pid in of && of[pid] in tables
    }

    function Table(pid: Pid): SlotTable
      requires Has(pid)
    {
      tables[of[pid]]
    }

    function With(pid: Pid, t: SlotTable): Traced<K>
      requires Has(pid)
    {
      this.(tables := tables[of[pid] := t])
    }
  }

  function TracedFork<K(==)>(t: Traced<K>, pid: Pid, child: Pid, shared: bool, answer: Answer<K>): Traced<K>
    requires t.Has(pid)
  {
    if shared then t.(of := t.of[child := t.of[pid]])
    else if answer.TableAnswer? then Traced(t.of[child := answer.id], t.tables[answer.id := t.Table(pid)], t.next)
    else t
  }

  /** What the traced kernel did. */
  function TracedStep<K(==)>(t: Traced<K>, e: Event, answer: Answer<K>): Traced<K>
    requires t.Has(e.pid)
  {
    var table := t.Table(e.pid);
    match e
    case Open(pid, ret, flags) =>
      if ret < 0 then t else t.With(pid, table[ret := Slot(t.next, CloseOnExec(flags), false)]).(next := t.next + 1)
    case Socket(pid, ret, flags) =>
      if ret < 0 then t else t.With(pid, table[ret := Slot(t.next, CloseOnExec(flags), true)]).(next := t.next + 1)
    case Close(pid, fd) => t.With(pid, if fd >= 0 then table - {fd} else table)
    case Dup(pid, fd, ret) => if fd in table then t.With(pid, table[ret := table[fd].(closeOnExec := false)]) else t
    case Dup2(pid, oldFd, newFd) =>
      if oldFd in table && oldFd != newFd then t.With(pid, table[newFd := table[oldFd].(closeOnExec := false)]) else t
    case Dup3(pid, oldFd, newFd, flags) =>
      if oldFd in table then t.With(pid, table[newFd := table[oldFd].(closeOnExec := CloseOnExec(flags))]) else t
    case Clone(pid, child, flags) => TracedFork(t, pid, child, KernelSharesFiles(flags), answer)
    case VFork(pid, child) => TracedFork(t, pid, child, false, answer)
    case Execve(pid, ret) =>
      if ret >= 0 then t.With(pid, map fd | fd in table && !table[fd].closeOnExec :: table[fd]) else t
    case Exit(pid) => t.(of := Without(t.of, pid))
    case Umask(_, _) => t
  }

  // ----- assumptions about a step

  /** The record is one the traced kernel can have produced: a new descriptor was not in use, a
      duplicated one was, a child pid is new, and a process that runs execve has its table for itself. */
  ghost predicate WellFormed<K>(t: Traced<K>, e: Event) {
    && t.Has(e.pid)
    && var table := t.Table(e.pid);
       match e
       case Open(_, ret, _) => ret == -1 || (ret >= 0 && ret !in table)
       case Socket(_, ret, _) => ret == -1 || (ret >= 0 && ret !in table)
       case Close(_, fd) => true
       case Dup(_, fd, ret) => fd in table && ret >= 0 && ret !in table
       case Dup2(_, oldFd, newFd) => oldFd in table && newFd >= 0
       case Dup3(_, oldFd, newFd, _) => oldFd in table && newFd >= 0 && oldFd != newFd
       case Clone(_, child, _) => child !in t.of
       case VFork(_, child) => child !in t.of
       case Execve(pid, ret) => ret >= 0 ==> forall p :: p in t.of && t.of[p] == t.of[pid] ==> p == pid
       case Exit(_) => true
       case Umask(_, _) => true
  }

  /** The kernel of the replayer answers open and dup with descriptors that are not open, or fails; the
      name of a new table is new. */
  ghost predicate KernelAnswers<K>(w: Replay<K>, e: Event, answer: Answer<K>) {
    w.tables.Has(e.pid) ==>
      var t := w.Table(e.pid);
      match e
      case Open(_, _, _) => answer.FdAnswer? && Fresh(w.open, answer.fd)
      case Dup(_, traced, _) =>
        traced in t && t[traced].fd != SIMULATED ==>
          answer.FdAnswer? && Fresh(w.open, answer.fd) && (t[traced].fd !in w.open ==> answer.fd == FAILURE)
      case Clone(_, _, flags) =>
        (SharesFiles(flags) || AnswersClone(w, t, answer)) && (KernelSharesFiles(flags) || NamesTable(w, answer))
      case VFork(_, _) => AnswersClone(w, t, answer)
      case _ => true
  }

  ghost predicate NamesTable<K>(w: Replay<K>, answer: Answer<K>) {
    answer.TableAnswer? && answer.id !in w.tables.live
  }

  ghost predicate AnswersClone<K>(w: Replay<K>, t: FdTable, answer: Answer<K>) {
    && NamesTable(w, answer)
    && (forall traced :: traced in t && t[traced].fd > 0 ==>
          && traced in answer.fds && Fresh(w.open, answer.fds[traced])
          && (t[traced].fd !in w.open ==> answer.fds[traced] == FAILURE))
    && (forall a, b, fd :: MadeBy(t, answer.fds, a, fd) && MadeBy(t, answer.fds, b, fd) ==> a == b)
  }
}
