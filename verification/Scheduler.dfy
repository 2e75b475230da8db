/** The replay scheduler as a step machine.

    One reader thread fills the queues from the streams; each traced process has an executor thread that
    takes records from its queue, waits until enough records are loaded, publishes its record in the
    running table, validates it and executes it. Each step of the machine is one access to shared state; a
    run is any sequence of labels, and a label that is not enabled does nothing.
  */
module Scheduler {
  import opened Collections
  import opened Traces

  // ----- 64-bit counters

  const WORD: nat := 0x1_0000_0000_0000_0000
  const ULONG_MAX: nat := 0xFFFF_FFFF_FFFF_FFFF
  const LLONG_MAX: nat := 0x7FFF_FFFF_FFFF_FFFF

  function Up(c: nat): nat {
    (c + 1) % WORD
  }

  function Down(c: nat): nat {
    (c + WORD - 1) % WORD
  }

  function Min(a: nat, b: nat): nat {
    if a <= b then a else b
  }

  // ----- threads

  /** Where an executor is in its loop, with the record it has in hand. */
  datatype Pc =
    | Pop
    | Decrement(r: Rec)
    | Wait(r: Rec, k: nat, min: nat)
    | WaitFinished(r: Rec, k: nat)
    | Publish(r: Rec)
    | Retire(r: Rec)
    | Validate(r: Rec)
    | SetNull(r: Rec)
    | Requeue(r: Rec)
    | Increment(r: Rec)
    | Execute(r: Rec, seen: set<Tid>)
    | ReadLast(r: Rec)
    | WriteLast(r: Rec, last: nat)
    | Leave
    | Gone

  datatype Thread = Thread(pc: Pc, prev: Option<Rec>)

  /** A record that is taken but not executed. */
  function InHand(pc: Pc): Option<Rec> {
    match pc
    case Decrement(r) => Some(r)
    case Wait(r, _, _) => Some(r)
    case WaitFinished(r, _) => Some(r)
    case Publish(r) => Some(r)
    case Retire(r) => Some(r)
    case Validate(r) => Some(r)
    case SetNull(r) => Some(r)
    case Requeue(r) => Some(r)
    case Execute(r, _) => Some(r)
    case _ => None
  }

  /** A record that is executed but not yet the previous one. */
  function JustExecuted(pc: Pc): Option<Rec> {
    match pc
    case ReadLast(r) => Some(r)
    case WriteLast(r, _) => Some(r)
    case _ => None
  }

  /** Where the reader is. `todo` are the types this round has still to visit and `b` is the batch size;
      `count` is the loop counter of a batch. */
  datatype Reader =
    | Round
    | MinScan(k: nat, min: nat)
    | Drain
    | Pick(todo: set<nat>, b: nat)
    | PushHeld(i: nat, todo: set<nat>, b: nat)
    | IncHeld(i: nat, todo: set<nat>, b: nat)
    | Loop(i: nat, count: nat, todo: set<nat>, b: nat)
    | PushNew(i: nat, count: nat, todo: set<nat>, b: nat)
    | IncNew(i: nat, count: nat, todo: set<nat>, b: nat)
    | SetFinished(i: nat, todo: set<nat>, b: nat)
    | SetMax(i: nat, todo: set<nat>, b: nat)
    | Stopped

  /** The type whose batch is under way. */
  function Working(reader: Reader): Option<nat> {
    match reader
    case PushHeld(i, _, _) => Some(i)
    case IncHeld(i, _, _) => Some(i)
    case Loop(i, _, _, _) => Some(i)
    case PushNew(i, _, _, _) => Some(i)
    case IncNew(i, _, _, _) => Some(i)
    case SetFinished(i, _, _) => Some(i)
    case SetMax(i, _, _) => Some(i)
    case _ => None
  }

  /** A record in the log of executions, with the processes that had been registered when it was
      validated. */
  datatype Executed = Executed(r: Rec, seen: set<Tid>)

  datatype State = State(
    read: seq<nat>,             // for each type: how many records were read,
    held: seq<bool>,            // whether the last of them has not been pushed,
    finished: seq<bool>,        // whether the stream is known to be exhausted,
    counter: seq<nat>,          // and numberOfSyscalls
    first: bool,                // isFirstBatch
    reader: Reader,
    queued: multiset<Rec>,      // the heaps of all processes
    threads: map<Tid, Thread>,
    running: Running,           // currentExecutions
    nThreads: nat,
    last: nat,                  // lastExecutedSyscallID
    retired: multiset<Rec>,     // allocationQueue
    freed: multiset<Rec>,
    log: seq<Executed>)

  datatype Label =
    | Reads                     // the next step of the reader
    | PickType(i: nat)          // the reader turns to type `i`
    | Free(r: Rec)              // the reader deletes a retired record
    | Take(t: Tid, r: Rec)      // try_pop of thread `t` returns `r`
    | Miss(t: Tid)              // try_pop of thread `t` finds its heap empty
    | Runs(t: Tid)              // any other step of thread `t`

  /** After `load_syscall_modules` and `prepare_replay`: one record of each type is read, the first umask
      record is executed and published, the others are queued; the main thread runs the first batch. */
  ghost function Start(st: Streams, u: nat): State
    requires u < |st| && forall i :: 0 <= i < |st| ==> |st[i]| > 0
  {
    State(seq(|st|, _ => 1), seq(|st|, _ => false), seq(|st|, _ => false),
          seq(|st|, i => if i == u then 0 else 1), true,
          Pick(Upto(|st|), 1000), multiset(set i | i in Upto(|st|) && i != u :: st[i][0]), map[],
          map[st[u][0].pid := Some(st[u][0])], 1, 0, multiset{}, multiset{}, [Executed(st[u][0], {})])
  }

  /** `checkModulesFinished` */
  predicate AllFinished(s: State) {
    forall i :: 0 <= i < |s.finished| ==> s.finished[i]
  }

  /** The heaps are ordered by record number. */
  predicate IsLeast(queued: multiset<Rec>, t: Tid, r: Rec) {
    r in queued && r.pid == t && forall q :: q in queued && q.pid == t ==> r.uid <= q.uid
  }

  // ----- the reader

  /** Between batches: `readerThread` and the loop over the types. */
  function RoundStep(st: Streams, u: nat, s: State): State
    requires u < |st| && |st[u]| > 0
  {
    match s.reader
    case Round => if AllFinished(s) then s.(reader := Stopped) else s.(reader := MinScan(0, ULONG_MAX))
    case MinScan(k, min) =>
      if k < |s.counter| then s.(reader := MinScan(k + 1, Min(min, s.counter[k])))
      else if min > 100 * s.nThreads then s.(reader := Drain)
      else s.(reader := Pick(Upto(|st|), 150 * s.nThreads))
    case Drain => if s.retired == multiset{} then s.(reader := MinScan(0, ULONG_MAX)) else s
    case Pick(todo, b) =>
      if todo != {} then s
      else if s.first then
        s.(first := false, reader := Round, threads := s.threads[st[u][0].pid := Thread(Pop, None)])
      else s.(reader := Round)
    case _ => s
  }

  /** Within the batch of one type. */
  function BatchStep(st: Streams, s: State): State {
    match s.reader
    case PushHeld(i, todo, b) =>
      if i < |st| && i < |s.read| && i < |s.held| && 0 < s.read[i] <= |st[i]| then
        s.(queued := s.queued + multiset{st[i][s.read[i] - 1]}, held := s.held[i := false],
           reader := IncHeld(i, todo, b))
      else s
    case IncHeld(i, todo, b) =>
      if i < |s.counter| then s.(counter := s.counter[i := Up(s.counter[i])], reader := Loop(i, b, todo, b)) else s
    case Loop(i, count, todo, b) =>
      if count <= 1 then s.(reader := Pick(todo, b))
      else if i < |st| && i < |s.read| && i < |s.held| && s.read[i] < |st[i]| then
        s.(read := s.read[i := s.read[i] + 1], held := s.held[i := true],
           reader := if count - 1 != 1 then PushNew(i, count - 1, todo, b) else Loop(i, count - 1, todo, b))
      else s.(reader := SetFinished(i, todo, b))
    case PushNew(i, count, todo, b) =>
      if i < |st| && i < |s.read| && i < |s.held| && 0 < s.read[i] <= |st[i]| then
        s.(queued := s.queued + multiset{st[i][s.read[i] - 1]}, held := s.held[i := false],
           reader := IncNew(i, count, todo, b))
      else s
    case IncNew(i, count, todo, b) =>
      if i < |s.counter| then s.(counter := s.counter[i := Up(s.counter[i])], reader := Loop(i, count, todo, b)) else s
    case SetFinished(i, todo, b) =>
      if i < |s.finished| then s.(finished := s.finished[i := true], reader := SetMax(i, todo, b)) else s
    case SetMax(i, todo, b) =>
      if i < |s.counter| then s.(counter := s.counter[i := LLONG_MAX], reader := Pick(todo, b)) else s
    case _ => s
  }

  function ReaderStep(st: Streams, u: nat, s: State): State
    requires u < |st| && |st[u]| > 0
  {
    if Working(s.reader).Some? then BatchStep(st, s) else RoundStep(st, u, s)
  }

  /** The head of a batch: a type that is finished or well filled is left alone. */
  function PickStep(s: State, i: nat): State {
    match s.reader
    case Pick(todo, b) =>
      if i !in todo || i >= |s.finished| || i >= |s.counter| then s
      else if s.finished[i] || s.counter[i] > b * 2 then s.(reader := Pick(todo - {i}, b))
      else if s.first then s.(reader := Loop(i, b, todo - {i}, b))
      else s.(reader := PushHeld(i, todo - {i}, b))
    case _ => s
  }

  function FreeStep(s: State, r: Rec): State {
    if s.reader.Drain? && r in s.retired then
      s.(retired := s.retired - multiset{r}, freed := s.freed + multiset{r})
    else s
  }

  // ----- the executors

  function At(s: State, t: Tid, pc: Pc): State
    requires t in s.threads
  {
    s.(threads := s.threads[t := s.threads[t].(pc := pc)])
  }

  ghost function TakeStep(s: State, t: Tid, r: Rec): State {
    if t in s.threads && s.threads[t].pc.Pop? && IsLeast(s.queued, t, r) then
      At(s.(queued := s.queued - multiset{r}), t, Decrement(r))
    else s
  }

  ghost function MissStep(s: State, t: Tid): State {
    if t in s.threads && s.threads[t].pc.Pop? && (forall q :: q in s.queued ==> q.pid != t) then At(s, t, Leave) else s
  }

  /** Executing a record; a clone registers the child and starts its thread. */
  function ExecuteStep(s: State, t: Tid, r: Rec, seen: set<Tid>): State
    requires t in s.threads
  {
    var s' := At(s.(log := s.log + [Executed(r, seen)]), t, ReadLast(r));
    if r.child.None? then s'
    else
      var child := r.child.value;
      s'.(nThreads := s.nThreads + 1, running := s.running[child := None],
          threads := s'.threads[child := Thread(Pop, None)])
  }

  /** Counting a taken record and waiting until enough records are loaded. */
  function WaitStep(s: State, t: Tid): State
    requires t in s.threads
  {
    match s.threads[t].pc
    case Decrement(r) =>
      if r.typ < |s.counter| then
        At(s.(counter := s.counter[r.typ := Down(s.counter[r.typ])]), t, Wait(r, 0, ULONG_MAX))
      else s
    case Wait(r, k, min) =>
      if k < |s.counter| then At(s, t, Wait(r, k + 1, Min(min, s.counter[k])))
      else if min < 10 * s.nThreads then At(s, t, WaitFinished(r, 0))
      else At(s, t, Publish(r))
    case WaitFinished(r, k) =>
      if k < |s.finished| then At(s, t, if s.finished[k] then WaitFinished(r, k + 1) else Wait(r, 0, ULONG_MAX))
      else At(s, t, Publish(r))
    case _ => s
  }

  /** Publishing, retiring the previous record, and the check. */
  ghost function CheckStep(s: State, t: Tid): State
    requires t in s.threads
  {
    match s.threads[t].pc
    case Publish(r) => At(s.(running := s.running[t := Some(r)]), t, Retire(r))
    case Retire(r) =>
      var prev := s.threads[t].prev;
      s.(retired := if prev.Some? then s.retired + multiset{prev.value} else s.retired,
         threads := s.threads[t := Thread(Validate(r), None)])
    case Validate(r) =>
      if s.nThreads > 1 && !Accepted(r, s.running, s.last) then At(s, t, SetNull(r))
      else At(s, t, Execute(r, s.threads.Keys))
    case _ => s
  }

  /** What a failed check undoes. */
  function UndoStep(s: State, t: Tid): State
    requires t in s.threads
  {
    match s.threads[t].pc
    case SetNull(r) => At(s.(running := s.running[t := None]), t, Requeue(r))
    case Requeue(r) => At(s.(queued := s.queued + multiset{r}), t, Increment(r))
    case Increment(r) =>
      if r.typ < |s.counter| then At(s.(counter := s.counter[r.typ := Up(s.counter[r.typ])]), t, Pop) else s
    case _ => s
  }

  /** After the execution, and the end of the thread. */
  function EndStep(s: State, t: Tid): State
    requires t in s.threads
  {
    match s.threads[t].pc
    case ReadLast(r) => At(s, t, WriteLast(r, s.last))
    case WriteLast(r, last) =>
      s.(last := if r.uid > last then r.uid else last, threads := s.threads[t := Thread(Pop, Some(r))])
    case Leave => At(s.(running := Without(s.running, t)), t, Gone)
    case _ => s
  }

  ghost function ThreadStep(s: State, t: Tid): State {
    if t !in s.threads then s
    else
      match s.threads[t].pc
      case Decrement(_) | Wait(_, _, _) | WaitFinished(_, _) => WaitStep(s, t)
      case Execute(r, seen) => ExecuteStep(s, t, r, seen)
      case ReadLast(_) | WriteLast(_, _) | Leave => EndStep(s, t)
      case SetNull(_) | Requeue(_) | Increment(_) => UndoStep(s, t)
      case _ => CheckStep(s, t)
  }

  ghost function Fire(st: Streams, u: nat, s: State, l: Label): State
    requires u < |st| && |st[u]| > 0
  {
    match l
    case Reads => ReaderStep(st, u, s)
    case PickType(i) => PickStep(s, i)
    case Free(r) => FreeStep(s, r)
    case Take(t, r) => TakeStep(s, t, r)
    case Miss(t) => MissStep(s, t)
    case Runs(t) => ThreadStep(s, t)
  }

  /** The state after any interleaving of steps. */
  ghost function Run(st: Streams, u: nat, s: State, labels: seq<Label>): State
    requires u < |st| && |st[u]| > 0
    decreases |labels|
  {
    if labels == [] then s else Run(st, u, Fire(st, u, s, labels[0]), labels[1..])
  }

  lemma {:induction false} RunConcat(st: Streams, u: nat, s: State, a: seq<Label>, b: seq<Label>)
    requires u < |st| && |st[u]| > 0
    ensures Run(st, u, s, a + b) == Run(st, u, Run(st, u, s, a), b)
    decreases |a|
  {
    if a == [] {
      assert a + b == b;
    } else {
      assert (a + b)[1..] == a[1..] + b;
      RunConcat(st, u, Fire(st, u, s, a[0]), a[1..], b);
    }
  }

  lemma RunOne(st: Streams, u: nat, s: State, l: Label)
    requires u < |st| && |st[u]| > 0
    ensures Run(st, u, s, [l]) == Fire(st, u, s, l)
  {
  }

  lemma RunThen(st: Streams, u: nat, s: State, labels: seq<Label>, l: Label)
    requires u < |st| && |st[u]| > 0
    ensures Run(st, u, s, labels + [l]) == Fire(st, u, Run(st, u, s, labels), l)
  {
    RunConcat(st, u, s, labels, [l]);
    RunOne(st, u, Run(st, u, s, labels), l);
  }
}
