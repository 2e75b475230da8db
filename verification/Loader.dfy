/** The loader as the program writes it: one call fills the heaps from one stream, one round from all.

    The ghost field `m` is a state of the step machine. Every method moves it by steps of the reader only,
    and `Valid` ties it to the fields, so each method is a run of the machine's reader alone; only
    `BeginRound` lets a caller choose a batch size that the machine's reader would not.
  */
module Loader {
  import opened Collections
  import opened Traces
  import opened Scheduler
  import opened Places
  import opened CounterBounds
  import opened Waits
  import opened ReaderAlone
  import opened Release

  // ----- what one batch does to one type

  datatype Load = Load(read: nat, held: bool, finished: bool, counter: nat)

  /** The records of the type that are pushed. */
  function Pushed(l: Load): int {
    if l.held then l.read - 1 else l.read
  }

  /** A batch of size `b` on a stream of length `len`. */
  function Batched(l: Load, len: nat, first: bool, b: nat): Load
    requires b >= 2
  {
    if l.finished || l.counter > b * 2 then l
    else if len - l.read >= b - 1 then
      Load(l.read + (b - 1), true, false, (l.counter + (if first then 0 else 1) + (b - 2)) % WORD)
    else Load(len, false, true, LLONG_MAX)
  }

  function LoadsOf(read: seq<nat>, held: seq<bool>, finished: seq<bool>, counter: seq<nat>): (r: seq<Load>)
    requires |read| == |held| == |finished| == |counter|
    ensures |r| == |read| && forall i :: 0 <= i < |r| ==> r[i] == Load(read[i], held[i], finished[i], counter[i])
  {
    seq(|read|, i requires 0 <= i < |read| => Load(read[i], held[i], finished[i], counter[i]))
  }

  /** Batches, from the state of a type between batches: precisely one record is read and not pushed
      unless the stream is exhausted, and then all records are pushed. */
  lemma BatchedHoldsOver(l: Load, len: nat, first: bool, b: nat)
    requires b >= 2 && 1 <= l.read <= len && AtRest(len, first, l.read, l.held, l.finished)
    requires first ==> l.counter <= 1
    ensures var l' := Batched(l, len, first, b);
            && AtRest(len, false, l'.read, l'.held, l'.finished) && l.read <= l'.read <= len && Pushed(l) <= Pushed(l')
            && (l'.finished ==> Pushed(l') == len) && (!l'.finished ==> Pushed(l') == l'.read - 1)
  {
  }

  /** A batch reads nothing, finishes nothing and counts nothing exactly when the type is finished or has more
      than twice the batch loaded. */
  lemma SkippedIff(l: Load, len: nat, first: bool, b: nat)
    requires b >= 2 && 1 <= l.read <= len && AtRest(len, first, l.read, l.held, l.finished)
    ensures Batched(l, len, first, b) == l <==> l.finished || l.counter > 2 * b
    ensures !l.finished && l.counter <= 2 * b ==>
              Batched(l, len, first, b).finished || Batched(l, len, first, b).read > l.read
  {
  }

  // ----- any sequence of batch sizes

  /** The load of a type after batches of the given sizes; before each batch its counter is what the
      executors have made of it. */
  function Rounds(l: Load, len: nat, first: bool, sizes: seq<nat>, counters: seq<nat>): Load
    requires |sizes| == |counters| && forall k :: 0 <= k < |sizes| ==> sizes[k] >= 2
    decreases |sizes|
  {
    if sizes == [] then l
    else Rounds(Batched(l.(counter := counters[0]), len, first, sizes[0]), len, false, sizes[1..], counters[1..])
  }

  /** What batches of these sizes read when the stream does not end. */
  function Wanted(sizes: seq<nat>): int
    decreases |sizes|
  {
    if sizes == [] then 0 else sizes[0] - 1 + Wanted(sizes[1..])
  }

  lemma {:induction false} WantedGrows(sizes: seq<nat>)
    requires forall k :: 0 <= k < |sizes| ==> sizes[k] >= 2
    ensures Wanted(sizes) >= |sizes|
    decreases |sizes|
  {
    if sizes != [] {
      WantedGrows(sizes[1..]);
    }
  }

  /** After any number of batches, of any sizes from 2 on and whatever the executors did to the counter in
      between: one record is held over unless the stream is exhausted, and then all records are pushed. */
  lemma {:induction false} RoundsHoldOver(l: Load, len: nat, first: bool, sizes: seq<nat>, counters: seq<nat>)
    requires |sizes| == |counters| > 0 && forall k :: 0 <= k < |sizes| ==> sizes[k] >= 2
    requires 1 <= l.read <= len && AtRest(len, first, l.read, l.held, l.finished) && (first ==> counters[0] <= 1)
    ensures var l' := Rounds(l, len, first, sizes, counters);
            && AtRest(len, false, l'.read, l'.held, l'.finished) && l.read <= l'.read <= len && Pushed(l) <= Pushed(l')
            && (l'.finished ==> Pushed(l') == len) && (!l'.finished ==> Pushed(l') == l'.read - 1)
    decreases |sizes|
  {
    hide AtRest, Batched;
    var l0 := l.(counter := counters[0]);
    BatchedHoldsOver(l0, len, first, sizes[0]);
    if |sizes| > 1 {
      RoundsHoldOver(Batched(l0, len, first, sizes[0]), len, false, sizes[1..], counters[1..]);
    }
  }

  /** When no batch finds the type well filled, the batches read just what they want, to the end of the
      stream at most, and the type is marked finished exactly when they want more than there is. */
  lemma {:induction false} RoundsRead(l: Load, len: nat, first: bool, sizes: seq<nat>, counters: seq<nat>)
    requires |sizes| == |counters| && forall k :: 0 <= k < |sizes| ==> sizes[k] >= 2 && counters[k] <= sizes[k] * 2
    requires 1 <= l.read <= len && AtRest(len, first, l.read, l.held, l.finished)
    ensures var l' := Rounds(l, len, first, sizes, counters);
            && l'.read == (if l.read + Wanted(sizes) <= len then l.read + Wanted(sizes) else len)
            && (l.finished ==> l'.finished) && (!l.finished ==> (l'.finished <==> l.read + Wanted(sizes) > len))
    decreases |sizes|
  {
    WantedGrows(sizes);
    if sizes != [] {
      var l1 := Batched(l.(counter := counters[0]), len, first, sizes[0]);
      WantedGrows(sizes[1..]);
      RoundsRead(l1, len, false, sizes[1..], counters[1..]);
    }
  }

  /** After one batch of 150 records a thread, each type is exhausted or has more than a hundred records a
      thread, ten times what the executors wait for. */
  lemma BatchedFeeds(l: Load, len: nat, n: nat)
    requires n >= 1 && 450 * n < WORD && 1 <= l.read <= len && AtRest(len, false, l.read, l.held, l.finished)
    ensures var l' := Batched(l, len, false, 150 * n); l'.finished || l'.counter > 100 * n
  {
  }

  // ----- runs of the reader, step by step

  /** The fields that the loader shares with the machine. */
  ghost predicate Coupled(s: State, read: seq<nat>, held: seq<bool>, counter: seq<nat>, finished: seq<bool>,
                          queued: multiset<Rec>, first: bool, nThreads: nat, retired: multiset<Rec>) {
    && s.read == read && s.held == held && s.counter == counter && s.finished == finished && s.queued == queued
    && s.first == first && s.nThreads == nThreads && s.retired == retired
  }

  lemma PushStepIs(st: Streams, u: nat, s: State)
    requires u < |st| && |st[u]| > 0 && HoldOver(st, s) && (s.reader.PushHeld? || s.reader.PushNew?)
    ensures var s', i := ReaderStep(st, u, s), s.reader.i;
            && i < |st| == |s.read| == |s.held| && 1 <= s.read[i] <= |st[i]| && s.held[i]
            && s' == s.(held := s.held[i := false], queued := s.queued + multiset{st[i][s.read[i] - 1]},
                        reader := if s.reader.PushHeld? then IncHeld(i, s.reader.todo, s.reader.b)
                                  else IncNew(i, s.reader.count, s.reader.todo, s.reader.b))
  {
    WorkingFacts(st, s);
    hide HoldOver, RoundStep;
  }

  lemma ReadStepIs(st: Streams, u: nat, s: State)
    requires u < |st| && |st[u]| > 0 && HoldOver(st, s) && s.reader.Loop? && s.reader.count > 1
    requires s.reader.i < |st| == |s.read|
    requires s.read[s.reader.i] < |st[s.reader.i]|
    ensures var s', Loop(i, count, todo, b) := ReaderStep(st, u, s), s.reader;
            && |s.held| == |st| && !s.held[i]
            && s' == s.(read := s.read[i := s.read[i] + 1], held := s.held[i := true],
                        reader := if count - 1 != 1 then PushNew(i, count - 1, todo, b)
                                  else Scheduler.Loop(i, count - 1, todo, b))
  {
    WorkingFacts(st, s);
    hide HoldOver, RoundStep;
  }

  lemma CountStepIs(st: Streams, u: nat, s: State)
    requires u < |st| && |st[u]| > 0 && HoldOver(st, s) && (s.reader.IncHeld? || s.reader.IncNew?)
    ensures var s', i := ReaderStep(st, u, s), s.reader.i;
            && i < |st| == |s.counter|
            && s' == s.(counter := s.counter[i := Up(s.counter[i])],
                        reader := Scheduler.Loop(i, if s.reader.IncHeld? then s.reader.b else s.reader.count,
                                                 s.reader.todo, s.reader.b))
  {
    WorkingFacts(st, s);
    hide HoldOver, RoundStep, Up;
  }

  lemma FinishStepIs(st: Streams, u: nat, s: State)
    requires u < |st| && |st[u]| > 0 && HoldOver(st, s) && s.reader.SetFinished?
    ensures var s', i := ReaderStep(st, u, ReaderStep(st, u, s)), s.reader.i;
            && i < |st| == |s.counter| == |s.finished|
            && s' == s.(counter := s.counter[i := LLONG_MAX], finished := s.finished[i := true],
                        reader := Pick(s.reader.todo, s.reader.b))
  {
    WorkingFacts(st, s);
    hide HoldOver, RoundStep;
  }

  lemma PushAndCountRun(st: Streams, u: nat, s: State) returns (s': State)
    requires Sound(st, u) && Inv(st, u, s) && (s.reader.PushHeld? || s.reader.PushNew?)
    ensures Inv(st, u, s') && ReaderRun(st, u, s, [Reads, Reads], s')
    ensures var i := s.reader.i;
            && i < |st| == |s.read| == |s.held| == |s.counter| && 1 <= s.read[i] <= |st[i]| && s.held[i]
            && s' == s.(held := s.held[i := false], counter := s.counter[i := Up(s.counter[i])],
                        queued := s.queued + multiset{st[i][s.read[i] - 1]},
                        reader := Scheduler.Loop(i, if s.reader.PushHeld? then s.reader.b else s.reader.count,
                                                 s.reader.todo, s.reader.b))
  {
    hide Sound, Inv, ReaderStep, ReaderRun, Up;
    InvParts(st, u, s);
    var s1 := ReaderStep(st, u, s);
    s' := ReaderStep(st, u, s1);
    PushStepIs(st, u, s);
    ReadsKeeps(st, u, s);
    InvParts(st, u, s1);
    CountStepIs(st, u, s1);
    ReadsKeeps(st, u, s1);
    ReaderRunStep(st, u, s, Reads);
    ReaderRunStep(st, u, s1, Reads);
    ReaderRunConcat(st, u, s, [Reads], s1, [Reads], s');
    assert [Reads] + [Reads] == [Reads, Reads];
  }

  lemma FinishRun(st: Streams, u: nat, s: State) returns (s': State)
    requires Sound(st, u) && Inv(st, u, s) && s.reader.SetFinished?
    ensures Inv(st, u, s') && ReaderRun(st, u, s, [Reads, Reads], s')
    ensures var i := s.reader.i;
            && i < |st| == |s.counter| == |s.finished|
            && s' == s.(counter := s.counter[i := LLONG_MAX], finished := s.finished[i := true],
                        reader := Pick(s.reader.todo, s.reader.b))
  {
    hide Sound, Inv, ReaderStep, ReaderRun;
    InvParts(st, u, s);
    var s1 := ReaderStep(st, u, s);
    s' := ReaderStep(st, u, s1);
    FinishStepIs(st, u, s);
    ReadsKeeps(st, u, s);
    ReadsKeeps(st, u, s1);
    ReaderRunStep(st, u, s, Reads);
    ReaderRunStep(st, u, s1, Reads);
    ReaderRunConcat(st, u, s, [Reads], s1, [Reads], s');
    assert [Reads] + [Reads] == [Reads, Reads];
  }

  lemma InvParts(st: Streams, u: nat, s: State)
    requires Sound(st, u) && Inv(st, u, s)
    ensures u < |st| && |st[u]| > 0 && HoldOver(st, s)
  {
  }

  lemma RunKeepsBoundsTo(st: Streams, u: nat, s: State, labels: seq<Label>, s': State)
    requires Sound(st, u) && Inv(st, u, s) && Bounded(st, s) && u < |st| && |st[u]| > 0
    requires ReaderRun(st, u, s, labels, s')
    ensures Bounded(st, s')
  {
    hide Sound, Inv, Bounded, Run;
    RunKeepsBounds(st, u, s, labels);
  }

  /** How a turn of the reader's loop ended. */
  datatype TurnEnd = Over | Waited | Refilled

  class SyscallLoader {
    const st: Streams
    const u: nat                            // the index of the umask module
    var read: seq<nat>
    var held: seq<bool>
    const numberOfSyscalls: array<nat>
    const finishedModules: array<bool>
    var executionHeaps: multiset<Rec>
    var isFirstBatch: bool
    var nThreads: nat
    var allocationQueue: multiset<Rec>
    ghost var m: State

    ghost predicate Valid()
      reads this, numberOfSyscalls, finishedModules
    {
      && Sound(st, u) && Inv(st, u, m) && numberOfSyscalls.Length == finishedModules.Length == |st|
      && (forall i :: 0 <= i < numberOfSyscalls.Length ==> numberOfSyscalls[i] < WORD)
      && Coupled(m, read, held, numberOfSyscalls[..], finishedModules[..], executionHeaps, isFirstBatch, nThreads,
                 allocationQueue)
    }

    /** One entry for each stream. */
    ghost predicate Sized()
      reads `read, `held
    {
      numberOfSyscalls.Length == finishedModules.Length == |read| == |held| == |st|
    }

    ghost function LoadOf(i: nat): Load
      reads `read, `held, numberOfSyscalls, finishedModules
      requires i < |read| && i < |held| && i < finishedModules.Length && i < numberOfSyscalls.Length
    {
      Load(read[i], held[i], finishedModules[i], numberOfSyscalls[i])
    }

    /** `executionHeaps[...].push(ptr)` for the record read last, and the counter. */
    method PushAndCount(i: nat) returns (ghost labels: seq<Label>)
      requires Valid() && (m.reader.PushHeld? || m.reader.PushNew?) && m.reader.i == i
      modifies `executionHeaps, `held, numberOfSyscalls, `m
      ensures Valid() && ReaderRun(st, u, old(m), labels, m)
      ensures i < |st| && 1 <= read[i] <= |st[i]| && read == old(read) && old(held[i]) && held == old(held)[i := false]
      ensures numberOfSyscalls[..] == old(numberOfSyscalls[..])[i := Up(old(numberOfSyscalls[i]))]
      ensures executionHeaps == old(executionHeaps) + multiset{st[i][read[i] - 1]}
      ensures var r := old(m.reader); m.reader == Scheduler.Loop(i, if r.PushHeld? then r.b else r.count, r.todo, r.b)
    {
      hide Inv, Sound, ReaderRun, Up;
      ghost var m' := PushAndCountRun(st, u, m);
      labels := [Reads, Reads];
      executionHeaps := executionHeaps + multiset{st[i][read[i] - 1]};
      held := held[i := false];
      numberOfSyscalls[i] := Up(numberOfSyscalls[i]);
      UpIsWord(old(numberOfSyscalls[i]));
      m := m';
    }

    /** `prepareRow()` reads the next record. */
    method PrepareRow(i: nat) returns (ghost labels: seq<Label>)
      requires Valid() && m.reader.Loop? && m.reader.i == i && m.reader.count > 1 && i < |st| == |read|
      requires read[i] < |st[i]|
      modifies `read, `held, `m
      ensures Valid() && ReaderRun(st, u, old(m), labels, m)
      ensures i < |held| && read == old(read)[i := old(read[i]) + 1] && held == old(held)[i := true] && !old(held[i])
      ensures var Loop(_, count, todo, b) := old(m.reader);
              m.reader ==
                  if count - 1 != 1 then PushNew(i, count - 1, todo, b) else Scheduler.Loop(i, count - 1, todo, b)
    {
      hide Inv, Sound, ReaderStep, ReaderRun;
      InvParts(st, u, m);
      ReadStepIs(st, u, m);
      ReadsKeeps(st, u, m);
      ReaderRunStep(st, u, m, Reads);
      labels := [Reads];
      read := read[i := read[i] + 1];
      held := held[i := true];
      m := ReaderStep(st, u, m);
    }

    /** The end of a stream. */
    method Finish(i: nat) returns (ghost labels: seq<Label>)
      requires Valid() && m.reader.SetFinished? && m.reader.i == i
      modifies numberOfSyscalls, finishedModules, `m
      ensures Valid() && ReaderRun(st, u, old(m), labels, m) && m.reader == Pick(old(m.reader.todo), old(m.reader.b))
      ensures i < |st|
      ensures finishedModules[..] == old(finishedModules[..])[i := true]
      ensures numberOfSyscalls[..] == old(numberOfSyscalls[..])[i := LLONG_MAX]
    {
      hide Inv, Sound, ReaderRun;
      ghost var m' := FinishRun(st, u, m);
      labels := [Reads, Reads];
      finishedModules[i] := true;
      numberOfSyscalls[i] := LLONG_MAX;
      m := m';
    }

    /** Reading stops at the end of the stream. */
    ghost method Exhausted(i: nat) returns (labels: seq<Label>)
      requires Valid() && m.reader.Loop? && m.reader.i == i && m.reader.count > 1 && i < |st| == |read|
      requires read[i] >= |st[i]|
      modifies `m
      ensures Valid() && ReaderRun(st, u, old(m), labels, m)
      ensures m.reader == SetFinished(i, old(m.reader.todo), old(m.reader.b))
    {
      hide Inv, Sound, ReaderRun;
      InvParts(st, u, m);
      ReadsKeeps(st, u, m);
      ReaderRunStep(st, u, m, Reads);
      labels := [Reads];
      m := ReaderStep(st, u, m);
    }

    /** The loop counter is used up. */
    ghost method LoopEnds(i: nat) returns (labels: seq<Label>)
      requires Valid() && m.reader.Loop? && m.reader.i == i && m.reader.count == 1
      modifies `m
      ensures Valid() && ReaderRun(st, u, old(m), labels, m) && m.reader == Pick(old(m.reader.todo), old(m.reader.b))
    {
      hide Inv, Sound, ReaderRun;
      InvParts(st, u, m);
      ReadsKeeps(st, u, m);
      ReaderRunStep(st, u, m, Reads);
      labels := [Reads];
      m := ReaderStep(st, u, m);
    }

    /** One turn of the loop that finds a record: it is read, and pushed unless it is the last. */
    method Fetch(i: nat, count: nat) returns (ghost labels: seq<Label>)
      requires Valid() && Sized() && i < |st| && count > 0 && read[i] < |st[i]|
      requires m.reader.Loop? && m.reader.i == i && m.reader.count == count + 1
      modifies `read, `held, `executionHeaps, numberOfSyscalls, `m
      ensures Valid() && Sized() && ReaderRun(st, u, old(m), labels, m)
      ensures m.reader == Scheduler.Loop(i, count, old(m.reader.todo), old(m.reader.b))
      ensures LoadOf(i) == Fetched(old(LoadOf(i)), count)
      ensures forall j :: 0 <= j < |st| && j != i ==> LoadOf(j) == old(LoadOf(j))
      ensures executionHeaps == old(executionHeaps) + (if count == 1 then multiset{} else multiset{st[i][old(read[i])]})
    {
      hide Inv, Sound, ReaderRun, Up;
      InvParts(st, u, m);
      ghost var m0 := m;
      labels := PrepareRow(i);
      if count != 1 {
        ghost var m1 := m;
        ghost var more := PushAndCount(i);
        ReaderRunConcat(st, u, m0, labels, m1, more, m);
        labels := labels + more;
      }
    }

    /** One turn of the loop that finds the stream exhausted. */
    method Exhaust(i: nat) returns (ghost labels: seq<Label>)
      requires Valid() && Sized() && i < |st| && m.reader.Loop? && m.reader.i == i && m.reader.count > 1
      requires read[i] == |st[i]| && !held[i]
      modifies numberOfSyscalls, finishedModules, `m
      ensures Valid() && Sized() && ReaderRun(st, u, old(m), labels, m)
      ensures m.reader == Pick(old(m.reader.todo), old(m.reader.b))
      ensures LoadOf(i) == Load(|st[i]|, false, true, LLONG_MAX)
      ensures forall j :: 0 <= j < |st| && j != i ==> LoadOf(j) == old(LoadOf(j))
    {
      hide Inv, Sound, ReaderRun;
      InvParts(st, u, m);
      ghost var m0 := m;
      labels := Exhausted(i);
      ghost var m1 := m;
      ghost var more := Finish(i);
      ReaderRunConcat(st, u, m0, labels, m1, more, m);
      labels := labels + more;
    }

    /** One turn of the loop, in a run of the reader that began at `m0`. */
    method Turn(i: nat, count: nat, ghost m0: State, ghost before: seq<Label>)
      returns (more: bool, ghost labels: seq<Label>)
      requires Valid() && Sized() && i < |st| && count > 0 && u < |st| && |st[u]| > 0 && ReaderRun(st, u, m0, before, m)
      requires m.reader.Loop? && m.reader.i == i && m.reader.count == count + 1 && !held[i] && read[i] <= |st[i]|
      modifies numberOfSyscalls, finishedModules, `read, `held, `executionHeaps, `m
      ensures Valid() && Sized() && ReaderRun(st, u, m0, labels, m) && (more <==> old(read[i]) < |st[i]|)
      ensures m.reader == if more then Scheduler.Loop(i, count, old(m.reader.todo), old(m.reader.b))
                          else Pick(old(m.reader.todo), old(m.reader.b))
      ensures LoadOf(i) == if more then Fetched(old(LoadOf(i)), count) else Load(|st[i]|, false, true, LLONG_MAX)
      ensures forall j :: 0 <= j < |st| && j != i ==> LoadOf(j) == old(LoadOf(j))
      ensures executionHeaps ==
          old(executionHeaps) + (if more && count > 1 then multiset{st[i][old(read[i])]} else multiset{})
    {
      hide Valid, ReaderRun, Fetched;
      ghost var m1 := m;
      more := read[i] < |st[i]|;
      if more {
        labels := Fetch(i, count);
      } else {
        labels := Exhaust(i);
      }
      ReaderRunConcat(st, u, m0, before, m1, labels, m);
      labels := before + labels;
    }

    /** The loop of a batch that began with the type at `l0` and the heaps at `q0` has read `k` records. */
    ghost predicate Filling(i: nat, l0: Load, q0: multiset<Rec>, k: nat, last: bool)
      requires Sized() && i < |st|
      reads `read, `held, `executionHeaps, numberOfSyscalls, finishedModules
    {
      && LoadOf(i) == Progress(l0, k, last) && l0.read <= Pushed(LoadOf(i)) <= read[i] <= |st[i]| && !l0.held
      && !l0.finished
      && executionHeaps == q0 + multiset(st[i][l0.read..Pushed(LoadOf(i))])
    }

    /** The result of the whole loop. */
    ghost predicate FilledTo(i: nat, l0: Load, q0: multiset<Rec>, b: nat)
      requires Sized() && i < |st| && b >= 2
      reads `read, `held, `executionHeaps, numberOfSyscalls, finishedModules
    {
      && LoadOf(i) == Filled(l0, |st[i]|, b) && l0.read <= Pushed(LoadOf(i)) <= |st[i]|
      && executionHeaps == q0 + multiset(st[i][l0.read..Pushed(LoadOf(i))])
    }

    /** One turn of the loop keeps the account, or completes it. */
    method FillTurn(i: nat, b: nat, count: nat, ghost l0: Load, ghost q0: multiset<Rec>, ghost m0: State,
                    ghost before: seq<Label>)
      returns (more: bool, ghost labels: seq<Label>)
      requires Valid() && Sized() && i < |st| && b >= 2 && 0 < count < b && u < |st| && |st[u]| > 0
      requires ReaderRun(st, u, m0, before, m)
      requires m.reader.Loop? && m.reader.i == i && m.reader.count == count + 1
      requires Filling(i, l0, q0, b - 1 - count, false)
      modifies numberOfSyscalls, finishedModules, `read, `held, `executionHeaps, `m
      ensures Valid() && Sized() && ReaderRun(st, u, m0, labels, m)
      ensures m.reader == if more then Scheduler.Loop(i, count, old(m.reader.todo), old(m.reader.b))
                          else Pick(old(m.reader.todo), old(m.reader.b))
      ensures if more then Filling(i, l0, q0, b - count, count == 1) else FilledTo(i, l0, q0, b)
      ensures forall j :: 0 <= j < |st| && j != i ==> LoadOf(j) == old(LoadOf(j))
    {
      hide Valid, ReaderRun, Fetched, Filled, Batched;
      if read[i] < |st[i]| {
        SliceGrows(st[i], l0.read, read[i]);
      }
      ProgressStep(l0, b - 1 - count, count);
      more, labels := Turn(i, count, m0, before);
      if !more {
        FilledStops(l0, |st[i]|, b);
      }
    }

    lemma FillBegins(i: nat)
      requires Sized() && i < |st| && !held[i] && !finishedModules[i] && read[i] <= |st[i]|
      requires numberOfSyscalls[i] < WORD
      ensures Filling(i, LoadOf(i), executionHeaps, 0, false)
    {
    }

    lemma FillingEnds(i: nat, l0: Load, q0: multiset<Rec>, b: nat)
      requires Sized() && i < |st| && b >= 2 && Filling(i, l0, q0, b - 1, true)
      ensures FilledTo(i, l0, q0, b)
    {
    }

    /** The loop of a batch, to the next type. */
    method Fill(i: nat, batchSize: nat) returns (ghost labels: seq<Label>)
      requires Valid() && Sized() && i < |st| && batchSize >= 2
      requires m.reader.Loop? && m.reader.i == i && m.reader.count == batchSize && !held[i] && !finishedModules[i]
      requires read[i] <= |st[i]|
      modifies numberOfSyscalls, finishedModules, `read, `held, `executionHeaps, `m
      ensures Valid() && Sized() && ReaderRun(st, u, old(m), labels, m)
      ensures m.reader == Pick(old(m.reader.todo), old(m.reader.b))
      ensures FilledTo(i, old(LoadOf(i)), old(executionHeaps), batchSize)
      ensures forall j :: 0 <= j < |st| && j != i ==> LoadOf(j) == old(LoadOf(j))
    {
      hide Valid, ReaderRun, Filling, FilledTo;
      labels := [];
      ghost var m0, l0, q0 := m, LoadOf(i), executionHeaps;
      CountsAWord(i);
      FillBegins(i);
      ReaderRunNone(st, u, m0);
      var count, more := batchSize - 1, true;
      while count != 0
        invariant 0 <= count < batchSize && Valid() && Sized() && ReaderRun(st, u, m0, labels, m)
        invariant m.reader == Scheduler.Loop(i, count + 1, m0.reader.todo, m0.reader.b)
        invariant Filling(i, l0, q0, batchSize - 1 - count, count == 0)
        invariant forall j :: 0 <= j < |st| && j != i ==> LoadOf(j) == old(LoadOf(j))
        decreases count
      {
        more, labels := FillTurn(i, batchSize, count, l0, q0, m0, labels);
        if !more {
          return;
        }
        count := count - 1;
      }
      FillingEnds(i, l0, q0, batchSize);
      ghost var m1 := m;
      ghost var last := LoopEnds(i);
      ReaderRunConcat(st, u, m0, labels, m1, last, m);
      labels := labels + last;
    }

    /** The reader turns to a type. */
    ghost method TurnTo(i: nat) returns (labels: seq<Label>)
      requires Valid() && Sized() && m.reader.Pick? && i in m.reader.todo
      modifies `m
      ensures Valid() && Sized() && ReaderRun(st, u, old(m), labels, m) && i < |st| && u < |st| && |st[u]| > 0
      ensures 1 <= read[i] <= |st[i]| && numberOfSyscalls[i] < WORD
      ensures !finishedModules[i] ==> (held[i] <==> !isFirstBatch)
      ensures var Pick(todo, b) := old(m.reader);
              m.reader == if finishedModules[i] || numberOfSyscalls[i] > b * 2 then Pick(todo - {i}, b)
                          else if isFirstBatch then Scheduler.Loop(i, b, todo - {i}, b) else PushHeld(i, todo - {i}, b)
    {
      hide Inv, Sound, ReaderRun;
      InvParts(st, u, m);
      m := PickRun(st, u, m, i);
      labels := [PickType(i)];
    }

    /** `batch_syscall_modules` for one type: it is skipped when finished or well filled; otherwise the
        record held over is pushed, and the loop fills the heaps. */
    method BatchSyscallModules(i: nat, isFirstTime: bool, batchSize: nat) returns (ghost labels: seq<Label>)
      requires Valid() && Sized() && m.reader.Pick? && i in m.reader.todo && m.reader.b == batchSize
      requires isFirstTime == isFirstBatch && batchSize >= 2
      modifies numberOfSyscalls, finishedModules, `read, `held, `executionHeaps, `m
      ensures Valid() && Sized() && ReaderRun(st, u, old(m), labels, m)
      ensures m.reader == Pick(old(m.reader.todo) - {i}, batchSize) && i < |st|
      ensures LoadOf(i) == Batched(old(LoadOf(i)), |st[i]|, isFirstTime, batchSize)
      ensures forall j :: 0 <= j < |st| && j != i ==> LoadOf(j) == old(LoadOf(j))
      ensures 0 <= Pushed(old(LoadOf(i))) <= Pushed(LoadOf(i)) <= |st[i]|
      ensures executionHeaps == old(executionHeaps) + multiset(st[i][Pushed(old(LoadOf(i)))..Pushed(LoadOf(i))])
    {
      hide Valid, ReaderRun, Filled;
      ghost var m0 := m;
      labels := TurnTo(i);
      ghost var m1, l0 := m, LoadOf(i);
      if finishedModules[i] || numberOfSyscalls[i] > batchSize * 2 {
        return;
      }
      if !isFirstTime {
        ghost var more := PushAndCount(i);
        ReaderRunConcat(st, u, m0, labels, m1, more, m);
        labels := labels + more;
      }
      ghost var m2, l2 := m, LoadOf(i);
      ghost var fill := Fill(i, batchSize);
      ReaderRunConcat(st, u, m0, labels, m2, fill, m);
      labels := labels + fill;
      BatchedFills(l0, l2, |st[i]|, isFirstTime, batchSize);
      if !isFirstTime {
        SliceJoins(st[i], l0.read - 1, l0.read, Pushed(LoadOf(i)));
      }
    }

    /** After the first round `isFirstBatch` is cleared. */
    method EndRound() returns (ghost labels: seq<Label>)
      requires Valid() && Sized() && m.reader.Pick? && m.reader.todo == {}
      modifies `isFirstBatch, `m
      ensures Valid() && Sized() && ReaderRun(st, u, old(m), labels, m) && m.reader == Round && !isFirstBatch
    {
      hide Inv, Sound, ReaderRun;
      InvParts(st, u, m);
      ghost var m' := EndRoundRun(st, u, m);
      isFirstBatch := false;
      m := m';
      labels := [Reads];
    }

    ghost function Loads(): (r: seq<Load>)
      requires Sized()
      reads `read, `held, numberOfSyscalls, finishedModules
      ensures |r| == |st| && forall i :: 0 <= i < |st| ==> r[i] == LoadOf(i)
    {
      LoadsOf(read, held, finishedModules[..], numberOfSyscalls[..])
    }

    /** Part of a round: the types not in `todo` have had their batch, and the heaps have what they pushed. */
    ghost predicate Visited(from: seq<Load>, first: bool, b: nat, todo: set<nat>, q0: multiset<Rec>)
      requires Sized() && b >= 2
      reads `read, `held, `executionHeaps, numberOfSyscalls, finishedModules
    {
      && |from| == |st| && HeapsGrown(st, from, Loads(), q0, executionHeaps)
      && forall i :: 0 <= i < |st| ==> LoadOf(i) == if i in todo then from[i] else Batched(from[i], |st[i]|, first, b)
    }

    /** One turn of the loop over the types. */
    method VisitType(i: nat, b: nat, ghost from: seq<Load>, ghost q0: multiset<Rec>) returns (ghost labels: seq<Label>)
      requires Valid() && Sized() && m.reader.Pick? && m.reader.b == b && i in m.reader.todo && b >= 2
      requires Visited(from, isFirstBatch, b, m.reader.todo, q0)
      modifies numberOfSyscalls, finishedModules, `read, `held, `executionHeaps, `m
      ensures Valid() && Sized() && ReaderRun(st, u, old(m), labels, m) && m.reader == Pick(old(m.reader.todo) - {i}, b)
      ensures Visited(from, isFirstBatch, b, m.reader.todo, q0)
    {
      hide Valid, ReaderRun, Batched, HeapsGrown, Pushed, Sound;
      ghost var before, q1 := Loads(), executionHeaps;
      ValidParts();
      labels := BatchSyscallModules(i, isFirstBatch, b);
      HeapsGrow(st, u, from, before, Loads(), q0, q1, executionHeaps, i);
    }

    /** `batch_for_all_syscalls`: one batch for every type, in any order. */
    method BatchForAllSyscalls(batchSize: nat) returns (ghost labels: seq<Label>)
      requires Valid() && Sized() && m.reader == Pick(Upto(|st|), batchSize) && batchSize >= 2
      modifies numberOfSyscalls, finishedModules, `read, `held, `executionHeaps, `isFirstBatch, `m
      ensures Valid() && Sized() && ReaderRun(st, u, old(m), labels, m) && m.reader == Round && !isFirstBatch
      ensures Visited(old(Loads()), old(isFirstBatch), batchSize, {}, old(executionHeaps))
    {
      hide Valid, ReaderRun, Visited, Sound, Loads, LoadsOf;
      labels := [];
      ghost var m0, from, first, q0 := m, Loads(), isFirstBatch, executionHeaps;
      NoneVisited(batchSize);
      ValidParts();
      ReaderRunNone(st, u, m0);
      var todo := Upto(|st|);
      while todo != {}
        invariant Valid() && Sized() && ReaderRun(st, u, m0, labels, m) && m.reader == Pick(todo, batchSize)
        invariant isFirstBatch == first && Visited(from, first, batchSize, todo, q0)
        decreases |todo|
      {
        ghost var some := Member(todo);
        var i :| i in todo;
        ghost var m1 := m;
        ghost var more := VisitType(i, batchSize, from, q0);
        ReaderRunConcat(st, u, m0, labels, m1, more, m);
        labels := labels + more;
        todo := todo - {i};
      }
      ghost var m1 := m;
      ghost var last := EndRound();
      ReaderRunConcat(st, u, m0, labels, m1, last, m);
      labels := labels + last;
    }

    /** Between rounds every unfinished type has one record in hand. */
    ghost predicate BetweenRounds()
      requires Sized()
      reads `read, `held, finishedModules
    {
      forall i :: 0 <= i < |st| ==>
          1 <= read[i] <= |st[i]| && AtRest(|st[i]|, false, read[i], held[i], finishedModules[i])
    }

    lemma RestsBetweenRounds()
      requires Valid() && Sized() && Working(m.reader).None? && !isFirstBatch
      ensures BetweenRounds()
    {
      InvParts(st, u, m);
      forall i | 0 <= i < |st|
        ensures 1 <= read[i] <= |st[i]| && AtRest(|st[i]|, false, read[i], held[i], finishedModules[i])
      {
        assert 1 <= m.read[i] <= |st[i]|;
        assert AtRest(|st[i]|, m.first && i in Todo(m.reader), m.read[i], m.held[i], m.finished[i]);
      }
      hide Inv, Sound, AtRest;
    }

    /** A round can have any batch size: nothing that the machine keeps depends on it. */
    ghost method BeginRound(batchSize: nat)
      requires Valid() && Sized() && m.reader == Round && !isFirstBatch && batchSize >= 2
      modifies `m
      ensures Valid() && Sized() && m == old(m).(reader := Pick(Upto(|st|), batchSize))
    {
      hide Sound;
      InvParts(st, u, m);
      var m' := m.(reader := Pick(Upto(|st|), batchSize));
      hide HoldOver, TableOk, OnePlace, LogExact, Still;
      IdleKeepsHoldOver(st, m, m');
      SameThreadsKeepTable(st, u, m, m');
      SamePlaces(st, u, m, m');
      StillKeeps(st, u, m, m');
      m := m';
    }

    /** The reader makes steps that change nothing but where it is. */
    ghost method ReaderMoves(labels: seq<Label>, m': State)
      requires Valid() && u < |st| && |st[u]| > 0 && ReaderRun(st, u, m, labels, m') && m' == m.(reader := m'.reader)
      modifies `m
      ensures Valid() && m == m'
    {
      hide Sound, Inv, Run;
      RunKeeps(st, u, m, labels);
      m := m';
    }

    /** A round of the reader. When it is over no executor has a reason to wait: every counter is high, those
        of exhausted types too. */
    method Refill() returns (ghost labels: seq<Label>)
      requires Valid() && Sized() && Bounded(st, m) && Small(st, nThreads) && !isFirstBatch
      requires m.reader == Pick(Upto(|st|), 150 * nThreads)
      modifies numberOfSyscalls, finishedModules, `read, `held, `executionHeaps, `isFirstBatch, `m
      ensures Valid() && Sized() && Bounded(st, m) && ReaderRun(st, u, old(m), labels, m) && m.reader == Round
      ensures BetweenRounds()
      ensures forall i :: 0 <= i < |st| ==> numberOfSyscalls[i] > 100 * nThreads
    {
      hide Valid, Sound, Inv, Run, HeapsGrown, Batched, AtRest, Bounded;
      ghost var from, m0 := Loads(), m;
      ValidParts();
      RestsBetweenRounds();
      labels := BatchForAllSyscalls(150 * nThreads);
      RestsBetweenRounds();
      RunKeepsBounds(st, u, m0, labels);
      forall i | 0 <= i < |st|
        ensures numberOfSyscalls[i] > 100 * nThreads
      {
        BatchedFeeds(from[i], |st[i]|, nThreads);
        assert LoadOf(i) == Batched(from[i], |st[i]|, false, 150 * nThreads);
        if finishedModules[i] {
          ExhaustedIsHigh(i);
        }
      }
    }

    lemma ExhaustedIsHigh(i: nat)
      requires Valid() && Sized() && Bounded(st, m) && Small(st, nThreads) && i < |st| && finishedModules[i]
      requires !m.reader.SetMax?
      ensures numberOfSyscalls[i] > 100 * nThreads
    {
      hide Inv, Sound, Bounded;
      CappedStaysHigh(st, u, m, i);
    }

    lemma RetiredIsShared()
      requires Valid()
      ensures m.retired == allocationQueue
    {
      hide Inv, Sound;
    }

    /** A retired record is popped and deleted. */
    method DeleteOne() returns (ghost labels: seq<Label>)
      requires Valid() && Sized() && m.reader.Drain? && allocationQueue != multiset{}
      modifies `allocationQueue, `m
      ensures Valid() && Sized() && u < |st| && |st[u]| > 0 && ReaderRun(st, u, old(m), labels, m)
      ensures |allocationQueue| == old(|allocationQueue|) - 1
      ensures m == old(m).(retired := allocationQueue, freed := m.freed)
      ensures m.freed + allocationQueue == old(m.freed + m.retired)
    {
      hide Sound, Inv, ReaderRun, Run;
      ValidParts();
      RetiredIsShared();
      var executeReplayer :| executeReplayer in allocationQueue;
      ghost var m' := FreeRun(st, u, m, executeReplayer);
      labels := [Free(executeReplayer)];
      allocationQueue := allocationQueue - multiset{executeReplayer};
      m := m';
    }

    /** The inner loop of the wait: the deletion queue is emptied. */
    method EmptyAllocationQueue() returns (ghost labels: seq<Label>)
      requires Valid() && Sized() && m.reader.Drain?
      modifies `allocationQueue, `m
      ensures Valid() && Sized() && ReaderRun(st, u, old(m), labels, m) && allocationQueue == multiset{}
      ensures m == old(m).(reader := MinScan(0, ULONG_MAX), retired := multiset{}, freed := old(m.freed + m.retired))
    {
      hide Valid, Sound, Inv, ReaderRun, Run;
      ghost var m0 := m;
      ValidParts();
      RetiredIsShared();
      labels := [];
      ReaderRunNone(st, u, m0);
      while allocationQueue != multiset{}
        invariant Valid() && Sized() && ReaderRun(st, u, m0, labels, m) && u < |st| && |st[u]| > 0
        invariant m == m0.(retired := allocationQueue, freed := m.freed)
        invariant m.freed + allocationQueue == m0.freed + m0.retired
        decreases |allocationQueue|
      {
        ghost var m1 := m;
        ghost var more := DeleteOne();
        ReaderRunConcat(st, u, m0, labels, m1, more, m);
        labels := labels + more;
      }
      ghost var m1, m2 := m, m.(reader := MinScan(0, ULONG_MAX));
      ReaderRunStep(st, u, m, Reads);
      ReaderMoves([Reads], m2);
      ReaderRunConcat(st, u, m0, labels, m1, [Reads], m);
      labels := labels + [Reads];
      assert m.freed + multiset{} == m.freed;
    }

    /** One turn of the loop of `readerThread`, without a step of an executor: it ends when all streams are
        exhausted; it deletes retired records while every counter is high; and otherwise it makes a round.
        However it goes, every counter is high when it is over. */
    method ReaderThread() returns (turn: TurnEnd, ghost labels: seq<Label>)
      requires Valid() && Sized() && Bounded(st, m) && Small(st, nThreads) && !isFirstBatch && m.reader == Round
      modifies numberOfSyscalls, finishedModules, `read, `held, `executionHeaps, `isFirstBatch, `allocationQueue, `m
      ensures Valid() && Sized() && Bounded(st, m) && ReaderRun(st, u, old(m), labels, m)
      ensures turn.Over? <==> forall i :: 0 <= i < |st| ==> old(finishedModules[i])
      ensures turn.Over? ==> m == old(m).(reader := Stopped)
      ensures turn.Waited? ==> allocationQueue == multiset{} && numberOfSyscalls[..] == old(numberOfSyscalls[..])
      ensures turn.Refilled? ==> m.reader == Round && BetweenRounds() && allocationQueue == old(allocationQueue)
      ensures turn.Refilled? ==> exists i :: 0 <= i < |st| && old(numberOfSyscalls[i]) <= 100 * nThreads
      ensures forall i :: 0 <= i < |st| ==> numberOfSyscalls[i] > 100 * nThreads
    {
      hide Sound, Inv, Bounded, Run, ReaderRun, Small;
      ghost var m0 := m;
      ValidParts();
      var isAllFinished := CheckModulesFinished();
      if isAllFinished {
        turn, labels := Over, [Reads];
        ReaderRunStep(st, u, m, Reads);
        ReaderMoves(labels, m.(reader := Stopped));
        RunKeepsBoundsTo(st, u, m0, labels, m);
        forall i | 0 <= i < |st|
          ensures numberOfSyscalls[i] > 100 * nThreads
        {
          ExhaustedIsHigh(i);
        }
        return;
      }
      var min := GetMinSyscall();
      labels := ScanCounters(min > 100 * nThreads);
      RunKeepsBoundsTo(st, u, m0, labels, m);
      ghost var m1, more := m, [];
      if min > 100 * nThreads {
        turn := Waited;
        more := EmptyAllocationQueue();
      } else {
        turn := Refilled;
        more := Refill();
      }
      ReaderRunConcat(st, u, m0, labels, m1, more, m);
      labels := labels + more;
      RunKeepsBoundsTo(st, u, m0, labels, m);
    }

    /** The steps of the machine for one evaluation of the condition of the wait. */
    ghost method ScanCounters(high: bool) returns (labels: seq<Label>)
      requires Valid() && Sized() && Small(st, nThreads) && m.reader == Round && !AllFinished(m)
      requires high <==> forall i :: 0 <= i < |st| ==> numberOfSyscalls[i] > 100 * nThreads
      modifies `m
      ensures Valid() && Sized() && u < |st| && |st[u]| > 0 && ReaderRun(st, u, old(m), labels, m)
      ensures m == old(m).(reader := if high then Drain else Pick(Upto(|st|), 150 * nThreads))
    {
      hide Sound, Inv, Run, ReaderRun, Upto, Repeat;
      ValidParts();
      var m0, m1 := m, m.(reader := MinScan(0, ULONG_MAX));
      ReaderRunStep(st, u, m0, Reads);
      ReaderWaitsIff(st, u, m1);
      RepeatIsReader(|m1.counter|);
      var scan := Repeat(Reads, |m1.counter|) + [Reads];
      OneMore(Repeat(Reads, |m1.counter|));
      RunIs(st, u, m1, scan);
      assert AllHigh(m1) <==> high;
      ReaderMoves([Reads], m1);
      ReaderMoves(scan, Run(st, u, m1, scan));
      ReaderRunConcat(st, u, m0, [Reads], m1, scan, m);
      labels := [Reads] + scan;
    }

    /** `checkModulesFinished` */
    method CheckModulesFinished() returns (all: bool)
      ensures all <==> forall i :: 0 <= i < finishedModules.Length ==> finishedModules[i]
    {
      all := true;
      for i := 0 to finishedModules.Length
        invariant all <==> forall j :: 0 <= j < i ==> finishedModules[j]
      {
        all := all && finishedModules[i];
      }
    }

    /** `getMinSyscall` */
    method GetMinSyscall() returns (min: nat)
      requires forall i :: 0 <= i < numberOfSyscalls.Length ==> numberOfSyscalls[i] < WORD
      ensures forall i :: 0 <= i < numberOfSyscalls.Length ==> min <= numberOfSyscalls[i]
      ensures numberOfSyscalls.Length > 0 ==> exists i :: 0 <= i < numberOfSyscalls.Length && min == numberOfSyscalls[i]
    {
      min := ULONG_MAX;
      ghost var at := 0;
      for i := 0 to numberOfSyscalls.Length
        invariant min <= ULONG_MAX && forall j :: 0 <= j < i ==> min <= numberOfSyscalls[j]
        invariant i > 0 ==> 0 <= at < i && min == numberOfSyscalls[at]
        invariant i == 0 ==> min == ULONG_MAX
      {
        at := if i > 0 && min <= numberOfSyscalls[i] then at else i;
        min := Min(min, numberOfSyscalls[i]);
      }
    }

    // ----- the start

    /** No batch and no thread has run. */
    ghost predicate Unused()
      reads `isFirstBatch, `nThreads, `allocationQueue
    {
      isFirstBatch && nThreads == 1 && allocationQueue == multiset{}
    }

    /** After `load_syscall_modules`: the first record of each type is read and pushed. */
    ghost predicate Loaded()
      reads this, numberOfSyscalls, finishedModules
    {
      && Sound(st, u) && Sized() && Unused()
      && (forall i :: 0 <= i < |st| ==> LoadOf(i) == Load(1, false, false, 1))
      && executionHeaps == multiset(FirstRecords(st, |st|))
    }

    constructor (st: Streams, u: nat)
      requires Sound(st, u)
      ensures this.st == st && this.u == u && fresh(numberOfSyscalls) && fresh(finishedModules)
      ensures Sized() && Unused() && executionHeaps == multiset{}
      ensures forall i :: 0 <= i < |st| ==> read[i] == 0 && !held[i]
    {
      this.st, this.u := st, u;
      read, held := seq(|st|, _ => 0), seq(|st|, _ => false);
      numberOfSyscalls, finishedModules := new nat[|st|], new bool[|st|];
      executionHeaps, isFirstBatch, nThreads, allocationQueue := multiset{}, true, 1, multiset{};
    }

    /** `load_syscall_modules`: each module reads its first record and pushes it. */
    method LoadSyscallModules()
      requires Sound(st, u) && Sized() && Unused() && executionHeaps == multiset{}
      requires forall i :: 0 <= i < |st| ==> read[i] == 0 && !held[i]
      modifies numberOfSyscalls, finishedModules, `read, `executionHeaps
      ensures Loaded()
    {
      hide Sound, FirstRecords, Upto;
      FirstFacts(st, u);
      NoFirstRecords(st);
      for i := 0 to |st|
        invariant |read| == |st| && forall j :: 0 <= j < i ==> read[j] == 1
        invariant executionHeaps == multiset(FirstRecords(st, i))
      {
        read := read[i := 1];
        FirstIsNew(st, u, i);
        executionHeaps := executionHeaps + multiset{st[i][0]};
      }
      FillCounters();
    }

    /** The arrays of the counters and the flags get their first values. */
    method FillCounters()
      requires numberOfSyscalls.Length == finishedModules.Length == |st|
      modifies numberOfSyscalls, finishedModules
      ensures forall i :: 0 <= i < |st| ==> numberOfSyscalls[i] == 1 && !finishedModules[i]
    {
      forall i | 0 <= i < |st| {
        numberOfSyscalls[i] := 1;
      }
      forall i | 0 <= i < |st| {
        finishedModules[i] := false;
      }
    }

    /** `prepare_replay`: the umask record 0 leaves the heap of the main process, which starts the machine. */
    method PrepareReplay() returns (record: Rec)
      requires Loaded()
      modifies numberOfSyscalls, `executionHeaps, `m
      ensures Valid() && m == Start(st, u) && record == st[u][0]
    {
      hide Sound, Inv, FirstRecords, Start, IsLeast, Upto;
      FirstFacts(st, u);
      FirstIsLeast(st, u);
      StartHolds(st, u);
      StartFields(st, u);
      var mainThreadID := st[u][0].pid;
      record :| record in executionHeaps && IsLeast(executionHeaps, mainThreadID, record);
      assert record == st[u][0] && record.uid == 0 && record.typ == u;
      numberOfSyscalls[record.typ] := Down(numberOfSyscalls[record.typ]);
      executionHeaps := executionHeaps - multiset{record};
      m := Start(st, u);
      forall i | 0 <= i < |st|
        ensures LoadOf(i) == Load(m.read[i], m.held[i], m.finished[i], m.counter[i])
      {
        assert old(LoadOf(i)) == Load(1, false, false, 1);
      }
      assert read == m.read && held == m.held;
      assert numberOfSyscalls[..] == m.counter && finishedModules[..] == m.finished;
    }

    lemma NoneVisited(b: nat)
      requires Sized() && b >= 2
      ensures Visited(Loads(), isFirstBatch, b, Upto(|st|), executionHeaps)
    {
      HeapsGrownNot(st, Loads(), executionHeaps);
      hide HeapsGrown, Batched;
    }

    lemma ValidParts()
      requires Valid()
      ensures u < |st| && |st[u]| > 0 && Sound(st, u) && Inv(st, u, m) && nThreads >= 1
    {
      Basics(st, u, m);
      ShapeOf(st, u, m);
      hide Inv, Sound;
    }

    lemma CountsAWord(i: nat)
      requires Valid() && Sized() && i < |st|
      ensures u < |st| && |st[u]| > 0 && numberOfSyscalls[i] < WORD && numberOfSyscalls[i] % WORD == numberOfSyscalls[i]
    {
      hide Inv, Sound;
      InvParts(st, u, m);
    }
  }

  /** What one turn of the loop does to the type. */
  function Fetched(l: Load, count: nat): Load {
    Load(l.read + 1, count == 1, l.finished, if count == 1 then l.counter else Up(l.counter))
  }

  function FirstRecords(st: Streams, n: nat): set<Rec>
    requires n <= |st| && forall i :: 0 <= i < n ==> |st[i]| > 0
  {
    set i | i in Upto(n) :: st[i][0]
  }

  lemma NoFirstRecords(st: Streams)
    ensures FirstRecords(st, 0) == {}
  {
  }

  lemma FirstIsNew(st: Streams, u: nat, i: nat)
    requires Sound(st, u) && i < |st|
    ensures FirstRecords(st, i + 1) == FirstRecords(st, i) + {st[i][0]} && st[i][0] !in FirstRecords(st, i)
  {
  }

  lemma FirstFacts(st: Streams, u: nat)
    requires Sound(st, u)
    ensures u < |st| && (forall i :: 0 <= i < |st| ==> |st[i]| > 0) && st[u][0].uid == 0 && st[u][0].typ == u
  {
  }

  /** Number 0 is the least of all, so it is what the heap of the main process gives. */
  lemma FirstIsLeast(st: Streams, u: nat)
    requires Sound(st, u)
    ensures var firsts := multiset(FirstRecords(st, |st|));
            && st[u][0] in firsts && IsLeast(firsts, st[u][0].pid, st[u][0])
            && forall r :: IsLeast(firsts, st[u][0].pid, r) ==> r == st[u][0]
  {
    forall r | r in FirstRecords(st, |st|)
      ensures IsRecord(st, r)
    {
    }
    assert IsRecord(st, st[u][0]) && st[u][0] in FirstRecords(st, |st|);
    hide FirstRecords;
  }

  lemma StartFields(st: Streams, u: nat)
    requires Sound(st, u)
    ensures var s := Start(st, u);
            && |s.read| == |s.held| == |s.counter| == |s.finished| == |st| && s.first
            && s.nThreads == 1 && s.retired == multiset{}
            && (forall i :: 0 <= i < |st| ==>
                  s.read[i] == 1 && !s.held[i] && !s.finished[i] && s.counter[i] == if i == u then 0 else 1)
            && s.queued == multiset(FirstRecords(st, |st|)) - multiset{st[u][0]}
  {
  }

  /** The reader turns to a type. */
  lemma PickRun(st: Streams, u: nat, s: State, i: nat) returns (s': State)
    requires Sound(st, u) && Inv(st, u, s) && s.reader.Pick? && i in s.reader.todo
    ensures Inv(st, u, s') && ReaderRun(st, u, s, [PickType(i)], s') && u < |st| && |st[u]| > 0
    ensures i < |st| == |s.read| == |s.held| == |s.counter| == |s.finished| && 1 <= s.read[i] <= |st[i]|
    ensures !s.finished[i] ==> (s.held[i] <==> !s.first)
    ensures var Pick(todo, b) := s.reader;
            s' == s.(reader := if s.finished[i] || s.counter[i] > b * 2 then Pick(todo - {i}, b)
                               else if s.first then Scheduler.Loop(i, b, todo - {i}, b)
                               else PushHeld(i, todo - {i}, b))
  {
    s' := PickStep(s, i);
    PickFacts(st, u, s, i);
    PicksKeeps(st, u, s, i);
    hide Inv, Sound;
    RunOne(st, u, s, PickType(i));
  }

  /** The reader deletes a retired record. */
  lemma FreeRun(st: Streams, u: nat, s: State, r: Rec) returns (s': State)
    requires Sound(st, u) && Inv(st, u, s) && s.reader.Drain? && r in s.retired
    ensures u < |st| && |st[u]| > 0 && Inv(st, u, s') && ReaderRun(st, u, s, [Free(r)], s')
    ensures s' == s.(retired := s.retired - multiset{r}, freed := s'.freed)
    ensures s'.freed + s'.retired == s.freed + s.retired && |s'.retired| == |s.retired| - 1
  {
    hide Sound, Inv, ReaderRun, Run;
    InvParts(st, u, s);
    FreesKeeps(st, u, s, r);
    ReaderRunStep(st, u, s, Free(r));
    s' := FreeStep(s, r);
  }

  lemma EndRoundRun(st: Streams, u: nat, s: State) returns (s': State)
    requires Sound(st, u) && Inv(st, u, s) && s.reader.Pick? && s.reader.todo == {}
    ensures u < |st| && |st[u]| > 0 && Inv(st, u, s') && ReaderRun(st, u, s, [Reads], s')
    ensures s' == s.(first := false, reader := Round, threads := s'.threads)
  {
    hide Sound, Inv, ReaderRun;
    InvParts(st, u, s);
    s' := ReaderStep(st, u, s);
    ReadsKeeps(st, u, s);
    ReaderRunStep(st, u, s, Reads);
  }

  lemma RecordAt(st: Streams, u: nat, i: nat, j: nat)
    requires Sound(st, u) && i < |st| && j < |st[i]|
    ensures st[i][j].typ == i && st[i][j].pos == j
  {
  }

  /** A part of a stream has each of its records once. */
  lemma {:induction false} SliceCounts(st: Streams, u: nat, i: nat, a: nat, b: nat, r: Rec)
    requires Sound(st, u) && i < |st| && a <= b <= |st[i]|
    ensures multiset(st[i][a..b])[r] == if IsRecord(st, r) && r.typ == i && a <= r.pos < b then 1 else 0
    decreases b
  {
    hide Sound;
    if a < b {
      RecordAt(st, u, i, b - 1);
      SliceCounts(st, u, i, a, b - 1, r);
      SliceGrows(st[i], a, b - 1);
    } else {
      assert st[i][a..b] == [];
    }
  }

  /** The heaps have gained exactly the records that were pushed between the two loads, each once. */
  ghost predicate HeapsGrown(st: Streams, from: seq<Load>, now: seq<Load>, q0: multiset<Rec>, q: multiset<Rec>) {
    && |from| == |now| == |st|
    && forall r :: q[r] == q0[r] + if IsRecord(st, r) && Pushed(from[r.typ]) <= r.pos < Pushed(now[r.typ]) then 1 else 0
  }

  lemma HeapsGrownNot(st: Streams, from: seq<Load>, q: multiset<Rec>)
    requires |from| == |st|
    ensures HeapsGrown(st, from, from, q, q)
  {
  }

  lemma HeapsGrow(st: Streams, u: nat, from: seq<Load>, before: seq<Load>, now: seq<Load>, q0: multiset<Rec>,
                  q1: multiset<Rec>, q: multiset<Rec>, i: nat)
    requires Sound(st, u) && HeapsGrown(st, from, before, q0, q1) && |now| == |st| && i < |st| && before[i] == from[i]
    requires forall j :: 0 <= j < |st| && j != i ==> now[j] == before[j]
    requires 0 <= Pushed(from[i]) <= Pushed(now[i]) <= |st[i]|
    requires q == q1 + multiset(st[i][Pushed(from[i])..Pushed(now[i])])
    ensures HeapsGrown(st, from, now, q0, q)
  {
    hide Sound, Pushed;
    forall r
      ensures q[r] == q0[r] + if IsRecord(st, r) && Pushed(from[r.typ]) <= r.pos < Pushed(now[r.typ]) then 1 else 0
    {
      SliceCounts(st, u, i, Pushed(from[i]), Pushed(now[i]), r);
    }
  }

  lemma BatchedFills(l0: Load, l2: Load, len: nat, first: bool, b: nat)
    requires b >= 2 && !l0.finished && l0.counter <= b * 2
    requires l2 == if first then l0 else Load(l0.read, false, false, Up(l0.counter))
    ensures Filled(l2, len, b) == Batched(l0, len, first, b)
  {
  }

  lemma SliceJoins(s: seq<Rec>, a: nat, b: nat, c: nat)
    requires a + 1 == b <= c <= |s|
    ensures multiset(s[a..c]) == multiset{s[a]} + multiset(s[b..c])
  {
    assert s[a..c] == [s[a]] + s[b..c];
  }

  /** What the loop of a batch does to a type of which no record is held. */
  function Filled(l: Load, len: nat, b: nat): Load
    requires b >= 2
  {
    if len - l.read >= b - 1 then Load(l.read + (b - 1), true, false, (l.counter + (b - 2)) % WORD)
    else Load(len, false, true, LLONG_MAX)
  }

  lemma FilledStops(l: Load, len: nat, b: nat)
    requires b >= 2 && len < l.read + (b - 1)
    ensures Filled(l, len, b) == Load(len, false, true, LLONG_MAX)
  {
  }

  /** After `k` records, the last of them held or not. */
  function Progress(l: Load, k: nat, last: bool): Load {
    Load(l.read + k, last, false, (l.counter + if last && k > 0 then k - 1 else k) % WORD)
  }

  lemma ProgressStep(l: Load, k: nat, count: nat)
    ensures Fetched(Progress(l, k, false), count) == Progress(l, k + 1, count == 1)
  {
  }

  lemma SliceGrows(s: seq<Rec>, lo: nat, hi: nat)
    requires lo <= hi < |s|
    ensures multiset(s[lo..hi + 1]) == multiset(s[lo..hi]) + multiset{s[hi]}
  {
    assert s[lo..hi + 1] == s[lo..hi] + [s[hi]];
  }

  lemma UpIsWord(c: nat)
    ensures Up(c) < WORD
  {
  }
}
