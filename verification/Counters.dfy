/** The counters of loaded records: what they count, modulo the 64-bit word, in every interleaving.
  */
module Counters {
  import opened Collections
  import opened Traces
  import opened Scheduler
  import opened Places

  ghost function QueuedAt(st: Streams, s: State, i: nat): set<nat>
    requires i < |st|
  {
    set j | j in Upto(|st[i]|) && st[i][j] in s.queued
  }

  predicate Decrements(th: Thread, i: nat) {
    th.pc.Decrement? && th.pc.r.typ == i
  }

  predicate Increments(th: Thread, i: nat) {
    th.pc.Increment? && th.pc.r.typ == i
  }

  /** The threads that have taken a record of type `i` and not yet counted it down, and those that have
      put one back and not yet counted it up. */
  ghost function Decs(s: State, i: nat): set<Tid> {
    set t | t in s.threads && Decrements(s.threads[t], i)
  }

  ghost function Incs(s: State, i: nat): set<Tid> {
    set t | t in s.threads && Increments(s.threads[t], i)
  }

  function ReaderInc(reader: Reader, i: nat): nat {
    if (reader.IncHeld? || reader.IncNew?) && reader.i == i then 1 else 0
  }

  /** The value the counter of type `i` stands for. */
  ghost function Owed(st: Streams, s: State, i: nat): int
    requires i < |st|
  {
    |QueuedAt(st, s, i)| + |Decs(s, i)| - |Incs(s, i)| - ReaderInc(s.reader, i)
  }

  /** The counter was overwritten at the end of the stream. */
  predicate Capped(s: State, i: nat) {
    i < |s.finished| && s.finished[i] && !(s.reader.SetMax? && s.reader.i == i)
  }

  predicate Congruent(c: int, o: int) {
    (c - o) % WORD == 0
  }

  /** The counter of a type that is still read is the number of its queued records, up to the increments
      and decrements under way. */
  ghost predicate CounterOk(st: Streams, s: State) {
    && |s.counter| == |st|
    && forall i :: 0 <= i < |st| ==> s.counter[i] < WORD && (!Capped(s, i) ==> Congruent(s.counter[i], Owed(st, s, i)))
  }

  // ----- arithmetic

  lemma UpDownCongruent(c: nat, o: int)
    requires Congruent(c, o)
    ensures Congruent(Up(c), o + 1) && Congruent(Down(c), o - 1) && Up(c) < WORD && Down(c) < WORD
  {
  }

  lemma Sizes<T>(s: set<T>, x: T)
    ensures |s + {x}| == |s| + (if x in s then 0 else 1)
    ensures |s - {x}| == |s| - (if x in s then 1 else 0)
  {
  }

  // ----- what a step owes

  lemma QueuedIn(st: Streams, s: State, s': State, r: Rec, i: nat)
    requires i < |st| && IsRecord(st, r) && r !in s.queued && s'.queued == s.queued + multiset{r}
    requires forall j :: 0 <= j < |st[i]| ==> st[i][j].typ == i && st[i][j].pos == j
    ensures |QueuedAt(st, s', i)| == |QueuedAt(st, s, i)| + (if r.typ == i then 1 else 0)
  {
    Sizes(QueuedAt(st, s, i), r.pos);
    if r.typ == i {
      assert QueuedAt(st, s', i) == QueuedAt(st, s, i) + {r.pos};
    } else {
      assert QueuedAt(st, s', i) == QueuedAt(st, s, i);
    }
  }

  lemma QueuedOut(st: Streams, s: State, s': State, r: Rec, i: nat)
    requires i < |st| && IsRecord(st, r) && s.queued[r] == 1 && s'.queued == s.queued - multiset{r}
    requires forall j :: 0 <= j < |st[i]| ==> st[i][j].typ == i && st[i][j].pos == j
    ensures |QueuedAt(st, s', i)| == |QueuedAt(st, s, i)| - (if r.typ == i then 1 else 0)
  {
    Sizes(QueuedAt(st, s, i), r.pos);
    if r.typ == i {
      assert QueuedAt(st, s', i) == QueuedAt(st, s, i) - {r.pos};
    } else {
      assert QueuedAt(st, s', i) == QueuedAt(st, s, i);
    }
  }

  lemma DecsOwe(s: State, s': State, t: Tid, th: Thread, i: nat)
    requires t in s.threads && s'.threads == s.threads[t := th]
    ensures |Decs(s', i)| - |Decs(s, i)| == Bit(Decrements(th, i)) - Bit(Decrements(s.threads[t], i))
  {
    Sizes(Decs(s, i), t);
    assert Decs(s', i) == if Decrements(th, i) then Decs(s, i) + {t} else Decs(s, i) - {t};
  }

  lemma IncsOwe(s: State, s': State, t: Tid, th: Thread, i: nat)
    requires t in s.threads && s'.threads == s.threads[t := th]
    ensures |Incs(s', i)| - |Incs(s, i)| == Bit(Increments(th, i)) - Bit(Increments(s.threads[t], i))
  {
    Sizes(Incs(s, i), t);
    assert Incs(s', i) == if Increments(th, i) then Incs(s, i) + {t} else Incs(s, i) - {t};
  }

  lemma ThreadOwes(s: State, s': State, t: Tid, th: Thread, i: nat)
    requires t in s.threads && s'.threads == s.threads[t := th]
    ensures |Decs(s', i)| - |Decs(s, i)| == Bit(Decrements(th, i)) - Bit(Decrements(s.threads[t], i))
    ensures |Incs(s', i)| - |Incs(s, i)| == Bit(Increments(th, i)) - Bit(Increments(s.threads[t], i))
  {
    hide Decs, Incs, Bit, Decrements, Increments;
    DecsOwe(s, s', t, th, i);
    IncsOwe(s, s', t, th, i);
  }

  function Bit(b: bool): int {
    if b then 1 else 0
  }

  lemma NewThreadOwes(s: State, s': State, t: Tid, i: nat)
    requires t !in s.threads && s'.threads == s.threads[t := Thread(Pop, None)]
    ensures Decs(s', i) == Decs(s, i) && Incs(s', i) == Incs(s, i)
  {
  }

  /** A step that leaves what is owed as it was, or changes it together with the counter. */
  ghost predicate Settles(st: Streams, s: State, s': State, i: nat) {
    && |s.counter| == |st| && i < |st| && |s'.counter| == |st|
    && (Capped(s, i) ==> Capped(s', i))
    && (Capped(s', i) ==> Capped(s, i) || s'.counter[i] == LLONG_MAX)
    && var (c, c', o, o') := (s.counter[i], s'.counter[i], Owed(st, s, i), Owed(st, s', i));
       || (c' == c && o' == o)
       || (c' == Up(c) && o' == o + 1)
       || (c' == Down(c) && o' == o - 1)
       || (c' == LLONG_MAX && Capped(s', i))
  }

  lemma SettlesKeeps(st: Streams, s: State, s': State)
    requires CounterOk(st, s) && |s'.counter| == |st| && forall i :: 0 <= i < |st| ==> Settles(st, s, s', i)
    ensures CounterOk(st, s')
  {
    forall i | 0 <= i < |st|
      ensures s'.counter[i] < WORD && (!Capped(s', i) ==> Congruent(s'.counter[i], Owed(st, s', i)))
    {
      assert Settles(st, s, s', i);
      if !Capped(s, i) {
        UpDownCongruent(s.counter[i], Owed(st, s, i));
      }
      hide Owed;
    }
  }

  // ----- the steps

  lemma SameOwed(st: Streams, s: State, s': State, i: nat)
    requires i < |st| && s'.queued == s.queued && s'.threads == s.threads
    requires ReaderInc(s'.reader, i) == ReaderInc(s.reader, i)
    ensures Owed(st, s', i) == Owed(st, s, i)
  {
  }

  lemma PushSettles(st: Streams, u: nat, s: State, i: nat)
    requires Sound(st, u) && HoldOver(st, s) && OnePlace(st, u, s) && (s.reader.PushHeld? || s.reader.PushNew?)
    requires i < |st|
    ensures Settles(st, s, BatchStep(st, s), i)
  {
    hide HoldOver, OnePlace, Sound, WorkingOn, Upto;
    var s' := BatchStep(st, s);
    WorkingFacts(st, s);
    var r := st[s.reader.i][s.read[s.reader.i] - 1];
    HeldIsNew(st, u, s);
    Indexed(st, u, i);
    QueuedIn(st, s, s', r, i);
    assert Decs(s', i) == Decs(s, i) && Incs(s', i) == Incs(s, i);
    hide QueuedAt, Decs, Incs;
  }

  lemma Indexed(st: Streams, u: nat, i: nat)
    requires Sound(st, u) && i < |st|
    ensures forall j :: 0 <= j < |st[i]| ==> st[i][j].typ == i && st[i][j].pos == j
  {
  }

  /** The record to be pushed is not in a heap yet. */
  lemma HeldIsNew(st: Streams, u: nat, s: State)
    requires Sound(st, u) && HoldOver(st, s) && OnePlace(st, u, s) && (s.reader.PushHeld? || s.reader.PushNew?)
    ensures s.reader.i < |st| == |s.read| && 0 < s.read[s.reader.i] <= |st[s.reader.i]|
    ensures var r := st[s.reader.i][s.read[s.reader.i] - 1];
            IsRecord(st, r) && r.typ == s.reader.i && r !in s.queued
  {
    WorkingFacts(st, s);
    hide HoldOver, WorkingOn;
    var r := st[s.reader.i][s.read[s.reader.i] - 1];
    assert IsRecord(st, r) && r.typ == s.reader.i;
    assert InPlace(st, u, s, r, Held) && !InPlace(st, u, s, r, Queued);
  }

  lemma IncSettles(st: Streams, s: State, i: nat)
    requires HoldOver(st, s) && i < |st| && (s.reader.IncHeld? || s.reader.IncNew?)
    ensures Settles(st, s, BatchStep(st, s), i)
  {
    hide HoldOver, Up, Upto, WorkingOn;
    var s' := BatchStep(st, s);
    WorkingFacts(st, s);
    BatchSpares(st, s);
    BatchSparesQueue(st, s);
    SameSets(st, s, s', i);
    hide QueuedAt, Decs, Incs, SparesThreads;
  }

  lemma SameSets(st: Streams, s: State, s': State, i: nat)
    requires i < |st| && s'.queued == s.queued && s'.threads == s.threads
    ensures QueuedAt(st, s', i) == QueuedAt(st, s, i) && Decs(s', i) == Decs(s, i) && Incs(s', i) == Incs(s, i)
  {
  }

  lemma OtherBatchSettles(st: Streams, s: State, i: nat)
    requires HoldOver(st, s) && i < |st| && (s.reader.Loop? || s.reader.SetFinished? || s.reader.SetMax?)
    ensures Settles(st, s, BatchStep(st, s), i)
  {
    WorkingFacts(st, s);
    hide HoldOver, Owed, WorkingOn;
    SameOwed(st, s, BatchStep(st, s), i);
  }

  lemma BatchSettles(st: Streams, u: nat, s: State, i: nat)
    requires Sound(st, u) && HoldOver(st, s) && OnePlace(st, u, s) && i < |st| && Working(s.reader).Some?
    ensures Settles(st, s, BatchStep(st, s), i)
  {
    hide Sound, HoldOver, OnePlace, Settles, BatchStep;
    if s.reader.PushHeld? || s.reader.PushNew? {
      PushSettles(st, u, s, i);
    } else if s.reader.IncHeld? || s.reader.IncNew? {
      IncSettles(st, s, i);
    } else {
      OtherBatchSettles(st, s, i);
    }
  }

  lemma RoundSettles(st: Streams, u: nat, s: State, i: nat)
    requires u < |st| && |st[u]| > 0 && Shape(st, s) && (s.first ==> s.threads == map[]) && i < |st|
    requires Working(s.reader).None?
    ensures Settles(st, s, RoundStep(st, u, s), i)
  {
    hide Min, Upto;
    var s' := RoundStep(st, u, s);
    assert s'.queued == s.queued && s'.counter == s.counter && s'.finished == s.finished && Working(s'.reader).None?;
    assert s'.threads == s.threads || (s.first && s'.threads == s.threads[st[u][0].pid := Thread(Pop, None)]);
    hide RoundStep;
    if s'.threads == s.threads {
      SameOwed(st, s, s', i);
    } else {
      NewThreadOwes(s, s', st[u][0].pid, i);
      assert QueuedAt(st, s', i) == QueuedAt(st, s, i);
    }
    hide QueuedAt, Decs, Incs;
  }

  lemma ShapeSizes(st: Streams, s: State)
    requires Shape(st, s)
    ensures |s.counter| == |s.finished| == |st|
  {
  }

  lemma PickSettles(st: Streams, s: State, k: nat, i: nat)
    requires Shape(st, s) && i < |st|
    ensures Settles(st, s, PickStep(s, k), i)
  {
    hide Owed, Shape;
    assert |s.counter| == |st| by { ShapeSizes(st, s); }
    SameOwed(st, s, PickStep(s, k), i);
  }

  lemma FreeSpares(s: State, r: Rec)
    ensures var s' := FreeStep(s, r);
            && s'.queued == s.queued && s'.threads == s.threads && s'.reader == s.reader
            && s'.counter == s.counter && s'.finished == s.finished
  {
  }

  lemma FreeSettles(st: Streams, s: State, r: Rec, i: nat)
    requires Shape(st, s) && i < |st|
    ensures Settles(st, s, FreeStep(s, r), i)
  {
    hide Owed, Shape, FreeStep;
    ShapeSizes(st, s);
    FreeSpares(s, r);
    SameOwed(st, s, FreeStep(s, r), i);
  }

  lemma TakeSettles(st: Streams, u: nat, s: State, t: Tid, r: Rec, i: nat)
    requires Sound(st, u) && Shape(st, s) && OnePlace(st, u, s) && i < |st|
    ensures Settles(st, s, TakeStep(s, t, r), i)
  {
    var s' := TakeStep(s, t, r);
    if t in s.threads && s.threads[t].pc.Pop? && IsLeast(s.queued, t, r) {
      assert InPlace(st, u, s, r, Queued);
      QueuedOut(st, s, s', r, i);
      ThreadOwes(s, s', t, s'.threads[t], i);
      hide OnePlace, Sound, QueuedAt, Decs, Incs;
    }
  }

  /** A thread steps without touching the heaps. */
  lemma ThreadSettles(st: Streams, s: State, s': State, t: Tid, i: nat)
    requires |s.counter| == |st| && |s'.counter| == |st| && i < |st| && s'.queued == s.queued && s'.reader == s.reader
    requires s'.finished == s.finished
    requires t in s.threads && t in s'.threads && s'.threads == s.threads[t := s'.threads[t]]
    requires var d := Bit(Decrements(s'.threads[t], i)) - Bit(Decrements(s.threads[t], i))
                      - (Bit(Increments(s'.threads[t], i)) - Bit(Increments(s.threads[t], i)));
             || (d == 0 && s'.counter[i] == s.counter[i])
             || (d == 1 && s'.counter[i] == Up(s.counter[i]))
             || (d == -1 && s'.counter[i] == Down(s.counter[i]))
    ensures Settles(st, s, s', i)
  {
    ThreadOwes(s, s', t, s'.threads[t], i);
    assert QueuedAt(st, s', i) == QueuedAt(st, s, i);
    hide QueuedAt, Decs, Incs, Decrements, Increments, Up, Down, Bit;
  }

  lemma DecrementSettles(st: Streams, u: nat, s: State, t: Tid, i: nat)
    requires Shape(st, s) && OnePlace(st, u, s) && t in s.threads && s.threads[t].pc.Decrement? && i < |st|
    ensures Settles(st, s, WaitStep(s, t), i)
  {
    var s', r := WaitStep(s, t), s.threads[t].pc.r;
    assert InPlace(st, u, s, r, Taken(t));
    assert s'.counter == s.counter[r.typ := Down(s.counter[r.typ])] && s'.threads[t].pc == Wait(r, 0, ULONG_MAX);
    hide Settles, OnePlace, Down, InPlace;
    ThreadSettles(st, s, s', t, i);
  }

  lemma WaitSettles(st: Streams, u: nat, s: State, t: Tid, i: nat)
    requires Shape(st, s) && OnePlace(st, u, s) && t in s.threads && i < |st|
    ensures Settles(st, s, WaitStep(s, t), i)
  {
    if s.threads[t].pc.Decrement? {
      DecrementSettles(st, u, s, t, i);
    } else {
      assert s.threads[t := s.threads[t]] == s.threads;
      hide Settles, OnePlace, Min;
      ThreadSettles(st, s, WaitStep(s, t), t, i);
    }
  }

  lemma CheckSettles(st: Streams, s: State, t: Tid, i: nat)
    requires Shape(st, s) && t in s.threads && i < |st|
    ensures Settles(st, s, CheckStep(s, t), i)
  {
    assert s.threads[t := s.threads[t]] == s.threads;
    hide Settles, Accepted, Up, Down;
    ThreadSettles(st, s, CheckStep(s, t), t, i);
  }

  lemma RequeueSettles(st: Streams, u: nat, s: State, t: Tid, i: nat)
    requires Sound(st, u) && Shape(st, s) && OnePlace(st, u, s) && t in s.threads && s.threads[t].pc.Requeue?
    requires i < |st|
    ensures Settles(st, s, UndoStep(s, t), i)
  {
    var s', r := UndoStep(s, t), s.threads[t].pc.r;
    assert InPlace(st, u, s, r, Taken(t)) && !InPlace(st, u, s, r, Queued);
    QueuedIn(st, s, s', r, i);
    ThreadOwes(s, s', t, s'.threads[t], i);
    hide OnePlace, Sound, QueuedAt, Decs, Incs;
  }

  lemma UndoSettles(st: Streams, u: nat, s: State, t: Tid, i: nat)
    requires Sound(st, u) && Shape(st, s) && OnePlace(st, u, s) && t in s.threads && i < |st|
    ensures Settles(st, s, UndoStep(s, t), i)
  {
    if s.threads[t].pc.Requeue? {
      RequeueSettles(st, u, s, t, i);
    } else {
      assert s.threads[t := s.threads[t]] == s.threads;
      hide Settles, OnePlace, Sound, Up;
      ThreadSettles(st, s, UndoStep(s, t), t, i);
    }
  }

  lemma EndSettles(st: Streams, s: State, t: Tid, i: nat)
    requires Shape(st, s) && t in s.threads && i < |st|
    ensures Settles(st, s, EndStep(s, t), i)
  {
    assert s.threads[t := s.threads[t]] == s.threads;
    hide Settles;
    ThreadSettles(st, s, EndStep(s, t), t, i);
  }

  lemma ExecuteSettles(st: Streams, u: nat, s: State, t: Tid, i: nat)
    requires Sound(st, u) && Inv(st, u, s) && t in s.threads && s.threads[t].pc.Execute? && i < |st|
    ensures Settles(st, s, ExecuteStep(s, t, s.threads[t].pc.r, s.threads[t].pc.seen), i)
  {
    var Execute(r, seen) := s.threads[t].pc;
    var s1, s' := Recorded(s, t, r, seen), ExecuteStep(s, t, r, seen);
    assert Shape(st, s);
    hide HoldOver, OnePlace, LogExact, TableOk, Sound, Decs, Incs, IsRecord, InLog;
    RecordedKeeps(st, u, s, t);
    ThreadOwes(s, s1, t, s1.threads[t], i);
    if r.child.Some? {
      ChildIsNew(st, u, s, r);
      NewThreadOwes(s1, s', r.child.value, i);
    }
    assert QueuedAt(st, s', i) == QueuedAt(st, s, i);
    hide QueuedAt;
  }

  lemma ThreadStepSettles(st: Streams, u: nat, s: State, t: Tid, i: nat)
    requires Sound(st, u) && Inv(st, u, s) && t in s.threads && i < |st|
    ensures Settles(st, s, ThreadStep(s, t), i)
  {
    hide Sound, Settles, TableOk, OnePlace, LogExact, WaitStep, CheckStep, UndoStep, EndStep, ExecuteStep;
    match s.threads[t].pc
    case Decrement(_) | Wait(_, _, _) | WaitFinished(_, _) => WaitSettles(st, u, s, t, i);
    case Execute(_, _) => ExecuteSettles(st, u, s, t, i);
    case ReadLast(_) | WriteLast(_, _) | Leave => EndSettles(st, s, t, i);
    case SetNull(_) | Requeue(_) | Increment(_) => UndoSettles(st, u, s, t, i);
    case _ => CheckSettles(st, s, t, i);
  }

  lemma MissSettles(st: Streams, s: State, t: Tid, i: nat)
    requires Shape(st, s) && i < |st|
    ensures Settles(st, s, MissStep(s, t), i)
  {
    if MissStep(s, t) != s {
      hide Settles;
      ThreadSettles(st, s, MissStep(s, t), t, i);
    }
  }

  lemma FireSettles(st: Streams, u: nat, s: State, l: Label, i: nat)
    requires Sound(st, u) && Inv(st, u, s) && i < |st|
    ensures Settles(st, s, Fire(st, u, s, l), i)
  {
    assert Shape(st, s) && (s.first ==> s.threads == map[]);
    SettlesSelf(st, s, i);
    hide Sound, Settles, HoldOver, TableOk, OnePlace, LogExact;
    hide Shape, BatchStep, RoundStep, PickStep, FreeStep, TakeStep, MissStep;
    match l
    case Reads =>
      if Working(s.reader).Some? {
        BatchSettles(st, u, s, i);
      } else {
        RoundSettles(st, u, s, i);
      }
    case PickType(k) => PickSettles(st, s, k, i);
    case Free(r) => FreeSettles(st, s, r, i);
    case Take(t, r) => TakeSettles(st, u, s, t, r, i);
    case Miss(t) => MissSettles(st, s, t, i);
    case Runs(t) =>
      if t in s.threads {
        ThreadStepSettles(st, u, s, t, i);
      }
  }

  lemma SettlesSelf(st: Streams, s: State, i: nat)
    requires Shape(st, s) && i < |st|
    ensures Settles(st, s, s, i)
  {
  }

  lemma FireKeepsCounters(st: Streams, u: nat, s: State, l: Label)
    requires Sound(st, u) && Inv(st, u, s) && CounterOk(st, s)
    ensures CounterOk(st, Fire(st, u, s, l))
  {
    assert u < |st| && |st[u]| > 0;
    hide Sound, Inv, Fire;
    forall i | 0 <= i < |st|
      ensures Settles(st, s, Fire(st, u, s, l), i)
    {
      FireSettles(st, u, s, l, i);
    }
    FireKeeps(st, u, s, l);
    assert |Fire(st, u, s, l).counter| == |st| by {
      assert Settles(st, s, Fire(st, u, s, l), u);
    }
    hide Settles, CounterOk;
    SettlesKeeps(st, s, Fire(st, u, s, l));
  }

  lemma StartOwed(st: Streams, u: nat, i: nat)
    requires Sound(st, u) && i < |st|
    ensures QueuedAt(st, Start(st, u), i) == (if i == u then {} else {0})
    ensures Owed(st, Start(st, u), i) == if i == u then 0 else 1
  {
    hide Start;
    assert u < |st| && |st[i]| > 0 && forall j :: 0 <= j < |st| ==> |st[j]| > 0;
    var s := Start(st, u);
    StartIdle(st, u);
    forall j | 0 <= j < |st[i]|
      ensures st[i][j] in s.queued <==> j == 0 && i != u
    {
      StartQueue(st, u, st[i][j]);
    }
    hide Sound;
    assert QueuedAt(st, s, i) == if i == u then {} else {0};
    assert Decs(s, i) == {} && Incs(s, i) == {};
    hide QueuedAt, Decs, Incs;
  }

  lemma StartIdle(st: Streams, u: nat)
    requires u < |st| && forall i :: 0 <= i < |st| ==> |st[i]| > 0
    ensures Start(st, u).threads == map[] && Start(st, u).reader.Pick?
  {
  }

  lemma StartCounters(st: Streams, u: nat)
    requires Sound(st, u)
    ensures CounterOk(st, Start(st, u))
  {
    forall i | 0 <= i < |st|
      ensures Owed(st, Start(st, u), i) == if i == u then 0 else 1
    {
      StartOwed(st, u, i);
    }
    hide Owed;
  }

  /** In every interleaving each counter that was not overwritten is congruent to the number of queued
      records of its type, corrected by the increments and decrements under way. */
  lemma {:induction false} RunKeepsCounters(st: Streams, u: nat, s: State, labels: seq<Label>)
    requires Sound(st, u) && Inv(st, u, s) && CounterOk(st, s)
    ensures CounterOk(st, Run(st, u, s, labels))
    decreases |labels|
  {
    if labels != [] {
      FireKeeps(st, u, s, labels[0]);
      FireKeepsCounters(st, u, s, labels[0]);
      hide CounterOk, Inv, Sound;
      RunKeepsCounters(st, u, Fire(st, u, s, labels[0]), labels[1..]);
    }
  }
}
