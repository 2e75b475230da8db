/** One traced process: the loader alone keeps its executor in order, whatever the interleaving.

    Every type that is not exhausted has at least ten records loaded whenever the executor takes one, so
    the heap always holds a record that precedes all records not yet pushed.
  */
module SingleProcess {
  import opened Collections
  import opened Traces
  import opened Scheduler
  import opened Places
  import opened Counters
  import opened HappensBefore

  /** All records belong to the process of the first one, and none creates another. */
  ghost predicate Alone(st: Streams, u: nat)
    requires u < |st| && |st[u]| > 0
  {
    forall r :: IsRecord(st, r) ==> r.pid == st[u][0].pid && r.child.None?
  }

  // ----- the load of one type

  function Positive(n: int): nat {
    if n > 0 then n else 0
  }

  /** How many records the batch under way may still push. */
  function Room(reader: Reader, i: nat): nat {
    match reader
    case PushHeld(k, _, b) => if k == i then Positive(b - 1) else 0
    case IncHeld(k, _, b) => if k == i then Positive(b - 2) else 0
    case Loop(k, count, _, _) => if k == i then Positive(count - 2) else 0
    case PushNew(k, count, _, _) => if k == i then Positive(count - 1) else 0
    case IncNew(k, count, _, _) => if k == i then Positive(count - 2) else 0
    case _ => 0
  }

  /** The first batch of the type is under way or done. */
  predicate Begun(s: State, i: nat) {
    s.first && i !in Todo(s.reader) && i < |s.finished| && !s.finished[i] && !(s.reader.SetFinished? && s.reader.i == i)
  }

  ghost predicate TypeLoad(st: Streams, s: State, i: nat)
    requires i < |st|
  {
    && |s.counter| == |st|
    && |QueuedAt(st, s, i)| + Room(s.reader, i) <= 999
    && (s.first && i in Todo(s.reader) ==> |QueuedAt(st, s, i)| <= 1)
    && (!Capped(s, i) ==> s.counter[i] == Owed(st, s, i))
    && (Begun(s, i) ==> s.counter[i] + ReaderInc(s.reader, i) + Room(s.reader, i) >= 998)
  }

  ghost predicate SoloLoad(st: Streams, u: nat, s: State)
    requires u < |st| && |st[u]| > 0
  {
    && s.nThreads == 1
    && (forall t :: t in s.threads ==> t == st[u][0].pid && !s.threads[t].pc.Increment?)
    && (InBatch(s.reader) ==> s.reader.b == if s.first then 1000 else 150)
    && forall i :: 0 <= i < |st| ==> TypeLoad(st, s, i)
  }

  /** Every type is exhausted or has ten records loaded. */
  ghost predicate Fed(s: State) {
    |s.counter| == |s.finished| && forall i :: 0 <= i < |s.counter| ==> s.finished[i] || s.counter[i] >= 10
  }

  /** What the executor knows of the load: it is fed except while it waits, and a scan that has come to
      type `k` has seen no smaller value than `min`. */
  ghost predicate WaitOk(s: State, pc: Pc) {
    match pc
    case Wait(_, k, min) =>
      |s.counter| == |s.finished| && k <= |s.counter| && forall i :: 0 <= i < k ==> s.finished[i] || s.counter[i] >= min
    case WaitFinished(_, k) =>
      |s.counter| == |s.finished| && k <= |s.finished| && forall i :: 0 <= i < k ==> s.finished[i]
    case SetNull(_) => false
    case Requeue(_) => false
    case Increment(_) => false
    case Leave => true
    case Gone => true
    case _ => Fed(s)
  }

  ghost predicate Solo(st: Streams, u: nat, s: State)
    requires u < |st| && |st[u]| > 0
  {
    SoloLoad(st, u, s) && forall t :: t in s.threads ==> WaitOk(s, s.threads[t].pc)
  }

  // ----- why the reader is ahead

  lemma Bounds(st: Streams, u: nat, s: State, i: nat)
    requires u < |st| && |st[u]| > 0 && SoloLoad(st, u, s) && i < |st|
    ensures |s.counter| == |st| && |Incs(s, i)| == 0 && |Decs(s, i)| <= 1
    ensures |QueuedAt(st, s, i)| <= 999 && Owed(st, s, i) <= 1000 && (!Capped(s, i) ==> s.counter[i] <= 1000)
  {
    assert TypeLoad(st, s, i);
    var main := st[u][0].pid;
    forall t
      ensures t !in Incs(s, i) && (t in Decs(s, i) ==> t == main)
    {
    }
    assert Incs(s, i) == {};
    assert Decs(s, i) <= {main};
    if main in Decs(s, i) {
      assert Decs(s, i) == {main};
    } else {
      assert Decs(s, i) == {};
    }
    hide QueuedAt, Decs, Incs, Room;
  }

  /** A record that is not pushed comes after every queued record of its type. */
  lemma QueuedBefore(st: Streams, u: nat, s: State, a: Rec, j: nat)
    requires Sound(st, u) && OnePlace(st, u, s) && Shape(st, s) && Unpushed(st, u, s, a) && j < |st[a.typ]|
    requires st[a.typ][j] in s.queued
    ensures IsRecord(st, st[a.typ][j]) && st[a.typ][j].uid < a.uid
  {
    var q := st[a.typ][j];
    assert InPlace(st, u, s, q, Queued);
    assert !InPlace(st, u, s, q, Unread) && !InPlace(st, u, s, q, Held);
    assert q.typ == a.typ && q.pos == j;
    assert j < a.pos;
  }

  /** A type with unpushed records is not finished. */
  lemma UnpushedIsUnfinished(st: Streams, u: nat, s: State, a: Rec)
    requires HoldOver(st, s) && Unpushed(st, u, s, a)
    ensures a.typ < |st| && !s.finished[a.typ]
  {
  }

  /** Ten loaded records of a type mean that its heap is not empty. */
  lemma LoadedIsQueued(st: Streams, u: nat, s: State, t: Tid, i: nat)
    requires u < |st| && |st[u]| > 0 && SoloLoad(st, u, s) && t in s.threads && s.threads[t].pc.Pop?
    requires i < |st| == |s.counter| && !Capped(s, i) && s.counter[i] >= 10
    ensures |QueuedAt(st, s, i)| >= 10
  {
    Bounds(st, u, s, i);
    assert TypeLoad(st, s, i);
    forall p
      ensures p !in Decs(s, i)
    {
    }
    assert Decs(s, i) == {};
    hide QueuedAt, Incs, Decs, Room;
  }

  /** The reader is ahead of the executor whenever it takes a record. */
  lemma SoloAhead(st: Streams, u: nat, s: State, t: Tid)
    requires Sound(st, u) && Alone(st, u) && Inv(st, u, s) && Solo(st, u, s) && t in s.threads && s.threads[t].pc.Pop?
    ensures Ahead(st, u, s, t)
  {
    assert WaitOk(s, s.threads[t].pc) && Fed(s);
    forall a | Unpushed(st, u, s, a) && a.pid == t
      ensures exists q :: q in s.queued && q.pid == t && q.uid < a.uid
    {
      UnpushedIsUnfinished(st, u, s, a);
      assert s.counter[a.typ] >= 10 && !Capped(s, a.typ);
      LoadedIsQueued(st, u, s, t, a.typ);
      var j := Member(QueuedAt(st, s, a.typ));
      QueuedBefore(st, u, s, a, j);
      assert st[a.typ][j].pid == t;
    }
  }

  // ----- the load, step by step

  lemma ExactKeeps(st: Streams, s: State, s': State, i: nat)
    requires Settles(st, s, s', i)
    requires !Capped(s, i) ==>
        s.counter[i] == Owed(st, s, i) && s.counter[i] <= 1000 && (s.counter[i] == 0 ==> s'.counter[i] != WORD - 1)
    ensures !Capped(s', i) ==> s'.counter[i] == Owed(st, s', i)
  {
    hide Owed;
  }

  lemma PushQueues(st: Streams, u: nat, s: State, i: nat)
    requires Sound(st, u) && HoldOver(st, s) && OnePlace(st, u, s) && (s.reader.PushHeld? || s.reader.PushNew?)
    requires i < |st|
    ensures |QueuedAt(st, BatchStep(st, s), i)| ==
        |QueuedAt(st, s, i)| + (if Working(s.reader) == Some(i) then 1 else 0)
  {
    var k := Working(s.reader).value;
    WorkingFacts(st, s);
    var r := st[k][s.read[k] - 1];
    assert IsRecord(st, r) && r.typ == k;
    assert InPlace(st, u, s, r, Held) && !InPlace(st, u, s, r, Queued);
    QueuedIn(st, s, BatchStep(st, s), r, i);
    hide HoldOver, OnePlace, Sound, QueuedAt;
  }

  lemma RoomShrinks(st: Streams, s: State, i: nat)
    requires HoldOver(st, s) && Working(s.reader).Some?
    ensures var d := if (s.reader.PushHeld? || s.reader.PushNew?) && Working(s.reader) == Some(i) then 1 else 0;
            Room(BatchStep(st, s).reader, i) + d <= Room(s.reader, i)
  {
    WorkingFacts(st, s);
    assert s.reader.b >= 2;
    hide HoldOver, Upto, Up;
  }

  /** The batch under way pushes no more than it has room for. */
  lemma BatchPushes(st: Streams, u: nat, s: State, i: nat)
    requires Sound(st, u) && HoldOver(st, s) && OnePlace(st, u, s) && Working(s.reader).Some? && i < |st|
    ensures var s' := BatchStep(st, s);
            && |QueuedAt(st, s', i)| + Room(s'.reader, i) <= |QueuedAt(st, s, i)| + Room(s.reader, i)
            && (Working(s.reader) != Some(i) ==> |QueuedAt(st, s', i)| == |QueuedAt(st, s, i)|)
  {
    hide HoldOver, OnePlace, Sound, Room;
    RoomShrinks(st, s, i);
    if s.reader.PushHeld? || s.reader.PushNew? {
      PushQueues(st, u, s, i);
    } else {
      assert QueuedAt(st, BatchStep(st, s), i) == QueuedAt(st, s, i);
    }
    hide QueuedAt, BatchStep;
  }

  /** In the first batch, what is counted and what there is room for do not shrink. */
  lemma BatchBegins(st: Streams, u: nat, s: State, i: nat)
    requires HoldOver(st, s) && Working(s.reader).Some? && i < |st| == |s.counter|
    requires !s.finished[i] ==> s.counter[i] <= 1000
    ensures Begun(BatchStep(st, s), i) ==> Begun(s, i)
    ensures var s' := BatchStep(st, s);
            Begun(s', i) ==>
              s'.counter[i] + ReaderInc(s'.reader, i) + Room(s'.reader, i) >=
              s.counter[i] + ReaderInc(s.reader, i) + Room(s.reader, i)
  {
    WorkingFacts(st, s);
    hide HoldOver, Upto;
  }

  /** What a batch step does to a counter. */
  lemma BatchCounts(st: Streams, s: State, i: nat)
    requires HoldOver(st, s) && Working(s.reader).Some? && i < |st| == |s.counter|
    ensures var s' := BatchStep(st, s);
            && |s'.counter| == |st| && Todo(s'.reader) == Todo(s.reader) && s'.first == s.first
            && (s'.counter[i] == s.counter[i] || s'.counter[i] == Up(s.counter[i]) || s'.counter[i] == LLONG_MAX)
            && (Working(s.reader) == Some(i) ==> i !in Todo(s.reader))
  {
    WorkingFacts(st, s);
    hide HoldOver, Up, WorkingOn;
  }

  lemma BatchKeepsLoad(st: Streams, u: nat, s: State, i: nat)
    requires Sound(st, u) && Inv(st, u, s) && SoloLoad(st, u, s) && Working(s.reader).Some? && i < |st|
    ensures TypeLoad(st, BatchStep(st, s), i)
  {
    var s' := BatchStep(st, s);
    assert TypeLoad(st, s, i) && Shape(st, s);
    hide TableOk, HoldOver, OnePlace, LogExact, Sound, BatchStep, Room, ReaderInc, Begun, Capped, Todo, QueuedAt, Owed;
    Bounds(st, u, s, i);
    BatchSettles(st, u, s, i);
    BatchPushes(st, u, s, i);
    BatchBegins(st, u, s, i);
    BatchCounts(st, s, i);
    hide SoloLoad;
    ExactKeeps(st, s, s', i);
  }

  lemma RoundSpares(st: Streams, u: nat, s: State, i: nat)
    requires u < |st| && |st[u]| > 0 && Working(s.reader).None? && i < |st|
    ensures var s' := RoundStep(st, u, s);
            && QueuedAt(st, s', i) == QueuedAt(st, s, i) && (s.reader.Pick? && s'.first ==> s' == s)
            && Working(s'.reader).None? && Room(s'.reader, i) == 0 && s'.counter == s.counter
            && s'.nThreads == s.nThreads
            && (s'.first ==> s.first) && (InBatch(s'.reader) && s' != s ==> s'.reader.b == 150 * s.nThreads)
  {
    hide Upto, Min;
  }

  lemma RoundKeepsLoad(st: Streams, u: nat, s: State, i: nat)
    requires u < |st| && |st[u]| > 0 && Inv(st, u, s) && SoloLoad(st, u, s) && Working(s.reader).None? && i < |st|
    ensures TypeLoad(st, RoundStep(st, u, s), i)
  {
    var s' := RoundStep(st, u, s);
    assert TypeLoad(st, s, i) && (s.first ==> s.reader.Pick? && s.threads == map[]) && Shape(st, s);
    hide Inv, RoundStep, HoldOver, TableOk, OnePlace, LogExact;
    RoundSpares(st, u, s, i);
    Bounds(st, u, s, i);
    RoundSettles(st, u, s, i);
    hide SoloLoad, QueuedAt, Owed, ReaderInc, Capped;
    ExactKeeps(st, s, s', i);
  }

  lemma PickKeepsLoad(st: Streams, u: nat, s: State, k: nat, i: nat)
    requires u < |st| && |st[u]| > 0 && Inv(st, u, s) && SoloLoad(st, u, s) && i < |st|
    ensures TypeLoad(st, PickStep(s, k), i)
  {
    assert TypeLoad(st, s, i) && Shape(st, s);
    var s' := PickStep(s, k);
    if s' != s {
      assert QueuedAt(st, s', i) == QueuedAt(st, s, i);
      SameOwed(st, s, s', i);
      assert !Capped(s, i) || s.finished[i];
      if !s.first && !s.finished[i] {
        QueuedAtMost(st, u, s, i);
      }
      hide Inv, QueuedAt, Owed;
    }
  }

  /** Between two batches the queue of a type that is still read is no longer than its counter says. */
  lemma QueuedAtMost(st: Streams, u: nat, s: State, i: nat)
    requires u < |st| && |st[u]| > 0 && SoloLoad(st, u, s) && i < |st| && !Capped(s, i) && s.reader.Pick?
    ensures |s.counter| == |st| && |QueuedAt(st, s, i)| <= s.counter[i]
  {
    Bounds(st, u, s, i);
    assert TypeLoad(st, s, i);
    hide QueuedAt, Incs, Decs;
  }

  /** A step of the executor that pushes nothing. */
  lemma ThreadKeepsLoad(st: Streams, u: nat, s: State, s': State, i: nat)
    requires u < |st| && |st[u]| > 0 && SoloLoad(st, u, s) && i < |st| && !s.first && !s'.first
    requires s'.reader == s.reader && Settles(st, s, s', i) && |QueuedAt(st, s', i)| <= |QueuedAt(st, s, i)|
    requires !Capped(s, i) && s.counter[i] == 0 ==> s'.counter[i] != WORD - 1
    ensures TypeLoad(st, s', i)
  {
    assert TypeLoad(st, s, i);
    Bounds(st, u, s, i);
    hide SoloLoad, QueuedAt, Owed, Room, Capped, Settles;
    SettlesShape(st, s, s', i);
    ExactKeeps(st, s, s', i);
  }

  lemma SettlesShape(st: Streams, s: State, s': State, i: nat)
    requires Settles(st, s, s', i)
    ensures |s'.counter| == |st|
  {
  }

  /** A counter is not decremented below zero. */
  lemma DecrementIsCovered(st: Streams, u: nat, s: State, t: Tid)
    requires u < |st| && |st[u]| > 0 && SoloLoad(st, u, s) && t in s.threads && s.threads[t].pc.Decrement? && Fed(s)
    requires s.threads[t].pc.r.typ < |st| && !Capped(s, s.threads[t].pc.r.typ)
    ensures |s.counter| == |st| && s.counter[s.threads[t].pc.r.typ] >= 1
  {
    var i := s.threads[t].pc.r.typ;
    Bounds(st, u, s, i);
    assert TypeLoad(st, s, i);
    assert t in Decs(s, i);
    assert |Decs(s, i)| >= 1;
    hide QueuedAt, Incs, Decs;
  }

  lemma TakeKeepsLoad(st: Streams, u: nat, s: State, t: Tid, r: Rec, i: nat)
    requires Sound(st, u) && Inv(st, u, s) && SoloLoad(st, u, s) && i < |st|
    ensures TypeLoad(st, TakeStep(s, t, r), i)
  {
    assert TypeLoad(st, s, i) && (s.threads != map[] ==> !s.first);
    TakeSettles(st, u, s, t, r, i);
    if t in s.threads && s.threads[t].pc.Pop? && IsLeast(s.queued, t, r) {
      assert InPlace(st, u, s, r, Queued);
      QueuedOut(st, s, TakeStep(s, t, r), r, i);
      hide Inv, Sound, QueuedAt, SoloLoad, Settles, TypeLoad, Capped;
      ThreadKeepsLoad(st, u, s, TakeStep(s, t, r), i);
    }
  }

  lemma MissKeepsLoad(st: Streams, u: nat, s: State, t: Tid, i: nat)
    requires Sound(st, u) && Inv(st, u, s) && SoloLoad(st, u, s) && i < |st|
    ensures TypeLoad(st, MissStep(s, t), i)
  {
    assert TypeLoad(st, s, i) && (s.threads != map[] ==> !s.first);
    MissSettles(st, s, t, i);
    if t in s.threads && s.threads[t].pc.Pop? && forall q :: q in s.queued ==> q.pid != t {
      assert QueuedAt(st, MissStep(s, t), i) == QueuedAt(st, s, i);
      hide Inv, Sound, QueuedAt, SoloLoad, Settles, TypeLoad, Capped;
      ThreadKeepsLoad(st, u, s, MissStep(s, t), i);
    }
  }

  /** A thread of a single process neither creates a thread nor fails a check. */
  lemma SoloThread(st: Streams, u: nat, s: State, t: Tid)
    requires Sound(st, u) && Alone(st, u) && Inv(st, u, s) && Solo(st, u, s) && t in s.threads
    ensures !s.first && s.nThreads == 1 && |s.counter| == |s.finished| == |st| && WaitOk(s, s.threads[t].pc)
    ensures s.threads[t].pc.Execute? ==> s.threads[t].pc.r.child.None?
    ensures s.threads[t].pc.Decrement? ==> s.threads[t].pc.r.typ < |st|
  {
    if InHand(s.threads[t].pc).Some? {
      assert InPlace(st, u, s, InHand(s.threads[t].pc).value, Taken(t));
    }
    hide SoloLoad, WaitOk;
  }

  /** What a step of the single thread leaves alone. */
  ghost predicate SoloSpares(s: State, s': State, t: Tid) {
    && s'.queued == s.queued && s'.nThreads == s.nThreads && s'.first == s.first && s'.reader == s.reader
    && s'.finished == s.finished
    && s'.threads.Keys == s.threads.Keys && t in s.threads && !s'.threads[t].pc.Increment?
    && (!s.threads[t].pc.Decrement? ==> s'.counter == s.counter)
  }

  lemma SoloStepSpares(s: State, t: Tid)
    requires t in s.threads && s.nThreads == 1 && !s.threads[t].pc.Requeue? && !s.threads[t].pc.Increment?
    requires s.threads[t].pc.Execute? ==> s.threads[t].pc.r.child.None?
    ensures SoloSpares(s, ThreadStep(s, t), t)
  {
    hide Accepted, Min, Up, Down;
    var pc := s.threads[t].pc;
    assert SoloSpares(s, WaitStep(s, t), t);
    assert SoloSpares(s, CheckStep(s, t), t);
    assert SoloSpares(s, UndoStep(s, t), t);
    assert SoloSpares(s, EndStep(s, t), t);
    assert pc.Execute? ==> SoloSpares(s, ExecuteStep(s, t, pc.r, pc.seen), t);
    hide SoloSpares, WaitStep, CheckStep, UndoStep, EndStep, ExecuteStep;
  }

  lemma ThreadStepKeepsLoad(st: Streams, u: nat, s: State, t: Tid, i: nat)
    requires Sound(st, u) && Alone(st, u) && Inv(st, u, s) && Solo(st, u, s) && t in s.threads && i < |st|
    ensures TypeLoad(st, ThreadStep(s, t), i)
  {
    var s' := ThreadStep(s, t);
    SoloThread(st, u, s, t);
    SoloStepSpares(s, t);
    ThreadStepSettles(st, u, s, t, i);
    assert QueuedAt(st, s', i) == QueuedAt(st, s, i);
    if s.threads[t].pc.Decrement? && s.threads[t].pc.r.typ == i && !Capped(s, i) {
      DecrementIsCovered(st, u, s, t);
    }
    assert s'.counter[i] != s.counter[i] ==>
        s.threads[t].pc.Decrement? && s.threads[t].pc.r.typ == i && s'.counter[i] == Down(s.counter[i]);
    hide Sound, Alone, Inv, WaitOk, QueuedAt, SoloLoad, Settles, TypeLoad, ThreadStep;
    ThreadKeepsLoad(st, u, s, s', i);
  }

  // ----- the wait

  /** Types only get fuller: finished ones stay finished, and the counter of one that is still read does
      not go down. */
  ghost predicate Fuller(s: State, s': State) {
    && |s.counter| == |s.finished| == |s'.counter| == |s'.finished|
    && forall i :: 0 <= i < |s.counter| ==>
          (s.finished[i] ==> s'.finished[i]) && (s'.finished[i] || s'.counter[i] >= s.counter[i])
  }

  lemma FullerKeepsWait(s: State, s': State, pc: Pc)
    requires Fuller(s, s') && WaitOk(s, pc)
    ensures WaitOk(s', pc)
  {
  }

  lemma BatchIsFuller(st: Streams, u: nat, s: State)
    requires u < |st| && |st[u]| > 0 && HoldOver(st, s) && SoloLoad(st, u, s) && Working(s.reader).Some?
    ensures Fuller(s, BatchStep(st, s)) && BatchStep(st, s).threads == s.threads
  {
    var i := Working(s.reader).value;
    WorkingFacts(st, s);
    Bounds(st, u, s, i);
    hide HoldOver, SoloLoad;
  }

  /** When the first batch is over, the main thread starts fed. */
  lemma FirstBatchFeeds(st: Streams, u: nat, s: State)
    requires u < |st| && |st[u]| > 0 && HoldOver(st, s) && SoloLoad(st, u, s) && s.first && s.reader.Pick?
    requires s.reader.todo == {}
    ensures Fed(s)
  {
    forall i | 0 <= i < |st|
      ensures s.finished[i] || s.counter[i] >= 10
    {
      assert TypeLoad(st, s, i);
      hide QueuedAt, Owed;
    }
  }

  /** The executor's own step keeps what it knows. */
  lemma ThreadStepKeepsWait(s: State, t: Tid)
    requires t in s.threads && s.nThreads == 1 && |s.counter| == |s.finished| && WaitOk(s, s.threads[t].pc)
    requires s.threads[t].pc.Execute? ==> s.threads[t].pc.r.child.None?
    ensures t in ThreadStep(s, t).threads && WaitOk(ThreadStep(s, t), ThreadStep(s, t).threads[t].pc)
  {
    match s.threads[t].pc
    case Wait(r, k, min) => WaitScanKeeps(s, t);
    case WaitFinished(r, k) => WaitScanKeeps(s, t);
    case Decrement(r) => WaitScanKeeps(s, t);
    case Execute(r, seen) => return;
    case Validate(r) => return;
    case Retire(r) => return;
    case _ => return;
  }

  lemma WaitScanKeeps(s: State, t: Tid)
    requires t in s.threads && s.nThreads == 1 && |s.counter| == |s.finished| && WaitOk(s, s.threads[t].pc)
    requires s.threads[t].pc.Wait? || s.threads[t].pc.WaitFinished? || s.threads[t].pc.Decrement?
    ensures t in WaitStep(s, t).threads && WaitOk(WaitStep(s, t), WaitStep(s, t).threads[t].pc)
  {
    hide Down;
    var s' := WaitStep(s, t);
    if s.threads[t].pc.Decrement? {
      return;
    }
    assert s'.counter == s.counter && s'.finished == s.finished;
    if s.threads[t].pc.WaitFinished? {
      return;
    }
  }

  // ----- every run

  lemma FreeKeepsLoad(st: Streams, s: State, r: Rec, i: nat)
    requires i < |st| && TypeLoad(st, s, i)
    ensures TypeLoad(st, FreeStep(s, r), i)
  {
    SameOwed(st, s, FreeStep(s, r), i);
    assert QueuedAt(st, FreeStep(s, r), i) == QueuedAt(st, s, i);
    hide QueuedAt, Owed;
  }

  lemma ReadsKeepSolo(st: Streams, u: nat, s: State)
    requires Sound(st, u) && Inv(st, u, s) && Solo(st, u, s)
    ensures Solo(st, u, ReaderStep(st, u, s))
  {
    var s' := ReaderStep(st, u, s);
    if Working(s.reader).Some? {
      BatchIsFuller(st, u, s);
      forall i | 0 <= i < |st|
        ensures TypeLoad(st, s', i)
      {
        BatchKeepsLoad(st, u, s, i);
      }
      assert s'.nThreads == 1 && s'.first == s.first && InBatch(s'.reader) && s'.reader.b == s.reader.b;
      hide Inv, Sound, Fuller, TypeLoad, ReaderStep, BatchStep, WaitOk;
      forall t | t in s'.threads
        ensures WaitOk(s', s'.threads[t].pc)
      {
        FullerKeepsWait(s, s', s.threads[t].pc);
      }
    } else {
      RoundKeepsSolo(st, u, s);
    }
  }

  lemma RoundKeepsSolo(st: Streams, u: nat, s: State)
    requires Sound(st, u) && Inv(st, u, s) && Solo(st, u, s) && Working(s.reader).None?
    ensures Solo(st, u, RoundStep(st, u, s))
  {
    var s' := RoundStep(st, u, s);
    forall i | 0 <= i < |st|
      ensures TypeLoad(st, s', i)
    {
      RoundKeepsLoad(st, u, s, i);
    }
    RoundSpares(st, u, s, 0);
    RoundThreads(st, u, s);
    assert Shape(st, s) && (s.first ==> s.threads == map[]);
    if s.first && s.reader.Pick? && s.reader.todo == {} {
      FirstBatchFeeds(st, u, s);
    }
    hide Inv, Sound, TypeLoad, RoundStep;
    assert Fuller(s, s');
    hide WaitOk, Fuller;
    forall t | t in s'.threads
      ensures WaitOk(s', s'.threads[t].pc)
    {
      if t in s.threads {
        FullerKeepsWait(s, s', s.threads[t].pc);
      } else {
        FedMayTake(s, s');
      }
    }
  }

  lemma FedMayTake(s: State, s': State)
    requires Fed(s) && Fuller(s, s')
    ensures WaitOk(s', Pop)
  {
  }

  lemma RoundThreads(st: Streams, u: nat, s: State)
    requires u < |st| && |st[u]| > 0
    ensures var s' := RoundStep(st, u, s);
            && s'.finished == s.finished
            && (s'.threads != s.threads ==>
                  && s.first && s.reader.Pick? && s.reader.todo == {}
                  && s'.threads == s.threads[st[u][0].pid := Thread(Pop, None)])
  {
    hide Upto, Min;
  }

  /** A step of the reader that touches neither the counters nor the threads. */
  lemma SameCountersKeepSolo(st: Streams, u: nat, s: State, s': State)
    requires u < |st| && |st[u]| > 0 && Solo(st, u, s) && s'.threads == s.threads && s'.counter == s.counter
    requires s'.finished == s.finished
    requires s'.nThreads == s.nThreads && s'.first == s.first
    requires InBatch(s'.reader) ==> InBatch(s.reader) && s'.reader.b == s.reader.b
    requires forall i :: 0 <= i < |st| ==> TypeLoad(st, s', i)
    requires |s.counter| == |s.finished|
    ensures Solo(st, u, s')
  {
    hide TypeLoad, WaitOk, Fuller, InBatch;
    assert Fuller(s, s') by { SameIsFuller(s, s'); }
    forall t | t in s.threads
      ensures WaitOk(s', s.threads[t].pc)
    {
      FullerKeepsWait(s, s', s.threads[t].pc);
    }
  }

  lemma SameIsFuller(s: State, s': State)
    requires s'.counter == s.counter && s'.finished == s.finished && |s.counter| == |s.finished|
    ensures Fuller(s, s')
  {
  }

  lemma OthersKeepSolo(st: Streams, u: nat, s: State, k: nat, r: Rec)
    requires Sound(st, u) && Inv(st, u, s) && Solo(st, u, s)
    ensures Solo(st, u, PickStep(s, k)) && Solo(st, u, FreeStep(s, r))
  {
    forall i | 0 <= i < |st|
      ensures TypeLoad(st, PickStep(s, k), i) && TypeLoad(st, FreeStep(s, r), i)
    {
      PickKeepsLoad(st, u, s, k, i);
      FreeKeepsLoad(st, s, r, i);
    }
    assert Shape(st, s);
    hide Inv, Sound, TypeLoad, Solo;
    SameCountersKeepSolo(st, u, s, PickStep(s, k));
    SameCountersKeepSolo(st, u, s, FreeStep(s, r));
  }

  /** A step of the one executor thread. */
  lemma ExecutorKeepsSolo(st: Streams, u: nat, s: State, s': State, t: Tid)
    requires u < |st| && |st[u]| > 0 && Solo(st, u, s) && t in s.threads && t in s'.threads
    requires s'.threads.Keys == s.threads.Keys
    requires s'.nThreads == 1 && s'.reader == s.reader && s'.first == s.first && !s'.threads[t].pc.Increment?
    requires forall i :: 0 <= i < |st| ==> TypeLoad(st, s', i)
    requires WaitOk(s', s'.threads[t].pc)
    ensures Solo(st, u, s')
  {
    assert forall p :: p in s'.threads ==> p == t;
    hide WaitOk, TypeLoad;
  }

  lemma TakesKeepSolo(st: Streams, u: nat, s: State, t: Tid, r: Rec)
    requires Sound(st, u) && Inv(st, u, s) && Solo(st, u, s)
    ensures Solo(st, u, TakeStep(s, t, r)) && Solo(st, u, MissStep(s, t))
  {
    forall i | 0 <= i < |st|
      ensures TypeLoad(st, TakeStep(s, t, r), i) && TypeLoad(st, MissStep(s, t), i)
    {
      TakeKeepsLoad(st, u, s, t, r, i);
      MissKeepsLoad(st, u, s, t, i);
    }
    if t in s.threads {
      hide Inv, Sound, TypeLoad, SoloLoad;
      TakenWaits(s, t, r);
      assert s.nThreads == 1 by { SoloThreads(st, u, s); }
      ExecutorKeepsSolo(st, u, s, TakeStep(s, t, r), t);
      ExecutorKeepsSolo(st, u, s, MissStep(s, t), t);
    }
  }

  lemma SoloThreads(st: Streams, u: nat, s: State)
    requires u < |st| && |st[u]| > 0 && SoloLoad(st, u, s)
    ensures s.nThreads == 1
  {
  }

  lemma TakenWaits(s: State, t: Tid, r: Rec)
    requires t in s.threads && WaitOk(s, s.threads[t].pc)
    ensures WaitOk(TakeStep(s, t, r), TakeStep(s, t, r).threads[t].pc)
    ensures WaitOk(MissStep(s, t), MissStep(s, t).threads[t].pc)
    ensures !TakeStep(s, t, r).threads[t].pc.Increment? && !MissStep(s, t).threads[t].pc.Increment?
  {
  }

  lemma RunsKeepSolo(st: Streams, u: nat, s: State, t: Tid)
    requires Sound(st, u) && Alone(st, u) && Inv(st, u, s) && Solo(st, u, s)
    ensures Solo(st, u, ThreadStep(s, t))
  {
    hide Sound, Alone, Inv, ThreadStep, TypeLoad, SoloLoad, WaitOk;
    Basics(st, u, s);
    if t in s.threads {
      forall i | 0 <= i < |st|
        ensures TypeLoad(st, ThreadStep(s, t), i)
      {
        ThreadStepKeepsLoad(st, u, s, t, i);
      }
      SoloThread(st, u, s, t);
      NeverUndoes(s, s.threads[t].pc);
      SoloStepSpares(s, t);
      ThreadStepKeepsWait(s, t);
      ExecutorKeepsSolo(st, u, s, ThreadStep(s, t), t);
    } else {
      assert ThreadStep(s, t) == s by { AbsentStays(s, t); }
    }
  }

  lemma NeverUndoes(s: State, pc: Pc)
    requires WaitOk(s, pc)
    ensures !pc.SetNull? && !pc.Requeue? && !pc.Increment?
  {
  }

  lemma AbsentStays(s: State, t: Tid)
    requires t !in s.threads
    ensures ThreadStep(s, t) == s
  {
  }

  lemma FireKeepsSolo(st: Streams, u: nat, s: State, l: Label)
    requires Sound(st, u) && Alone(st, u) && Inv(st, u, s) && Solo(st, u, s)
    ensures Solo(st, u, Fire(st, u, s, l))
  {
    hide Sound, Alone, Inv, Solo, ReaderStep, PickStep, FreeStep, TakeStep, MissStep, ThreadStep;
    Basics(st, u, s);
    match l
    case Reads => ReadsKeepSolo(st, u, s);
    case PickType(i) => OthersKeepSolo(st, u, s, i, st[u][0]);
    case Free(r) => OthersKeepSolo(st, u, s, 0, r);
    case Take(t, r) => TakesKeepSolo(st, u, s, t, r);
    case Miss(t) => TakesKeepSolo(st, u, s, t, st[u][0]);
    case Runs(t) => RunsKeepSolo(st, u, s, t);
  }

  lemma StartTypeLoad(st: Streams, u: nat, i: nat)
    requires Sound(st, u) && i < |st|
    ensures TypeLoad(st, Start(st, u), i)
  {
    StartOwed(st, u, i);
    hide QueuedAt, Owed;
  }

  lemma StartSolo(st: Streams, u: nat)
    requires Sound(st, u)
    ensures Solo(st, u, Start(st, u))
  {
    forall i | 0 <= i < |st|
      ensures TypeLoad(st, Start(st, u), i)
    {
      StartTypeLoad(st, u, i);
    }
    hide TypeLoad;
  }

  /** In every interleaving every take and every miss finds the reader ahead. */
  lemma {:induction false} SoloRun(st: Streams, u: nat, s: State, labels: seq<Label>)
    requires Sound(st, u) && Alone(st, u) && Inv(st, u, s) && Solo(st, u, s)
    ensures Delivered(st, u, s, labels) && Inv(st, u, Run(st, u, s, labels)) && Solo(st, u, Run(st, u, s, labels))
    decreases |labels|
  {
    if labels != [] {
      var l := labels[0];
      FireKeeps(st, u, s, l);
      FireKeepsSolo(st, u, s, l);
      if AtTake(s, l) {
        SoloAhead(st, u, s, l.t);
      }
      hide Sound, Alone, Inv, Solo, Fire;
      SoloRun(st, u, Fire(st, u, s, l), labels[1..]);
    }
  }

  // ----- the theorem

  /** What holds after any interleaving of the replay of one process: the log is in the order of the record
      numbers and has every record below any it has; once the executor has left its loop it has all
      records; and no type ever has more than 999 records queued. */
  ghost predicate Merged(st: Streams, u: nat, s: State)
    requires u < |st|
  {
    && (forall j, k :: 0 <= j < k < |s.log| ==> s.log[j].r.uid < s.log[k].r.uid)
    && (forall a, b :: IsRecord(st, a) && IsRecord(st, b) && a.uid < b.uid && InLog(s.log, b) ==> InLog(s.log, a))
    && (forall t, a :: t in s.threads && (s.threads[t].pc.Leave? || s.threads[t].pc.Gone?) && IsRecord(st, a) ==>
          InLog(s.log, a))
    && (forall i :: 0 <= i < |st| ==> |QueuedAt(st, s, i)| <= 999)
  }

  lemma InOrderMerges(st: Streams, u: nat, s: State)
    requires Sound(st, u) && Alone(st, u) && Inv(st, u, s) && Solo(st, u, s) && InOrder(st, s)
    ensures Merged(st, u, s)
  {
    forall i | 0 <= i < |st|
      ensures |QueuedAt(st, s, i)| <= 999
    {
      Bounds(st, u, s, i);
    }
    forall t, a | t in s.threads && (s.threads[t].pc.Leave? || s.threads[t].pc.Gone?) && IsRecord(st, a)
      ensures InLog(s.log, a)
    {
      assert ThreadOrder(st, s.log, t, s.threads[t].pc) && AllDone(st, s.log, t);
      assert a.pid == t;
    }
    assert forall k :: 0 <= k < |s.log| ==> s.log[k].r.pid == st[u][0].pid;
    hide InLog, QueuedAt, Solo, HoldOver, OnePlace, TableOk, CausallyOrdered, ThreadOrder, Sound;
  }

  /** Single-process merge correctness, for all streams and all interleavings. */
  lemma SingleProcessMerges(st: Streams, u: nat, labels: seq<Label>)
    requires Sound(st, u) && Alone(st, u)
    ensures Inv(st, u, Run(st, u, Start(st, u), labels)) && Merged(st, u, Run(st, u, Start(st, u), labels))
  {
    var s := Start(st, u);
    StartHolds(st, u);
    StartSolo(st, u);
    StartInOrder(st, u);
    SoloRun(st, u, s, labels);
    RunInOrder(st, u, s, labels);
    hide Sound, Alone, Inv, Solo, InOrder, Run, Merged, Start;
    InOrderMerges(st, u, Run(st, u, s, labels));
  }
}
