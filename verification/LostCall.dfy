/** With two processes a call can be lost: the thread of a child looks into its heap before the reader has
    pushed the child's first record, ends, and never comes back.
  */
module LostCall {
  import opened Collections
  import opened Traces
  import opened Scheduler
  import opened Places
  import opened HappensBefore
  import opened Waits
  import opened ReaderAlone

  // ----- a thread that has ended

  lemma GoneStays(st: Streams, u: nat, s: State, l: Label, t: Tid, a: Rec)
    requires Sound(st, u) && Inv(st, u, s) && t in s.threads && s.threads[t].pc.Gone? && a.pid == t && !InLog(s.log, a)
    ensures var s' := Fire(st, u, s, l); t in s'.threads && s'.threads[t].pc.Gone? && !InLog(s'.log, a)
  {
    hide Inv, Sound, WaitStep, CheckStep, UndoStep, EndStep, InLog;
    Basics(st, u, s);
    if l.Runs? && l.t in s.threads && s.threads[l.t].pc.Execute? {
      ExecutingChildIsNew(st, u, s, l.t);
      ExecutedIsOwn(st, u, s, l.t);
      LogOnly(s.log, Executed(s.threads[l.t].pc.r, s.threads[l.t].pc.seen), a);
    } else {
      hide Fire;
      OthersKeepGone(st, u, s, l, t);
    }
  }

  lemma LogOnly(log: seq<Executed>, e: Executed, a: Rec)
    ensures InLog(log + [e], a) ==> InLog(log, a) || e.r == a
  {
    if InLog(log + [e], a) {
      var k :| 0 <= k < |log + [e]| && (log + [e])[k].r == a;
      if k < |log| {
        assert log[k].r == a;
      }
    }
  }

  lemma ExecutedIsOwn(st: Streams, u: nat, s: State, t: Tid)
    requires u < |st| && |st[u]| > 0 && Inv(st, u, s) && t in s.threads && s.threads[t].pc.Execute?
    ensures s.threads[t].pc.r.pid == t
  {
    assert OwnRecords(t, s.threads[t]);
  }

  ghost predicate StillGone(s: State, s': State, t: Tid) {
    t in s'.threads && s'.threads[t].pc.Gone? && s'.log == s.log
  }

  lemma WaitsKeepGone(s: State, x: Tid, t: Tid)
    requires t in s.threads && s.threads[t].pc.Gone? && x in s.threads
    ensures StillGone(s, WaitStep(s, x), t)
  {
    hide Min, Down;
  }

  lemma UndosKeepGone(s: State, x: Tid, t: Tid)
    requires t in s.threads && s.threads[t].pc.Gone? && x in s.threads
    ensures StillGone(s, UndoStep(s, x), t)
  {
    hide Up;
  }

  lemma ChecksKeepGone(s: State, x: Tid, t: Tid)
    requires t in s.threads && s.threads[t].pc.Gone? && x in s.threads
    ensures StillGone(s, CheckStep(s, x), t) && StillGone(s, EndStep(s, x), t)
  {
    hide Accepted, Without;
  }

  lemma ReadsKeepGone(st: Streams, u: nat, s: State, i: nat, r: Rec, t: Tid)
    requires u < |st| && |st[u]| > 0 && t in s.threads && s.threads[t].pc.Gone? && !s.first
    ensures StillGone(s, ReaderStep(st, u, s), t) && StillGone(s, PickStep(s, i), t) && StillGone(s, FreeStep(s, r), t)
  {
    hide BatchStep, Upto, Min;
    BatchSpares(st, s);
  }

  lemma TakesKeepGone(s: State, x: Tid, r: Rec, t: Tid)
    requires t in s.threads && s.threads[t].pc.Gone?
    ensures StillGone(s, TakeStep(s, x, r), t) && StillGone(s, MissStep(s, x), t)
  {
    hide IsLeast;
  }

  lemma OthersKeepGone(st: Streams, u: nat, s: State, l: Label, t: Tid)
    requires u < |st| && |st[u]| > 0 && t in s.threads && s.threads[t].pc.Gone? && !s.first
    requires l.Runs? && l.t in s.threads ==> !s.threads[l.t].pc.Execute?
    ensures StillGone(s, Fire(st, u, s, l), t)
  {
    hide StillGone, ReaderStep, PickStep, FreeStep, TakeStep;
    hide MissStep, WaitStep, CheckStep, UndoStep, EndStep, ExecuteStep;
    match l
    case Reads => ReadsKeepGone(st, u, s, 0, st[u][0], t);
    case PickType(i) => ReadsKeepGone(st, u, s, i, st[u][0], t);
    case Free(r) => ReadsKeepGone(st, u, s, 0, r, t);
    case Take(x, r) => TakesKeepGone(s, x, r, t);
    case Miss(x) => TakesKeepGone(s, x, st[u][0], t);
    case Runs(x) => RunsKeepGone(s, x, t);
  }

  lemma RunsKeepGone(s: State, x: Tid, t: Tid)
    requires t in s.threads && s.threads[t].pc.Gone? && (x in s.threads ==> !s.threads[x].pc.Execute?)
    ensures StillGone(s, ThreadStep(s, x), t)
  {
    if x in s.threads {
      WaitsKeepGone(s, x, t);
      UndosKeepGone(s, x, t);
      ChecksKeepGone(s, x, t);
      hide StillGone, WaitStep, CheckStep, UndoStep, EndStep, ExecuteStep;
    }
  }

  /** Whatever happens afterwards, a record of a process whose thread has ended is never executed. */
  lemma {:induction false} GoneIsForever(st: Streams, u: nat, s: State, labels: seq<Label>, t: Tid, a: Rec)
    requires Sound(st, u) && Inv(st, u, s) && t in s.threads && s.threads[t].pc.Gone? && a.pid == t && !InLog(s.log, a)
    ensures !InLog(Run(st, u, s, labels).log, a)
    decreases |labels|
  {
    if labels != [] {
      FireKeeps(st, u, s, labels[0]);
      GoneStays(st, u, s, labels[0], t, a);
      hide Inv, Sound, Fire, InLog;
      GoneIsForever(st, u, Fire(st, u, s, labels[0]), labels[1..], t, a);
    }
  }

  // ----- the trace

  const MAIN: Tid := 1
  const CHILD: Tid := 2

  function Reading(j: nat): Rec {
    Rec(2 + j, 2, j, if j == 999 then CHILD else MAIN, 2 + j, 2 + j, None)
  }

  /** The main process sets its umask, creates a child and reads 999 times; then the child reads once. */
  function Example(): Streams {
    [[Rec(0, 0, 0, MAIN, 0, 0, None)], [Rec(1, 1, 0, MAIN, 1, 1, Some(CHILD))],
     seq(1000, j requires 0 <= j < 1000 => Reading(j))]
  }

  lemma ExampleRecords()
    ensures var st := Example();
            && |st| == 3 && |st[0]| == 1 && |st[1]| == 1 && |st[2]| == 1000
            && st[0][0] == Rec(0, 0, 0, MAIN, 0, 0, None) && st[1][0] == Rec(1, 1, 0, MAIN, 1, 1, Some(CHILD))
            && (forall j :: 0 <= j < 1000 ==> st[2][j] == Reading(j))
            && forall r :: IsRecord(st, r) <==> r == st[0][0] || r == st[1][0] || (r.pos < 1000 && r == Reading(r.pos))
  {
  }

  /** In this trace everything about a record follows from its number. */
  ghost predicate Numbered(r: Rec)
    requires |Example()| == 3 && |Example()[0]| == 1 && |Example()[1]| == 1
  {
    && r.called == r.uid == r.returned && (r.child.Some? <==> r.uid == 1) && (r.child.Some? ==> r.child == Some(CHILD))
    && r == (if r.uid == 0 then Example()[0][0] else if r.uid == 1 then Example()[1][0] else Reading(r.uid - 2))
    && (if r.typ == 2 then r.uid == 2 + r.pos else r.pos == 0)
  }

  lemma ExampleRecord(r: Rec)
    ensures IsRecord(Example(), r) ==> |Example()| == 3 && |Example()[0]| == 1 && |Example()[1]| == 1 && Numbered(r)
  {
    ExampleRecords();
    hide Example;
  }

  lemma ExampleIsOrdered(a: Rec, b: Rec)
    requires IsRecord(Example(), a) && IsRecord(Example(), b)
    ensures a.typ == b.typ && a.pos < b.pos ==> a.uid < b.uid
    ensures a.uid == b.uid ==> a == b
    ensures a.child.Some? && a.child == b.child ==> a == b
  {
    ExampleRecord(a);
    ExampleRecord(b);
    hide Example, IsRecord;
  }

  lemma ExampleIsIndexed()
    ensures var st := Example();
            && (forall i :: 0 <= i < |st| ==> |st[i]| > 0) && |st| == 3 && st[0][0].uid == 0 && st[0][0].pid == MAIN
            && forall i, j :: 0 <= i < |st| && 0 <= j < |st[i]| ==> st[i][j].typ == i && st[i][j].pos == j
  {
    ExampleRecords();
    hide Example;
  }

  lemma ExampleIsInSequence()
    ensures CallsInSequence(Example())
  {
    hide Example, IsRecord, Numbered;
    ExampleRecords();
    forall r | IsRecord(Example(), r)
      ensures r.called == r.uid == r.returned
    {
      ExampleRecord(r);
      NumberedMeans(r);
    }
  }

  lemma ExampleIsSound()
    ensures Sound(Example(), 0) && CallsInSequence(Example())
  {
    hide Example, IsRecord, Numbered, CallsInSequence;
    ExampleIsInSequence();
    ExampleIsIndexed();
    forall a, b | IsRecord(Example(), a) && IsRecord(Example(), b)
      ensures a.typ == b.typ && a.pos < b.pos ==> a.uid < b.uid
      ensures a.uid == b.uid ==> a == b
      ensures a.child.Some? && a.child == b.child ==> a == b
    {
      ExampleIsOrdered(a, b);
    }
    forall r | IsRecord(Example(), r)
      ensures r.child.Some? ==> r.child.value != MAIN
    {
      ExampleRecord(r);
      NumberedMeans(r);
    }
  }

  lemma NumberedMeans(r: Rec)
    requires |Example()| == 3 && |Example()[0]| == 1 && |Example()[1]| == 1
    ensures Numbered(r) ==> r.called == r.uid == r.returned && (r.child.Some? ==> r.child == Some(CHILD))
  {
  }

  /** The record that gets lost. */
  function LostRecord(): Rec {
    Reading(999)
  }

  // ----- the run

  /** The main thread loads the first batch; of the reads it pushes 999 and holds the last. */
  lemma Load() returns (labels: seq<Label>, s: State)
    ensures Sound(Example(), 0) && s == Run(Example(), 0, Start(Example(), 0), labels) && Inv(Example(), 0, s)
    ensures !s.first && s.nThreads == 1 && s.threads == map[MAIN := Thread(Pop, None)]
    ensures s.log == Start(Example(), 0).log
    ensures s.read == [1, 1, 1000] && s.finished == [true, true, false] && s.counter == [LLONG_MAX, LLONG_MAX, 999]
    ensures s.reader == Round
  {
    ExampleIsSound();
    ExampleRecords();
    hide Sound, Inv, Run, Example;
    var st := Example();
    StartHolds(st, 0);
    StartLoad(st);
    var s0 := Start(st, 0);
    var l0, s1 := TypeRun(st, 0, s0, 0);
    var l1, s2 := TypeRun(st, 0, s1, 1);
    var l2, s3 := TypeRun(st, 0, s2, 2);
    LoadedAll(st, s0, s1, s2, s3);
    RunConcat(st, 0, s0, l0, l1);
    RunConcat(st, 0, s0, l0 + l1, l2);
    RunThen(st, 0, s0, l0 + l1 + l2, Reads);
    ReadsKeeps(st, 0, s3);
    s := ReaderStep(st, 0, s3);
    labels := l0 + l1 + l2 + [Reads];
    MainStarts(st, s3);
  }

  lemma StartLoad(st: Streams)
    requires |st| == 3 && forall i :: 0 <= i < 3 ==> |st[i]| > 0
    ensures var s := Start(st, 0);
            && s.first && s.reader.Pick? && s.reader == Pick({0, 1, 2}, 1000) && s.nThreads == 1 && s.threads == map[]
            && s.read == [1, 1, 1] && s.finished == [false, false, false] && s.counter == [0, 1, 1] && |s.held| == 3
  {
    assert Upto(3) == {0, 1, 2};
  }

  lemma LoadedAll(st: Streams, s0: State, s1: State, s2: State, s3: State)
    requires |st| == 3 && |st[0]| == 1 && |st[1]| == 1 && |st[2]| == 1000
    requires s0.read == [1, 1, 1] && s0.finished == [false, false, false] && s0.counter == [0, 1, 1]
    requires OnlyType(s0, s1, 0) && TypeFilled(st, s0, s1, 0, 1000)
    requires OnlyType(s1, s2, 1) && TypeFilled(st, s1, s2, 1, 1000)
    requires OnlyType(s2, s3, 2) && TypeFilled(st, s2, s3, 2, 1000)
    ensures SparesThreads(s0, s3)
    ensures s3.read == [1, 1, 1000] && s3.finished == [true, true, false] && s3.counter == [LLONG_MAX, LLONG_MAX, 999]
  {
  }

  lemma MainStarts(st: Streams, s: State)
    requires |st| == 3 && |st[0]| > 0 && st[0][0].pid == MAIN && s.first && s.reader.Pick? && s.reader.todo == {}
    requires s.threads == map[]
    ensures ReaderStep(st, 0, s) == s.(first := false, reader := Round, threads := map[MAIN := Thread(Pop, None)])
  {
    hide BatchStep;
    assert s.threads[MAIN := Thread(Pop, None)] == map[MAIN := Thread(Pop, None)];
  }

  /** What the heaps hold when the main thread starts: the clone is its least record, and the record of
      the child is not among them. */
  lemma AfterLoad(s: State)
    requires Sound(Example(), 0) && Inv(Example(), 0, s) && !s.first && s.reader == Round
    requires s.threads == map[MAIN := Thread(Pop, None)]
    requires s.read == [1, 1, 1000] && s.finished == [true, true, false] && s.log == Start(Example(), 0).log
    ensures IsLeast(s.queued, MAIN, Example()[1][0])
    ensures forall q :: q in s.queued ==> q.pid == MAIN
    ensures !InLog(s.log, LostRecord()) && IsRecord(Example(), LostRecord())
  {
    hide Start, Example, Sound, Inv, InPlace, InLog, Shape;
    ExampleRecords();
    StartLog(s);
    LostIsHeld(s);
    CloneIsQueued(s);
    forall q | q in s.queued
      ensures q.pid == MAIN && q.uid >= 1
    {
      QueuedIsMain(s, q);
    }
  }

  lemma StartLog(s: State)
    requires s.log == Start(Example(), 0).log
    ensures |Example()| == 3 && |Example()[0]| == 1 && |Example()[1]| == 1
    ensures !InLog(s.log, Example()[1][0]) && !InLog(s.log, LostRecord())
  {
    assert Start(Example(), 0).log == [Executed(Example()[0][0], {})];
  }

  lemma RestFacts(st: Streams, s: State, i: nat)
    requires HoldOver(st, s) && !s.first && s.reader == Round && i < |st|
    ensures |s.held| == |s.finished| == |s.read| == |st| && AtRest(|st[i]|, false, s.read[i], s.held[i], s.finished[i])
  {
    assert Working(s.reader) != Some(i);
  }

  lemma LostIsHeld(s: State)
    requires Inv(Example(), 0, s) && !s.first && s.reader == Round && s.read == [1, 1, 1000]
    requires s.finished == [true, true, false]
    ensures IsRecord(Example(), LostRecord()) && InPlace(Example(), 0, s, LostRecord(), Held)
  {
    hide Inv, Example;
    ExampleRecords();
    HoldsOver(Example(), 0, s);
    RestFacts(Example(), s, 2);
    hide HoldOver;
  }

  lemma CloneIsQueued(s: State)
    requires Inv(Example(), 0, s) && !s.first && s.reader == Round && s.threads == map[MAIN := Thread(Pop, None)]
    requires s.read == [1, 1, 1000] && s.finished == [true, true, false] && !InLog(s.log, Example()[1][0])
    ensures Example()[1][0] in s.queued
  {
    hide Example, Inv, InLog;
    ExampleRecords();
    HoldsOver(Example(), 0, s);
    RestFacts(Example(), s, 1);
    hide HoldOver;
    IdlePlaces(Example(), 0, s, MAIN, Example()[1][0]);
  }

  lemma QueuedIsMain(s: State, q: Rec)
    requires Inv(Example(), 0, s) && q in s.queued && InPlace(Example(), 0, s, LostRecord(), Held)
    ensures q.pid == MAIN && q.uid >= 1
  {
    hide Example, HoldOver, TableOk, LogExact;
    ExampleRecords();
    var first := Example()[0][0];
    assert InPlace(Example(), 0, s, q, Queued);
    assert IsRecord(Example(), q) && IsRecord(Example(), first) && first.typ == 0 && first.pos == 0;
    assert InPlace(Example(), 0, s, first, Primed);
    assert q != LostRecord() && q != first;
  }

  /** The main thread executes the clone; the wait lets it pass, since all counters are high. */
  lemma MainExecutes(s: State) returns (labels: seq<Label>, s': State)
    requires Sound(Example(), 0) && IsLeast(s.queued, MAIN, Example()[1][0])
    requires s.threads == map[MAIN := Thread(Pop, None)]
    requires s.nThreads == 1 && s.counter == [LLONG_MAX, LLONG_MAX, 999]
    ensures s' == Run(Example(), 0, s, labels) && CHILD in s'.threads && s'.threads[CHILD].pc.Pop?
    ensures s'.queued == s.queued - multiset{Example()[1][0]}
    ensures exists seen :: s'.log == s.log + [Executed(Example()[1][0], seen)]
  {
    ExampleRecords();
    hide Run, Sound, Example, IsLeast;
    var st, r, t := Example(), Example()[1][0], MAIN;
    assert r.typ == 1 && r.child == Some(CHILD) && CHILD != MAIN;
    var s1 := At(s.(queued := s.queued - multiset{r}), t, Decrement(r));
    assert Fire(st, 0, s, Take(t, r)) == s1;
    var s2 := At(s1.(counter := s.counter[1 := Down(LLONG_MAX)]), t, Wait(r, 0, ULONG_MAX));
    assert Fire(st, 0, s1, Runs(t)) == s2;
    var s3 := At(s2, t, Publish(r));
    assert !SomeLow(s2);
    ExecutorWaitsIff(st, 0, s2, t);
    var wait := Repeat(Runs(t), |s2.counter|) + [Runs(t)];
    assert Run(st, 0, s2, wait) == s3;
    RunOne(st, 0, s, Take(t, r));
    RunThen(st, 0, s, [Take(t, r)], Runs(t));
    RunConcat(st, 0, s, [Take(t, r)] + [Runs(t)], wait);
    var rest;
    rest, s' := Publishes(s3, r);
    labels := [Take(t, r)] + [Runs(t)] + wait + rest;
    RunConcat(st, 0, s, [Take(t, r)] + [Runs(t)] + wait, rest);
  }

  lemma Publishes(s: State, r: Rec) returns (labels: seq<Label>, s': State)
    requires |Example()| == 3 && |Example()[0]| > 0 && s.threads == map[MAIN := Thread(Publish(r), None)]
    requires s.nThreads == 1 && r.child == Some(CHILD)
    ensures s' == Run(Example(), 0, s, labels) && CHILD in s'.threads && s'.threads[CHILD].pc.Pop?
    ensures s'.queued == s.queued
    ensures exists seen :: s'.log == s.log + [Executed(r, seen)]
  {
    hide Run, Accepted, Example;
    var st, t := Example(), MAIN;
    var s1 := Fire(st, 0, s, Runs(t));
    assert s1.threads == map[t := Thread(Retire(r), None)];
    assert s1.log == s.log && s1.queued == s.queued && s1.nThreads == 1;
    var s2 := Fire(st, 0, s1, Runs(t));
    assert s2.threads == map[t := Thread(Validate(r), None)];
    assert s2.log == s.log && s2.queued == s.queued && s2.nThreads == 1;
    var s3 := Fire(st, 0, s2, Runs(t));
    assert s3.threads == map[t := Thread(Execute(r, s2.threads.Keys), None)];
    assert s3.log == s.log && s3.queued == s.queued;
    s' := Fire(st, 0, s3, Runs(t));
    assert s'.log == s.log + [Executed(r, s2.threads.Keys)];
    RunOne(st, 0, s, Runs(t));
    RunThen(st, 0, s, [Runs(t)], Runs(t));
    RunThen(st, 0, s, [Runs(t)] + [Runs(t)], Runs(t));
    RunThen(st, 0, s, [Runs(t)] + [Runs(t)] + [Runs(t)], Runs(t));
    labels := [Runs(t)] + [Runs(t)] + [Runs(t)] + [Runs(t)];
  }

  /** The thread of the child finds its heap empty and ends. */
  lemma ChildEnds(s: State) returns (labels: seq<Label>, s': State)
    requires |Example()| == 3 && |Example()[0]| > 0 && CHILD in s.threads && s.threads[CHILD].pc.Pop?
    requires forall q :: q in s.queued ==> q.pid == MAIN
    ensures s' == Run(Example(), 0, s, labels) && CHILD in s'.threads && s'.threads[CHILD].pc.Gone? && s'.log == s.log
  {
    hide Run, Example;
    var st := Example();
    var s1 := At(s, CHILD, Leave);
    assert Fire(st, 0, s, Miss(CHILD)) == s1;
    s' := Fire(st, 0, s1, Runs(CHILD));
    RunOne(st, 0, s, Miss(CHILD));
    RunThen(st, 0, s, [Miss(CHILD)], Runs(CHILD));
    labels := [Miss(CHILD)] + [Runs(CHILD)];
  }

  /** The whole replay up to the end of the child's thread. */
  lemma ReplayToTheEnd() returns (labels: seq<Label>, s': State)
    ensures Sound(Example(), 0) && s' == Run(Example(), 0, Start(Example(), 0), labels) && Inv(Example(), 0, s')
    ensures CHILD in s'.threads && s'.threads[CHILD].pc.Gone? && !InLog(s'.log, LostRecord())
  {
    ExampleRecords();
    hide Run, Sound, Inv, Start, InLog, Example, IsLeast;
    var st := Example();
    var load, s := Load();
    AfterLoad(s);
    var main, s1 := MainExecutes(s);
    var end;
    end, s' := ChildEnds(s1);
    var seen :| s1.log == s.log + [Executed(st[1][0], seen)];
    LogOnly(s.log, Executed(st[1][0], seen), LostRecord());
    RunConcat(st, 0, Start(st, 0), load, main);
    RunConcat(st, 0, Start(st, 0), load + main, end);
    labels := load + main + end;
    RunKeeps(st, 0, s, main);
    RunKeeps(st, 0, s1, end);
  }

  /** A replay of this trace exists in which the child's call is not executed, whatever happens later:
      the thread of the child ends before the reader has pushed it. */
  lemma CallIsLost() returns (labels: seq<Label>)
    ensures Sound(Example(), 0) && CallsInSequence(Example()) && IsRecord(Example(), LostRecord())
    ensures forall more :: !InLog(Run(Example(), 0, Start(Example(), 0), labels + more).log, LostRecord())
  {
    ExampleIsSound();
    ExampleRecords();
    hide Run, Sound, Inv, Start, InLog, Example, CallsInSequence;
    var s;
    labels, s := ReplayToTheEnd();
    forall more
      ensures !InLog(Run(Example(), 0, Start(Example(), 0), labels + more).log, LostRecord())
    {
      RunConcat(Example(), 0, Start(Example(), 0), labels, more);
      GoneIsForever(Example(), 0, s, more, CHILD, LostRecord());
    }
  }
}
