/** Neither wait can last: from every reachable state the reader by itself brings every counter so high that
    each executor that waits goes on.
  */
module Release {
  import opened Collections
  import opened Traces
  import opened Scheduler
  import opened Places
  import opened Counters
  import opened CounterBounds
  import opened Waits
  import opened ReaderAlone

  /** The streams and the number of threads are small for 64-bit counters. */
  predicate Small(st: Streams, n: nat) {
    450 * n + 1 < LLONG_MAX && forall i :: 0 <= i < |st| ==> |st[i]| + 100 * n < LLONG_MAX
  }

  // ----- the reader

  lemma AllFinishedIsHigh(st: Streams, u: nat, s: State)
    requires Sound(st, u) && Inv(st, u, s) && Bounded(st, s) && Small(st, s.nThreads) && s.reader.Stopped?
    ensures AllHigh(s)
  {
    hide Sound, Inv;
    Basics(st, u, s);
    ShapeOf(st, u, s);
    forall i | 0 <= i < |s.counter|
      ensures s.counter[i] > 100 * s.nThreads
    {
      assert s.finished[i];
      CappedStaysHigh(st, u, s, i);
    }
  }

  /** After a whole round of batches of 150 records a thread every counter is high: those of exhausted
      types because they were overwritten, the others because they were or have been filled. */
  lemma RoundIsHigh(st: Streams, u: nat, s: State, s': State)
    requires Sound(st, u) && Inv(st, u, s) && Bounded(st, s) && Small(st, s.nThreads)
    requires s.reader == Pick(Upto(|st|), 150 * s.nThreads)
    requires SameThreads(s, s') && AllServed(s, s', Upto(|st|), 150 * s.nThreads)
    ensures AllHigh(s')
  {
    hide Sound, Inv, Bounded;
    Basics(st, u, s);
    ShapeOf(st, u, s);
    forall i | 0 <= i < |s'.counter|
      ensures s'.counter[i] > 100 * s'.nThreads
    {
      assert Served(s, s', i, 150 * s.nThreads);
      if s.finished[i] {
        CappedStaysHigh(st, u, s, i);
      }
    }
  }

  /** From between two scans, the reader's way through the next scan and round. */
  lemma ScanToHigh(st: Streams, u: nat, s: State) returns (labels: seq<Label>, s': State)
    requires Sound(st, u) && Inv(st, u, s) && Bounded(st, s) && !s.first && Small(st, s.nThreads)
    requires s.reader == MinScan(0, ULONG_MAX)
    ensures u < |st| && |st[u]| > 0 && ReaderRun(st, u, s, labels, s') && SameThreads(s, s') && AllHigh(s')
  {
    hide Sound, Inv, Bounded, ReaderRun, AllHigh, Upto, Run, AllServed, Repeat, ReaderOnly;
    Basics(st, u, s);
    ShapeOf(st, u, s);
    ReaderWaitsIff(st, u, s);
    RepeatIsReader(|s.counter|);
    labels := Repeat(Reads, |s.counter|) + [Reads];
    s' := Run(st, u, s, labels);
    assert ReaderOnly(labels) by { OneMore(Repeat(Reads, |s.counter|)); }
    assert ReaderRun(st, u, s, labels, s') by { RunIs(st, u, s, labels); }
    if AllHigh(s) {
      assert AllHigh(s') by { SameCounters(s, s'); }
    } else {
      RunKeepsBounds(st, u, s, labels);
      var rest, s2 := RoundRun(st, u, s');
      RoundIsHigh(st, u, s', s2);
      ReaderRunConcat(st, u, s, labels, s', rest, s2);
      labels, s' := labels + rest, s2;
    }
  }

  lemma OneMore(labels: seq<Label>)
    requires ReaderOnly(labels)
    ensures ReaderOnly(labels + [Reads])
  {
  }

  lemma RunIs(st: Streams, u: nat, s: State, labels: seq<Label>)
    requires u < |st| && |st[u]| > 0 && ReaderOnly(labels)
    ensures ReaderRun(st, u, s, labels, Run(st, u, s, labels))
  {
  }

  lemma SameCounters(s: State, s': State)
    requires s'.counter == s.counter && s'.nThreads == s.nThreads && AllHigh(s)
    ensures AllHigh(s')
  {
  }

  /** From between two rounds. */
  lemma RoundToHigh(st: Streams, u: nat, s: State) returns (labels: seq<Label>, s': State)
    requires Sound(st, u) && Inv(st, u, s) && Bounded(st, s) && !s.first && Small(st, s.nThreads) && s.reader == Round
    ensures u < |st| && |st[u]| > 0 && ReaderRun(st, u, s, labels, s') && SameThreads(s, s') && AllHigh(s')
  {
    hide Sound, Inv, Bounded, ReaderRun, AllHigh, Upto, AllFinished, BatchStep, Run, AllServed;
    Basics(st, u, s);
    labels, s' := [Reads], Fire(st, u, s, Reads);
    ReaderRunStep(st, u, s, Reads);
    FireKeeps(st, u, s, Reads);
    FireKeepsBounds(st, u, s, Reads);
    if s'.reader.Stopped? {
      AllFinishedIsHigh(st, u, s');
    } else {
      var rest, s2 := ScanToHigh(st, u, s');
      ReaderRunConcat(st, u, s, labels, s', rest, s2);
      labels, s' := labels + rest, s2;
    }
  }

  /** From anywhere between two batches. */
  lemma IdleToHigh(st: Streams, u: nat, s: State) returns (labels: seq<Label>, s': State)
    requires Sound(st, u) && Inv(st, u, s) && Bounded(st, s) && !s.first && Small(st, s.nThreads)
    requires s.reader.MinScan? || s.reader.Drain?
    ensures u < |st| && |st[u]| > 0 && ReaderRun(st, u, s, labels, s') && SameThreads(s, s') && AllHigh(s')
  {
    hide Sound, Inv, Bounded, AllHigh, Upto, Run, AllServed, ReaderOnly;
    Basics(st, u, s);
    var rest, s1, s2;
    if s.reader.MinScan? {
      labels, s1 := ScanRun(st, u, s);
    } else {
      labels, s1 := DrainRun(st, u, s);
    }
    RunKeepsBounds(st, u, s, labels);
    if s1.reader.Pick? {
      rest, s2 := RoundRun(st, u, s1);
      ReaderRunConcat(st, u, s, labels, s1, rest, s2);
      labels, s1 := labels + rest, s2;
      RunKeepsBounds(st, u, s, labels);
      rest, s2 := RoundToHigh(st, u, s1);
    } else {
      if s1.reader.Drain? {
        var drain, s3 := DrainRun(st, u, s1);
        ReaderRunConcat(st, u, s, labels, s1, drain, s3);
        labels, s1 := labels + drain, s3;
        RunKeepsBounds(st, u, s, labels);
      }
      rest, s2 := ScanToHigh(st, u, s1);
    }
    ReaderRunConcat(st, u, s, labels, s1, rest, s2);
    labels, s' := labels + rest, s2;
  }

  /** From everywhere, once the threads have started: without a step of an executor the reader brings every
      counter above a hundred for each thread, ten times what the executors wait for. */
  lemma ReaderReleases(st: Streams, u: nat, s: State) returns (labels: seq<Label>, s': State)
    requires Sound(st, u) && Inv(st, u, s) && Bounded(st, s) && !s.first && Small(st, s.nThreads)
    ensures u < |st| && |st[u]| > 0 && ReaderRun(st, u, s, labels, s') && SameThreads(s, s') && AllHigh(s')
  {
    hide Sound, Inv, Bounded, AllHigh, Upto, Run, AllServed, ReaderOnly, OnlyType;
    Basics(st, u, s);
    ReaderRunNone(st, u, s);
    labels, s' := [], s;
    if s.reader.Stopped? {
      AllFinishedIsHigh(st, u, s);
    } else if s.reader.MinScan? || s.reader.Drain? {
      labels, s' := IdleToHigh(st, u, s);
    } else {
      var s1, rest, s2 := s, [], s;
      if Working(s.reader).Some? {
        labels, s1 := WorkRun(st, u, s);
        OnlyTypeSame(s, s1, Working(s.reader).value);
      }
      if s1.reader.Pick? {
        rest, s2 := RoundRun(st, u, s1);
        ReaderRunConcat(st, u, s, labels, s1, rest, s2);
        labels, s1 := labels + rest, s2;
      }
      RunKeepsBounds(st, u, s, labels);
      rest, s2 := RoundToHigh(st, u, s1);
      ReaderRunConcat(st, u, s, labels, s1, rest, s2);
      labels, s' := labels + rest, s2;
    }
  }

  lemma OnlyTypeSame(s: State, s': State, i: nat)
    requires OnlyType(s, s', i)
    ensures SameThreads(s, s')
  {
  }

  // ----- the executors

  predicate Waiting(pc: Pc) {
    pc.Wait? || pc.WaitFinished?
  }

  predicate StepsOfThread(labels: seq<Label>, t: Tid) {
    forall k :: 0 <= k < |labels| ==> labels[k] == Runs(t)
  }

  lemma RepeatIsThread(t: Tid, n: nat)
    ensures StepsOfThread(Repeat(Runs(t), n), t)
  {
  }

  /** What ends the wait: no counter is low, or all streams are exhausted. */
  predicate Passable(s: State) {
    !SomeLow(s) || AllFinished(s)
  }

  lemma HighIsPassable(s: State)
    requires AllHigh(s)
    ensures Passable(s)
  {
  }

  lemma SamePassable(s: State, s': State)
    requires s'.counter == s.counter && s'.nThreads == s.nThreads && s'.finished == s.finished
    ensures Passable(s') <==> Passable(s)
    ensures SomeLow(s') <==> SomeLow(s)
  {
  }

  lemma AtTwice(s: State, t: Tid, a: Pc, b: Pc)
    requires t in s.threads
    ensures At(At(s, t, a), t, b) == At(s, t, b)
  {
    assert s.threads[t := s.threads[t].(pc := a)][t := s.threads[t].(pc := b)] ==
        s.threads[t := s.threads[t].(pc := b)];
  }

  /** From the head of the wait: to the publication, or to the finished flags. */
  lemma HeadRun(st: Streams, u: nat, s: State, t: Tid, r: Rec) returns (labels: seq<Label>)
    requires u < |st| && |st[u]| > 0 && t in s.threads && s.threads[t].pc == Wait(r, 0, ULONG_MAX)
    requires s.nThreads >= 1 && 10 * s.nThreads <= ULONG_MAX
    ensures labels != [] && StepsOfThread(labels, t)
    ensures Run(st, u, s, labels) == At(s, t, if SomeLow(s) then WaitFinished(r, 0) else Publish(r))
  {
    hide SomeLow, Run, Repeat;
    ExecutorWaitsIff(st, u, s, t);
    RepeatIsThread(t, |s.counter|);
    labels := Repeat(Runs(t), |s.counter|) + [Runs(t)];
  }

  /** The scan of the finished flags: to the publication when all are set, otherwise back to the head. */
  lemma {:induction false} FlagsRun(st: Streams, u: nat, s: State, t: Tid, r: Rec, k: nat) returns (labels: seq<Label>)
    requires u < |st| && |st[u]| > 0 && t in s.threads && s.threads[t].pc == WaitFinished(r, k)
    ensures labels != [] && StepsOfThread(labels, t)
    ensures var all := forall i :: k <= i < |s.finished| ==> s.finished[i];
            Run(st, u, s, labels) == At(s, t, if all then Publish(r) else Wait(r, 0, ULONG_MAX))
    decreases |s.finished| - k
  {
    hide Run, CheckStep, UndoStep, EndStep, ExecuteStep;
    var s1 := Fire(st, u, s, Runs(t));
    RunOne(st, u, s, Runs(t));
    labels := [Runs(t)];
    if k < |s.finished| && s.finished[k] {
      var rest := FlagsRun(st, u, s1, t, r, k + 1);
      var all := forall i :: k <= i < |s.finished| ==> s.finished[i];
      AtTwice(s, t, s1.threads[t].pc, if all then Publish(r) else Wait(r, 0, ULONG_MAX));
      RunConcat(st, u, s, [Runs(t)], rest);
      labels := [Runs(t)] + rest;
    }
  }

  /** From the finished flags, when the wait can end. */
  lemma FlagsPass(st: Streams, u: nat, s: State, t: Tid, r: Rec, k: nat) returns (labels: seq<Label>)
    requires u < |st| && |st[u]| > 0 && t in s.threads && s.threads[t].pc == WaitFinished(r, k)
    requires Passable(s) && s.nThreads >= 1 && 10 * s.nThreads <= ULONG_MAX
    ensures StepsOfThread(labels, t) && Run(st, u, s, labels) == At(s, t, Publish(r))
  {
    hide Run, SomeLow, StepsOfThread;
    labels := FlagsRun(st, u, s, t, r, k);
    var s1 := Run(st, u, s, labels);
    if s1.threads[t].pc.Wait? {
      var rest := HeadRun(st, u, s1, t, r);
      SamePassable(s, s1);
      AtTwice(s, t, s1.threads[t].pc, Publish(r));
      RunConcat(st, u, s, labels, rest);
      StepsJoin(labels, rest, t);
      labels := labels + rest;
    }
  }

  lemma StepsJoin(a: seq<Label>, b: seq<Label>, t: Tid)
    requires StepsOfThread(a, t) && StepsOfThread(b, t)
    ensures StepsOfThread(a + b, t)
  {
  }

  /** The rest of a scan of the counters. */
  lemma CountersRun(st: Streams, u: nat, s: State, t: Tid) returns (labels: seq<Label>)
    requires u < |st| && |st[u]| > 0 && t in s.threads && s.threads[t].pc.Wait?
    ensures StepsOfThread(labels, t)
    ensures var r, s1 := s.threads[t].pc.r, Run(st, u, s, labels);
            s1 == At(s, t, Publish(r)) || s1 == At(s, t, WaitFinished(r, 0))
  {
    hide Run, Repeat, MinFrom, CheckStep, UndoStep, EndStep, ExecuteStep;
    var Wait(r, k, min) := s.threads[t].pc;
    var scan, s1 := [], s;
    RunNone(st, u, s);
    if k < |s.counter| {
      ExecutorScans(st, u, s, t, k);
      scan := Repeat(Runs(t), |s.counter| - k);
      RepeatIsThread(t, |s.counter| - k);
      s1 := Run(st, u, s, scan);
    }
    RunThen(st, u, s, scan, Runs(t));
    labels := scan + [Runs(t)];
    AtTwice(s, t, s1.threads[t].pc, Fire(st, u, s1, Runs(t)).threads[t].pc);
  }

  /** From anywhere in the wait, when it can end. */
  lemma ExecutorPasses(st: Streams, u: nat, s: State, t: Tid) returns (labels: seq<Label>)
    requires u < |st| && |st[u]| > 0 && t in s.threads && Waiting(s.threads[t].pc)
    requires Passable(s) && s.nThreads >= 1 && 10 * s.nThreads <= ULONG_MAX
    ensures StepsOfThread(labels, t) && Run(st, u, s, labels) == At(s, t, Publish(s.threads[t].pc.r))
  {
    hide Run, Passable, StepsOfThread;
    var r := s.threads[t].pc.r;
    if s.threads[t].pc.WaitFinished? {
      labels := FlagsPass(st, u, s, t, r, s.threads[t].pc.k);
    } else {
      labels := CountersRun(st, u, s, t);
      var s1 := Run(st, u, s, labels);
      if s1.threads[t].pc.WaitFinished? {
        SamePassable(s, s1);
        var rest := FlagsPass(st, u, s1, t, r, 0);
        AtTwice(s, t, s1.threads[t].pc, Publish(r));
        RunConcat(st, u, s, labels, rest);
        StepsJoin(labels, rest, t);
        labels := labels + rest;
      }
    }
  }

  /** And only then: otherwise the thread comes back to the head of the wait, in the very same state, by the
      only steps it can make. */
  lemma ExecutorSpins(st: Streams, u: nat, s: State, t: Tid) returns (labels: seq<Label>)
    requires u < |st| && |st[u]| > 0 && t in s.threads && s.threads[t].pc.Wait? && s.threads[t].pc.k == 0
    requires s.threads[t].pc.min == ULONG_MAX
    requires !Passable(s) && s.nThreads >= 1 && 10 * s.nThreads <= ULONG_MAX
    ensures labels != [] && StepsOfThread(labels, t) && Run(st, u, s, labels) == s
  {
    hide Run, SomeLow, StepsOfThread;
    var r := s.threads[t].pc.r;
    var head := HeadRun(st, u, s, t, r);
    var s1 := At(s, t, WaitFinished(r, 0));
    var flags := FlagsRun(st, u, s1, t, r, 0);
    AtTwice(s, t, WaitFinished(r, 0), Wait(r, 0, ULONG_MAX));
    assert At(s, t, Wait(r, 0, ULONG_MAX)) == s by {
      assert s.threads[t := s.threads[t]] == s.threads;
    }
    RunConcat(st, u, s, head, flags);
    StepsJoin(head, flags, t);
    labels := head + flags;
  }

  /** A thread that has left the wait. */
  function Released(th: Thread): Thread {
    if Waiting(th.pc) then th.(pc := Publish(th.pc.r)) else th
  }

  function AllReleased(threads: map<Tid, Thread>): map<Tid, Thread> {
    map t | t in threads :: Released(threads[t])
  }

  ghost function Waiters(s: State): set<Tid> {
    set t | t in s.threads && Waiting(s.threads[t].pc)
  }

  /** The labels are steps of threads that wait. */
  ghost predicate OfWaiters(labels: seq<Label>, waiters: set<Tid>) {
    forall k :: 0 <= k < |labels| ==> labels[k].Runs? && labels[k].t in waiters
  }

  /** Each waiting thread goes on with its record, by steps of its own, while no other thread does anything. */
  lemma {:induction false} AllPass(st: Streams, u: nat, s: State) returns (labels: seq<Label>)
    requires u < |st| && |st[u]| > 0 && AllHigh(s) && s.nThreads >= 1 && 10 * s.nThreads <= ULONG_MAX
    ensures OfWaiters(labels, Waiters(s))
    ensures Run(st, u, s, labels) == s.(threads := AllReleased(s.threads))
    decreases |Waiters(s)|
  {
    hide Run, AllHigh;
    if Waiters(s) == {} {
      labels := [];
      RunNone(st, u, s);
      forall t | t in s.threads
        ensures Released(s.threads[t]) == s.threads[t]
      {
        assert t !in Waiters(s);
      }
      assert s.threads == AllReleased(s.threads);
    } else {
      var t := Member(Waiters(s));
      HighIsPassable(s);
      var own := ExecutorPasses(st, u, s, t);
      var s1 := At(s, t, Publish(s.threads[t].pc.r));
      assert Waiters(s1) == Waiters(s) - {t};
      assert AllHigh(s1) by { SameCounters(s, s1); }
      var rest := AllPass(st, u, s1);
      RunConcat(st, u, s, own, rest);
      assert AllReleased(s1.threads) == AllReleased(s.threads);
      labels := own + rest;
    }
  }

  // ----- the theorem

  /** In every reachable state: there is a run of the reader alone, followed by steps of the waiting threads
      alone, after which no thread waits; every thread that waited goes on with the record it has in hand,
      and no other thread has moved. */
  lemma WaitsEnd(st: Streams, u: nat, before: seq<Label>) returns (loads: seq<Label>, passes: seq<Label>)
    requires Sound(st, u) && Small(st, Run(st, u, Start(st, u), before).nThreads)
    ensures var s := Run(st, u, Start(st, u), before);
            && ReaderOnly(loads) && OfWaiters(passes, Waiters(s))
            && Run(st, u, Start(st, u), before + loads + passes).threads == AllReleased(s.threads)
  {
    assert u < |st| && forall i :: 0 <= i < |st| ==> |st[i]| > 0;
    hide Run, Start, Sound, Inv, Bounded, AllHigh;
    StartBounded(st, u);
    RunKeepsBounds(st, u, Start(st, u), before);
    var s := Run(st, u, Start(st, u), before);
    Basics(st, u, s);
    ShapeOf(st, u, s);
    loads, passes := [], [];
    if s.first {
      RunNone(st, u, s);
      RunConcat(st, u, Start(st, u), before, []);
      assert before + loads + passes == before + [];
      assert s.threads == AllReleased(s.threads);
    } else {
      var s1;
      loads, s1 := ReaderReleases(st, u, s);
      passes := AllPass(st, u, s1);
      assert Waiters(s1) == Waiters(s);
      RunConcat(st, u, Start(st, u), before, loads);
      RunConcat(st, u, Start(st, u), before + loads, passes);
    }
  }
}
