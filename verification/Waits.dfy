/** The two waits, each a scan of the counters one by one: what a scan without interruption decides, and
    that the reader and an executor never wait for each other.
  */
module Waits {
  import opened Collections
  import opened Traces
  import opened Scheduler
  import opened Places

  function Repeat(l: Label, n: nat): (labels: seq<Label>)
    ensures |labels| == n
  {
    if n == 0 then [] else [l] + Repeat(l, n - 1)
  }

  /** The value a scan ends with. */
  function MinFrom(counter: seq<nat>, k: nat, min: nat): nat
    decreases |counter| - k
  {
    if k >= |counter| then min else MinFrom(counter, k + 1, Min(min, counter[k]))
  }

  lemma {:induction false} MinFromAbove(counter: seq<nat>, k: nat, min: nat, x: nat)
    ensures MinFrom(counter, k, min) > x <==> min > x && forall i :: k <= i < |counter| ==> counter[i] > x
    decreases |counter| - k
  {
    if k < |counter| {
      MinFromAbove(counter, k + 1, Min(min, counter[k]), x);
    }
  }

  lemma RunFirst(st: Streams, u: nat, s: State, l: Label, n: nat)
    requires u < |st| && |st[u]| > 0 && n > 0
    ensures Run(st, u, s, Repeat(l, n)) == Run(st, u, Fire(st, u, s, l), Repeat(l, n - 1))
  {
    assert Repeat(l, n)[1..] == Repeat(l, n - 1);
  }

  // ----- the executor

  lemma {:induction false} ExecutorScans(st: Streams, u: nat, s: State, t: Tid, k: nat)
    requires u < |st| && |st[u]| > 0 && t in s.threads && s.threads[t].pc.Wait? && s.threads[t].pc.k == k <= |s.counter|
    ensures var Wait(r, _, min) := s.threads[t].pc;
            Run(st, u, s, Repeat(Runs(t), |s.counter| - k)) ==
                At(s, t, Wait(r, |s.counter|, MinFrom(s.counter, k, min)))
    decreases |s.counter| - k
  {
    var Wait(r, _, min) := s.threads[t].pc;
    if k < |s.counter| {
      var s1 := At(s, t, Wait(r, k + 1, Min(min, s.counter[k])));
      assert Fire(st, u, s, Runs(t)) == s1;
      RunFirst(st, u, s, Runs(t), |s.counter| - k);
      ExecutorScans(st, u, s1, t, k + 1);
      assert At(s1, t, Wait(r, |s.counter|, MinFrom(s.counter, k, min))) ==
          At(s, t, Wait(r, |s.counter|, MinFrom(s.counter, k, min)));
    } else {
      assert At(s, t, s.threads[t].pc) == s by {
        assert s.threads[t := s.threads[t]] == s.threads;
      }
    }
  }

  lemma WaitDecides(s: State, t: Tid, r: Rec, min: nat)
    requires t in s.threads
    ensures ThreadStep(At(s, t, Wait(r, |s.counter|, min)), t) ==
        At(s, t, if min < 10 * s.nThreads then WaitFinished(r, 0) else Publish(r))
  {
    hide CheckStep, UndoStep, EndStep, ExecuteStep;
    forall a, b
      ensures At(At(s, t, a), t, b) == At(s, t, b)
    {
      assert s.threads[t := s.threads[t].(pc := a)][t := s.threads[t].(pc := b)] ==
          s.threads[t := s.threads[t].(pc := b)];
    }
  }

  /** Some counter is too low for the executors. */
  predicate SomeLow(s: State) {
    exists i :: 0 <= i < |s.counter| && s.counter[i] < 10 * s.nThreads
  }

  lemma LowestDecides(s: State)
    requires 10 * s.nThreads <= ULONG_MAX && s.nThreads >= 1
    ensures MinFrom(s.counter, 0, ULONG_MAX) < 10 * s.nThreads <==> SomeLow(s)
  {
    hide MinFrom;
    MinFromAbove(s.counter, 0, ULONG_MAX, 10 * s.nThreads - 1);
  }

  /** From the head of the wait, without other steps, the executor goes on exactly if every counter is at
      least ten times the number of threads; otherwise it looks at the finished flags. */
  lemma ExecutorWaitsIff(st: Streams, u: nat, s: State, t: Tid)
    requires u < |st| && |st[u]| > 0 && t in s.threads && s.threads[t].pc.Wait? && s.threads[t].pc.k == 0
    requires s.threads[t].pc.min == ULONG_MAX
    requires 10 * s.nThreads <= ULONG_MAX && s.nThreads >= 1
    ensures var r := s.threads[t].pc.r;
            Run(st, u, s, Repeat(Runs(t), |s.counter|) + [Runs(t)]) ==
                At(s, t, if SomeLow(s) then WaitFinished(r, 0) else Publish(r))
  {
    hide Run, Repeat, MinFrom, SomeLow, At, ThreadStep;
    var min := MinFrom(s.counter, 0, ULONG_MAX);
    ExecutorScans(st, u, s, t, 0);
    LowestDecides(s);
    RunThen(st, u, s, Repeat(Runs(t), |s.counter|), Runs(t));
    WaitDecides(s, t, s.threads[t].pc.r, min);
  }

  // ----- the reader

  lemma {:induction false} ReaderScans(st: Streams, u: nat, s: State, k: nat)
    requires u < |st| && |st[u]| > 0 && s.reader.MinScan? && s.reader.k == k <= |s.counter|
    ensures Run(st, u, s, Repeat(Reads, |s.counter| - k)) ==
        s.(reader := MinScan(|s.counter|, MinFrom(s.counter, k, s.reader.min)))
    decreases |s.counter| - k
  {
    if k < |s.counter| {
      var s1 := s.(reader := MinScan(k + 1, Min(s.reader.min, s.counter[k])));
      assert Fire(st, u, s, Reads) == s1;
      RunFirst(st, u, s, Reads, |s.counter| - k);
      ReaderScans(st, u, s1, k + 1);
    }
  }

  /** Every counter is high enough for the reader to wait. */
  predicate AllHigh(s: State) {
    forall i :: 0 <= i < |s.counter| ==> s.counter[i] > 100 * s.nThreads
  }

  lemma ScanDecides(st: Streams, u: nat, s: State, min: nat)
    requires u < |st| && |st[u]| > 0
    ensures ReaderStep(st, u, s.(reader := MinScan(|s.counter|, min))) ==
            s.(reader := if min > 100 * s.nThreads then Drain else Pick(Upto(|st|), 150 * s.nThreads))
  {
    hide Upto, BatchStep;
  }

  /** From the head of its wait, without other steps, the reader starts a round exactly if some counter is
      at most a hundred times the number of threads; otherwise it empties the deletion queue. */
  lemma ReaderWaitsIff(st: Streams, u: nat, s: State)
    requires u < |st| && |st[u]| > 0 && s.reader == MinScan(0, ULONG_MAX) && 100 * s.nThreads < ULONG_MAX
    ensures Run(st, u, s, Repeat(Reads, |s.counter|) + [Reads]) ==
            s.(reader := if AllHigh(s) then Drain else Pick(Upto(|st|), 150 * s.nThreads))
  {
    hide Run, Repeat, MinFrom, Upto, ReaderStep;
    ReaderScans(st, u, s, 0);
    MinFromAbove(s.counter, 0, ULONG_MAX, 100 * s.nThreads);
    RunThen(st, u, s, Repeat(Reads, |s.counter|), Reads);
    ScanDecides(st, u, s, MinFrom(s.counter, 0, ULONG_MAX));
  }

  /** In no state does the reader's scan make it wait while the scan of an executor makes it wait too. */
  lemma NeverBothWait(st: Streams, u: nat, s: State, t: Tid)
    requires u < |st| && |st[u]| > 0 && |s.counter| > 0 && s.nThreads >= 1 && 100 * s.nThreads < ULONG_MAX
    requires s.reader == MinScan(0, ULONG_MAX)
    requires t in s.threads && s.threads[t].pc.Wait? && s.threads[t].pc.k == 0 && s.threads[t].pc.min == ULONG_MAX
    ensures var n := |s.counter|;
            !(Run(st, u, s, Repeat(Reads, n) + [Reads]).reader.Drain? &&
              t in Run(st, u, s, Repeat(Runs(t), n) + [Runs(t)]).threads &&
              Run(st, u, s, Repeat(Runs(t), n) + [Runs(t)]).threads[t].pc.WaitFinished?)
  {
    ReaderWaitsIff(st, u, s);
    ExecutorWaitsIff(st, u, s, t);
    hide Run, Repeat, Upto;
  }
}
