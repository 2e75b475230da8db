/** The replay of one process can always be completed: from every reachable state, whatever the interleaving
    that led there, some run executes all remaining records and ends the thread.
  */
module Completion {
  import opened Collections
  import opened Traces
  import opened Scheduler
  import opened Places
  import opened Counters
  import opened CounterBounds
  import opened HappensBefore
  import opened SingleProcess
  import opened Waits
  import opened ReaderAlone
  import opened Release
  import opened SchedulerLaws
  import opened Turns

  // ----- what holds in every reachable state

  ghost predicate Reachable(st: Streams, u: nat, s: State) {
    && Sound(st, u) && Alone(st, u) && Inv(st, u, s) && Solo(st, u, s) && Bounded(st, s) && CounterOk(st, s)
  }

  lemma RunKeepsReachable(st: Streams, u: nat, s: State, labels: seq<Label>)
    requires Reachable(st, u, s)
    ensures u < |st| && |st[u]| > 0 && Reachable(st, u, Run(st, u, s, labels))
  {
    assert u < |st| && |st[u]| > 0;
    hide Sound, Alone, Inv, Solo, Bounded, CounterOk, Run;
    SoloRun(st, u, s, labels);
    RunKeepsBounds(st, u, s, labels);
    RunKeepsCounters(st, u, s, labels);
  }

  lemma StartReachable(st: Streams, u: nat)
    requires Sound(st, u) && Alone(st, u)
    ensures Reachable(st, u, Start(st, u))
  {
    hide Inv, Solo, Bounded, CounterOk, Alone, Start;
    StartSolo(st, u);
    StartBounded(st, u);
    StartCounters(st, u);
  }

  /** The one thread. */
  function Sole(st: Streams, u: nat): Tid
    requires u < |st| && |st[u]| > 0
  {
    st[u][0].pid
  }

  lemma OneThread(st: Streams, u: nat, s: State)
    requires Reachable(st, u, s) && !s.first
    ensures u < |st| && |st[u]| > 0 && Sole(st, u) in s.threads && s.nThreads == 1
    ensures |s.counter| == |s.finished| == |st|
    ensures !s.threads[Sole(st, u)].pc.SetNull? && !s.threads[Sole(st, u)].pc.Requeue?
    ensures !s.threads[Sole(st, u)].pc.Increment?
  {
    assert SoloLoad(st, u, s) && TableOk(st, u, s) && Shape(st, s);
    assert Sole(st, u) in s.threads;
    assert WaitOk(s, s.threads[Sole(st, u)].pc);
    hide Sound, Alone, HoldOver, OnePlace, LogExact, Bounded, CounterOk, Fed;
  }

  /** The record in hand is one of the trace, and creates no process. */
  lemma InHandIsAlone(st: Streams, u: nat, s: State)
    requires Reachable(st, u, s) && !s.first
    ensures u < |st| && |st[u]| > 0 && Sole(st, u) in s.threads
    ensures InHand(s.threads[Sole(st, u)].pc).Some? ==>
              var r := InHand(s.threads[Sole(st, u)].pc).value; IsRecord(st, r) && r.typ < |st| && r.child.None?
  {
    OneThread(st, u, s);
    var t := Sole(st, u);
    hide Bounded, CounterOk, Solo, Sound;
    if InHand(s.threads[t].pc).Some? {
      InHandIsOwn(st, u, s, t);
    }
  }

  // ----- the records that are left

  ghost function AllRecords(st: Streams): set<Rec> {
    set i, j | i in Upto(|st|) && j in Upto(|st[i]|) :: st[i][j]
  }

  function LogSet(log: seq<Executed>): set<Rec> {
    set k | 0 <= k < |log| :: log[k].r
  }

  lemma {:induction false} LogSetSize(log: seq<Executed>)
    requires forall j, k :: 0 <= j < k < |log| ==> log[j].r != log[k].r
    ensures |LogSet(log)| == |log|
    decreases |log|
  {
    if log != [] {
      var n := |log| - 1;
      LogSetSize(log[..n]);
      assert LogSet(log) == LogSet(log[..n]) + {log[n].r};
      assert log[n].r !in LogSet(log[..n]);
    }
  }

  lemma LogFits(st: Streams, u: nat, s: State)
    requires u < |st| && |st[u]| > 0 && LogExact(st, u, s)
    ensures |s.log| <= |AllRecords(st)|
  {
    LogSetSize(s.log);
    forall r | r in LogSet(s.log)
      ensures r in AllRecords(st)
    {
      assert IsRecord(st, r);
      assert st[r.typ][r.pos] == r;
    }
    hide LogExact;
    Smaller(LogSet(s.log), AllRecords(st));
  }

  lemma LogInv(st: Streams, u: nat, s: State)
    requires Reachable(st, u, s)
    ensures |s.log| <= |AllRecords(st)|
  {
    assert u < |st| && |st[u]| > 0;
    hide Sound, Alone, Solo, Bounded, CounterOk, AllRecords, HoldOver, TableOk, OnePlace;
    LogFits(st, u, s);
  }

  // ----- one turn

  lemma LeastExists(queued: multiset<Rec>, t: Tid) returns (r: Rec)
    requires queued != multiset{} && forall q :: q in queued ==> q.pid == t
    ensures IsLeast(queued, t, r)
    decreases |queued|
  {
    var q :| q in queued;
    var rest := queued - multiset{q};
    if rest == multiset{} {
      r := q;
      assert forall x :: x in queued ==> x == q by {
        forall x | x in queued
          ensures x == q
        {
          assert x !in rest;
        }
      }
    } else {
      assert forall x :: x in rest ==> x in queued;
      var best := LeastExists(rest, t);
      r := if q.uid <= best.uid then q else best;
      forall x | x in queued
        ensures r.uid <= x.uid
      {
        assert x == q || x in rest;
      }
    }
  }

  lemma QueuedIsAlone(st: Streams, u: nat, s: State)
    requires Reachable(st, u, s)
    ensures u < |st| && |st[u]| > 0
    ensures forall q :: q in s.queued ==> q.pid == Sole(st, u) && q.typ < |st| && q.child.None? && IsRecord(st, q)
  {
    assert u < |st| && |st[u]| > 0;
    forall q | q in s.queued
      ensures q.pid == Sole(st, u) && q.typ < |st| && q.child.None? && IsRecord(st, q)
    {
      assert InPlace(st, u, s, q, Queued);
    }
    hide Sound, Solo, Bounded, CounterOk, HoldOver, TableOk, LogExact;
  }

  lemma DownKeepsHigh(st: Streams, u: nat, s: State, t: Tid, r: Rec)
    requires CounterOk(st, s) && AllHigh(s) && s.nThreads == 1 && t in s.threads && r.typ < |s.counter|
    ensures Passable(TakenOff(s, t, r))
  {
    var c := s.counter[r.typ];
    assert 100 < c < WORD;
    assert Down(c) == c - 1 by { DownOne(c); }
    var s' := TakenOff(s, t, r);
    forall i | 0 <= i < |s'.counter|
      ensures s'.counter[i] >= 10 * s'.nThreads
    {
      hide Down;
    }
    hide CounterOk, Down;
  }

  lemma DownOne(c: nat)
    requires 1 <= c < WORD
    ensures Down(c) == c - 1
  {
  }

  /** The reader loads, and the thread executes its least record. */
  lemma TurnOnce(st: Streams, u: nat, s: State) returns (labels: seq<Label>)
    requires Reachable(st, u, s) && !s.first && Small(st, 1) && s.queued != multiset{}
    requires u < |st| && |st[u]| > 0 && Sole(st, u) in s.threads && s.threads[Sole(st, u)].pc.Pop?
    ensures var s' := Run(st, u, s, labels);
            && Reachable(st, u, s') && !s'.first && |s'.log| == |s.log| + 1
            && Sole(st, u) in s'.threads && s'.threads[Sole(st, u)].pc.Pop?
  {
    hide Run, Small, AllHigh, Passable;
    var t := Sole(st, u);
    OneThread(st, u, s);
    var loads, s1 := Loads(st, u, s);
    assert s1.queued != multiset{} by { LoadsQueue(st, u, s, loads); }
    hide Reachable;
    OneThread(st, u, s1);
    QueuedIsAlone(st, u, s1);
    var r := LeastExists(s1.queued, t);
    assert r in s1.queued by { LeastIsQueued(s1.queued, t, r); }
    assert CounterOk(st, s1) by { ReachableCounters(st, u, s1); }
    hide CounterOk, IsLeast;
    DownKeepsHigh(st, u, s1, t, r);
    var turn := TurnLogs(st, u, s1, t, r);
    RunConcat(st, u, s, loads, [Take(t, r)] + turn);
    labels := loads + ([Take(t, r)] + turn);
    RunKeepsReachable(st, u, s, labels);
  }

  lemma ReachableCounters(st: Streams, u: nat, s: State)
    requires Reachable(st, u, s)
    ensures CounterOk(st, s)
  {
  }

  /** The reader by itself makes all counters high. */
  lemma Loads(st: Streams, u: nat, s: State) returns (labels: seq<Label>, s': State)
    requires Reachable(st, u, s) && !s.first && Small(st, 1)
    ensures u < |st| && |st[u]| > 0 && s' == Run(st, u, s, labels) && ReaderOnly(labels)
    ensures Reachable(st, u, s') && SameThreads(s, s') && AllHigh(s')
  {
    OneThread(st, u, s);
    hide Sound, Alone, Inv, Solo, Bounded, CounterOk, Run, Small, AllHigh, ReaderOnly;
    labels, s' := ReaderReleases(st, u, s);
    RunKeepsReachable(st, u, s, labels);
  }

  /** The reader takes nothing from the heaps. */
  lemma {:induction false} LoadsQueue(st: Streams, u: nat, s: State, labels: seq<Label>)
    requires u < |st| && |st[u]| > 0 && ReaderOnly(labels)
    ensures s.queued <= Run(st, u, s, labels).queued
    decreases |labels|
  {
    if labels != [] {
      assert OfReader(labels[0]);
      var s1 := Fire(st, u, s, labels[0]);
      assert s.queued <= s1.queued by {
        if Working(s.reader).Some? && labels[0].Reads? {
          BatchQueues(st, s);
        }
        hide BatchStep, Upto, Min;
      }
      assert ReaderOnly(labels[1..]);
      hide Fire, OfReader;
      LoadsQueue(st, u, s1, labels[1..]);
    }
  }

  // ----- the end of a turn under way

  lemma EndsRun(st: Streams, u: nat, s: State, t: Tid) returns (labels: seq<Label>)
    requires u < |st| && |st[u]| > 0 && t in s.threads && (s.threads[t].pc.ReadLast? || s.threads[t].pc.WriteLast?)
    ensures var s' := Run(st, u, s, labels); t in s'.threads && s'.threads[t].pc.Pop? && s'.log == s.log
  {
    hide Run, WaitStep, CheckStep, UndoStep, ExecuteStep;
    var s1 := Fire(st, u, s, Runs(t));
    RunOne(st, u, s, Runs(t));
    RunThen(st, u, s, [Runs(t)], Runs(t));
    labels := if s.threads[t].pc.WriteLast? then [Runs(t)] else [Runs(t)] + [Runs(t)];
  }

  /** From the publication, the check or the execution on; a single process is not held back. */
  lemma LateRun(st: Streams, u: nat, s: State, t: Tid) returns (labels: seq<Label>)
    requires u < |st| && |st[u]| > 0 && t in s.threads && s.nThreads == 1 && t in s.running
    requires InHand(s.threads[t].pc).Some? && NewChild(s, InHand(s.threads[t].pc).value)
    requires s.threads[t].pc.Publish? || (s.running[t].Some? && Pending(s.threads[t].pc, s.running[t].value))
    ensures var s' := Run(st, u, s, labels); t in s'.threads && s'.threads[t].pc.Pop? && |s'.log| == |s.log| + 1
  {
    hide Run, StepsOfThread;
    if s.threads[t].pc.Publish? {
      labels := PublishedRun(st, u, s, t);
    } else {
      var seen;
      labels, seen := PendingRun(st, u, s, t, s.running[t].value);
    }
  }

  /** From the take on, when all counters are high. */
  lemma EarlyRun(st: Streams, u: nat, s: State, t: Tid) returns (labels: seq<Label>)
    requires u < |st| && |st[u]| > 0 && t in s.threads && s.nThreads == 1 && AllHigh(s) && CounterOk(st, s)
    requires s.threads[t].pc.Decrement? || Waiting(s.threads[t].pc)
    requires s.threads[t].pc.r.typ < |s.counter| && NewChild(s, s.threads[t].pc.r)
    ensures var s' := Run(st, u, s, labels); t in s'.threads && s'.threads[t].pc.Pop? && |s'.log| == |s.log| + 1
  {
    hide Run, AllHigh, Passable, StepsOfThread, CounterOk, CheckStep, UndoStep, EndStep, ExecuteStep, Down;
    var r := s.threads[t].pc.r;
    var first, s1 := [], s;
    RunNone(st, u, s);
    if s.threads[t].pc.Decrement? {
      first, s1 := [Runs(t)], Fire(st, u, s, Runs(t));
      RunOne(st, u, s, Runs(t));
      DownKeepsHigh(st, u, s, t, r);
      assert s1.counter == TakenOff(s, t, r).counter && s1.finished == s.finished && s1.nThreads == 1;
      SamePassable(TakenOff(s, t, r), s1);
    } else {
      HighIsPassable(s);
    }
    assert s1.threads.Keys == s.threads.Keys && s1.log == s.log && s1.nThreads == 1 && Waiting(s1.threads[t].pc);
    hide Fire;
    var wait := ExecutorPasses(st, u, s1, t);
    var s2 := At(s1, t, Publish(r));
    var rest := PublishedRun(st, u, s2, t);
    RunConcat(st, u, s, first, wait);
    RunConcat(st, u, s, first + wait, rest);
    labels := first + wait + rest;
  }

  lemma PendingShows(st: Streams, u: nat, s: State)
    requires Reachable(st, u, s) && !s.first
    ensures u < |st| && |st[u]| > 0 && Sole(st, u) in s.threads
    ensures var t, pc := Sole(st, u), s.threads[Sole(st, u)].pc;
            && (!pc.Gone? ==> t in s.running)
            && (pc.Retire? || pc.Validate? || pc.Execute? ==> s.running[t] == Some(pc.r))
  {
    OneThread(st, u, s);
    assert Shows(st, u, Sole(st, u), s.threads[Sole(st, u)], s.running);
    hide Sound, Alone, Solo, Bounded, CounterOk, HoldOver, OnePlace, LogExact;
  }

  /** A turn under way is brought to its end. */
  lemma ToPop(st: Streams, u: nat, s: State) returns (labels: seq<Label>)
    requires Reachable(st, u, s) && !s.first && Small(st, 1) && u < |st| && |st[u]| > 0 && Sole(st, u) in s.threads
    requires var pc := s.threads[Sole(st, u)].pc; !pc.Pop? && !pc.Leave? && !pc.Gone?
    ensures var s' := Run(st, u, s, labels);
            && Reachable(st, u, s') && !s'.first && |s'.log| >= |s.log|
            && Sole(st, u) in s'.threads && s'.threads[Sole(st, u)].pc.Pop?
  {
    hide Run, Small, AllHigh, Reachable, StepsOfThread, ReaderOnly;
    var t := Sole(st, u);
    var loads, s1 := Loads(st, u, s);
    OneThread(st, u, s1);
    InHandIsAlone(st, u, s1);
    PendingShows(st, u, s1);
    var rest := [];
    var pc := s1.threads[t].pc;
    if pc.ReadLast? || pc.WriteLast? {
      rest := EndsRun(st, u, s1, t);
    } else if pc.Decrement? || Waiting(pc) {
      ReachableCounters(st, u, s1);
      hide CounterOk;
      rest := EarlyRun(st, u, s1, t);
    } else {
      rest := LateRun(st, u, s1, t);
    }
    RunConcat(st, u, s, loads, rest);
    labels := loads + rest;
    RunKeepsReachable(st, u, s, labels);
    StaysStarted(st, u, s1, rest);
  }

  /** The first batch is over for good. */
  lemma {:induction false} StaysStarted(st: Streams, u: nat, s: State, labels: seq<Label>)
    requires u < |st| && |st[u]| > 0 && !s.first
    ensures !Run(st, u, s, labels).first
    decreases |labels|
  {
    if labels != [] {
      FireStaysStarted(st, u, s, labels[0]);
      hide Fire;
      StaysStarted(st, u, Fire(st, u, s, labels[0]), labels[1..]);
    }
  }

  lemma FireStaysStarted(st: Streams, u: nat, s: State, l: Label)
    requires u < |st| && |st[u]| > 0 && !s.first
    ensures !Fire(st, u, s, l).first
  {
    hide BatchStep, RoundStep, ThreadStep, IsLeast;
    match l
    case Reads =>
      BatchSpares(st, s);
      RoundStaysStarted(st, u, s);
    case Runs(t) => ThreadStepSpares(s, t);
    case _ =>
  }

  lemma RoundStaysStarted(st: Streams, u: nat, s: State)
    requires u < |st| && |st[u]| > 0 && !s.first
    ensures !RoundStep(st, u, s).first
  {
    hide Upto, Min;
  }

  // ----- to the end

  /** The thread leaves its loop when nothing is queued. */
  lemma Leaves(st: Streams, u: nat, s: State, t: Tid) returns (labels: seq<Label>)
    requires u < |st| && |st[u]| > 0 && t in s.threads
    requires s.threads[t].pc.Leave? || (s.threads[t].pc.Pop? && s.queued == multiset{})
    ensures var s' := Run(st, u, s, labels); t in s'.threads && s'.threads[t].pc.Gone?
  {
    hide Run, WaitStep, CheckStep, UndoStep, ExecuteStep, Without;
    if s.threads[t].pc.Leave? {
      labels := [Runs(t)];
      RunOne(st, u, s, Runs(t));
    } else {
      var s1 := Fire(st, u, s, Miss(t));
      assert s1 == At(s, t, Leave);
      RunOne(st, u, s, Miss(t));
      RunThen(st, u, s, [Miss(t)], Runs(t));
      labels := [Miss(t)] + [Runs(t)];
    }
  }

  lemma {:induction false} ToEnd(st: Streams, u: nat, s: State) returns (labels: seq<Label>)
    requires Reachable(st, u, s) && !s.first && Small(st, 1) && u < |st| && |st[u]| > 0 && Sole(st, u) in s.threads
    requires s.threads[Sole(st, u)].pc.Pop?
    ensures var s' := Run(st, u, s, labels); Sole(st, u) in s'.threads && s'.threads[Sole(st, u)].pc.Gone?
    decreases |AllRecords(st)| - |s.log|
  {
    hide Run, Small, Reachable, AllRecords;
    if s.queued == multiset{} {
      labels := Leaves(st, u, s, Sole(st, u));
    } else {
      var turn := TurnOnce(st, u, s);
      var s1 := Run(st, u, s, turn);
      LogInv(st, u, s1);
      var rest := ToEnd(st, u, s1);
      RunConcat(st, u, s, turn, rest);
      labels := turn + rest;
    }
  }

  /** From every state after the first batch. */
  lemma StartedToEnd(st: Streams, u: nat, s: State) returns (labels: seq<Label>)
    requires Reachable(st, u, s) && !s.first && Small(st, 1)
    ensures u < |st| && |st[u]| > 0
    ensures var s' := Run(st, u, s, labels); Sole(st, u) in s'.threads && s'.threads[Sole(st, u)].pc.Gone?
  {
    hide Run, Small, Reachable;
    OneThread(st, u, s);
    var t := Sole(st, u);
    var pc := s.threads[t].pc;
    if pc.Gone? {
      labels := [];
      RunNone(st, u, s);
    } else if pc.Leave? {
      labels := Leaves(st, u, s, t);
    } else if pc.Pop? {
      labels := ToEnd(st, u, s);
    } else {
      var turn := ToPop(st, u, s);
      var rest := ToEnd(st, u, Run(st, u, s, turn));
      RunConcat(st, u, s, turn, rest);
      labels := turn + rest;
    }
  }

  lemma ReachesEnd(st: Streams, u: nat, s: State) returns (labels: seq<Label>)
    requires Reachable(st, u, s) && Small(st, 1)
    ensures u < |st| && |st[u]| > 0
    ensures var s' := Run(st, u, s, labels); Sole(st, u) in s'.threads && s'.threads[Sole(st, u)].pc.Gone?
  {
    if s.first {
      hide Sound, Alone, Inv, Solo, Bounded, CounterOk, Run, Small;
      var load, s1 := FirstRun(st, u, s);
      RunKeepsReachable(st, u, s, load);
      var rest := StartedToEnd(st, u, s1);
      RunConcat(st, u, s, load, rest);
      labels := load + rest;
    } else {
      labels := StartedToEnd(st, u, s);
    }
  }

  /** Whatever has happened in the replay of one process, it can be completed: some continuation ends with the
      thread gone and every record of the trace executed, once each and in the order of the numbers. */
  lemma SingleProcessCompletes(st: Streams, u: nat, before: seq<Label>) returns (rest: seq<Label>)
    requires Sound(st, u) && Alone(st, u) && Small(st, 1)
    ensures var s := Run(st, u, Start(st, u), before + rest);
            && st[u][0].pid in s.threads && s.threads[st[u][0].pid].pc.Gone?
            && (forall a :: IsRecord(st, a) <==> InLog(s.log, a))
            && (forall j, k :: 0 <= j < k < |s.log| ==> s.log[j].r.uid < s.log[k].r.uid)
  {
    assert u < |st| && forall i :: 0 <= i < |st| ==> |st[i]| > 0;
    hide Start, Run, Small, Alone, Sound, Reachable, InLog;
    StartReachable(st, u);
    RunKeepsReachable(st, u, Start(st, u), before);
    rest := ReachesEnd(st, u, Run(st, u, Start(st, u), before));
    RunConcat(st, u, Start(st, u), before, rest);
    SingleProcessMerges(st, u, before + rest);
    var s := Run(st, u, Start(st, u), before + rest);
    forall a
      ensures IsRecord(st, a) <==> InLog(s.log, a)
    {
      LoggedIsRecord(st, u, s, a);
    }
  }

  lemma LoggedIsRecord(st: Streams, u: nat, s: State, a: Rec)
    requires u < |st| && |st[u]| > 0 && Inv(st, u, s)
    ensures InLog(s.log, a) ==> IsRecord(st, a)
  {
    hide HoldOver, TableOk, OnePlace;
  }
}
