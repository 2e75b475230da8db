/** An executor's turn that ends with an execution: when it happens, and what it leaves behind. The conditions
    are those of the trace and of the running table, and the result is the whole state.
  */
module Turns {
  import opened Collections
  import opened Traces
  import opened Scheduler
  import opened Places
  import opened Waits
  import opened ReaderAlone
  import opened Release
  import opened SchedulerLaws

  /** Nothing holds the record back: with several processes, its number is at most 150 beyond the last one, and
      every other registered thread shows a record that returned when or after this one was called. */
  ghost predicate MayGo(s: State, t: Tid, r: Rec) {
    s.nThreads > 1 ==>
      && r.uid <= s.last + 150
      && forall p :: p in s.running && p != t ==> s.running[p].Some? && s.running[p].value.returned >= r.called
  }

  /** The state after an execution: the record is logged, the last number is the greatest so far, the thread
      is idle with the record as its previous one, and a child is registered with an idle thread. */
  function Executes(s: State, t: Tid, r: Rec, seen: set<Tid>): State {
    var s1 := s.(log := s.log + [Executed(r, seen)], last := if r.uid > s.last then r.uid else s.last,
                 threads := s.threads[t := Thread(Pop, Some(r))]);
    match r.child
    case None => s1
    case Some(child) =>
      s1.(nThreads := s.nThreads + 1, running := s.running[child := None],
          threads := s1.threads[child := Thread(Pop, None)])
  }

  /** The record creates no process that has a thread already. */
  predicate NewChild(s: State, r: Rec) {
    r.child.Some? ==> r.child.value !in s.threads
  }

  lemma MayGoIsAccepted(s: State, t: Tid, r: Rec)
    requires MayGo(s, t, r) && s.nThreads > 1
    ensures Accepted(r, s.running[t := Some(r)], s.last)
  {
  }

  /** And conversely, for a call that returned after it was made. */
  lemma AcceptedMayGo(s: State, t: Tid, r: Rec)
    requires r.called <= r.returned && s.nThreads > 1 && Accepted(r, s.running[t := Some(r)], s.last)
    ensures MayGo(s, t, r)
  {
    forall p | p in s.running && p != t
      ensures s.running[p].Some? && s.running[p].value.returned >= r.called
    {
      assert s.running[t := Some(r)][p] == s.running[p];
    }
  }

  // ----- from the execution to the end of the turn

  lemma ExecutionEnds(s: State, t: Tid)
    requires t in s.threads && s.threads[t].pc.Execute? && NewChild(s, s.threads[t].pc.r)
    ensures var Execute(r, seen) := s.threads[t].pc;
            ThreadStep(ThreadStep(ThreadStep(s, t), t), t) == Executes(s, t, r, seen)
  {
    hide WaitStep, CheckStep, UndoStep;
    var Execute(r, seen) := s.threads[t].pc;
    var s1, s2 := ThreadStep(s, t), ThreadStep(ThreadStep(s, t), t);
    assert s1 == ExecuteStep(s, t, r, seen) && s1.threads[t].pc == ReadLast(r) && s1.last == s.last;
    assert s2 == At(s1, t, WriteLast(r, s.last));
    assert r.child.None? ==> s2.threads[t := Thread(Pop, Some(r))] == s.threads[t := Thread(Pop, Some(r))];
    if r.child.Some? {
      var child := r.child.value;
      assert s2.threads[t := Thread(Pop, Some(r))] == s.threads[t := Thread(Pop, Some(r))][child := Thread(Pop, None)];
    }
  }

  lemma ExecutionRun(st: Streams, u: nat, s: State, t: Tid) returns (labels: seq<Label>)
    requires u < |st| && |st[u]| > 0 && t in s.threads && s.threads[t].pc.Execute? && NewChild(s, s.threads[t].pc.r)
    ensures StepsOfThread(labels, t)
    ensures Run(st, u, s, labels) == Executes(s, t, s.threads[t].pc.r, s.threads[t].pc.seen)
  {
    hide Run, ThreadStep, Executes, StepsOfThread;
    ExecutionEnds(s, t);
    labels := ThreeSteps(st, u, s, t);
  }

  /** The state at the check, with the record shown and the previous one retired. */
  function Checking(s: State, t: Tid, r: Rec): State
    requires t in s.threads
  {
    var prev := s.threads[t].prev;
    s.(retired := if prev.Some? then s.retired + multiset{prev.value} else s.retired,
       running := s.running[t := Some(r)])
  }

  /** The check passes. */
  lemma CheckPasses(s: State, t: Tid)
    requires t in s.threads && s.threads[t].pc.Validate?
    requires t in s.running && s.running[t] == Some(s.threads[t].pc.r) && MayGo(s, t, s.threads[t].pc.r)
    ensures var r := s.threads[t].pc.r;
            ThreadStep(s, t) == s.(threads := s.threads[t := s.threads[t].(pc := Execute(r, s.threads.Keys))])
  {
    var r := s.threads[t].pc.r;
    if s.nThreads > 1 {
      MayGoIsAccepted(s, t, r);
      assert s.running[t := Some(r)] == s.running;
    }
    hide Accepted, MayGo, WaitStep, UndoStep, EndStep, ExecuteStep;
  }

  lemma AnyExecutes(s: State, s': State, t: Tid, th: Thread, r: Rec, seen: set<Tid>)
    requires t in s.threads && s' == s.(threads := s.threads[t := th])
    ensures Executes(s', t, r, seen) == Executes(s, t, r, seen)
  {
    assert s'.threads[t := Thread(Pop, Some(r))] == s.threads[t := Thread(Pop, Some(r))];
  }

  /** From the check on. */
  lemma CheckRun(st: Streams, u: nat, s: State, t: Tid) returns (labels: seq<Label>)
    requires u < |st| && |st[u]| > 0 && t in s.threads && s.threads[t].pc.Validate?
    requires t in s.running && s.running[t] == Some(s.threads[t].pc.r)
    requires MayGo(s, t, s.threads[t].pc.r) && NewChild(s, s.threads[t].pc.r)
    ensures StepsOfThread(labels, t)
    ensures Run(st, u, s, labels) == Executes(s, t, s.threads[t].pc.r, s.threads.Keys)
  {
    hide Run, Executes, StepsOfThread, MayGo, ThreadStep;
    var r := s.threads[t].pc.r;
    CheckPasses(s, t);
    var s1 := ThreadStep(s, t);
    assert s1.threads.Keys == s.threads.Keys;
    RunOne(st, u, s, Runs(t));
    AnyExecutes(s, s1, t, s1.threads[t], r, s.threads.Keys);
    var rest := ExecutionRun(st, u, s1, t);
    RunConcat(st, u, s, [Runs(t)], rest);
    OneStep(t);
    StepsJoin([Runs(t)], rest, t);
    labels := [Runs(t)] + rest;
  }

  lemma ShowsAndRetires(s: State, t: Tid)
    requires t in s.threads && s.threads[t].pc.Publish?
    ensures var r := s.threads[t].pc.r;
            ThreadStep(ThreadStep(s, t), t) == Checking(s, t, r).(threads := s.threads[t := Thread(Validate(r), None)])
  {
    hide Accepted, WaitStep, UndoStep, EndStep, ExecuteStep;
    var r := s.threads[t].pc.r;
    assert ThreadStep(s, t) == At(s.(running := s.running[t := Some(r)]), t, Retire(r));
  }

  /** From the publication on. */
  lemma PublishedRun(st: Streams, u: nat, s: State, t: Tid) returns (labels: seq<Label>)
    requires u < |st| && |st[u]| > 0 && t in s.threads && s.threads[t].pc.Publish?
    requires MayGo(s, t, s.threads[t].pc.r) && NewChild(s, s.threads[t].pc.r)
    ensures StepsOfThread(labels, t)
    ensures var r := s.threads[t].pc.r; Run(st, u, s, labels) == Executes(Checking(s, t, r), t, r, s.threads.Keys)
  {
    hide Run, Executes, StepsOfThread, ThreadStep;
    var r := s.threads[t].pc.r;
    ShowsAndRetires(s, t);
    var s1, s2 := Checking(s, t, r), ThreadStep(ThreadStep(s, t), t);
    RunOne(st, u, s, Runs(t));
    RunThen(st, u, s, [Runs(t)], Runs(t));
    assert s2.threads.Keys == s.threads.Keys;
    assert MayGo(s2, t, r);
    hide MayGo;
    AnyExecutes(s1, s2, t, Thread(Validate(r), None), r, s.threads.Keys);
    var rest := CheckRun(st, u, s2, t);
    RunConcat(st, u, s, [Runs(t)] + [Runs(t)], rest);
    OneStep(t);
    StepsJoin([Runs(t)], [Runs(t)], t);
    StepsJoin([Runs(t)] + [Runs(t)], rest, t);
    labels := [Runs(t)] + [Runs(t)] + rest;
  }

  // ----- the turn

  /** A thread takes its least record, the wait lets it go on, and nothing holds the record back: by its own
      steps the thread executes it and is idle again. The log has the record at its end, the heap has lost it
      and its counter went down, the previous record is retired, and a child has its thread. */
  lemma TurnLogs(st: Streams, u: nat, s: State, t: Tid, r: Rec) returns (labels: seq<Label>)
    requires u < |st| && |st[u]| > 0 && t in s.threads && s.threads[t].pc.Pop? && IsLeast(s.queued, t, r)
    requires r.typ < |s.counter| && s.nThreads >= 1 && 10 * s.nThreads <= ULONG_MAX && Passable(TakenOff(s, t, r))
    requires s.nThreads > 1 ==> r.uid <= s.last + 150
    requires s.nThreads > 1 ==>
               forall p :: p in s.running && p != t ==> s.running[p].Some? && s.running[p].value.returned >= r.called
    requires r.child.Some? ==> r.child.value !in s.threads
    ensures StepsOfThread(labels, t)
    ensures var s', prev := Run(st, u, s, [Take(t, r)] + labels), s.threads[t].prev;
            && s'.log == s.log + [Executed(r, s.threads.Keys)]
            && s'.last == (if r.uid > s.last then r.uid else s.last)
            && s'.queued == s.queued - multiset{r} && s'.counter == s.counter[r.typ := Down(s.counter[r.typ])]
            && s'.retired == (if prev.Some? then s.retired + multiset{prev.value} else s.retired)
            && s'.read == s.read && s'.held == s.held && s'.finished == s.finished && s'.reader == s.reader
            && s'.first == s.first && s'.freed == s.freed
            && match r.child
               case None =>
                 && s'.threads == s.threads[t := Thread(Pop, Some(r))] && s'.nThreads == s.nThreads
                 && s'.running == s.running[t := Some(r)]
               case Some(child) =>
                 && s'.threads == s.threads[t := Thread(Pop, Some(r))][child := Thread(Pop, None)]
                 && s'.nThreads == s.nThreads + 1 && s'.running == s.running[t := Some(r)][child := None]
  {
    hide Run, Passable, IsLeast, Down, StepsOfThread;
    var wait := TakenPublishes(st, u, s, t, r);
    var s1 := At(TakenOff(s, t, r), t, Publish(r));
    assert s1.threads.Keys == s.threads.Keys && s1.running == s.running;
    assert MayGo(s1, t, r);
    var rest := PublishedRun(st, u, s1, t);
    RunConcat(st, u, s, [Take(t, r)] + wait, rest);
    labels := wait + rest;
    assert [Take(t, r)] + labels == [Take(t, r)] + wait + rest;
    StepsJoin(wait, rest, t);
    assert s1.threads[t := Thread(Pop, Some(r))] == s.threads[t := Thread(Pop, Some(r))];
  }

  /** The turn decides: by its own steps the thread either logs the record or leaves heaps, counters and log as
      they were, and which of the two is what the trace and the table say. */
  lemma TurnDecides(st: Streams, u: nat, s: State, t: Tid, r: Rec) returns (labels: seq<Label>)
    requires u < |st| && |st[u]| > 0 && t in s.threads && s.threads[t].pc.Pop? && IsLeast(s.queued, t, r)
    requires r.typ < |s.counter| && s.counter[r.typ] < WORD && s.nThreads > 1 && 10 * s.nThreads <= ULONG_MAX
    requires Passable(TakenOff(s, t, r)) && r.called <= r.returned
    requires r.child.Some? ==> r.child.value !in s.threads
    ensures StepsOfThread(labels, t)
    ensures var s' := Run(st, u, s, [Take(t, r)] + labels);
            if r.uid <= s.last + 150
               && forall p :: p in s.running && p != t ==> s.running[p].Some? && s.running[p].value.returned >= r.called
            then s'.log == s.log + [Executed(r, s.threads.Keys)] && s'.queued == s.queued - multiset{r}
            else
              && s'.log == s.log && s'.queued == s.queued && s'.counter == s.counter
              && s'.running == s.running[t := None]
  {
    hide Run, Passable, IsLeast, Down, StepsOfThread, Accepted;
    if MayGo(s, t, r) {
      labels := TurnLogs(st, u, s, t, r);
    } else {
      if Accepted(r, s.running[t := Some(r)], s.last) {
        AcceptedMayGo(s, t, r);
      }
      labels := FailedCheckUndone(st, u, s, t, r);
    }
  }

  // ----- someone gets on

  /** A published record that waits for its check, or has passed it. */
  predicate Pending(pc: Pc, r: Rec) {
    pc == Retire(r) || pc == Validate(r) || (pc.Execute? && pc.r == r)
  }

  /** From the middle of a turn. */
  lemma PendingRun(st: Streams, u: nat, s: State, t: Tid, r: Rec) returns (labels: seq<Label>, seen: set<Tid>)
    requires u < |st| && |st[u]| > 0 && t in s.threads && t in s.running && s.running[t] == Some(r)
    requires Pending(s.threads[t].pc, r) && MayGo(s, t, r) && NewChild(s, r)
    ensures StepsOfThread(labels, t)
    ensures var s' := Run(st, u, s, labels);
            && s'.log == s.log + [Executed(r, seen)] && t in s'.threads && s'.threads[t] == Thread(Pop, Some(r))
            && s'.last == if r.uid > s.last then r.uid else s.last
  {
    hide Run, StepsOfThread, MayGo;
    if s.threads[t].pc.Execute? {
      seen := s.threads[t].pc.seen;
      labels := ExecutionRun(st, u, s, t);
    } else if s.threads[t].pc.Validate? {
      seen := s.threads.Keys;
      labels := CheckRun(st, u, s, t);
    } else {
      labels, seen := RetireRun(st, u, s, t, r);
    }
  }

  lemma RetireRun(st: Streams, u: nat, s: State, t: Tid, r: Rec) returns (labels: seq<Label>, seen: set<Tid>)
    requires u < |st| && |st[u]| > 0 && t in s.threads && t in s.running && s.running[t] == Some(r)
    requires s.threads[t].pc == Retire(r) && MayGo(s, t, r) && NewChild(s, r)
    ensures StepsOfThread(labels, t)
    ensures var s' := Run(st, u, s, labels);
            && s'.log == s.log + [Executed(r, seen)] && t in s'.threads && s'.threads[t] == Thread(Pop, Some(r))
            && s'.last == if r.uid > s.last then r.uid else s.last
  {
    hide Run, StepsOfThread, WaitStep, UndoStep, EndStep, ExecuteStep;
    var s1 := ThreadStep(s, t);
    assert s1.threads == s.threads[t := Thread(Validate(r), None)] && s1.running == s.running && s1.last == s.last;
    assert s1.log == s.log && s1.nThreads == s.nThreads && s1.threads.Keys == s.threads.Keys;
    assert MayGo(s1, t, r);
    hide ThreadStep, MayGo;
    RunOne(st, u, s, Runs(t));
    seen := s.threads.Keys;
    var rest := CheckRun(st, u, s1, t);
    RunConcat(st, u, s, [Runs(t)], rest);
    OneStep(t);
    StepsJoin([Runs(t)], rest, t);
    labels := [Runs(t)] + rest;
  }

  /** Of threads that all show a record, numbered by time, the one with the least number is not held back. */
  lemma LeastMayGo(s: State, t: Tid)
    requires AllShown(s.running) && NumberedByTime(s.running) && Least(s.running, t)
    requires s.running[t].value.uid <= s.last + 150
    ensures MayGo(s, t, s.running[t].value)
  {
    forall p | p in s.running && p != t
      ensures s.running[p].value.returned >= s.running[t].value.called
    {
      assert s.running[t].value.uid <= s.running[p].value.uid;
    }
  }

  lemma PendingIsNew(st: Streams, u: nat, s: State, t: Tid, r: Rec)
    requires Sound(st, u) && Inv(st, u, s) && t in s.threads && Pending(s.threads[t].pc, r)
    ensures NewChild(s, r)
  {
    assert InPlace(st, u, s, r, Taken(t));
    assert !InLog(s.log, r) && IsRecord(st, r);
    hide OnePlace, InLog, HoldOver, Sound;
    if r.child.Some? {
      ChildIsNew(st, u, s, r);
    }
  }

  /** While all registered threads show a record, and the records are numbered by time, the one with the least
      number is logged by steps of its thread alone once it is published, if it is in the window. */
  lemma LeastTurnLogs(st: Streams, u: nat, s: State, t: Tid) returns (labels: seq<Label>)
    requires Sound(st, u) && Inv(st, u, s) && AllShown(s.running) && NumberedByTime(s.running) && Least(s.running, t)
    requires t in s.threads && Pending(s.threads[t].pc, s.running[t].value)
    requires s.running[t].value.uid <= s.last + 150
    ensures u < |st| && |st[u]| > 0 && StepsOfThread(labels, t)
    ensures var s' := Run(st, u, s, labels);
            && |s'.log| == |s.log| + 1 && s'.log[..|s.log|] == s.log && s'.log[|s.log|].r == s.running[t].value
            && t in s'.threads && s'.threads[t] == Thread(Pop, s.running[t])
  {
    hide Inv, Sound, Run, StepsOfThread, NumberedByTime;
    Basics(st, u, s);
    LeastMayGo(s, t);
    PendingIsNew(st, u, s, t, s.running[t].value);
    hide MayGo, Pending;
    var seen;
    labels, seen := PendingRun(st, u, s, t, s.running[t].value);
  }

  /** When all registered threads have published a record and wait for the check or have passed it, the records
      are numbered by time, and one of them is in the window, then some thread logs its record by steps of its
      own. */
  lemma SomeTurnLogs(st: Streams, u: nat, s: State) returns (t: Tid, labels: seq<Label>)
    requires Sound(st, u) && Inv(st, u, s) && !s.first && AllShown(s.running) && NumberedByTime(s.running)
    requires forall p :: p in s.threads && p in s.running ==> Pending(s.threads[p].pc, s.running[p].value)
    requires exists p :: p in s.running && s.running[p].value.uid <= s.last + 150
    ensures u < |st| && |st[u]| > 0 && t in s.threads && t in s.running && StepsOfThread(labels, t)
    ensures var s' := Run(st, u, s, labels);
            && |s'.log| == |s.log| + 1 && s'.log[..|s.log|] == s.log && s'.log[|s.log|].r == s.running[t].value
            && t in s'.threads && s'.threads[t] == Thread(Pop, s.running[t])
  {
    assert forall p :: p in s.running ==> p in s.threads;
    hide Inv, Sound, Run, StepsOfThread, NumberedByTime, Pending;
    t := SomeLeast(s.running);
    labels := LeastTurnLogs(st, u, s, t);
  }
}
