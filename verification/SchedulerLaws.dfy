/** What the scheduler's invariants say about any replay, from its start and in every interleaving.
  */
module SchedulerLaws {
  import opened Collections
  import opened Traces
  import opened Scheduler
  import opened Places
  import opened Counters
  import opened HappensBefore
  import opened Release

  /** Each record is in exactly one place, and the log has exactly the executed ones, each once. */
  lemma EveryRecordOnce(st: Streams, u: nat, labels: seq<Label>)
    requires Sound(st, u)
    ensures var s := Run(st, u, Start(st, u), labels); Inv(st, u, s) && OnePlace(st, u, s) && LogExact(st, u, s)
  {
    StartHolds(st, u);
    RunKeeps(st, u, Start(st, u), labels);
    hide Run, Start, Sound, OnePlace, LogExact, HoldOver, TableOk;
  }

  /** Happens-before, from the start and in every interleaving in which the reader keeps ahead: a call of a
      process that was registered when `r` was validated, and that returned in the trace before `r` was
      called, stands before `r` in the log. */
  lemma TraceOrderIsKept(st: Streams, u: nat, labels: seq<Label>, k: nat, a: Rec)
    requires Sound(st, u) && CallsInSequence(st) && Delivered(st, u, Start(st, u), labels)
    requires k < |Run(st, u, Start(st, u), labels).log| && IsRecord(st, a)
    ensures var log := Run(st, u, Start(st, u), labels).log;
            a.pid in log[k].seen && a.returned < log[k].r.called ==> exists j :: 0 <= j < k && log[j].r == a
  {
    StartHolds(st, u);
    StartInOrder(st, u);
    RunInOrder(st, u, Start(st, u), labels);
    var log := Run(st, u, Start(st, u), labels).log;
    assert CausallyOrdered(st, log);
    hide Sound, Inv, Start, Run, Delivered, Prefixes, ProgramOrder, ThreadOrder, CallsInSequence;
    if a.pid in log[k].seen && a.returned < log[k].r.called {
      assert InLog(log[..k], a);
      var j :| 0 <= j < |log[..k]| && log[..k][j].r == a;
      assert log[j].r == a;
    }
  }

  /** A record that a thread shows is in the hand of a thread, its previous one, or the first umask. */
  lemma ShownPlace(st: Streams, u: nat, s: State, t: Tid) returns (p: Place)
    requires Sound(st, u) && Inv(st, u, s) && t in s.running && s.running[t].Some?
    ensures InPlace(st, u, s, s.running[t].value, p)
    ensures p == Taken(t) || p == Ended(t) || p == Previous(t) || p == Primed
  {
    var c := s.running[t].value;
    if s.first {
      p := Primed;
    } else {
      var th := s.threads[t];
      assert Shows(st, u, t, th, s.running);
      p := if InHand(th.pc) == Some(c) then Taken(t) else if JustExecuted(th.pc) == Some(c) then Ended(t)
           else if th.prev == Some(c) then Previous(t) else Primed;
    }
    hide OnePlace, LogExact, HoldOver;
  }

  lemma ShownIsLive(st: Streams, u: nat, s: State, t: Tid)
    requires Sound(st, u) && Inv(st, u, s) && t in s.running && s.running[t].Some?
    ensures s.running[t].value !in s.retired && s.running[t].value !in s.freed
  {
    var c := s.running[t].value;
    var p := ShownPlace(st, u, s, t);
    assert c in s.retired ==> InPlace(st, u, s, c, Retired);
    assert c in s.freed ==> InPlace(st, u, s, c, Freed);
    hide HoldOver, TableOk, LogExact, Sound, InPlace;
  }

  /** Safe retirement: no record that can be found in the running table is in the deletion queue or
      deleted, in any interleaving. */
  lemma NothingShownIsRetired(st: Streams, u: nat, labels: seq<Label>, t: Tid)
    requires Sound(st, u)
    ensures var s := Run(st, u, Start(st, u), labels);
            t in s.running && s.running[t].Some? ==> s.running[t].value !in s.retired && s.running[t].value !in s.freed
  {
    assert u < |st| && forall i :: 0 <= i < |st| ==> |st[i]| > 0;
    hide Inv, Sound, Run, Start, OnePlace, LogExact;
    EveryRecordOnce(st, u, labels);
    var s := Run(st, u, Start(st, u), labels);
    if t in s.running && s.running[t].Some? {
      ShownIsLive(st, u, s, t);
    }
  }

  /** The records of a type that have left the reader are a prefix of its stream, of the length that the
      reader has pushed; and no record that is in hand, queued or done is one that is still to be read. */
  lemma PushedIsPrefix(st: Streams, u: nat, s: State, r: Rec)
    requires Sound(st, u) && Inv(st, u, s) && IsRecord(st, r)
    ensures |s.read| == |s.held| == |st|
    ensures Unpushed(st, u, s, r) <==> r.pos >= if s.held[r.typ] then s.read[r.typ] - 1 else s.read[r.typ]
    ensures !Unpushed(st, u, s, r) <==> r in s.queued || InLog(s.log, r) || exists t :: InPlace(st, u, s, r, Taken(t))
  {
    assert 1 <= s.read[r.typ] <= |st[r.typ]|;
    var p :| InPlace(st, u, s, r, p);
    assert p.Queued? <==> r in s.queued by { assert r in s.queued ==> InPlace(st, u, s, r, Queued); }
    assert InLog(s.log, r) <==> IsDone(p);
    assert Unpushed(st, u, s, r) <==> p.Unread? || p.Held? by {
      hide InPlace;
    }
    hide HoldOver, TableOk, LogExact, InLog, Sound;
  }

  /** After each batch a type that is not exhausted has precisely one record that is read and not pushed,
      and an exhausted type has none and no unread one. */
  lemma OneHeldOver(st: Streams, u: nat, labels: seq<Label>, i: nat)
    requires Sound(st, u) && i < |st|
    ensures var s := Run(st, u, Start(st, u), labels);
            && |s.read| == |s.held| == |s.finished| == |st|
            && (!InBatch(s.reader) || (s.reader.Pick? && i !in s.reader.todo) ==>
                  && 1 <= s.read[i] <= |st[i]|
                  && (s.finished[i] ==> forall r :: IsRecord(st, r) && r.typ == i ==> !Unpushed(st, u, s, r))
                  && (!s.finished[i] ==>
                        forall r :: IsRecord(st, r) && r.typ == i ==>
                            (InPlace(st, u, s, r, Held) <==> r.pos == s.read[i] - 1)))
  {
    EveryRecordOnce(st, u, labels);
    var s := Run(st, u, Start(st, u), labels);
    assert HoldOver(st, s);
    assert Working(s.reader) != Some(i) ==>
        AtRest(|st[i]|, s.first && i in Todo(s.reader), s.read[i], s.held[i], s.finished[i]);
    hide Inv, OnePlace, LogExact, Sound, Run, Start;
  }

  /** In any replay each counter that was not overwritten at the end of its stream is, modulo the 64-bit
      word, the number of queued records of its type, up to the increments and decrements under way. */
  lemma CountersInEveryRun(st: Streams, u: nat, labels: seq<Label>)
    requires Sound(st, u)
    ensures CounterOk(st, Run(st, u, Start(st, u), labels))
  {
    StartHolds(st, u);
    StartCounters(st, u);
    RunKeepsCounters(st, u, Start(st, u), labels);
  }

  /** With no increment or decrement under way, the counter of a type that is still read is the number of
      its queued records. */
  lemma CounterCounts(st: Streams, u: nat, s: State, i: nat)
    requires CounterOk(st, s) && i < |st| && !Capped(s, i) && ReaderInc(s.reader, i) == 0
    requires forall t :: t in s.threads ==> !Decrements(s.threads[t], i) && !Increments(s.threads[t], i)
    requires |QueuedAt(st, s, i)| < WORD
    ensures |s.counter| == |st| && s.counter[i] == |QueuedAt(st, s, i)|
  {
    forall t
      ensures t !in Decs(s, i) && t !in Incs(s, i)
    {
      assert t in s.threads ==> !Decrements(s.threads[t], i) && !Increments(s.threads[t], i);
    }
    assert Decs(s, i) == {} && Incs(s, i) == {};
    assert Congruent(s.counter[i], Owed(st, s, i));
    hide QueuedAt, Decs, Incs;
  }

  /** The state in which a thread looks at the counters for its record. */
  function TakenOff(s: State, t: Tid, r: Rec): State
    requires t in s.threads && r.typ < |s.counter|
  {
    At(s.(queued := s.queued - multiset{r}, counter := s.counter[r.typ := Down(s.counter[r.typ])]), t,
       Wait(r, 0, ULONG_MAX))
  }

  /** A turn with a failed check, from the take on and without other steps, is undone: the heaps and the
      counters are what they were before the take. What remains is that the thread shows nothing, and that
      its previous record is retired. The thread gets as far as the check whenever the wait lets it. */
  lemma FailedCheckUndone(st: Streams, u: nat, s: State, t: Tid, r: Rec) returns (labels: seq<Label>)
    requires u < |st| && |st[u]| > 0 && t in s.threads && s.threads[t].pc.Pop? && IsLeast(s.queued, t, r)
    requires r.typ < |s.counter| && s.counter[r.typ] < WORD && s.nThreads > 1 && 10 * s.nThreads <= ULONG_MAX
    requires Passable(TakenOff(s, t, r)) && !Accepted(r, s.running[t := Some(r)], s.last)
    ensures StepsOfThread(labels, t)
    ensures var prev := s.threads[t].prev;
            Run(st, u, s, [Take(t, r)] + labels) ==
            s.(retired := if prev.Some? then s.retired + multiset{prev.value} else s.retired,
               running := s.running[t := None], threads := s.threads[t := Thread(Pop, None)])
  {
    hide Run, Accepted, Passable, IsLeast, Down, StepsOfThread;
    var wait := TakenPublishes(st, u, s, t, r);
    var s1 := At(TakenOff(s, t, r), t, Publish(r));
    var check := PublishedUndone(st, u, s1, t);
    RunConcat(st, u, s, [Take(t, r)] + wait, check);
    labels := wait + check;
    assert [Take(t, r)] + labels == [Take(t, r)] + wait + check;
    StepsJoin(wait, check, t);
    DownUp(s.counter[r.typ]);
    LeastIsQueued(s.queued, t, r);
    hide Up;
    assert s.queued - multiset{r} + multiset{r} == s.queued;
    assert s1.counter[r.typ := s.counter[r.typ]] == s.counter;
    assert s1.threads[t := Thread(Pop, None)] == s.threads[t := Thread(Pop, None)];
  }

  /** The first half of the turn: the take, its count, and the wait. */
  lemma TakenPublishes(st: Streams, u: nat, s: State, t: Tid, r: Rec) returns (labels: seq<Label>)
    requires u < |st| && |st[u]| > 0 && t in s.threads && s.threads[t].pc.Pop? && IsLeast(s.queued, t, r)
    requires r.typ < |s.counter| && s.nThreads >= 1 && 10 * s.nThreads <= ULONG_MAX && Passable(TakenOff(s, t, r))
    ensures StepsOfThread(labels, t)
    ensures Run(st, u, s, [Take(t, r)] + labels) == At(TakenOff(s, t, r), t, Publish(r))
  {
    hide Run, Passable, IsLeast, Down, StepsOfThread, CheckStep, UndoStep, EndStep, ExecuteStep;
    var s1, s2 := TakeStep(s, t, r), TakenOff(s, t, r);
    RunOne(st, u, s, Take(t, r));
    assert Fire(st, u, s1, Runs(t)) == s2 by { AtTwice(s, t, Decrement(r), Wait(r, 0, ULONG_MAX)); }
    RunThen(st, u, s, [Take(t, r)], Runs(t));
    hide Fire;
    var wait := ExecutorPasses(st, u, s2, t);
    RunConcat(st, u, s, [Take(t, r)] + [Runs(t)], wait);
    labels := [Runs(t)] + wait;
    assert [Take(t, r)] + labels == [Take(t, r)] + [Runs(t)] + wait;
    OneStep(t);
    StepsJoin([Runs(t)], wait, t);
  }

  lemma DownUp(c: nat)
    requires c < WORD
    ensures Up(Down(c)) == c
  {
  }

  lemma LeastIsQueued(queued: multiset<Rec>, t: Tid, r: Rec)
    requires IsLeast(queued, t, r)
    ensures r in queued
  {
  }

  lemma OneStep(t: Tid)
    ensures StepsOfThread([Runs(t)], t)
  {
  }

  lemma ThreeSteps(st: Streams, u: nat, s: State, t: Tid) returns (labels: seq<Label>)
    requires u < |st| && |st[u]| > 0
    ensures StepsOfThread(labels, t) && Run(st, u, s, labels) == ThreadStep(ThreadStep(ThreadStep(s, t), t), t)
  {
    hide Run, ThreadStep;
    RunOne(st, u, s, Runs(t));
    RunThen(st, u, s, [Runs(t)], Runs(t));
    RunThen(st, u, s, [Runs(t)] + [Runs(t)], Runs(t));
    labels := [Runs(t)] + [Runs(t)] + [Runs(t)];
  }

  /** Publication, retirement of the previous record, and the failed check. */
  lemma CheckFails(s: State, t: Tid)
    requires t in s.threads && s.threads[t].pc.Publish? && s.nThreads > 1
    requires !Accepted(s.threads[t].pc.r, s.running[t := Some(s.threads[t].pc.r)], s.last)
    ensures var r, prev := s.threads[t].pc.r, s.threads[t].prev;
            ThreadStep(ThreadStep(ThreadStep(s, t), t), t) ==
            s.(retired := if prev.Some? then s.retired + multiset{prev.value} else s.retired,
               running := s.running[t := Some(r)], threads := s.threads[t := Thread(SetNull(r), None)])
  {
    hide Accepted, WaitStep, UndoStep, EndStep, ExecuteStep;
    var r, prev := s.threads[t].pc.r, s.threads[t].prev;
    var s1 := At(s.(running := s.running[t := Some(r)]), t, Retire(r));
    assert ThreadStep(s, t) == s1;
    var s2 := ThreadStep(s1, t);
    assert s2.threads == s.threads[t := Thread(Validate(r), None)];
    assert s2.threads[t := Thread(SetNull(r), None)] == s.threads[t := Thread(SetNull(r), None)];
  }

  /** What undoes it: nothing is shown, the record goes back to the heap, and is counted again. */
  lemma CheckUndone(s: State, t: Tid)
    requires t in s.threads && s.threads[t].pc.SetNull? && s.threads[t].pc.r.typ < |s.counter|
    requires s.threads[t].prev.None?
    ensures var r := s.threads[t].pc.r;
            ThreadStep(ThreadStep(ThreadStep(s, t), t), t) ==
            s.(queued := s.queued + multiset{r}, counter := s.counter[r.typ := Up(s.counter[r.typ])],
               running := s.running[t := None], threads := s.threads[t := Thread(Pop, None)])
  {
    hide Up, WaitStep, CheckStep, EndStep, ExecuteStep;
    var r := s.threads[t].pc.r;
    var s1, s2 := ThreadStep(s, t), ThreadStep(ThreadStep(s, t), t);
    assert s1.threads == s.threads[t := Thread(Requeue(r), None)];
    assert s2.threads == s.threads[t := Thread(Increment(r), None)];
    assert s2.threads[t := Thread(Pop, None)] == s.threads[t := Thread(Pop, None)];
  }

  /** The second half of the turn. */
  lemma PublishedUndone(st: Streams, u: nat, s: State, t: Tid) returns (labels: seq<Label>)
    requires u < |st| && |st[u]| > 0 && t in s.threads && s.threads[t].pc.Publish?
    requires s.threads[t].pc.r.typ < |s.counter|
    requires s.nThreads > 1 && !Accepted(s.threads[t].pc.r, s.running[t := Some(s.threads[t].pc.r)], s.last)
    ensures StepsOfThread(labels, t)
    ensures var r, prev := s.threads[t].pc.r, s.threads[t].prev;
            Run(st, u, s, labels) ==
            s.(queued := s.queued + multiset{r}, counter := s.counter[r.typ := Up(s.counter[r.typ])],
               retired := if prev.Some? then s.retired + multiset{prev.value} else s.retired,
               running := s.running[t := None], threads := s.threads[t := Thread(Pop, None)])
  {
    hide Run, Accepted, Up, ThreadStep, StepsOfThread;
    var r := s.threads[t].pc.r;
    CheckFails(s, t);
    var check := ThreeSteps(st, u, s, t);
    var s1 := Run(st, u, s, check);
    CheckUndone(s1, t);
    var undo := ThreeSteps(st, u, s1, t);
    RunConcat(st, u, s, check, undo);
    StepsJoin(check, undo, t);
    labels := check + undo;
    assert s1.running[t := None] == s.running[t := None];
    assert s1.threads[t := Thread(Pop, None)] == s.threads[t := Thread(Pop, None)];
  }

  // ----- who may start

  ghost predicate AllShown(running: Running) {
    && running != map[]
    && forall t :: t in running ==>
         running[t].Some? && running[t].value.called <= running[t].value.returned
  }

  /** While all registered threads have published a record, the one that returned first in the trace is held
      back by none of them, so it is accepted exactly when it is in the window of the sequential test. */
  lemma SomeoneMayStart(running: Running, last: nat)
    requires AllShown(running)
    ensures exists t :: t in running && (forall p :: p in running ==> !Blocks(running[t].value, running[p].value))
                        && (Accepted(running[t].value, running, last) <==> running[t].value.uid <= last + 150)
  {
    SomeoneReturnsFirst(running);
    var t :| t in running && forall p :: p in running ==> running[t].value.returned <= running[p].value.returned;
    FirstToReturnPasses(running, t, last);
    FirstToReturnPasses(running, t, running[t].value.uid);
    assert Accepted(running[t].value, running, running[t].value.uid);
  }

  /** The records are numbered in the order of their calls, or in that of their returns. */
  ghost predicate NumberedByTime(running: Running)
    requires AllShown(running)
  {
    || (forall p, q :: p in running && q in running && running[p].value.uid <= running[q].value.uid ==>
          running[p].value.called <= running[q].value.called)
    || (forall p, q :: p in running && q in running && running[p].value.uid <= running[q].value.uid ==>
          running[p].value.returned <= running[q].value.returned)
  }

  ghost predicate Least(running: Running, t: Tid)
    requires AllShown(running)
  {
    t in running && forall p :: p in running ==> running[t].value.uid <= running[p].value.uid
  }

  /** Then the shown record of the least number is accepted exactly when it is in the window. */
  lemma LeastMayStartIff(running: Running, t: Tid, last: nat)
    requires AllShown(running) && NumberedByTime(running) && Least(running, t)
    ensures Accepted(running[t].value, running, last) <==> running[t].value.uid <= last + 150
  {
    AcceptedIff(running[t].value, running, last);
    hide Accepted;
  }

  lemma {:induction false} SomeLeast(running: Running) returns (t: Tid)
    requires AllShown(running)
    ensures Least(running, t)
    decreases |running|
  {
    t := Member(running.Keys);
    var rest := running - {t};
    forall p | p in running
      ensures p == t || (p in rest && running[p] == rest[p])
    {
    }
    if rest != map[] {
      var other := SomeLeast(rest);
      t := if running[t].value.uid <= running[other].value.uid then t else other;
    }
  }

  /** Some shown record is accepted if and only if some shown record is in the window. */
  lemma SomeoneMayStartIff(running: Running, last: nat)
    requires AllShown(running) && NumberedByTime(running)
    ensures (exists t :: t in running && Accepted(running[t].value, running, last)) <==>
            exists t :: t in running && running[t].value.uid <= last + 150
  {
    var t := SomeLeast(running);
    LeastMayStartIff(running, t, last);
    forall p | p in running
      ensures Accepted(running[p].value, running, last) ==> running[p].value.uid <= last + 150
    {
    }
    hide Accepted;
  }

  /** With other numbers nobody may start, although a record is in the window: the one outside holds back the
      one inside. */
  lemma NobodyMayStart()
    ensures var a, b := Rec(1000, 0, 0, 1, 0, 1, None), Rec(10, 1, 0, 2, 2, 3, None);
            var running: Running := map[1 := Some(a), 2 := Some(b)];
            && AllShown(running) && b.uid <= 0 + 150 && !Accepted(a, running, 0) && !Accepted(b, running, 0)
  {
    var a, b := Rec(1000, 0, 0, 1, 0, 1, None), Rec(10, 1, 0, 2, 2, 3, None);
    var running: Running := map[1 := Some(a), 2 := Some(b)];
    assert 1 in running && running[1] == Some(a) && Blocks(b, a);
  }
}
