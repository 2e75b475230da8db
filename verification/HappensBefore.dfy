/** Calls that followed each other in the trace follow each other in the replay.

    The loader does not deliver the records of a process in order by itself when there are several
    processes, because its counters are global. `InOrder` is the exact condition at each take; under it the
    order of the whole log is proved for every interleaving.
  */
module HappensBefore {
  import opened Collections
  import opened Traces
  import opened Scheduler
  import opened Places

  // ----- delivery

  /** Records that the reader has not pushed. */
  ghost predicate Unpushed(st: Streams, u: nat, s: State, a: Rec) {
    InPlace(st, u, s, a, Unread) || InPlace(st, u, s, a, Held)
  }

  /** The reader is ahead of thread `t`: before any of its records that is not pushed comes one that is
      queued. */
  ghost predicate Ahead(st: Streams, u: nat, s: State, t: Tid) {
    forall a :: Unpushed(st, u, s, a) && a.pid == t ==> exists q :: q in s.queued && q.pid == t && q.uid < a.uid
  }

  /** All calls of the process before `r` are executed. */
  ghost predicate TurnOf(st: Streams, log: seq<Executed>, t: Tid, r: Rec) {
    forall a :: IsRecord(st, a) && a.pid == t && a.uid < r.uid ==> InLog(log, a)
  }

  ghost predicate AllDone(st: Streams, log: seq<Executed>, t: Tid) {
    forall a :: IsRecord(st, a) && a.pid == t ==> InLog(log, a)
  }

  /** A record of the process of an idle thread is unpushed, queued or executed. */
  lemma IdlePlaces(st: Streams, u: nat, s: State, t: Tid, a: Rec)
    requires u < |st| && |st[u]| > 0 && Inv(st, u, s) && t in s.threads && s.threads[t].pc.Pop? && IsRecord(st, a)
    requires a.pid == t
    ensures InLog(s.log, a) || a in s.queued || Unpushed(st, u, s, a)
    ensures InLog(s.log, a) ==> a !in s.queued && !Unpushed(st, u, s, a)
  {
    var p :| InPlace(st, u, s, a, p);
    assert p.Taken? ==> p.t in s.threads && OwnRecords(p.t, s.threads[p.t]);
    assert a in s.queued ==> InPlace(st, u, s, a, Queued);
    hide HoldOver, TableOk, InLog;
  }

  /** A take is in the order of the process if and only if no earlier record of it is unpushed. */
  lemma TakeInOrderIff(st: Streams, u: nat, s: State, t: Tid, r: Rec)
    requires u < |st| && |st[u]| > 0 && Inv(st, u, s) && t in s.threads && s.threads[t].pc.Pop?
    requires IsLeast(s.queued, t, r)
    ensures TurnOf(st, s.log, t, r) <==> forall a :: Unpushed(st, u, s, a) && a.pid == t ==> r.uid <= a.uid
  {
    forall a | IsRecord(st, a) && a.pid == t && a.uid < r.uid
      ensures InLog(s.log, a) <==> !Unpushed(st, u, s, a)
    {
      IdlePlaces(st, u, s, t, a);
    }
    hide Inv, InLog;
    assert forall a :: Unpushed(st, u, s, a) ==> IsRecord(st, a);
  }

  /** A thread that finds its heap empty has executed all its records if and only if none is unpushed. */
  lemma MissIff(st: Streams, u: nat, s: State, t: Tid)
    requires u < |st| && |st[u]| > 0 && Inv(st, u, s) && t in s.threads && s.threads[t].pc.Pop?
    requires forall q :: q in s.queued ==> q.pid != t
    ensures AllDone(st, s.log, t) <==> forall a :: Unpushed(st, u, s, a) ==> a.pid != t
  {
    forall a | IsRecord(st, a) && a.pid == t
      ensures InLog(s.log, a) <==> !Unpushed(st, u, s, a)
    {
      IdlePlaces(st, u, s, t, a);
    }
    hide Inv, InLog;
    assert forall a :: Unpushed(st, u, s, a) ==> IsRecord(st, a);
  }

  /** The step is a try_pop of an idle thread. */
  predicate AtTake(s: State, l: Label) {
    (l.Take? || l.Miss?) && l.t in s.threads && s.threads[l.t].pc.Pop?
  }

  /** Every take and every miss of the run finds the reader ahead. */
  ghost predicate Delivered(st: Streams, u: nat, s: State, labels: seq<Label>)
    requires u < |st| && |st[u]| > 0
    decreases |labels|
  {
    labels != [] ==>
      && (AtTake(s, labels[0]) ==> Ahead(st, u, s, labels[0].t))
      && Delivered(st, u, Fire(st, u, s, labels[0]), labels[1..])
  }

  // ----- the invariant

  /** What a thread owes its process: before the record in hand, and before it ends, all is executed; and
      a validated record may start. */
  ghost predicate ThreadOrder(st: Streams, log: seq<Executed>, t: Tid, pc: Pc) {
    && (InHand(pc).Some? ==> TurnOf(st, log, t, InHand(pc).value))
    && (pc.Leave? || pc.Gone? ==> AllDone(st, log, t))
    && (pc.Execute? && CallsInSequence(st) ==> MayStart(st, log, pc.r, pc.seen))
  }

  /** Every call of a process in `seen` that returned before `r` was called is executed. */
  ghost predicate MayStart(st: Streams, log: seq<Executed>, r: Rec, seen: set<Tid>) {
    forall a :: IsRecord(st, a) && a.pid in seen && a.returned < r.called ==> InLog(log, a)
  }

  /** The executed calls of a process are its first ones. */
  ghost predicate Prefixes(st: Streams, log: seq<Executed>) {
    forall a, b :: IsRecord(st, a) && IsRecord(st, b) && a.pid == b.pid && a.uid < b.uid && InLog(log, b) ==>
        InLog(log, a)
  }

  /** The calls of one process were executed in the order of the trace. */
  ghost predicate ProgramOrder(log: seq<Executed>) {
    forall j, k :: 0 <= j < k < |log| && log[j].r.pid == log[k].r.pid ==> log[j].r.uid < log[k].r.uid
  }

  /** A call that returned before another was called was executed before it. */
  ghost predicate CausallyOrdered(st: Streams, log: seq<Executed>) {
    forall k, a :: 0 <= k < |log| && IsRecord(st, a) && a.pid in log[k].seen && a.returned < log[k].r.called ==>
        InLog(log[..k], a)
  }

  ghost predicate InOrder(st: Streams, s: State) {
    && Prefixes(st, s.log) && ProgramOrder(s.log) && (CallsInSequence(st) ==> CausallyOrdered(st, s.log))
    && forall t :: t in s.threads ==> ThreadOrder(st, s.log, t, s.threads[t].pc)
  }

  // ----- the check

  /** The record a thread shows: it belongs to the process, and all its earlier records are executed. */
  lemma ShownIsNext(st: Streams, u: nat, s: State, t: Tid)
    requires u < |st| && |st[u]| > 0 && Inv(st, u, s) && InOrder(st, s) && t in s.threads && t in s.running
    requires s.running[t].Some?
    ensures IsRecord(st, s.running[t].value) && s.running[t].value.pid == t && TurnOf(st, s.log, t, s.running[t].value)
  {
    var th, c := s.threads[t], s.running[t].value;
    assert Shows(st, u, t, th, s.running) && OwnRecords(t, th) && ThreadOrder(st, s.log, t, th.pc);
    if InHand(th.pc) == Some(c) {
      assert InPlace(st, u, s, c, Taken(t));
    } else {
      var p := if JustExecuted(th.pc) == Some(c) then Ended(t) else if th.prev == Some(c) then Previous(t) else Primed;
      assert InPlace(st, u, s, c, p) && IsDone(p);
    }
    hide InPlace, Shows, HoldOver, TableOk, InLog;
  }

  /** In one process the order of the numbers is the order of the calls. */
  lemma EarlierCall(st: Streams, a: Rec, c: Rec)
    requires CallsInSequence(st) && IsRecord(st, a) && IsRecord(st, c) && a.pid == c.pid
    requires forall x, y :: IsRecord(st, x) && IsRecord(st, y) && x.uid == y.uid ==> x == y
    requires a.returned < c.returned
    ensures a.uid < c.uid
  {
  }

  /** A record whose check succeeds may start. */
  lemma CheckedMayStart(st: Streams, u: nat, s: State, t: Tid, a: Rec)
    requires Sound(st, u) && CallsInSequence(st) && Inv(st, u, s) && InOrder(st, s)
    requires t in s.threads && s.threads[t].pc.Validate?
    requires s.nThreads > 1 ==> Accepted(s.threads[t].pc.r, s.running, s.last)
    requires IsRecord(st, a) && a.pid in s.threads && a.returned < s.threads[t].pc.r.called
    ensures InLog(s.log, a)
  {
    var r, x := s.threads[t].pc.r, a.pid;
    assert InPlace(st, u, s, r, Taken(t)) && OwnRecords(t, s.threads[t]);
    assert ThreadOrder(st, s.log, t, s.threads[t].pc) && ThreadOrder(st, s.log, x, s.threads[x].pc);
    assert Shows(st, u, x, s.threads[x], s.running);
    if x == t {
      EarlierCall(st, a, r);
    } else if !s.threads[x].pc.Gone? {
      TwoThreads(s.threads, t, x);
      assert s.nThreads > 1;
      assert x in s.running && s.running[x].Some? && !Blocks(r, s.running[x].value);
      ShownIsNext(st, u, s, x);
      var c := s.running[x].value;
      assert a.called <= a.returned && r.called <= r.returned && c.called <= c.returned;
      BlocksMeaning(r, c);
      assert c.returned >= r.called;
      EarlierCall(st, a, c);
    }
  }

  lemma TwoThreads<T>(m: map<Tid, T>, t: Tid, x: Tid)
    requires t in m && x in m && t != x
    ensures |m| > 1
  {
    assert |m.Keys - {t} - {x}| == |m.Keys| - 2;
  }

  // ----- the steps

  predicate QuietThread(pc: Pc, pc': Pc) {
    && (InHand(pc').Some? ==> InHand(pc') == InHand(pc))
    && (pc'.Leave? || pc'.Gone? ==> pc.Leave? || pc.Gone?)
    && (pc'.Execute? ==> pc' == pc)
  }

  /** No thread takes a record, validates one, or ends its loop. */
  ghost predicate Quiet(s: State, s': State) {
    forall t :: t in s'.threads ==>
        if t in s.threads then QuietThread(s.threads[t].pc, s'.threads[t].pc) else s'.threads[t].pc.Pop?
  }

  lemma InLogGrows(log: seq<Executed>, log': seq<Executed>, r: Rec)
    requires log <= log' && InLog(log, r)
    ensures InLog(log', r)
  {
  }

  lemma ThreadsGrow(st: Streams, s: State, s': State)
    requires InOrder(st, s) && Quiet(s, s') && s.log <= s'.log
    ensures forall t :: t in s'.threads ==> ThreadOrder(st, s'.log, t, s'.threads[t].pc)
  {
  }

  lemma QuietKeeps(st: Streams, s: State, s': State)
    requires InOrder(st, s) && Quiet(s, s') && s'.log == s.log
    ensures InOrder(st, s')
  {
    ThreadsGrow(st, s, s');
    hide Prefixes, ProgramOrder, CausallyOrdered, ThreadOrder, Quiet;
  }

  lemma WaitIsQuiet(s: State, t: Tid)
    requires t in s.threads
    ensures Quiet(s, WaitStep(s, t)) && WaitStep(s, t).log == s.log
  {
    hide Min, Down;
  }

  lemma CheckIsQuiet(s: State, t: Tid)
    requires t in s.threads
    requires s.threads[t].pc.Validate? ==> s.nThreads > 1 && !Accepted(s.threads[t].pc.r, s.running, s.last)
    ensures Quiet(s, CheckStep(s, t)) && CheckStep(s, t).log == s.log
  {
    hide Accepted;
  }

  lemma UndoIsQuiet(s: State, t: Tid)
    requires t in s.threads
    ensures Quiet(s, UndoStep(s, t)) && UndoStep(s, t).log == s.log
  {
    hide Up;
  }

  lemma EndIsQuiet(s: State, t: Tid)
    requires t in s.threads
    ensures Quiet(s, EndStep(s, t)) && EndStep(s, t).log == s.log
  {
  }

  lemma RoundIsQuiet(st: Streams, u: nat, s: State)
    requires u < |st| && |st[u]| > 0 && (s.first ==> s.threads == map[])
    ensures Quiet(s, RoundStep(st, u, s)) && RoundStep(st, u, s).log == s.log
  {
    hide Min, Upto;
  }

  lemma SameThreadsAreQuiet(s: State, s': State)
    requires s'.threads == s.threads
    ensures Quiet(s, s')
  {
  }

  lemma BatchIsQuiet(st: Streams, s: State)
    ensures Quiet(s, BatchStep(st, s)) && BatchStep(st, s).log == s.log
  {
    hide BatchStep, Quiet;
    BatchSpares(st, s);
    SameThreadsAreQuiet(s, BatchStep(st, s));
  }

  lemma ReaderIsQuiet(st: Streams, u: nat, s: State)
    requires u < |st| && |st[u]| > 0 && (s.first ==> s.threads == map[])
    ensures Quiet(s, ReaderStep(st, u, s)) && ReaderStep(st, u, s).log == s.log
  {
    hide RoundStep, BatchStep, Quiet;
    RoundIsQuiet(st, u, s);
    BatchIsQuiet(st, s);
  }

  /** The log grows by a record whose turn it is and that may start. */
  lemma AppendKeeps(st: Streams, log: seq<Executed>, r: Rec, seen: set<Tid>)
    requires Prefixes(st, log) && IsRecord(st, r) && TurnOf(st, log, r.pid, r)
    ensures Prefixes(st, log + [Executed(r, seen)])
    ensures CausallyOrdered(st, log) && MayStart(st, log, r, seen) ==> CausallyOrdered(st, log + [Executed(r, seen)])
  {
    var log' := log + [Executed(r, seen)];
    forall q
      ensures InLog(log', q) <==> InLog(log, q) || q == r
    {
      if InLog(log, q) {
        InLogGrows(log, log', q);
      }
      assert log'[|log|].r == r;
    }
    assert log'[..|log|] == log;
    forall k, a | CausallyOrdered(st, log) && MayStart(st, log, r, seen) && 0 <= k < |log'| && IsRecord(st, a)
                  && a.pid in log'[k].seen && a.returned < log'[k].r.called
      ensures InLog(log'[..k], a)
    {
      if k < |log| {
        assert log'[..k] == log[..k] && log'[k] == log[k];
      }
    }
    hide InLog;
  }

  lemma ChildIsQuiet(s: State, t: Tid, r: Rec, seen: set<Tid>)
    requires t in s.threads && s.threads[t].pc == Execute(r, seen) && (r.child.Some? ==> r.child.value !in s.threads)
    ensures Quiet(s, ExecuteStep(s, t, r, seen))
  {
  }

  lemma ExecutingChildIsNew(st: Streams, u: nat, s: State, t: Tid)
    requires Sound(st, u) && Inv(st, u, s) && t in s.threads && s.threads[t].pc.Execute?
    ensures s.threads[t].pc.r.child.Some? ==> s.threads[t].pc.r.child.value !in s.threads
  {
    RecordedKeeps(st, u, s, t);
    if s.threads[t].pc.r.child.Some? {
      ChildIsNew(st, u, s, s.threads[t].pc.r);
    }
  }

  lemma ExecuteIsQuiet(st: Streams, u: nat, s: State, t: Tid)
    requires Sound(st, u) && Inv(st, u, s) && t in s.threads && s.threads[t].pc.Execute?
    ensures Quiet(s, ThreadStep(s, t))
  {
    hide Inv, Sound, WaitStep, CheckStep, UndoStep, EndStep, ExecuteStep, Quiet;
    ExecutingChildIsNew(st, u, s, t);
    ChildIsQuiet(s, t, s.threads[t].pc.r, s.threads[t].pc.seen);
  }

  lemma AppendKeepsProgramOrder(st: Streams, u: nat, log: seq<Executed>, r: Rec, seen: set<Tid>)
    requires Sound(st, u) && Prefixes(st, log) && ProgramOrder(log) && IsRecord(st, r) && !InLog(log, r)
    requires forall k :: 0 <= k < |log| ==> IsRecord(st, log[k].r)
    ensures ProgramOrder(log + [Executed(r, seen)])
  {
    forall k | 0 <= k < |log| && log[k].r.pid == r.pid
      ensures log[k].r.uid < r.uid
    {
      assert InLog(log, log[k].r);
    }
    hide Sound, Prefixes, InLog;
  }

  /** What is known of a record that is about to be executed. */
  lemma ExecutingFacts(st: Streams, u: nat, s: State, t: Tid)
    requires u < |st| && |st[u]| > 0 && Inv(st, u, s) && InOrder(st, s) && t in s.threads && s.threads[t].pc.Execute?
    ensures var Execute(r, seen) := s.threads[t].pc;
            && IsRecord(st, r) && r.pid == t && !InLog(s.log, r) && TurnOf(st, s.log, t, r)
            && (CallsInSequence(st) ==> MayStart(st, s.log, r, seen))
            && (forall k :: 0 <= k < |s.log| ==> IsRecord(st, s.log[k].r))
  {
    assert InPlace(st, u, s, s.threads[t].pc.r, Taken(t)) && OwnRecords(t, s.threads[t]);
    assert ThreadOrder(st, s.log, t, s.threads[t].pc);
    hide HoldOver, TableOk, InLog, Prefixes, ProgramOrder, CausallyOrdered;
  }

  lemma ExecuteLogs(s: State, t: Tid)
    requires t in s.threads && s.threads[t].pc.Execute?
    ensures ThreadStep(s, t).log == s.log + [Executed(s.threads[t].pc.r, s.threads[t].pc.seen)]
  {
  }

  lemma ExecuteKeepsOrder(st: Streams, u: nat, s: State, t: Tid)
    requires Sound(st, u) && Inv(st, u, s) && InOrder(st, s) && t in s.threads && s.threads[t].pc.Execute?
    ensures InOrder(st, ThreadStep(s, t))
  {
    var Execute(r, seen) := s.threads[t].pc;
    hide Sound, Inv, ThreadStep, Quiet, Prefixes, ProgramOrder, CausallyOrdered, MayStart, TurnOf;
    Basics(st, u, s);
    ExecutingFacts(st, u, s, t);
    ExecuteLogs(s, t);
    AppendKeeps(st, s.log, r, seen);
    AppendKeepsProgramOrder(st, u, s.log, r, seen);
    ExecuteIsQuiet(st, u, s, t);
    ThreadsGrow(st, s, ThreadStep(s, t));
    hide ThreadOrder;
  }

  lemma ValidatedMayStart(st: Streams, u: nat, s: State, t: Tid)
    requires Sound(st, u) && Inv(st, u, s) && InOrder(st, s) && t in s.threads && s.threads[t].pc.Validate?
    requires s.nThreads > 1 ==> Accepted(s.threads[t].pc.r, s.running, s.last)
    ensures CallsInSequence(st) ==> MayStart(st, s.log, s.threads[t].pc.r, s.threads.Keys)
    ensures TurnOf(st, s.log, t, s.threads[t].pc.r)
  {
    hide Sound, Inv, Accepted, CallsInSequence, Prefixes, ProgramOrder, CausallyOrdered, InLog;
    forall a | CallsInSequence(st) && IsRecord(st, a) && a.pid in s.threads && a.returned < s.threads[t].pc.r.called
      ensures InLog(s.log, a)
    {
      CheckedMayStart(st, u, s, t, a);
    }
    assert ThreadOrder(st, s.log, t, s.threads[t].pc);
  }

  lemma ValidateKeepsOrder(st: Streams, u: nat, s: State, t: Tid)
    requires Sound(st, u) && Inv(st, u, s) && InOrder(st, s) && t in s.threads && s.threads[t].pc.Validate?
    ensures InOrder(st, CheckStep(s, t))
  {
    hide Sound, Inv, Accepted, CallsInSequence, Prefixes;
    hide ProgramOrder, CausallyOrdered, InLog, MayStart, TurnOf, AllDone;
    var r, s' := s.threads[t].pc.r, CheckStep(s, t);
    if s.nThreads > 1 && !Accepted(r, s.running, s.last) {
      CheckIsQuiet(s, t);
      QuietKeeps(st, s, s');
    } else {
      ValidatedMayStart(st, u, s, t);
    }
  }

  lemma TakeKeepsOrder(st: Streams, u: nat, s: State, t: Tid, r: Rec)
    requires u < |st| && |st[u]| > 0 && Inv(st, u, s) && InOrder(st, s)
    requires AtTake(s, Take(t, r)) ==> Ahead(st, u, s, t)
    ensures InOrder(st, TakeStep(s, t, r))
  {
    if t in s.threads && s.threads[t].pc.Pop? && IsLeast(s.queued, t, r) {
      TakeInOrderIff(st, u, s, t, r);
      hide Inv, Prefixes, ProgramOrder, CausallyOrdered, InLog, Unpushed;
      assert TurnOf(st, s.log, t, r);
    }
  }

  lemma MissKeepsOrder(st: Streams, u: nat, s: State, t: Tid)
    requires u < |st| && |st[u]| > 0 && Inv(st, u, s) && InOrder(st, s) && (AtTake(s, Miss(t)) ==> Ahead(st, u, s, t))
    ensures InOrder(st, MissStep(s, t))
  {
    if t in s.threads && s.threads[t].pc.Pop? && forall q :: q in s.queued ==> q.pid != t {
      MissIff(st, u, s, t);
      hide Inv, Prefixes, ProgramOrder, CausallyOrdered, InLog, Unpushed;
      assert AllDone(st, s.log, t);
    }
  }

  lemma StagesKeepOrder(st: Streams, s: State, t: Tid)
    requires InOrder(st, s) && t in s.threads && !s.threads[t].pc.Validate?
    ensures InOrder(st, WaitStep(s, t)) && InOrder(st, CheckStep(s, t)) && InOrder(st, UndoStep(s, t))
    ensures InOrder(st, EndStep(s, t))
  {
    hide InOrder, Quiet, WaitStep, CheckStep, UndoStep, EndStep, Accepted;
    WaitIsQuiet(s, t);
    CheckIsQuiet(s, t);
    UndoIsQuiet(s, t);
    EndIsQuiet(s, t);
    QuietKeeps(st, s, WaitStep(s, t));
    QuietKeeps(st, s, CheckStep(s, t));
    QuietKeeps(st, s, UndoStep(s, t));
    QuietKeeps(st, s, EndStep(s, t));
  }

  lemma ThreadStepKeepsOrder(st: Streams, u: nat, s: State, t: Tid)
    requires Sound(st, u) && Inv(st, u, s) && InOrder(st, s)
    ensures InOrder(st, ThreadStep(s, t))
  {
    hide Sound, Inv, InOrder, WaitStep, CheckStep, UndoStep, EndStep, ExecuteStep;
    if t !in s.threads {
      return;
    }
    match s.threads[t].pc
    case Execute(_, _) => ExecuteKeepsOrder(st, u, s, t);
    case Validate(_) => ValidateKeepsOrder(st, u, s, t);
    case _ => StagesKeepOrder(st, s, t);
  }

  lemma ReadsKeepsOrder(st: Streams, u: nat, s: State, i: nat, r: Rec)
    requires u < |st| && |st[u]| > 0 && (s.first ==> s.threads == map[]) && InOrder(st, s)
    ensures InOrder(st, ReaderStep(st, u, s)) && InOrder(st, PickStep(s, i)) && InOrder(st, FreeStep(s, r))
  {
    ReaderIsQuiet(st, u, s);
    PickIsQuiet(s, i);
    FreeIsQuiet(s, r);
    hide InOrder, Quiet, ReaderStep, PickStep, FreeStep;
    QuietKeeps(st, s, ReaderStep(st, u, s));
    QuietKeeps(st, s, PickStep(s, i));
    QuietKeeps(st, s, FreeStep(s, r));
  }

  lemma FireKeepsOrder(st: Streams, u: nat, s: State, l: Label)
    requires Sound(st, u) && Inv(st, u, s) && InOrder(st, s)
    requires AtTake(s, l) ==> Ahead(st, u, s, l.t)
    ensures InOrder(st, Fire(st, u, s, l))
  {
    hide Sound, Inv, InOrder, Ahead, ReaderStep, PickStep, FreeStep, TakeStep, MissStep, ThreadStep;
    Basics(st, u, s);
    match l
    case Reads => ReadsKeepsOrder(st, u, s, 0, st[u][0]);
    case PickType(i) => ReadsKeepsOrder(st, u, s, i, st[u][0]);
    case Free(r) => ReadsKeepsOrder(st, u, s, 0, r);
    case Take(t, r) => TakeKeepsOrder(st, u, s, t, r);
    case Miss(t) => MissKeepsOrder(st, u, s, t);
    case Runs(t) => ThreadStepKeepsOrder(st, u, s, t);
  }

  lemma PickIsQuiet(s: State, i: nat)
    ensures Quiet(s, PickStep(s, i)) && PickStep(s, i).log == s.log
  {
  }

  lemma FreeIsQuiet(s: State, r: Rec)
    ensures Quiet(s, FreeStep(s, r)) && FreeStep(s, r).log == s.log
  {
  }

  lemma StartInOrder(st: Streams, u: nat)
    requires Sound(st, u)
    ensures InOrder(st, Start(st, u))
  {
    var s := Start(st, u);
    forall r
      ensures InLog(s.log, r) <==> r == st[u][0]
    {
      assert s.log[0].r == st[u][0];
    }
    assert forall k :: 0 <= k < |s.log| ==> s.log[k].seen == {};
  }

  /** Over every interleaving in which the reader keeps ahead: the executed calls of each process are its
      first ones, in the order of the trace, and a call of a registered process that returned before another
      call was called was executed before it. */
  lemma {:induction false} RunInOrder(st: Streams, u: nat, s: State, labels: seq<Label>)
    requires Sound(st, u) && Inv(st, u, s) && InOrder(st, s) && Delivered(st, u, s, labels)
    ensures InOrder(st, Run(st, u, s, labels))
    decreases |labels|
  {
    if labels != [] {
      FireKeeps(st, u, s, labels[0]);
      FireKeepsOrder(st, u, s, labels[0]);
      hide Sound, Inv, InOrder, Ahead;
      RunInOrder(st, u, Fire(st, u, s, labels[0]), labels[1..]);
    }
  }
}
