/** The counters as numbers, not modulo the word: a counter that is still read is what it stands for, and one
    that was overwritten at the end of its stream stays as far above zero as the stream is short.
  */
module CounterBounds {
  import opened Collections
  import opened Traces
  import opened Scheduler
  import opened Places
  import opened Counters

  /** A record that a thread has put back and not yet counted is still in the heap: only this thread takes
      records of its process. */
  ghost predicate Returned(st: Streams, queued: multiset<Rec>, t: Tid, th: Thread) {
    th.pc.Increment? ==> IsRecord(st, th.pc.r) && th.pc.r in queued && th.pc.r.pid == t
  }

  ghost predicate AllReturned(st: Streams, s: State) {
    forall t :: t in s.threads ==> Returned(st, s.queued, t, s.threads[t])
  }

  /** The counter of a type whose stream is exhausted: the overwriting value, up to the records that were
      queued then and are not queued any more. */
  ghost predicate CapOk(st: Streams, s: State, i: nat)
    requires i < |st|
  {
    |s.counter| == |st| && Capped(s, i) && |st[i]| <= LLONG_MAX ==>
      LLONG_MAX - |st[i]| + Owed(st, s, i) <= s.counter[i] <= LLONG_MAX + Owed(st, s, i)
  }

  ghost predicate Bounded(st: Streams, s: State) {
    && AllReturned(st, s)
    && (s.reader.Stopped? ==> AllFinished(s))
    && forall i :: 0 <= i < |st| ==> CapOk(st, s, i)
  }

  // ----- what a counter stands for

  /** The processes of the records at some positions of a stream. */
  function PidsAt(s: seq<Rec>, positions: set<nat>): set<Tid>
    requires forall j :: j in positions ==> j < |s|
  {
    set j | j in positions :: s[j].pid
  }

  lemma {:induction false} PidsAtMost(s: seq<Rec>, positions: set<nat>)
    requires forall j :: j in positions ==> j < |s|
    ensures |PidsAt(s, positions)| <= |positions|
    decreases |positions|
  {
    if positions != {} {
      var j := Member(positions);
      PidsAtMost(s, positions - {j});
      assert PidsAt(s, positions) == PidsAt(s, positions - {j}) + {s[j].pid};
    }
  }

  lemma Smaller<T>(a: set<T>, b: set<T>)
    requires a <= b
    ensures |b - a| == |b| - |a|
  {
    assert b == a + (b - a);
  }

  lemma {:induction false} UptoSize(n: nat)
    ensures |Upto(n)| == n
    decreases n
  {
    if n > 0 {
      UptoSize(n - 1);
    }
  }

  lemma IncsAreQueued(st: Streams, s: State, i: nat)
    requires AllReturned(st, s) && i < |st|
    ensures |Incs(s, i)| <= |QueuedAt(st, s, i)|
  {
    var pids := PidsAt(st[i], QueuedAt(st, s, i));
    PidsAtMost(st[i], QueuedAt(st, s, i));
    forall t | t in Incs(s, i)
      ensures t in pids
    {
      var r := s.threads[t].pc.r;
      assert Returned(st, s.queued, t, s.threads[t]);
      assert r.pos in QueuedAt(st, s, i) && st[i][r.pos].pid == t;
    }
    Smaller(Incs(s, i), pids);
  }

  lemma DecsAreTaken(st: Streams, u: nat, s: State, t: Tid, i: nat)
    requires u < |st| && |st[u]| > 0 && Inv(st, u, s) && i < |st| && t in Decs(s, i)
    ensures var r := s.threads[t].pc.r; IsRecord(st, r) && r.typ == i && r !in s.queued && r.pid == t
  {
    var r := s.threads[t].pc.r;
    assert InPlace(st, u, s, r, Taken(t)) && OwnRecords(t, s.threads[t]);
    assert r in s.queued ==> InPlace(st, u, s, r, Queued);
    hide HoldOver, LogExact;
  }

  lemma DecsAreNotQueued(st: Streams, u: nat, s: State, i: nat)
    requires u < |st| && |st[u]| > 0 && Inv(st, u, s) && i < |st|
    ensures |Decs(s, i)| <= |st[i]| - |QueuedAt(st, s, i)|
  {
    hide Inv;
    var rest := Upto(|st[i]|) - QueuedAt(st, s, i);
    var pids := PidsAt(st[i], rest);
    PidsAtMost(st[i], rest);
    forall t | t in Decs(s, i)
      ensures t in pids
    {
      DecsAreTaken(st, u, s, t, i);
      var r := s.threads[t].pc.r;
      assert r.pos in rest && st[i][r.pos].pid == t;
    }
    Smaller(Decs(s, i), pids);
    UptoSize(|st[i]|);
    Smaller(QueuedAt(st, s, i), Upto(|st[i]|));
  }

  /** A counter stands for at most the length of its stream, and for nothing negative but a record that
      was pushed, taken and counted down before the reader counted it. */
  lemma OwedBounds(st: Streams, u: nat, s: State, i: nat)
    requires u < |st| && |st[u]| > 0 && Inv(st, u, s) && AllReturned(st, s) && i < |st|
    ensures 0 <= Owed(st, s, i) + ReaderInc(s.reader, i) && Owed(st, s, i) <= |st[i]|
  {
    hide Inv, AllReturned, QueuedAt, Decs, Incs;
    IncsAreQueued(st, s, i);
    DecsAreNotQueued(st, u, s, i);
  }

  lemma CappedIsIdle(st: Streams, s: State, i: nat)
    requires HoldOver(st, s) && Capped(s, i)
    ensures ReaderInc(s.reader, i) == 0
  {
    if Working(s.reader).Some? {
      WorkingFacts(st, s);
    }
    hide HoldOver;
  }

  // ----- every step, every run

  /** Whether a step keeps what threads have put back: the heaps lose nothing but a record that its own
      thread takes. */
  lemma OthersKeepReturned(st: Streams, s: State, s': State, t: Tid)
    requires AllReturned(st, s)
    requires forall p :: p in s'.threads && p != t ==>
        s'.threads[p].pc.Pop? || (p in s.threads && s'.threads[p] == s.threads[p])
    requires t in s'.threads ==> Returned(st, s'.queued, t, s'.threads[t])
    requires forall r :: r in s.queued && r.pid != t ==> r in s'.queued
    ensures AllReturned(st, s')
  {
    forall p | p in s'.threads && p != t
      ensures Returned(st, s'.queued, p, s'.threads[p])
    {
      assert p in s.threads ==> Returned(st, s.queued, p, s.threads[p]);
    }
    hide Returned;
  }

  lemma QuietKeepsReturned(st: Streams, s: State, s': State)
    requires AllReturned(st, s) && s.queued <= s'.queued
    requires forall p :: p in s'.threads ==> s'.threads[p].pc.Pop? || (p in s.threads && s'.threads[p] == s.threads[p])
    ensures AllReturned(st, s')
  {
    forall p | p in s'.threads
      ensures Returned(st, s'.queued, p, s'.threads[p])
    {
      assert p in s.threads ==> Returned(st, s.queued, p, s.threads[p]);
    }
    hide Returned;
  }

  lemma BatchQueues(st: Streams, s: State)
    requires Working(s.reader).Some?
    ensures s.queued <= BatchStep(st, s).queued && BatchStep(st, s).threads == s.threads
  {
    BatchSpares(st, s);
    if s.reader.PushHeld? || s.reader.PushNew? {
      hide SparesThreads;
    } else {
      BatchSparesQueue(st, s);
      hide BatchStep, SparesThreads;
    }
  }

  lemma BatchGoesOn(st: Streams, s: State)
    requires Working(s.reader).Some?
    ensures !BatchStep(st, s).reader.Stopped?
  {
    hide Up;
  }

  lemma ReadsKeepReturned(st: Streams, u: nat, s: State)
    requires u < |st| && |st[u]| > 0 && AllReturned(st, s) && (s.reader.Stopped? ==> AllFinished(s))
    ensures var s' := ReaderStep(st, u, s); AllReturned(st, s') && (s'.reader.Stopped? ==> AllFinished(s'))
  {
    hide Min, Upto, BatchStep, AllReturned;
    if Working(s.reader).Some? {
      BatchQueues(st, s);
      BatchGoesOn(st, s);
    }
    QuietKeepsReturned(st, s, ReaderStep(st, u, s));
  }

  /** One step of thread `t`, with what it puts back. */
  ghost predicate StepsOf(st: Streams, s: State, s': State, t: Tid) {
    && s.queued <= s'.queued && s'.finished == s.finished && s'.reader == s.reader
    && (t in s'.threads ==> Returned(st, s'.queued, t, s'.threads[t]))
    && forall p :: p in s'.threads && p != t ==>
          s'.threads[p].pc.Pop? || (p in s.threads && s'.threads[p] == s.threads[p])
  }

  lemma WaitStepsOf(st: Streams, s: State, t: Tid)
    requires t in s.threads && !s.threads[t].pc.Increment?
    ensures StepsOf(st, s, WaitStep(s, t), t)
  {
    hide Min, Down, IsRecord;
  }

  lemma EndStepsOf(st: Streams, s: State, t: Tid)
    requires t in s.threads && !s.threads[t].pc.Increment?
    ensures StepsOf(st, s, EndStep(s, t), t)
  {
    hide IsRecord;
  }

  lemma CheckStepsOf(st: Streams, s: State, t: Tid)
    requires t in s.threads && !s.threads[t].pc.Increment?
    ensures StepsOf(st, s, CheckStep(s, t), t)
  {
    hide Accepted, IsRecord;
  }

  lemma UndoStepsOf(st: Streams, s: State, t: Tid)
    requires t in s.threads && Returned(st, s.queued, t, s.threads[t])
    requires s.threads[t].pc.Requeue? ==> IsRecord(st, s.threads[t].pc.r) && s.threads[t].pc.r.pid == t
    ensures StepsOf(st, s, UndoStep(s, t), t)
  {
    hide Up, IsRecord;
  }

  lemma ExecuteStepsOf(st: Streams, s: State, t: Tid)
    requires t in s.threads && s.threads[t].pc.Execute?
    ensures StepsOf(st, s, ExecuteStep(s, t, s.threads[t].pc.r, s.threads[t].pc.seen), t)
  {
    hide IsRecord;
  }

  lemma InHandIsOwn(st: Streams, u: nat, s: State, t: Tid)
    requires u < |st| && |st[u]| > 0 && Inv(st, u, s) && t in s.threads && InHand(s.threads[t].pc).Some?
    ensures var r := InHand(s.threads[t].pc).value; IsRecord(st, r) && r.pid == t
  {
    assert InPlace(st, u, s, InHand(s.threads[t].pc).value, Taken(t)) && OwnRecords(t, s.threads[t]);
    hide HoldOver, LogExact, InHand, JustExecuted;
  }

  lemma ThreadStepsOf(st: Streams, u: nat, s: State, t: Tid)
    requires u < |st| && |st[u]| > 0 && Inv(st, u, s) && AllReturned(st, s) && t in s.threads
    ensures StepsOf(st, s, ThreadStep(s, t), t)
  {
    assert Returned(st, s.queued, t, s.threads[t]);
    hide Inv, AllReturned, StepsOf, Returned, WaitStep, CheckStep, UndoStep, EndStep, ExecuteStep, IsRecord;
    if s.threads[t].pc.Requeue? {
      InHandIsOwn(st, u, s, t);
    }
    UndoStepsOf(st, s, t);
    if s.threads[t].pc.Execute? {
      ExecuteStepsOf(st, s, t);
    } else if !s.threads[t].pc.Increment? {
      WaitStepsOf(st, s, t);
      EndStepsOf(st, s, t);
      CheckStepsOf(st, s, t);
    }
  }

  lemma RunsKeepReturned(st: Streams, u: nat, s: State, t: Tid)
    requires u < |st| && |st[u]| > 0 && Inv(st, u, s) && AllReturned(st, s) && (s.reader.Stopped? ==> AllFinished(s))
    ensures var s' := ThreadStep(s, t); AllReturned(st, s') && (s'.reader.Stopped? ==> AllFinished(s'))
  {
    hide Inv, AllReturned, WaitStep, CheckStep, UndoStep, EndStep, ExecuteStep, Returned;
    if t in s.threads {
      ThreadStepsOf(st, u, s, t);
      OthersKeepReturned(st, s, ThreadStep(s, t), t);
    }
  }

  lemma TakesKeepReturned(st: Streams, s: State, t: Tid, r: Rec)
    requires AllReturned(st, s) && (s.reader.Stopped? ==> AllFinished(s))
    ensures var s' := TakeStep(s, t, r); AllReturned(st, s') && (s'.reader.Stopped? ==> AllFinished(s'))
  {
    assert TakeStep(s, t, r).finished == s.finished;
    hide AllFinished, IsRecord;
    OthersKeepReturned(st, s, TakeStep(s, t, r), t);
  }

  lemma MissesKeepReturned(st: Streams, s: State, t: Tid)
    requires AllReturned(st, s) && (s.reader.Stopped? ==> AllFinished(s))
    ensures var s' := MissStep(s, t); AllReturned(st, s') && (s'.reader.Stopped? ==> AllFinished(s'))
  {
    assert MissStep(s, t).finished == s.finished;
    hide AllFinished, IsRecord;
    OthersKeepReturned(st, s, MissStep(s, t), t);
  }

  lemma FireKeepsReturned(st: Streams, u: nat, s: State, l: Label)
    requires u < |st| && |st[u]| > 0 && Inv(st, u, s) && AllReturned(st, s) && (s.reader.Stopped? ==> AllFinished(s))
    ensures var s' := Fire(st, u, s, l); AllReturned(st, s') && (s'.reader.Stopped? ==> AllFinished(s'))
  {
    hide Inv, ReaderStep, TakeStep, MissStep, ThreadStep, Returned, AllFinished;
    match l
    case Reads => ReadsKeepReturned(st, u, s);
    case PickType(i) => QuietKeepsReturned(st, s, PickStep(s, i));
    case Free(r) => QuietKeepsReturned(st, s, FreeStep(s, r));
    case Take(t, r) => TakesKeepReturned(st, s, t, r);
    case Miss(t) => MissesKeepReturned(st, s, t);
    case Runs(t) => RunsKeepReturned(st, u, s, t);
  }

  lemma CapKeeps(st: Streams, s: State, s': State, i: nat)
    requires Settles(st, s, s', i) && CapOk(st, s, i)
    requires Capped(s', i) ==> 0 <= Owed(st, s', i) <= |st[i]|
    ensures CapOk(st, s', i)
  {
    hide Owed, Capped;
  }

  lemma FireKeepsCap(st: Streams, u: nat, s: State, l: Label, i: nat)
    requires Sound(st, u) && Inv(st, u, s) && AllReturned(st, s) && (s.reader.Stopped? ==> AllFinished(s)) && i < |st|
    requires CapOk(st, s, i)
    ensures CapOk(st, Fire(st, u, s, l), i)
  {
    assert u < |st| && |st[u]| > 0;
    hide Sound, Inv, AllReturned, Fire, Settles, CapOk, Owed, Capped, HoldOver, AllFinished;
    var s' := Fire(st, u, s, l);
    FireKeeps(st, u, s, l);
    FireKeepsReturned(st, u, s, l);
    FireSettles(st, u, s, l, i);
    OwedBounds(st, u, s', i);
    if Capped(s', i) {
      assert HoldOver(st, s') by { HoldsOver(st, u, s'); }
      CappedIsIdle(st, s', i);
    }
    CapKeeps(st, s, s', i);
  }

  lemma FireKeepsBounds(st: Streams, u: nat, s: State, l: Label)
    requires Sound(st, u) && Inv(st, u, s) && Bounded(st, s)
    ensures Bounded(st, Fire(st, u, s, l))
  {
    assert u < |st| && |st[u]| > 0;
    hide Sound, Inv, AllReturned, Fire, CapOk, AllFinished;
    FireKeepsReturned(st, u, s, l);
    forall i | 0 <= i < |st|
      ensures CapOk(st, Fire(st, u, s, l), i)
    {
      FireKeepsCap(st, u, s, l, i);
    }
  }

  /** In every interleaving. */
  lemma {:induction false} RunKeepsBounds(st: Streams, u: nat, s: State, labels: seq<Label>)
    requires Sound(st, u) && Inv(st, u, s) && Bounded(st, s)
    ensures Inv(st, u, Run(st, u, s, labels)) && Bounded(st, Run(st, u, s, labels))
    decreases |labels|
  {
    assert u < |st| && |st[u]| > 0;
    hide Sound, Inv, Bounded, Fire;
    if labels != [] {
      FireKeeps(st, u, s, labels[0]);
      FireKeepsBounds(st, u, s, labels[0]);
      RunKeepsBounds(st, u, Fire(st, u, s, labels[0]), labels[1..]);
    }
  }

  lemma StartBounded(st: Streams, u: nat)
    requires Sound(st, u)
    ensures Inv(st, u, Start(st, u)) && Bounded(st, Start(st, u))
  {
    StartHolds(st, u);
    hide Inv, Owed;
  }

  /** A counter that was overwritten never comes down to what anyone waits for: it is at least the
      overwriting value less the length of the stream. */
  lemma CappedStaysHigh(st: Streams, u: nat, s: State, i: nat)
    requires Sound(st, u) && Inv(st, u, s) && Bounded(st, s) && i < |st| && Capped(s, i) && |st[i]| <= LLONG_MAX
    ensures |s.counter| == |st| && LLONG_MAX - |st[i]| <= s.counter[i] <= LLONG_MAX + |st[i]|
  {
    HoldsOver(st, u, s);
    OwedBounds(st, u, s, i);
    CappedIsIdle(st, s, i);
    assert CapOk(st, s, i) && |s.counter| == |st|;
    hide Inv, Bounded, Owed, HoldOver, Capped;
  }

  /** A counter of a type that is still read is the number it stands for, save that it wraps to the largest
      word in the one moment between the count of the executor and that of the reader. */
  lemma CounterIsExact(st: Streams, u: nat, s: State, i: nat)
    requires Sound(st, u) && Inv(st, u, s) && Bounded(st, s) && CounterOk(st, s) && i < |st| && !Capped(s, i)
    requires |st[i]| < WORD - 1
    ensures |s.counter| == |st|
    ensures s.counter[i] == if Owed(st, s, i) == -1 then WORD - 1 else Owed(st, s, i)
    ensures Owed(st, s, i) == -1 ==> ReaderInc(s.reader, i) == 1
  {
    OwedBounds(st, u, s, i);
    assert Congruent(s.counter[i], Owed(st, s, i)) && s.counter[i] < WORD;
    hide Inv, Bounded, Owed, CounterOk, Capped, Congruent, Sound;
    CongruentIsEqual(s.counter[i], Owed(st, s, i));
  }

  lemma CongruentIsEqual(c: nat, o: int)
    requires Congruent(c, o) && c < WORD && -1 <= o < WORD - 1
    ensures c == if o == -1 then WORD - 1 else o
  {
    var k := (c - o) / WORD;
    assert c - o == WORD * k;
  }
}
