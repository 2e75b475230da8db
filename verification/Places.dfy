/** Every record is in exactly one place, in every interleaving; and what the running table shows.
  */
module Places {
  import opened Collections
  import opened Traces
  import opened Scheduler

  // ----- places

  datatype Place =
    | Unread                // in its stream
    | Held                  // read by the reader, not pushed
    | Queued                // in the heap of its process
    | Taken(t: Tid)         // in the hand of an executor, not executed
    | Ended(t: Tid)         // executed, still in hand
    | Previous(t: Tid)      // executed, kept as the previous record
    | Primed                // the first umask record, executed before the threads start
    | Retired               // in the deletion queue
    | Freed

  ghost predicate InPlace(st: Streams, u: nat, s: State, r: Rec, p: Place) {
    match p
    case Unread => IsRecord(st, r) && r.typ < |s.read| && s.read[r.typ] <= r.pos
    case Held => IsRecord(st, r) && r.typ < |s.read| && r.typ < |s.held| && s.held[r.typ] && r.pos + 1 == s.read[r.typ]
    case Queued => r in s.queued
    case Taken(t) => t in s.threads && InHand(s.threads[t].pc) == Some(r)
    case Ended(t) => t in s.threads && JustExecuted(s.threads[t].pc) == Some(r)
    case Previous(t) => t in s.threads && s.threads[t].prev == Some(r)
    case Primed => IsRecord(st, r) && r.typ == u && r.pos == 0
    case Retired => r in s.retired
    case Freed => r in s.freed
  }

  predicate IsDone(p: Place) {
    p.Ended? || p.Previous? || p.Primed? || p.Retired? || p.Freed?
  }

  /** All places hold records of the trace, each record is in exactly one, and in it once. */
  ghost predicate OnePlace(st: Streams, u: nat, s: State) {
    && (forall r, p :: InPlace(st, u, s, r, p) ==> IsRecord(st, r))
    && (forall r :: IsRecord(st, r) ==> exists p :: InPlace(st, u, s, r, p))
    && (forall r, p, q :: InPlace(st, u, s, r, p) && InPlace(st, u, s, r, q) ==> p == q)
    && (forall r :: s.queued[r] <= 1 && s.retired[r] <= 1 && s.freed[r] <= 1)
  }

  ghost predicate InLog(log: seq<Executed>, r: Rec) {
    exists k :: 0 <= k < |log| && log[k].r == r
  }

  /** The log has every executed record once, and no other. */
  ghost predicate LogExact(st: Streams, u: nat, s: State) {
    && (forall r, p :: InPlace(st, u, s, r, p) ==> (InLog(s.log, r) <==> IsDone(p)))
    && (forall j, k :: 0 <= j < k < |s.log| ==> s.log[j].r != s.log[k].r)
    && (forall k :: 0 <= k < |s.log| ==> IsRecord(st, s.log[k].r))
  }

  // ----- the loader

  ghost predicate Shape(st: Streams, s: State) {
    && |s.read| == |s.held| == |s.finished| == |s.counter| == |st|
    && forall i :: 0 <= i < |st| ==> 1 <= s.read[i] <= |st[i]|
  }

  predicate InBatch(reader: Reader) {
    reader.Pick? || Working(reader).Some?
  }

  function Todo(reader: Reader): set<nat> {
    if InBatch(reader) then reader.todo else {}
  }

  /** The type whose batch is under way. */
  predicate WorkingOn(len: nat, reader: Reader, first: bool, read: nat, held: bool, finished: bool) {
    match reader
    case PushHeld(_, _, _) => held && !finished && !first
    case IncHeld(_, _, _) => !held && !finished && !first
    case Loop(_, count, _, b) => !finished && 1 <= count <= b && (held <==> count == 1)
    case PushNew(_, count, _, b) => held && !finished && 2 <= count <= b
    case IncNew(_, count, _, b) => !held && !finished && 2 <= count <= b
    case SetFinished(_, _, _) => !held && !finished && read == len
    case SetMax(_, _, _) => !held && finished && read == len
    case _ => true
  }

  /** A type at rest: an unfinished type has exactly one record that is read but not pushed, save that
      the first batch finds none; a finished type is read and pushed to the end. */
  predicate AtRest(len: nat, untouched: bool, read: nat, held: bool, finished: bool) {
    if finished then !held && read == len else held <==> !untouched
  }

  ghost predicate HoldOver(st: Streams, s: State) {
    && Shape(st, s)
    && (s.first ==> InBatch(s.reader))
    && (InBatch(s.reader) ==> s.reader.b >= 2)
    && Todo(s.reader) <= Upto(|st|)
    && (Working(s.reader).Some? ==> Working(s.reader).value < |st| && Working(s.reader).value !in Todo(s.reader))
    && (forall i :: s.first && i in Todo(s.reader) ==> s.counter[i] <= 1)
    && (forall i :: 0 <= i < |st| ==>
          if Working(s.reader) == Some(i) then
            WorkingOn(|st[i]|, s.reader, s.first, s.read[i], s.held[i], s.finished[i])
          else AtRest(|st[i]|, s.first && i in Todo(s.reader), s.read[i], s.held[i], s.finished[i]))
  }

  // ----- the running table

  datatype Display = Current(r: Rec) | Last | Nothing | Off

  /** What a thread shows: the record in hand from publication on, nothing after a failed check, and
      until the next publication the record it executed last. */
  function DisplayOf(pc: Pc): Display {
    match pc
    case Retire(r) => Current(r)
    case Validate(r) => Current(r)
    case SetNull(r) => Current(r)
    case Execute(r, _) => Current(r)
    case ReadLast(r) => Current(r)
    case WriteLast(r, _) => Current(r)
    case Requeue(_) => Nothing
    case Increment(_) => Nothing
    case Gone => Off
    case _ => Last
  }

  /** From its retirement to the end of the turn a thread has no previous record. */
  predicate PrevGone(pc: Pc) {
    !DisplayOf(pc).Last? && !pc.Retire? && !pc.Gone?
  }

  ghost predicate Shows(st: Streams, u: nat, t: Tid, th: Thread, running: Running) {
    && (PrevGone(th.pc) ==> th.prev.None?)
    && match DisplayOf(th.pc)
       case Current(r) => t in running && running[t] == Some(r)
       case Nothing => t in running && running[t] == None
       case Off => t !in running
       case Last =>
         t in running &&
         if th.prev.Some? then running[t] == th.prev
         else
           running[t].Some? ==>
             && IsRecord(st, running[t].value) && running[t].value.typ == u
             && running[t].value.pos == 0 && running[t].value.pid == t
  }

  /** A thread handles records of its own process. */
  predicate OwnRecords(t: Tid, th: Thread) {
    && (InHand(th.pc).Some? ==> InHand(th.pc).value.pid == t)
    && (JustExecuted(th.pc).Some? ==> JustExecuted(th.pc).value.pid == t)
    && (th.prev.Some? ==> th.prev.value.pid == t)
  }

  ghost predicate TableOk(st: Streams, u: nat, s: State)
    requires u < |st| && |st[u]| > 0
  {
    && s.nThreads >= 1
    && (s.first ==> s.nThreads == 1 && s.threads == map[] && s.running == map[st[u][0].pid := Some(st[u][0])])
    && (!s.first ==> |s.threads| == s.nThreads && st[u][0].pid in s.threads)
    && (forall t :: t in s.threads ==> Shows(st, u, t, s.threads[t], s.running) && OwnRecords(t, s.threads[t]))
    && (forall t :: t in s.running && !s.first ==> t in s.threads)
    && (forall t :: t in s.threads ==> t == st[u][0].pid || exists k :: 0 <= k < |s.log| && s.log[k].r.child == Some(t))
  }

  ghost predicate Inv(st: Streams, u: nat, s: State)
    requires u < |st| && |st[u]| > 0
  {
    HoldOver(st, s) && TableOk(st, u, s) && OnePlace(st, u, s) && LogExact(st, u, s)
  }

  lemma Basics(st: Streams, u: nat, s: State)
    requires Sound(st, u) && Inv(st, u, s)
    ensures u < |st| && |st[u]| > 0 && (s.first ==> s.threads == map[])
  {
  }

  lemma HoldsOver(st: Streams, u: nat, s: State)
    requires u < |st| && |st[u]| > 0 && Inv(st, u, s)
    ensures HoldOver(st, s)
  {
  }

  // ----- moving a record

  ghost predicate Still(st: Streams, u: nat, s: State, s': State) {
    && (forall r, p :: InPlace(st, u, s', r, p) <==> InPlace(st, u, s, r, p))
    && s'.queued == s.queued && s'.retired == s.retired && s'.freed == s.freed && s'.log == s.log
  }

  /** `r` goes from one place to another, and nothing else moves. */
  ghost predicate Moves(st: Streams, u: nat, s: State, s': State, r: Rec, from: Place, to: Place) {
    && InPlace(st, u, s, r, from)
    && (forall q, p :: InPlace(st, u, s', q, p) <==> if q == r then p == to else InPlace(st, u, s, q, p))
    && s'.queued == Moved(s.queued, r, from.Queued?, to.Queued?)
    && s'.retired == Moved(s.retired, r, from.Retired?, to.Retired?)
    && s'.freed == Moved(s.freed, r, from.Freed?, to.Freed?)
  }

  function Moved(m: multiset<Rec>, r: Rec, from: bool, to: bool): multiset<Rec> {
    var rest := if from then m - multiset{r} else m;
    if to then rest + multiset{r} else rest
  }

  lemma MovedOnce(m: multiset<Rec>, r: Rec, from: bool, to: bool)
    requires (forall q :: m[q] <= 1) && (from <==> r in m)
    ensures forall q :: Moved(m, r, from, to)[q] <= 1
  {
  }

  lemma MovesStaySingle(st: Streams, u: nat, s: State, s': State, r: Rec, from: Place, to: Place)
    requires OnePlace(st, u, s) && Moves(st, u, s, s', r, from, to)
    ensures forall q :: s'.queued[q] <= 1 && s'.retired[q] <= 1 && s'.freed[q] <= 1
  {
    assert from.Queued? <==> InPlace(st, u, s, r, Queued);
    assert from.Retired? <==> InPlace(st, u, s, r, Retired);
    assert from.Freed? <==> InPlace(st, u, s, r, Freed);
    MovedOnce(s.queued, r, from.Queued?, to.Queued?);
    MovedOnce(s.retired, r, from.Retired?, to.Retired?);
    MovedOnce(s.freed, r, from.Freed?, to.Freed?);
    hide OnePlace, Moved;
  }

  lemma MovesKeepsOnePlace(st: Streams, u: nat, s: State, s': State, r: Rec, from: Place, to: Place)
    requires OnePlace(st, u, s) && Moves(st, u, s, s', r, from, to)
    ensures OnePlace(st, u, s')
  {
    MovesStaySingle(st, u, s, s', r, from, to);
    hide InPlace, Moved;
    forall q | IsRecord(st, q)
      ensures exists p :: InPlace(st, u, s', q, p)
    {
      if q == r {
        assert InPlace(st, u, s', q, to);
      } else {
        var p :| InPlace(st, u, s, q, p);
        assert InPlace(st, u, s', q, p);
      }
    }
  }

  lemma MovesKeepsLog(st: Streams, u: nat, s: State, s': State, r: Rec, from: Place, to: Place)
    requires OnePlace(st, u, s) && LogExact(st, u, s) && Moves(st, u, s, s', r, from, to)
    requires s'.log == s.log && (IsDone(from) <==> IsDone(to))
    ensures LogExact(st, u, s')
  {
  }

  lemma StillKeeps(st: Streams, u: nat, s: State, s': State)
    requires OnePlace(st, u, s) && LogExact(st, u, s) && Still(st, u, s, s')
    ensures OnePlace(st, u, s') && LogExact(st, u, s')
  {
  }

  // ----- the steps of the reader

  /** What a batch never touches. */
  ghost predicate SparesThreads(s: State, s': State) {
    && s'.threads == s.threads && s'.running == s.running && s'.nThreads == s.nThreads && s'.log == s.log
    && s'.first == s.first && s'.retired == s.retired && s'.freed == s.freed
  }

  lemma BatchSpares(st: Streams, s: State)
    ensures SparesThreads(s, BatchStep(st, s))
  {
    hide Up;
    match s.reader
    case PushHeld(i, todo, b) => return;
    case IncHeld(i, todo, b) => return;
    case Loop(i, count, todo, b) => return;
    case PushNew(i, count, todo, b) => return;
    case IncNew(i, count, todo, b) => return;
    case SetFinished(i, todo, b) => return;
    case SetMax(i, todo, b) => return;
    case _ =>
  }

  lemma BatchSparesQueue(st: Streams, s: State)
    requires !s.reader.PushHeld? && !s.reader.PushNew?
    ensures BatchStep(st, s).queued == s.queued
    ensures !s.reader.Loop? ==> BatchStep(st, s).held == s.held && BatchStep(st, s).read == s.read
  {
    hide Up;
  }

  lemma WorkingFacts(st: Streams, s: State)
    requires HoldOver(st, s) && Working(s.reader).Some?
    ensures var i := Working(s.reader).value;
            && |s.read| == |s.held| == |s.finished| == |s.counter| == |st|
            && i < |st| && 1 <= s.read[i] <= |st[i]| && i !in Todo(s.reader) && Todo(s.reader) <= Upto(|st|)
            && WorkingOn(|st[i]|, s.reader, s.first, s.read[i], s.held[i], s.finished[i])
  {
  }

  /** A step of the reader changes at most the type it works on. */
  ghost predicate OneType(s: State, s': State, i: nat) {
    && i < |s.read| && |s'.read| == |s.read| == |s.held| == |s'.held| == |s.finished| == |s'.finished|
    && |s.counter| == |s'.counter| == |s.read|
    && forall j :: 0 <= j < |s.read| && j != i ==>
         && s'.read[j] == s.read[j] && s'.held[j] == s.held[j]
         && s'.finished[j] == s.finished[j] && s'.counter[j] == s.counter[j]
  }

  lemma OneTypeKeepsHoldOver(st: Streams, s: State, s': State, i: nat)
    requires HoldOver(st, s) && OneType(s, s', i) && s'.first == s.first && 1 <= s'.read[i] <= |st[i]|
    requires InBatch(s.reader) && InBatch(s'.reader) && s'.reader.b == s.reader.b
    requires Working(s.reader) == Some(i) || (s.reader.Pick? && i in s.reader.todo)
    requires Todo(s'.reader) == Todo(s.reader) - {i}
    requires if s'.reader.Pick? then AtRest(|st[i]|, false, s'.read[i], s'.held[i], s'.finished[i])
             else
               && Working(s'.reader) == Some(i)
               && WorkingOn(|st[i]|, s'.reader, s'.first, s'.read[i], s'.held[i], s'.finished[i])
    ensures HoldOver(st, s')
  {
    hide AtRest, WorkingOn;
  }

  lemma IdleKeepsHoldOver(st: Streams, s: State, s': State)
    requires HoldOver(st, s) && !s.first && !InBatch(s.reader) && s'.first == s.first
    requires s'.read == s.read && s'.held == s.held && s'.finished == s.finished && s'.counter == s.counter
    requires !InBatch(s'.reader) || (s'.reader.Pick? && s'.reader.todo == Upto(|st|) && s'.reader.b >= 2)
    ensures HoldOver(st, s')
  {
  }

  lemma WorkGoesOn(st: Streams, s: State)
    requires HoldOver(st, s) && Working(s.reader).Some?
    ensures var s', i := BatchStep(st, s), Working(s.reader).value;
            && OneType(s, s', i) && s'.first == s.first && i < |st| && 1 <= s'.read[i] <= |st[i]|
            && InBatch(s.reader) && InBatch(s'.reader) && s'.reader.b == s.reader.b
            && Todo(s'.reader) == Todo(s.reader) - {i}
            && (s'.reader.Pick? || Working(s'.reader) == Some(i))
  {
    WorkingFacts(st, s);
    hide HoldOver, Shape, Upto, Up, WorkingOn, AtRest;
  }

  lemma WorkStaysOk(st: Streams, s: State)
    requires HoldOver(st, s) && Working(s.reader).Some?
    ensures var s', i := BatchStep(st, s), Working(s.reader).value;
            && |s'.read| == |s'.held| == |s'.finished| == |st| && i < |st|
            && if s'.reader.Pick? then AtRest(|st[i]|, false, s'.read[i], s'.held[i], s'.finished[i])
               else WorkingOn(|st[i]|, s'.reader, s'.first, s'.read[i], s'.held[i], s'.finished[i])
  {
    WorkingFacts(st, s);
    assert s.reader.b >= 2;
    hide HoldOver, Shape, Upto, Up;
  }

  lemma WorkKeepsHoldOver(st: Streams, u: nat, s: State)
    requires u < |st| && |st[u]| > 0 && HoldOver(st, s) && Working(s.reader).Some?
    ensures HoldOver(st, ReaderStep(st, u, s))
  {
    hide HoldOver, BatchStep, RoundStep, WorkingOn, AtRest;
    WorkGoesOn(st, s);
    WorkStaysOk(st, s);
    OneTypeKeepsHoldOver(st, s, BatchStep(st, s), Working(s.reader).value);
  }

  lemma ReaderKeepsHoldOver(st: Streams, u: nat, s: State)
    requires u < |st| && |st[u]| > 0 && HoldOver(st, s) && s.nThreads >= 1
    ensures HoldOver(st, ReaderStep(st, u, s))
  {
    if Working(s.reader).Some? {
      WorkKeepsHoldOver(st, u, s);
    } else if !s.reader.Pick? {
      IdleKeepsHoldOver(st, s, ReaderStep(st, u, s));
    }
  }

  lemma PickKeepsHoldOver(st: Streams, s: State, i: nat)
    requires HoldOver(st, s)
    ensures HoldOver(st, PickStep(s, i))
  {
    var s' := PickStep(s, i);
    if s' != s {
      assert i < |st| && AtRest(|st[i]|, s.first, s.read[i], s.held[i], s.finished[i]);
      assert 1 <= s.read[i] <= |st[i]| && OneType(s, s', i) && s'.reader.b == s.reader.b;
      hide HoldOver, Shape;
      OneTypeKeepsHoldOver(st, s, s', i);
    }
  }

  /** Nothing moves in a step that changes no container. */
  lemma SamePlaces(st: Streams, u: nat, s: State, s': State)
    requires s'.read == s.read && s'.held == s.held && s'.queued == s.queued && s'.threads == s.threads
    requires s'.retired == s.retired && s'.freed == s.freed && s'.log == s.log
    ensures Still(st, u, s, s')
  {
  }

  /** The reader reads a record. */
  lemma ReadMoves(st: Streams, u: nat, s: State)
    requires Sound(st, u) && HoldOver(st, s) && OnePlace(st, u, s)
    requires s.reader.Loop? && s.reader.count > 1 && s.read[s.reader.i] < |st[s.reader.i]|
    ensures Moves(st, u, s, ReaderStep(st, u, s), st[s.reader.i][s.read[s.reader.i]], Unread, Held)
  {
    var i, n := s.reader.i, s.read[s.reader.i];
    var r, s' := st[i][n], ReaderStep(st, u, s);
    WorkingFacts(st, s);
    assert r.typ == i && r.pos == n;
    assert InPlace(st, u, s, r, Unread);
    forall p
      ensures InPlace(st, u, s, r, p) <==> p == Unread
    {
    }
    hide HoldOver, Shape, Sound, AtRest, OnePlace;
    forall q, p
      ensures InPlace(st, u, s', q, p) <==> if q == r then p == Held else InPlace(st, u, s, q, p)
    {
      assert q == r ==> (InPlace(st, u, s, q, p) <==> p == Unread);
    }
  }

  lemma PushPlace(st: Streams, u: nat, s: State, s': State, r: Rec, q: Rec, p: Place)
    requires |s.read| == |s.held| && IsRecord(st, r) && r.typ < |s.read| && s.held[r.typ] && s.read[r.typ] == r.pos + 1
    requires s' == s.(queued := s.queued + multiset{r}, held := s.held[r.typ := false], reader := s'.reader)
    requires InPlace(st, u, s, r, p) <==> p == Held
    ensures InPlace(st, u, s', q, p) <==> if q == r then p == Queued else InPlace(st, u, s, q, p)
  {
  }

  /** The reader pushes the record it read last. */
  lemma PushMoves(st: Streams, u: nat, s: State)
    requires Sound(st, u) && HoldOver(st, s) && OnePlace(st, u, s) && (s.reader.PushHeld? || s.reader.PushNew?)
    ensures Moves(st, u, s, ReaderStep(st, u, s), st[s.reader.i][s.read[s.reader.i] - 1], Held, Queued)
  {
    var i, n := s.reader.i, s.read[s.reader.i];
    var r, s' := st[i][n - 1], ReaderStep(st, u, s);
    WorkingFacts(st, s);
    assert r.typ == i && r.pos == n - 1;
    assert s' == s.(queued := s.queued + multiset{r}, held := s.held[i := false], reader := s'.reader);
    assert InPlace(st, u, s, r, Held);
    hide HoldOver, Shape, Sound, AtRest, WorkingOn, ReaderStep, BatchStep, RoundStep, Upto, InPlace;
    forall q, p
      ensures InPlace(st, u, s', q, p) <==> if q == r then p == Queued else InPlace(st, u, s, q, p)
    {
      assert InPlace(st, u, s, r, p) <==> p == Held;
      PushPlace(st, u, s, s', r, q, p);
    }
  }

  lemma StartThreadMoves(st: Streams, u: nat, s: State, s': State, t: Tid)
    requires t !in s.threads && s'.threads == s.threads[t := Thread(Pop, None)]
    requires s'.read == s.read && s'.held == s.held && s'.queued == s.queued
    requires s'.retired == s.retired && s'.freed == s.freed && s'.log == s.log
    ensures Still(st, u, s, s')
  {
  }

  lemma ReaderStays(st: Streams, u: nat, s: State)
    requires u < |st| && |st[u]| > 0 && HoldOver(st, s) && (s.first ==> s.threads == map[]) && !s.reader.PushHeld?
    requires !s.reader.PushNew?
    requires s.reader.Loop? ==> s.reader.count <= 1 || s.read[s.reader.i] >= |st[s.reader.i]|
    ensures Still(st, u, s, ReaderStep(st, u, s))
  {
    if Working(s.reader).Some? {
      WorkingFacts(st, s);
      BatchSpares(st, s);
      BatchSparesQueue(st, s);
      assert s.reader.Loop? ==> BatchStep(st, s).read == s.read && BatchStep(st, s).held == s.held;
      hide Still, HoldOver, BatchStep, RoundStep;
      SamePlaces(st, u, s, BatchStep(st, s));
    } else {
      hide Still, HoldOver, BatchStep, Upto, Min;
      if s.reader.Pick? && s.reader.todo == {} && s.first {
        StartThreadMoves(st, u, s, RoundStep(st, u, s), st[u][0].pid);
      } else {
        SamePlaces(st, u, s, RoundStep(st, u, s));
      }
    }
  }

  lemma ReaderKeeps(st: Streams, u: nat, s: State)
    requires Sound(st, u) && Inv(st, u, s)
    ensures OnePlace(st, u, ReaderStep(st, u, s)) && LogExact(st, u, ReaderStep(st, u, s))
  {
    var s' := ReaderStep(st, u, s);
    if s.reader.Loop? && s.reader.count > 1 && s.read[s.reader.i] < |st[s.reader.i]| {
      var r := st[s.reader.i][s.read[s.reader.i]];
      ReadMoves(st, u, s);
      assert s'.log == s.log;
      MovesKeepsOnePlace(st, u, s, s', r, Unread, Held);
      MovesKeepsLog(st, u, s, s', r, Unread, Held);
    } else if s.reader.PushHeld? || s.reader.PushNew? {
      var r := st[s.reader.i][s.read[s.reader.i] - 1];
      PushMoves(st, u, s);
      assert s'.log == s.log;
      MovesKeepsOnePlace(st, u, s, s', r, Held, Queued);
      MovesKeepsLog(st, u, s, s', r, Held, Queued);
    } else {
      ReaderStays(st, u, s);
      StillKeeps(st, u, s, s');
    }
  }

  // ----- the steps of the executors

  lemma OtherKeepsHoldOver(st: Streams, s: State, s': State)
    requires HoldOver(st, s) && !s.first && s'.first == s.first && s'.reader == s.reader
    requires s'.read == s.read && s'.held == s.held && s'.finished == s.finished && |s'.counter| == |s.counter|
    ensures HoldOver(st, s')
  {
  }

  /** A thread moves on without moving a record. */
  lemma ThreadStays(st: Streams, u: nat, s: State, s': State, t: Tid, th: Thread)
    requires t in s.threads && s'.threads == s.threads[t := th]
    requires InHand(th.pc) == InHand(s.threads[t].pc) && JustExecuted(th.pc) == JustExecuted(s.threads[t].pc)
    requires th.prev == s.threads[t].prev
    requires s'.read == s.read && s'.held == s.held && s'.queued == s.queued
    requires s'.retired == s.retired && s'.freed == s.freed && s'.log == s.log
    ensures Still(st, u, s, s')
  {
  }

  predicate InThread(t: Tid, th: Thread, r: Rec, p: Place) {
    match p
    case Taken(x) => x == t && InHand(th.pc) == Some(r)
    case Ended(x) => x == t && JustExecuted(th.pc) == Some(r)
    case Previous(x) => x == t && th.prev == Some(r)
    case _ => false
  }

  predicate AroundThread(t: Tid, p: Place) {
    p == Taken(t) || p == Ended(t) || p == Previous(t) || p.Queued? || p.Retired?
  }

  lemma ThreadPlaceMoves(st: Streams, u: nat, s: State, s': State, t: Tid, th: Thread, r: Rec, from: Place, to: Place,
                         q: Rec, p: Place)
    requires t in s.threads && s'.threads == s.threads[t := th]
    requires s'.read == s.read && s'.held == s.held && s'.freed == s.freed
    requires InPlace(st, u, s, r, p) <==> p == from
    requires from != to && AroundThread(t, from) && AroundThread(t, to)
    requires s'.queued == Moved(s.queued, r, from.Queued?, to.Queued?)
    requires s'.retired == Moved(s.retired, r, from.Retired?, to.Retired?)
    requires from.Queued? ==> s.queued[r] == 1
    requires from.Retired? ==> s.retired[r] == 1
    requires p == Taken(t) || p == Ended(t) || p == Previous(t) ==>
               (InThread(t, th, q, p) <==> if q == r then p == to else InThread(t, s.threads[t], q, p))
    ensures InPlace(st, u, s', q, p) <==> if q == r then p == to else InPlace(st, u, s, q, p)
  {
    hide InHand, JustExecuted, IsRecord;
    match p
    case Taken(x) => return;
    case Ended(x) => return;
    case Previous(x) => return;
    case Queued => return;
    case Retired => return;
    case _ => return;
  }

  /** A thread moves one record, within itself or to or from a shared container. */
  lemma ThreadMoves(st: Streams, u: nat, s: State, s': State, t: Tid, th: Thread, r: Rec, from: Place, to: Place)
    requires OnePlace(st, u, s) && t in s.threads && s'.threads == s.threads[t := th]
    requires s'.read == s.read && s'.held == s.held && s'.freed == s.freed
    requires InPlace(st, u, s, r, from) && from != to && AroundThread(t, from) && AroundThread(t, to)
    requires s'.queued == Moved(s.queued, r, from.Queued?, to.Queued?)
    requires s'.retired == Moved(s.retired, r, from.Retired?, to.Retired?)
    requires forall q, p :: p == Taken(t) || p == Ended(t) || p == Previous(t) ==>
               (InThread(t, th, q, p) <==> if q == r then p == to else InThread(t, s.threads[t], q, p))
    ensures Moves(st, u, s, s', r, from, to)
  {
    assert from.Queued? ==> s.queued[r] == 1;
    assert from.Retired? ==> s.retired[r] == 1;
    hide InPlace, Moved, InThread, AroundThread;
    forall q, p
      ensures InPlace(st, u, s', q, p) <==> if q == r then p == to else InPlace(st, u, s, q, p)
    {
      assert InPlace(st, u, s, r, p) <==> p == from;
      assert p == Taken(t) || p == Ended(t) || p == Previous(t) ==>
          (InThread(t, th, q, p) <==> if q == r then p == to else InThread(t, s.threads[t], q, p));
      ThreadPlaceMoves(st, u, s, s', t, th, r, from, to, q, p);
    }
    assert s'.freed == Moved(s.freed, r, false, false) by { MovedNowhere(s.freed, r); }
  }

  lemma MovedNowhere(m: multiset<Rec>, r: Rec)
    ensures Moved(m, r, false, false) == m
  {
  }

  /** Steps of a thread that leave its record where it is. */
  predicate Stays(th: Thread) {
    !th.pc.Requeue? && !th.pc.Execute? && !th.pc.WriteLast? && (th.pc.Retire? ==> th.prev.None?)
  }

  lemma WaitStays(st: Streams, u: nat, s: State, t: Tid)
    requires t in s.threads
    ensures Still(st, u, s, WaitStep(s, t))
  {
    hide Still, Min, Down;
    assert s.threads[t := s.threads[t]] == s.threads;
    ThreadStays(st, u, s, WaitStep(s, t), t, WaitStep(s, t).threads[t]);
  }

  lemma CheckStays(st: Streams, u: nat, s: State, t: Tid)
    requires t in s.threads && Stays(s.threads[t])
    ensures Still(st, u, s, CheckStep(s, t))
  {
    hide Still, Accepted;
    assert s.threads[t := s.threads[t]] == s.threads;
    ThreadStays(st, u, s, CheckStep(s, t), t, CheckStep(s, t).threads[t]);
  }

  lemma UndoStays(st: Streams, u: nat, s: State, t: Tid)
    requires t in s.threads && Stays(s.threads[t])
    ensures Still(st, u, s, UndoStep(s, t))
  {
    hide Still, Up;
    assert s.threads[t := s.threads[t]] == s.threads;
    ThreadStays(st, u, s, UndoStep(s, t), t, UndoStep(s, t).threads[t]);
  }

  lemma EndStays(st: Streams, u: nat, s: State, t: Tid)
    requires t in s.threads && Stays(s.threads[t])
    ensures Still(st, u, s, EndStep(s, t))
  {
    hide Still;
    assert s.threads[t := s.threads[t]] == s.threads;
    ThreadStays(st, u, s, EndStep(s, t), t, EndStep(s, t).threads[t]);
  }

  lemma ThreadStepStays(st: Streams, u: nat, s: State, t: Tid)
    requires t in s.threads && Stays(s.threads[t])
    ensures Still(st, u, s, ThreadStep(s, t))
  {
    hide Still, WaitStep, CheckStep, UndoStep, EndStep;
    WaitStays(st, u, s, t);
    CheckStays(st, u, s, t);
    UndoStays(st, u, s, t);
    EndStays(st, u, s, t);
  }

  lemma MovingKeeps(st: Streams, u: nat, s: State, s': State, r: Rec, from: Place, to: Place)
    requires OnePlace(st, u, s) && LogExact(st, u, s) && Moves(st, u, s, s', r, from, to)
    requires s'.log == s.log && (IsDone(from) <==> IsDone(to))
    ensures OnePlace(st, u, s') && LogExact(st, u, s')
  {
    MovesKeepsOnePlace(st, u, s, s', r, from, to);
    MovesKeepsLog(st, u, s, s', r, from, to);
  }

  lemma TakeKeeps(st: Streams, u: nat, s: State, t: Tid, r: Rec)
    requires OnePlace(st, u, s) && LogExact(st, u, s)
    ensures OnePlace(st, u, TakeStep(s, t, r)) && LogExact(st, u, TakeStep(s, t, r))
  {
    var s' := TakeStep(s, t, r);
    if t in s.threads && s.threads[t].pc.Pop? && IsLeast(s.queued, t, r) {
      assert InPlace(st, u, s, r, Queued) && !InPlace(st, u, s, r, Previous(t));
      hide OnePlace, LogExact, Moves;
      ThreadMoves(st, u, s, s', t, s'.threads[t], r, Queued, Taken(t));
      MovingKeeps(st, u, s, s', r, Queued, Taken(t));
    }
  }

  lemma MissKeeps(st: Streams, u: nat, s: State, t: Tid)
    requires OnePlace(st, u, s) && LogExact(st, u, s)
    ensures OnePlace(st, u, MissStep(s, t)) && LogExact(st, u, MissStep(s, t))
  {
    var s' := MissStep(s, t);
    if s' != s {
      hide OnePlace, LogExact, Still;
      ThreadStays(st, u, s, s', t, s'.threads[t]);
      StillKeeps(st, u, s, s');
    }
  }

  lemma FreeMoves(st: Streams, u: nat, s: State, r: Rec)
    requires OnePlace(st, u, s) && s.reader.Drain? && r in s.retired
    ensures Moves(st, u, s, FreeStep(s, r), r, Retired, Freed)
  {
    var s' := FreeStep(s, r);
    assert InPlace(st, u, s, r, Retired);
    forall q, p
      ensures InPlace(st, u, s', q, p) <==> if q == r then p == Freed else InPlace(st, u, s, q, p)
    {
      assert q == r ==> (InPlace(st, u, s, q, p) <==> p == Retired);
    }
  }

  lemma FreeKeeps(st: Streams, u: nat, s: State, r: Rec)
    requires OnePlace(st, u, s) && LogExact(st, u, s)
    ensures OnePlace(st, u, FreeStep(s, r)) && LogExact(st, u, FreeStep(s, r))
  {
    if s.reader.Drain? && r in s.retired {
      FreeMoves(st, u, s, r);
      hide OnePlace, LogExact, Moves;
      MovingKeeps(st, u, s, FreeStep(s, r), r, Retired, Freed);
    }
  }

  lemma RetireKeeps(st: Streams, u: nat, s: State, t: Tid)
    requires OnePlace(st, u, s) && LogExact(st, u, s) && t in s.threads && s.threads[t].pc.Retire?
    requires s.threads[t].prev.Some?
    ensures OnePlace(st, u, ThreadStep(s, t)) && LogExact(st, u, ThreadStep(s, t))
  {
    var r, s' := s.threads[t].prev.value, ThreadStep(s, t);
    assert InPlace(st, u, s, r, Previous(t)) && !InPlace(st, u, s, r, Taken(t));
    hide OnePlace, LogExact, Moves;
    ThreadMoves(st, u, s, s', t, s'.threads[t], r, Previous(t), Retired);
    MovingKeeps(st, u, s, s', r, Previous(t), Retired);
  }

  lemma RequeueKeeps(st: Streams, u: nat, s: State, t: Tid)
    requires OnePlace(st, u, s) && LogExact(st, u, s) && t in s.threads && s.threads[t].pc.Requeue?
    ensures OnePlace(st, u, ThreadStep(s, t)) && LogExact(st, u, ThreadStep(s, t))
  {
    var r, s' := s.threads[t].pc.r, ThreadStep(s, t);
    assert InPlace(st, u, s, r, Taken(t)) && !InPlace(st, u, s, r, Previous(t));
    hide OnePlace, LogExact, Moves;
    ThreadMoves(st, u, s, s', t, s'.threads[t], r, Taken(t), Queued);
    MovingKeeps(st, u, s, s', r, Taken(t), Queued);
  }

  lemma WriteKeeps(st: Streams, u: nat, s: State, t: Tid)
    requires OnePlace(st, u, s) && LogExact(st, u, s) && t in s.threads && s.threads[t].pc.WriteLast?
    requires s.threads[t].prev.None?
    ensures OnePlace(st, u, ThreadStep(s, t)) && LogExact(st, u, ThreadStep(s, t))
  {
    var r, s' := s.threads[t].pc.r, ThreadStep(s, t);
    assert InPlace(st, u, s, r, Ended(t));
    hide OnePlace, LogExact, Moves;
    ThreadMoves(st, u, s, s', t, s'.threads[t], r, Ended(t), Previous(t));
    MovingKeeps(st, u, s, s', r, Ended(t), Previous(t));
  }

  // ----- execution

  lemma ExecutingKeepsLog(st: Streams, u: nat, s: State, s': State, r: Rec, seen: set<Tid>, from: Place, to: Place)
    requires OnePlace(st, u, s) && LogExact(st, u, s) && Moves(st, u, s, s', r, from, to)
    requires s'.log == s.log + [Executed(r, seen)] && !IsDone(from) && IsDone(to)
    ensures LogExact(st, u, s')
  {
    forall q
      ensures InLog(s'.log, q) <==> InLog(s.log, q) || q == r
    {
      if InLog(s.log, q) {
        var k :| 0 <= k < |s.log| && s.log[k].r == q;
        assert s'.log[k].r == q;
      }
      assert s'.log[|s.log|].r == r;
    }
    assert !InLog(s.log, r);
    hide InLog;
    forall q, p | InPlace(st, u, s', q, p)
      ensures InLog(s'.log, q) <==> IsDone(p)
    {
    }
  }

  /** The first half of an execution: the record and the log. */
  function Recorded(s: State, t: Tid, r: Rec, seen: set<Tid>): State
    requires t in s.threads
  {
    At(s.(log := s.log + [Executed(r, seen)]), t, ReadLast(r))
  }

  lemma RecordedKeeps(st: Streams, u: nat, s: State, t: Tid)
    requires OnePlace(st, u, s) && LogExact(st, u, s) && t in s.threads && s.threads[t].pc.Execute?
    ensures var s' := Recorded(s, t, s.threads[t].pc.r, s.threads[t].pc.seen);
            OnePlace(st, u, s') && LogExact(st, u, s')
    ensures !InLog(s.log, s.threads[t].pc.r) && IsRecord(st, s.threads[t].pc.r)
  {
    var Execute(r, seen) := s.threads[t].pc;
    var s' := Recorded(s, t, r, seen);
    assert InPlace(st, u, s, r, Taken(t)) && !InPlace(st, u, s, r, Previous(t));
    assert !InLog(s.log, r) && IsRecord(st, r);
    hide OnePlace, LogExact, Moves, InLog;
    ThreadMoves(st, u, s, s', t, s'.threads[t], r, Taken(t), Ended(t));
    MovesKeepsOnePlace(st, u, s, s', r, Taken(t), Ended(t));
    ExecutingKeepsLog(st, u, s, s', r, seen, Taken(t), Ended(t));
  }

  /** A child that a record creates has no thread before that record is executed. */
  lemma ChildIsNew(st: Streams, u: nat, s: State, r: Rec)
    requires Sound(st, u) && TableOk(st, u, s) && LogExact(st, u, s) && IsRecord(st, r) && !InLog(s.log, r)
    requires r.child.Some?
    ensures r.child.value !in s.threads
  {
    if r.child.value in s.threads {
      var k :| 0 <= k < |s.log| && s.log[k].r.child == r.child;
      assert InLog(s.log, s.log[k].r);
      assert false;
    }
  }

  lemma ExecuteKeeps(st: Streams, u: nat, s: State, t: Tid)
    requires Sound(st, u) && TableOk(st, u, s) && OnePlace(st, u, s) && LogExact(st, u, s)
    requires t in s.threads && s.threads[t].pc.Execute?
    ensures OnePlace(st, u, ThreadStep(s, t)) && LogExact(st, u, ThreadStep(s, t))
  {
    var Execute(r, seen) := s.threads[t].pc;
    var s1, s' := Recorded(s, t, r, seen), ThreadStep(s, t);
    RecordedKeeps(st, u, s, t);
    if r.child.Some? {
      ChildIsNew(st, u, s, r);
      hide OnePlace, LogExact, Still, TableOk, Sound;
      StartThreadMoves(st, u, s1, s', r.child.value);
      StillKeeps(st, u, s1, s');
    }
  }

  // ----- the running table, step by step

  /** Only thread `t` and what it shows change. */
  lemma OneThreadKeepsTable(st: Streams, u: nat, s: State, s': State, t: Tid, th: Thread)
    requires u < |st| && |st[u]| > 0 && TableOk(st, u, s) && t in s.threads
    requires s'.threads == s.threads[t := th] && s'.nThreads == s.nThreads && s'.first == s.first && s.log <= s'.log
    requires forall p :: p != t ==>
        (p in s'.running <==> p in s.running) && (p in s.running ==> s'.running[p] == s.running[p])
    requires Shows(st, u, t, th, s'.running) && OwnRecords(t, th)
    ensures TableOk(st, u, s')
  {
    assert s.threads != map[] && !s.first;
    forall p | p in s'.threads
      ensures Shows(st, u, p, s'.threads[p], s'.running)
    {
      assert Shows(st, u, p, s.threads[p], s.running);
    }
    hide Shows, OwnRecords;
    forall p | p in s'.threads && p != st[u][0].pid
      ensures exists k :: 0 <= k < |s'.log| && s'.log[k].r.child == Some(p)
    {
      var k :| 0 <= k < |s.log| && s.log[k].r.child == Some(p);
      assert s'.log[k] == s.log[k];
    }
  }

  lemma ChildKeepsTable(st: Streams, u: nat, s: State, s': State, child: Tid)
    requires u < |st| && |st[u]| > 0 && TableOk(st, u, s) && child !in s.threads && s.threads != map[]
    requires s' == s.(nThreads := s.nThreads + 1, running := s.running[child := None],
                      threads := s.threads[child := Thread(Pop, None)])
    requires exists k :: 0 <= k < |s.log| && s.log[k].r.child == Some(child)
    ensures TableOk(st, u, s')
  {
    forall p | p in s.threads
      ensures Shows(st, u, p, s.threads[p], s'.running)
    {
      assert Shows(st, u, p, s.threads[p], s.running);
    }
  }

  /** What a thread shows after its step, and what the step leaves alone. */
  ghost predicate ShowsOn(st: Streams, u: nat, s: State, s': State, t: Tid) {
    && t in s.threads && t in s'.threads
    && s'.threads == s.threads[t := s'.threads[t]] && s'.nThreads == s.nThreads && s'.first == s.first
    && s'.log == s.log
    && (forall p :: p != t ==>
          (p in s'.running <==> p in s.running) && (p in s.running ==> s'.running[p] == s.running[p]))
    && Shows(st, u, t, s'.threads[t], s'.running) && OwnRecords(t, s'.threads[t])
  }

  lemma WaitShows(st: Streams, u: nat, s: State, t: Tid)
    requires t in s.threads && Shows(st, u, t, s.threads[t], s.running) && OwnRecords(t, s.threads[t])
    ensures ShowsOn(st, u, s, WaitStep(s, t), t)
  {
    hide Min, Down, IsRecord;
    assert s.threads[t := s.threads[t]] == s.threads;
  }

  lemma PublishShows(st: Streams, u: nat, s: State, t: Tid)
    requires t in s.threads && Shows(st, u, t, s.threads[t], s.running) && OwnRecords(t, s.threads[t])
    requires s.threads[t].pc.Publish?
    ensures ShowsOn(st, u, s, CheckStep(s, t), t)
  {
    hide IsRecord;
  }

  lemma CheckShows(st: Streams, u: nat, s: State, t: Tid)
    requires t in s.threads && Shows(st, u, t, s.threads[t], s.running) && OwnRecords(t, s.threads[t])
    ensures ShowsOn(st, u, s, CheckStep(s, t), t)
  {
    if s.threads[t].pc.Publish? {
      PublishShows(st, u, s, t);
    } else {
      hide Accepted, IsRecord;
      assert s.threads[t := s.threads[t]] == s.threads;
      assert CheckStep(s, t).running == s.running;
    }
  }

  lemma UndoShows(st: Streams, u: nat, s: State, t: Tid)
    requires t in s.threads && Shows(st, u, t, s.threads[t], s.running) && OwnRecords(t, s.threads[t])
    ensures ShowsOn(st, u, s, UndoStep(s, t), t)
  {
    hide Up, IsRecord;
    assert s.threads[t := s.threads[t]] == s.threads;
  }

  lemma EndShows(st: Streams, u: nat, s: State, t: Tid)
    requires t in s.threads && Shows(st, u, t, s.threads[t], s.running) && OwnRecords(t, s.threads[t])
    ensures ShowsOn(st, u, s, EndStep(s, t), t)
  {
    hide IsRecord;
    assert s.threads[t := s.threads[t]] == s.threads;
  }

  lemma ThreadStepKeepsTable(st: Streams, u: nat, s: State, t: Tid)
    requires u < |st| && |st[u]| > 0 && TableOk(st, u, s) && t in s.threads && !s.threads[t].pc.Execute?
    ensures TableOk(st, u, ThreadStep(s, t))
  {
    var s' := ThreadStep(s, t);
    assert Shows(st, u, t, s.threads[t], s.running) && OwnRecords(t, s.threads[t]);
    hide TableOk, WaitStep, CheckStep, UndoStep, EndStep;
    WaitShows(st, u, s, t);
    CheckShows(st, u, s, t);
    UndoShows(st, u, s, t);
    EndShows(st, u, s, t);
    hide Shows, OwnRecords;
    OneThreadKeepsTable(st, u, s, s', t, s'.threads[t]);
  }

  lemma ExecuteKeepsTable(st: Streams, u: nat, s: State, t: Tid)
    requires Sound(st, u) && TableOk(st, u, s) && OnePlace(st, u, s) && LogExact(st, u, s)
    requires t in s.threads && s.threads[t].pc.Execute?
    ensures TableOk(st, u, ThreadStep(s, t))
  {
    var Execute(r, seen) := s.threads[t].pc;
    var s1, s' := Recorded(s, t, r, seen), ThreadStep(s, t);
    assert Shows(st, u, t, s.threads[t], s.running) && OwnRecords(t, s.threads[t]);
    RecordedKeeps(st, u, s, t);
    hide InPlace, OnePlace, InLog, IsRecord, WaitStep, CheckStep, UndoStep, EndStep;
    OneThreadKeepsTable(st, u, s, s1, t, s1.threads[t]);
    if r.child.Some? {
      ChildIsNew(st, u, s, r);
      assert s1.log[|s.log|].r.child == Some(r.child.value);
      hide OnePlace, LogExact, TableOk, Sound;
      ChildKeepsTable(st, u, s1, s', r.child.value);
    }
  }

  lemma TakeKeepsTable(st: Streams, u: nat, s: State, t: Tid, r: Rec)
    requires u < |st| && |st[u]| > 0 && TableOk(st, u, s)
    ensures TableOk(st, u, TakeStep(s, t, r)) && TableOk(st, u, MissStep(s, t))
  {
    if t in s.threads {
      assert Shows(st, u, t, s.threads[t], s.running) && OwnRecords(t, s.threads[t]);
      hide TableOk;
      if TakeStep(s, t, r) != s {
        OneThreadKeepsTable(st, u, s, TakeStep(s, t, r), t, s.threads[t].(pc := Decrement(r)));
      }
      if MissStep(s, t) != s {
        OneThreadKeepsTable(st, u, s, MissStep(s, t), t, s.threads[t].(pc := Leave));
      }
    }
  }

  /** The table depends on nothing that the reader changes once the threads have started. */
  lemma SameThreadsKeepTable(st: Streams, u: nat, s: State, s': State)
    requires u < |st| && |st[u]| > 0 && TableOk(st, u, s)
    requires s'.threads == s.threads && s'.running == s.running && s'.nThreads == s.nThreads && s'.log == s.log
    requires s'.first == s.first
    ensures TableOk(st, u, s')
  {
    hide Shows, OwnRecords;
  }

  lemma BatchKeepsTable(st: Streams, u: nat, s: State)
    requires u < |st| && |st[u]| > 0 && TableOk(st, u, s)
    ensures TableOk(st, u, BatchStep(st, s))
  {
    hide TableOk, BatchStep;
    BatchSpares(st, s);
    SameThreadsKeepTable(st, u, s, BatchStep(st, s));
  }

  lemma StartKeepsTable(st: Streams, u: nat, s: State, s': State)
    requires u < |st| && |st[u]| > 0 && IsRecord(st, st[u][0]) && st[u][0].typ == u && st[u][0].pos == 0
    requires TableOk(st, u, s) && s.first
    requires s' == s.(first := false, reader := s'.reader, threads := s.threads[st[u][0].pid := Thread(Pop, None)])
    ensures TableOk(st, u, s')
  {
  }

  lemma ReaderKeepsTable(st: Streams, u: nat, s: State)
    requires u < |st| && |st[u]| > 0 && IsRecord(st, st[u][0]) && st[u][0].typ == u && st[u][0].pos == 0
    requires TableOk(st, u, s)
    ensures TableOk(st, u, ReaderStep(st, u, s))
  {
    BatchKeepsTable(st, u, s);
    var s' := RoundStep(st, u, s);
    hide TableOk, BatchStep, Min, Upto;
    if s.reader.Pick? && s.reader.todo == {} && s.first {
      StartKeepsTable(st, u, s, s');
    } else {
      SameThreadsKeepTable(st, u, s, s');
    }
  }

  // ----- every step, every run

  lemma ThreadStepKeepsPlaces(st: Streams, u: nat, s: State, t: Tid)
    requires OnePlace(st, u, s) && LogExact(st, u, s) && t in s.threads && !s.threads[t].pc.Execute?
    requires s.threads[t].pc.WriteLast? ==> s.threads[t].prev.None?
    ensures OnePlace(st, u, ThreadStep(s, t)) && LogExact(st, u, ThreadStep(s, t))
  {
    hide OnePlace, LogExact, ThreadStep, Still;
    if Stays(s.threads[t]) {
      ThreadStepStays(st, u, s, t);
      StillKeeps(st, u, s, ThreadStep(s, t));
    } else if s.threads[t].pc.Retire? {
      RetireKeeps(st, u, s, t);
    } else if s.threads[t].pc.Requeue? {
      RequeueKeeps(st, u, s, t);
    } else {
      WriteKeeps(st, u, s, t);
    }
  }

  /** What no step of a thread changes. */
  ghost predicate SparesReader(s: State, s': State) {
    && s'.first == s.first && s'.reader == s.reader && s'.read == s.read && s'.held == s.held
    && s'.finished == s.finished && |s'.counter| == |s.counter| && s'.freed == s.freed
  }

  lemma StagesSpare(s: State, t: Tid)
    requires t in s.threads
    ensures SparesReader(s, WaitStep(s, t)) && SparesReader(s, EndStep(s, t))
  {
    hide Min, Down;
  }

  lemma ChecksSpare(s: State, t: Tid)
    requires t in s.threads
    ensures SparesReader(s, CheckStep(s, t)) && SparesReader(s, UndoStep(s, t))
  {
    hide Accepted, Up;
  }

  lemma ThreadStepSpares(s: State, t: Tid)
    ensures SparesReader(s, ThreadStep(s, t))
  {
    if t in s.threads {
      hide SparesReader, WaitStep, CheckStep, UndoStep, EndStep, ExecuteStep;
      StagesSpare(s, t);
      ChecksSpare(s, t);
      ExecuteSpares(s, t);
    }
  }

  lemma ExecuteSpares(s: State, t: Tid)
    requires t in s.threads
    ensures s.threads[t].pc.Execute? ==> SparesReader(s, ExecuteStep(s, t, s.threads[t].pc.r, s.threads[t].pc.seen))
  {
  }

  lemma ThreadStepKeeps(st: Streams, u: nat, s: State, t: Tid)
    requires Sound(st, u) && Inv(st, u, s) && t in s.threads
    ensures Inv(st, u, ThreadStep(s, t))
  {
    var s' := ThreadStep(s, t);
    assert Shows(st, u, t, s.threads[t], s.running) && !s.first;
    hide Sound, HoldOver, TableOk, OnePlace, LogExact, ThreadStep;
    ThreadStepSpares(s, t);
    OtherKeepsHoldOver(st, s, s');
    if s.threads[t].pc.Execute? {
      ExecuteKeeps(st, u, s, t);
      ExecuteKeepsTable(st, u, s, t);
    } else {
      ThreadStepKeepsTable(st, u, s, t);
      ThreadStepKeepsPlaces(st, u, s, t);
    }
  }

  lemma ReadsKeeps(st: Streams, u: nat, s: State)
    requires Sound(st, u) && Inv(st, u, s)
    ensures Inv(st, u, ReaderStep(st, u, s))
  {
    assert IsRecord(st, st[u][0]) && st[u][0].typ == u && st[u][0].pos == 0;
    hide Sound, HoldOver, TableOk, OnePlace, LogExact, ReaderStep;
    assert s.nThreads >= 1 by { ThreadsExist(st, u, s); }
    ReaderKeepsHoldOver(st, u, s);
    ReaderKeepsTable(st, u, s);
    ReaderKeeps(st, u, s);
  }

  lemma ThreadsExist(st: Streams, u: nat, s: State)
    requires u < |st| && |st[u]| > 0 && TableOk(st, u, s)
    ensures s.nThreads >= 1 && (s.first ==> s.threads == map[])
  {
  }

  lemma TakesKeeps(st: Streams, u: nat, s: State, t: Tid, r: Rec)
    requires Sound(st, u) && Inv(st, u, s)
    ensures Inv(st, u, TakeStep(s, t, r)) && Inv(st, u, MissStep(s, t))
  {
    ThreadsExist(st, u, s);
    hide Sound, HoldOver, TableOk, OnePlace, LogExact;
    TakeKeeps(st, u, s, t, r);
    MissKeeps(st, u, s, t);
    TakeKeepsTable(st, u, s, t, r);
    if t in s.threads {
      OtherKeepsHoldOver(st, s, TakeStep(s, t, r));
      OtherKeepsHoldOver(st, s, MissStep(s, t));
    }
  }

  lemma PicksKeeps(st: Streams, u: nat, s: State, i: nat)
    requires Sound(st, u) && Inv(st, u, s)
    ensures Inv(st, u, PickStep(s, i))
  {
    hide HoldOver, TableOk, OnePlace, LogExact, Still, IsRecord;
    PickKeepsHoldOver(st, s, i);
    SameThreadsKeepTable(st, u, s, PickStep(s, i));
    SamePlaces(st, u, s, PickStep(s, i));
    hide PickStep;
    StillKeeps(st, u, s, PickStep(s, i));
  }

  lemma DrainIsLater(st: Streams, s: State)
    requires HoldOver(st, s) && s.reader.Drain?
    ensures !s.first
  {
  }

  lemma FreesKeeps(st: Streams, u: nat, s: State, r: Rec)
    requires Sound(st, u) && Inv(st, u, s)
    ensures Inv(st, u, FreeStep(s, r))
  {
    hide TableOk, OnePlace, LogExact, HoldOver, Shape, AtRest, WorkingOn, Upto;
    FreeKeeps(st, u, s, r);
    SameThreadsKeepTable(st, u, s, FreeStep(s, r));
    if s.reader.Drain? {
      DrainIsLater(st, s);
      OtherKeepsHoldOver(st, s, FreeStep(s, r));
    }
  }

  lemma FireKeeps(st: Streams, u: nat, s: State, l: Label)
    requires Sound(st, u) && Inv(st, u, s)
    ensures Inv(st, u, Fire(st, u, s, l))
  {
    hide Inv, ReaderStep, PickStep, FreeStep, TakeStep, MissStep;
    match l
    case Reads => ReadsKeeps(st, u, s);
    case PickType(i) => PicksKeeps(st, u, s, i);
    case Free(r) => FreesKeeps(st, u, s, r);
    case Take(t, r) => TakesKeeps(st, u, s, t, r);
    case Miss(t) => TakesKeeps(st, u, s, t, st[u][0]);
    case Runs(t) =>
      if t in s.threads {
        ThreadStepKeeps(st, u, s, t);
      }
  }

  /** The records that start out in the heaps. */
  lemma StartQueue(st: Streams, u: nat, r: Rec)
    requires Sound(st, u)
    ensures Start(st, u).queued[r] == if IsRecord(st, r) && r.pos == 0 && r.typ != u then 1 else 0
  {
  }

  lemma StartPlace(st: Streams, u: nat, r: Rec, p: Place)
    requires Sound(st, u)
    ensures InPlace(st, u, Start(st, u), r, p) <==>
            IsRecord(st, r) && p == if r.pos > 0 then Unread else if r.typ == u then Primed else Queued
  {
    StartQueue(st, u, r);
    hide Sound, Upto;
  }

  lemma StartPlaces(st: Streams, u: nat)
    requires Sound(st, u)
    ensures OnePlace(st, u, Start(st, u)) && LogExact(st, u, Start(st, u))
  {
    var s := Start(st, u);
    forall r, p
      ensures s.queued[r] <= 1
      ensures InPlace(st, u, s, r, p) <==>
              IsRecord(st, r) && p == if r.pos > 0 then Unread else if r.typ == u then Primed else Queued
    {
      StartQueue(st, u, r);
      StartPlace(st, u, r, p);
    }
    assert IsRecord(st, st[u][0]) && st[u][0].typ == u && st[u][0].pos == 0;
    assert s.log == [Executed(st[u][0], {})] && s.retired == multiset{} && s.freed == multiset{};
    hide Sound, Start, InPlace;
    forall r | IsRecord(st, r)
      ensures exists p :: InPlace(st, u, s, r, p)
    {
      assert InPlace(st, u, s, r, if r.pos > 0 then Unread else if r.typ == u then Primed else Queued);
    }
    assert s.log[0].r == st[u][0];
  }

  lemma StartHolds(st: Streams, u: nat)
    requires Sound(st, u)
    ensures Inv(st, u, Start(st, u))
  {
    StartPlaces(st, u);
    hide OnePlace, LogExact;
  }

  /** The invariant holds in every interleaving. */
  lemma {:induction false} RunKeeps(st: Streams, u: nat, s: State, labels: seq<Label>)
    requires Sound(st, u) && Inv(st, u, s)
    ensures Inv(st, u, Run(st, u, s, labels))
    decreases |labels|
  {
    if labels != [] {
      FireKeeps(st, u, s, labels[0]);
      RunKeeps(st, u, Fire(st, u, s, labels[0]), labels[1..]);
    }
  }
}
