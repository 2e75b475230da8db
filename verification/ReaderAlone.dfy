/** The reader by itself: from wherever it is, its own steps finish the batch under way, complete a round and
    empty the deletion queue.
  */
module ReaderAlone {
  import opened Collections
  import opened Traces
  import opened Scheduler
  import opened Places
  import opened Waits

  // ----- runs of the reader

  predicate OfReader(l: Label) {
    l.Reads? || l.PickType? || l.Free?
  }

  predicate ReaderOnly(labels: seq<Label>) {
    forall k :: 0 <= k < |labels| ==> OfReader(labels[k])
  }

  /** The steps of the reader from `s` to `s'`. */
  ghost predicate ReaderRun(st: Streams, u: nat, s: State, labels: seq<Label>, s': State)
    requires u < |st| && |st[u]| > 0
  {
    ReaderOnly(labels) && s' == Run(st, u, s, labels)
  }

  lemma ReaderRunNone(st: Streams, u: nat, s: State)
    requires u < |st| && |st[u]| > 0
    ensures ReaderRun(st, u, s, [], s)
  {
  }

  lemma ReaderRunStep(st: Streams, u: nat, s: State, l: Label)
    requires u < |st| && |st[u]| > 0 && OfReader(l)
    ensures ReaderRun(st, u, s, [l], Fire(st, u, s, l))
  {
    RunOne(st, u, s, l);
  }

  lemma ReaderRunConcat(st: Streams, u: nat, s: State, a: seq<Label>, s1: State, b: seq<Label>, s2: State)
    requires u < |st| && |st[u]| > 0 && ReaderRun(st, u, s, a, s1) && ReaderRun(st, u, s1, b, s2)
    ensures ReaderRun(st, u, s, a + b, s2)
  {
    RunConcat(st, u, s, a, b);
  }

  // ----- the batch of a type

  /** The loader's fields of the other types, and everything but the loader. */
  ghost predicate OnlyType(s: State, s': State, i: nat) {
    && SparesThreads(s, s') && s'.last == s.last
    && |s.read| == |s'.read| && |s.held| == |s'.held| && |s.finished| == |s'.finished|
    && |s.counter| == |s'.counter| == |s.read| == |s.held| == |s.finished|
    && forall j :: 0 <= j < |s.read| && j != i ==>
         && s'.read[j] == s.read[j] && s'.held[j] == s.held[j]
         && s'.finished[j] == s.finished[j] && s'.counter[j] == s.counter[j]
  }

  lemma OnlyTypeTwice(s: State, s1: State, s2: State, i: nat)
    requires OnlyType(s, s1, i) && OnlyType(s1, s2, i)
    ensures OnlyType(s, s2, i)
  {
  }

  /** What the loop makes of the type, when its counter does not wrap. */
  ghost predicate TypeFilled(st: Streams, s: State, s': State, i: nat, count: nat)
    requires i < |st|
  {
    && i < |s.read| && i < |s'.read| && i < |s'.held| && i < |s'.finished| && i < |s.counter| && i < |s'.counter|
    && if |st[i]| - s.read[i] >= count - 1 then
         && s'.read[i] == s.read[i] + (count - 1) && !s'.finished[i]
         && s'.counter[i] == s.counter[i] + if count > 2 then count - 2 else 0
       else s'.finished[i] && s'.read[i] == |st[i]| && s'.counter[i] == LLONG_MAX
  }

  /** One batch step: only the loader's fields of the type at work change. */
  lemma BatchIsOneType(st: Streams, s: State)
    requires HoldOver(st, s) && Working(s.reader).Some?
    ensures OnlyType(s, BatchStep(st, s), Working(s.reader).value)
  {
    WorkGoesOn(st, s);
    BatchSpares(st, s);
    assert BatchStep(st, s).last == s.last by { hide Up, HoldOver; }
    hide HoldOver, BatchStep, SparesThreads;
  }

  /** The state after the next step of the reader, within a batch. */
  lemma Next(st: Streams, u: nat, s: State) returns (s': State)
    requires Sound(st, u) && Inv(st, u, s) && Working(s.reader).Some?
    ensures u < |st| && |st[u]| > 0 && ReaderRun(st, u, s, [Reads], s')
    ensures s' == BatchStep(st, s) && Inv(st, u, s') && OnlyType(s, s', Working(s.reader).value)
  {
    hide Inv, Sound, BatchStep, OnlyType;
    Basics(st, u, s);
    HoldsOver(st, u, s);
    s' := BatchStep(st, s);
    ReaderRunStep(st, u, s, Reads);
    ReadsKeeps(st, u, s);
    BatchIsOneType(st, s);
  }

  /** How many steps there are before the loop, or to the end of the batch. */
  function Before(reader: Reader): nat {
    match reader
    case PushHeld(_, _, _) => 2
    case IncHeld(_, _, _) => 1
    case PushNew(_, _, _, _) => 2
    case IncNew(_, _, _, _) => 1
    case SetFinished(_, _, _) => 2
    case SetMax(_, _, _) => 1
    case _ => 0
  }

  lemma BeforeShrinks(st: Streams, s: State)
    requires HoldOver(st, s) && Working(s.reader).Some? && !s.reader.Loop?
    ensures var s' := BatchStep(st, s);
            && Before(s'.reader) < Before(s.reader) && InBatch(s'.reader) && s'.reader.b == s.reader.b
            && s'.reader.todo == s.reader.todo && (Working(s'.reader) == Working(s.reader) || s'.reader.Pick?)
  {
    WorkingFacts(st, s);
    hide HoldOver, Up, Upto;
  }

  lemma ThreeNexts(st: Streams, u: nat, s: State) returns (labels: seq<Label>, s': State)
    requires Sound(st, u) && Inv(st, u, s) && Working(s.reader).Some? && Before(BatchStep(st, s).reader) == 2
    ensures u < |st| && |st[u]| > 0 && ReaderRun(st, u, s, labels, s') && Inv(st, u, s')
    ensures OnlyType(s, s', Working(s.reader).value)
    ensures s' == BatchStep(st, BatchStep(st, BatchStep(st, s)))
  {
    hide Inv, Sound, ReaderRun, OnlyType, HoldOver, BatchStep;
    var s1 := Next(st, u, s);
    HoldsOver(st, u, s);
    HoldsOver(st, u, s1);
    WorkGoesOn(st, s);
    BeforeShrinks(st, s1);
    assert Working(s1.reader).Some?;
    var s2 := Next(st, u, s1);
    assert Working(s2.reader) == Working(s1.reader) by { BeforeTwo(st, s1); }
    s' := Next(st, u, s2);
    OnlyTypeTwice(s, s1, s2, Working(s.reader).value);
    OnlyTypeTwice(s, s2, s', Working(s.reader).value);
    ReaderRunConcat(st, u, s, [Reads], s1, [Reads], s2);
    ReaderRunConcat(st, u, s, [Reads] + [Reads], s2, [Reads], s');
    labels := [Reads] + [Reads] + [Reads];
  }

  lemma BeforeTwo(st: Streams, s: State)
    requires HoldOver(st, s) && Before(s.reader) == 2
    ensures Working(BatchStep(st, s).reader) == Working(s.reader)
  {
    WorkingFacts(st, s);
    hide HoldOver, Up, Upto;
  }

  /** One turn of the loop. */
  lemma TurnRun(st: Streams, u: nat, s: State) returns (labels: seq<Label>, s': State)
    requires Sound(st, u) && Inv(st, u, s) && s.reader.Loop? && s.reader.count > 1
    ensures u < |st| && |st[u]| > 0 && ReaderRun(st, u, s, labels, s') && Inv(st, u, s')
    ensures s.reader.i < |st| == |s.read| && s.read[s.reader.i] <= |st[s.reader.i]| && OnlyType(s, s', s.reader.i)
    ensures Turned(s, s', s.read[s.reader.i] < |st[s.reader.i]|)
  {
    hide Inv, Sound, ReaderRun, OnlyType, HoldOver, Turned;
    Basics(st, u, s);
    HoldsOver(st, u, s);
    WorkingFacts(st, s);
    WorkKeepsHoldOver(st, u, s);
    TurnSteps(st, s);
    if Before(BatchStep(st, s).reader) == 2 {
      labels, s' := ThreeNexts(st, u, s);
    } else {
      labels := [Reads];
      s' := Next(st, u, s);
    }
  }

  /** What a turn does to the type at work: it reads a record and pushes it unless it is the last of the
      batch, or it finds the stream exhausted. */
  ghost predicate Turned(s: State, s': State, more: bool)
    requires s.reader.Loop? && s.reader.count > 0
  {
    var Loop(i, count, todo, b) := s.reader;
    && i < |s.read| && i < |s'.read| && i < |s.finished| && i < |s'.finished| && i < |s.counter| && i < |s'.counter|
    && s'.reader == (if more then Loop(i, count - 1, todo, b) else Pick(todo, b))
    && s'.read[i] == (if more then s.read[i] + 1 else s.read[i])
    && s'.finished[i] == (if more then s.finished[i] else true)
    && s'.counter[i] == (if !more then LLONG_MAX else if count == 2 then s.counter[i] else Up(s.counter[i]))
  }

  lemma TwoStepsOf(st: Streams, s: State)
    requires HoldOver(st, s) && (s.reader.PushNew? || s.reader.SetFinished?)
    ensures var s', i := BatchStep(st, BatchStep(st, s)), s.reader.i;
            && i < |st| == |s.finished| == |s.counter| && s'.read == s.read
            && s'.finished == (if s.reader.PushNew? then s.finished else s.finished[i := true])
            && s'.counter == s.counter[i := if s.reader.PushNew? then Up(s.counter[i]) else LLONG_MAX]
            && s'.reader == if s.reader.PushNew? then Loop(i, s.reader.count, s.reader.todo, s.reader.b)
                            else Pick(s.reader.todo, s.reader.b)
  {
    WorkingFacts(st, s);
    hide HoldOver, Up, Upto;
  }

  lemma TurnSteps(st: Streams, s: State)
    requires HoldOver(st, s) && HoldOver(st, BatchStep(st, s)) && s.reader.Loop? && s.reader.count > 1
    ensures s.reader.i < |st| == |s.read|
    ensures var s1, more := BatchStep(st, s), s.read[s.reader.i] < |st[s.reader.i]|;
            if Before(s1.reader) == 2 then Turned(s, BatchStep(st, BatchStep(st, s1)), more) else Turned(s, s1, more)
  {
    var s1 := BatchStep(st, s);
    WorkingFacts(st, s);
    assert s1.reader.PushNew? || s1.reader.SetFinished? || s1.reader.Loop?;
    assert |s1.read| == |st| && s1.finished == s.finished && s1.counter == s.counter;
    if !s1.reader.Loop? {
      hide HoldOver, Up, BatchStep;
      TwoStepsOf(st, s1);
    }
  }

  /** The whole loop. */
  lemma {:induction false} LoopRun(st: Streams, u: nat, s: State) returns (labels: seq<Label>, s': State)
    requires Sound(st, u) && Inv(st, u, s) && s.reader.Loop? && s.reader.count >= 1
    ensures u < |st| && |st[u]| > 0 && ReaderRun(st, u, s, labels, s') && Inv(st, u, s')
    ensures s.reader.i < |st| == |s.counter| && s'.reader == Pick(s.reader.todo, s.reader.b)
    ensures OnlyType(s, s', s.reader.i)
    ensures s.counter[s.reader.i] + s.reader.count < WORD ==> TypeFilled(st, s, s', s.reader.i, s.reader.count)
    decreases s.reader.count
  {
    hide Inv, Sound, ReaderRun, Up, SparesThreads, HoldOver;
    var i := s.reader.i;
    Basics(st, u, s);
    HoldsOver(st, u, s);
    WorkingFacts(st, s);
    if s.reader.count == 1 {
      LastTurn(st, u, s);
      s' := Next(st, u, s);
      labels := [Reads];
    } else {
      var first, s1 := TurnRun(st, u, s);
      UpOne(s.counter[i]);
      if s1.reader.Loop? {
        var rest;
        rest, s' := LoopRun(st, u, s1);
        ReaderRunConcat(st, u, s, first, s1, rest, s');
        OnlyTypeTwice(s, s1, s', i);
        labels := first + rest;
      } else {
        labels, s' := first, s1;
      }
    }
  }

  lemma UpOne(c: nat)
    ensures c + 1 < WORD ==> Up(c) == c + 1
  {
  }

  lemma LastTurn(st: Streams, u: nat, s: State)
    requires u < |st| && |st[u]| > 0 && Inv(st, u, s) && s.reader.Loop? && s.reader.count == 1
    ensures var s', i := BatchStep(st, s), s.reader.i;
            && i < |st| && i < |s.read| && s.read[i] <= |st[i]|
            && s'.reader == Pick(s.reader.todo, s.reader.b)
            && s'.read == s.read && s'.finished == s.finished && s'.counter == s.counter
            && i < |s.finished| && !s.finished[i]
  {
    HoldsOver(st, u, s);
    WorkingFacts(st, s);
    hide Inv;
  }

  /** The rest of the batch under way. */
  lemma {:induction false} WorkRun(st: Streams, u: nat, s: State) returns (labels: seq<Label>, s': State)
    requires Sound(st, u) && Inv(st, u, s) && Working(s.reader).Some?
    ensures u < |st| && |st[u]| > 0 && ReaderRun(st, u, s, labels, s') && Inv(st, u, s')
    ensures s'.reader == Pick(s.reader.todo, s.reader.b) && OnlyType(s, s', Working(s.reader).value)
    decreases Before(s.reader)
  {
    hide Inv, Sound, ReaderRun, HoldOver, WorkingOn, OnlyType, BatchStep, Before;
    Basics(st, u, s);
    HoldsOver(st, u, s);
    WorkingFacts(st, s);
    if s.reader.Loop? {
      LoopCounts(st, s);
      labels, s' := LoopRun(st, u, s);
    } else {
      BeforeShrinks(st, s);
      var s1 := Next(st, u, s);
      if s1.reader.Pick? {
        labels, s' := [Reads], s1;
      } else {
        var rest;
        rest, s' := WorkRun(st, u, s1);
        OnlyTypeTwice(s, s1, s', Working(s.reader).value);
        ReaderRunConcat(st, u, s, [Reads], s1, rest, s');
        labels := [Reads] + rest;
      }
    }
  }

  lemma LoopCounts(st: Streams, s: State)
    requires HoldOver(st, s) && s.reader.Loop?
    ensures s.reader.count >= 1
  {
    WorkingFacts(st, s);
  }

  /** What a batch of size `b` makes of a counter. */
  ghost predicate Served(s: State, s': State, i: nat, b: nat) {
    && i < |s.finished| && i < |s'.finished| && i < |s.counter| && i < |s'.counter|
    && (s.finished[i] ==> s'.finished[i] && s'.counter[i] == s.counter[i])
    && (!s.finished[i] && s.counter[i] > b * 2 ==> s'.counter[i] == s.counter[i])
    && (!s.finished[i] && s.counter[i] <= b * 2 && 3 * b + 1 < LLONG_MAX ==> s'.counter[i] >= b - 2)
  }

  lemma PickFacts(st: Streams, u: nat, s: State, i: nat)
    requires Sound(st, u) && Inv(st, u, s) && s.reader.Pick? && i in s.reader.todo
    ensures u < |st| && |st[u]| > 0 && i < |st| == |s.read| == |s.held| == |s.counter| == |s.finished|
    ensures s.reader.b >= 2
    ensures 1 <= s.read[i] <= |st[i]| && (!s.finished[i] ==> (s.held[i] <==> !s.first))
  {
    Basics(st, u, s);
    HoldsOver(st, u, s);
    assert i in Todo(s.reader);
    assert i < |st| ==> AtRest(|st[i]|, s.first && i in Todo(s.reader), s.read[i], s.held[i], s.finished[i]);
    hide Inv, Sound;
  }

  /** The batch of a type that is not the first: the record held over goes to the heap, and the loop runs. */
  lemma HeldRun(st: Streams, u: nat, s: State) returns (labels: seq<Label>, s': State)
    requires Sound(st, u) && Inv(st, u, s) && s.reader.PushHeld?
    ensures u < |st| && |st[u]| > 0 && ReaderRun(st, u, s, labels, s') && Inv(st, u, s')
    ensures var PushHeld(i, todo, b) := s.reader;
            && i < |st| == |s.counter| == |s.finished| && s'.reader == Pick(todo, b) && OnlyType(s, s', i)
            && |s'.counter| == |st| && (s.counter[i] + b + 1 < LLONG_MAX ==> s'.counter[i] >= b - 1)
  {
    hide Inv, Sound, ReaderRun, HoldOver, OnlyType, Up;
    var PushHeld(i, todo, b) := s.reader;
    Basics(st, u, s);
    HoldsOver(st, u, s);
    WorkingFacts(st, s);
    BatchAtLeastTwo(st, s);
    var s1 := Next(st, u, s);
    var s2 := Next(st, u, s1);
    UpOne(s.counter[i]);
    var rest;
    rest, s' := LoopRun(st, u, s2);
    assert |s'.counter| == |st| by { SameLengths(s2, s', i); }
    OnlyTypeTwice(s, s1, s2, i);
    OnlyTypeTwice(s, s2, s', i);
    ReaderRunConcat(st, u, s, [Reads], s1, [Reads], s2);
    ReaderRunConcat(st, u, s, [Reads] + [Reads], s2, rest, s');
    labels := [Reads] + [Reads] + rest;
  }

  lemma BatchAtLeastTwo(st: Streams, s: State)
    requires HoldOver(st, s) && InBatch(s.reader)
    ensures s.reader.b >= 2
  {
  }

  lemma SameLengths(s: State, s': State, i: nat)
    requires OnlyType(s, s', i)
    ensures |s'.counter| == |s.counter| && |s'.finished| == |s.finished| == |s.counter|
  {
  }

  /** One type of a round. */
  lemma TypeRun(st: Streams, u: nat, s: State, i: nat) returns (labels: seq<Label>, s': State)
    requires Sound(st, u) && Inv(st, u, s) && s.reader.Pick? && i in s.reader.todo
    ensures u < |st| && |st[u]| > 0 && ReaderRun(st, u, s, labels, s') && Inv(st, u, s')
    ensures s'.reader == Pick(s.reader.todo - {i}, s.reader.b) && i < |st| && OnlyType(s, s', i)
    ensures Served(s, s', i, s.reader.b)
    ensures s.first && !s.finished[i] && s.counter[i] <= s.reader.b * 2 && 3 * s.reader.b < WORD ==>
        TypeFilled(st, s, s', i, s.reader.b)
  {
    hide Sound, Inv, ReaderRun, HoldOver, SparesThreads;
    PickFacts(st, u, s, i);
    var s1 := PickStep(s, i);
    PicksKeeps(st, u, s, i);
    ReaderRunStep(st, u, s, PickType(i));
    assert OnlyType(s, s1, i) by { hide Served; assert SparesThreads(s, s1) by { PickSpares(s, i); } }
    if s1.reader.Pick? {
      labels, s' := [PickType(i)], s1;
    } else {
      var rest;
      if s.first {
        rest, s' := LoopRun(st, u, s1);
      } else {
        rest, s' := HeldRun(st, u, s1);
      }
      OnlyTypeTwice(s, s1, s', i);
      ReaderRunConcat(st, u, s, [PickType(i)], s1, rest, s');
      labels := [PickType(i)] + rest;
    }
  }

  lemma PickSpares(s: State, i: nat)
    ensures SparesThreads(s, PickStep(s, i))
  {
  }

  // ----- a round

  /** What the reader leaves to the executors. */
  ghost predicate SameThreads(s: State, s': State) {
    && s'.threads == s.threads && s'.running == s.running && s'.nThreads == s.nThreads
    && s'.log == s.log && s'.first == s.first && s'.last == s.last
  }

  /** What the rest of a round makes of each counter. */
  ghost predicate AllServed(s: State, s': State, todo: set<nat>, b: nat) {
    && |s.counter| == |s'.counter| == |s.finished| == |s'.finished|
    && forall i :: 0 <= i < |s.counter| ==>
         if i in todo then Served(s, s', i, b) else s'.counter[i] == s.counter[i] && s'.finished[i] == s.finished[i]
  }

  lemma ServedNext(s: State, s1: State, s2: State, i: nat, todo: set<nat>, b: nat)
    requires OnlyType(s, s1, i) && Served(s, s1, i, b) && AllServed(s1, s2, todo - {i}, b) && i in todo
    ensures AllServed(s, s2, todo, b)
  {
  }

  /** The rest of a round. */
  lemma {:induction false} RoundRun(st: Streams, u: nat, s: State) returns (labels: seq<Label>, s': State)
    requires Sound(st, u) && Inv(st, u, s) && s.reader.Pick? && !s.first
    ensures u < |st| && |st[u]| > 0 && ReaderRun(st, u, s, labels, s') && Inv(st, u, s')
    ensures s'.reader == Round && SameThreads(s, s') && AllServed(s, s', s.reader.todo, s.reader.b)
    decreases |s.reader.todo|
  {
    hide Sound, Inv, ReaderRun, Served, BatchStep;
    var Pick(todo, b) := s.reader;
    Basics(st, u, s);
    if todo == {} {
      s' := s.(reader := Round);
      labels := [Reads];
      ReaderRunStep(st, u, s, Reads);
      ReadsKeeps(st, u, s);
      ShapeOf(st, u, s);
    } else {
      var i := Member(todo);
      var first, s1 := TypeRun(st, u, s, i);
      var rest;
      rest, s' := RoundRun(st, u, s1);
      ServedNext(s, s1, s', i, todo, b);
      ReaderRunConcat(st, u, s, first, s1, rest, s');
      labels := first + rest;
    }
  }

  /** The rest of the first round, after which the thread of the first process starts. */
  lemma {:induction false} FirstRoundRun(st: Streams, u: nat, s: State) returns (labels: seq<Label>, s': State)
    requires Sound(st, u) && Inv(st, u, s) && s.reader.Pick? && s.first
    ensures u < |st| && |st[u]| > 0 && ReaderRun(st, u, s, labels, s') && Inv(st, u, s') && !s'.first
    decreases |s.reader.todo|
  {
    hide Sound, Inv, ReaderRun, Served, BatchStep, OnlyType;
    Basics(st, u, s);
    if s.reader.todo == {} {
      s' := ReaderStep(st, u, s);
      labels := [Reads];
      ReaderRunStep(st, u, s, Reads);
      ReadsKeeps(st, u, s);
    } else {
      var i := Member(s.reader.todo);
      var first, s1 := TypeRun(st, u, s, i);
      assert s1.first by { SameFirst(s, s1, i); }
      var rest;
      rest, s' := FirstRoundRun(st, u, s1);
      ReaderRunConcat(st, u, s, first, s1, rest, s');
      labels := first + rest;
    }
  }

  lemma SameFirst(s: State, s': State, i: nat)
    requires OnlyType(s, s', i)
    ensures s'.first == s.first
  {
  }

  /** From anywhere in the first batches. */
  lemma FirstRun(st: Streams, u: nat, s: State) returns (labels: seq<Label>, s': State)
    requires Sound(st, u) && Inv(st, u, s) && s.first
    ensures u < |st| && |st[u]| > 0 && ReaderRun(st, u, s, labels, s') && Inv(st, u, s') && !s'.first
  {
    hide Sound, Inv, ReaderRun, OnlyType, HoldOver;
    Basics(st, u, s);
    HoldsOver(st, u, s);
    assert InBatch(s.reader) by { FirstIsBatch(st, s); }
    if s.reader.Pick? {
      labels, s' := FirstRoundRun(st, u, s);
    } else {
      var work, s1 := WorkRun(st, u, s);
      SameFirst(s, s1, Working(s.reader).value);
      var rest;
      rest, s' := FirstRoundRun(st, u, s1);
      ReaderRunConcat(st, u, s, work, s1, rest, s');
      labels := work + rest;
    }
  }

  lemma FirstIsBatch(st: Streams, s: State)
    requires HoldOver(st, s) && s.first
    ensures InBatch(s.reader)
  {
  }

  lemma ShapeOf(st: Streams, u: nat, s: State)
    requires u < |st| && |st[u]| > 0 && Inv(st, u, s)
    ensures |s.counter| == |s.finished| == |st| && s.nThreads >= 1
  {
  }

  /** The deletion queue. */
  lemma {:induction false} DrainRun(st: Streams, u: nat, s: State) returns (labels: seq<Label>, s': State)
    requires u < |st| && |st[u]| > 0 && s.reader.Drain?
    ensures ReaderRun(st, u, s, labels, s')
    ensures s' == s.(reader := MinScan(0, ULONG_MAX), retired := multiset{}, freed := s.freed + s.retired)
    decreases |s.retired|
  {
    hide ReaderRun, BatchStep, Upto;
    if s.retired == multiset{} {
      labels, s' := [Reads], s.(reader := MinScan(0, ULONG_MAX));
      assert s.freed + s.retired == s.freed;
      ReaderRunStep(st, u, s, Reads);
    } else {
      var r :| r in s.retired;
      var s1 := FreeStep(s, r);
      ReaderRunStep(st, u, s, Free(r));
      var rest;
      rest, s' := DrainRun(st, u, s1);
      assert s1.freed + s1.retired == s.freed + s.retired;
      ReaderRunConcat(st, u, s, [Free(r)], s1, rest, s');
      labels := [Free(r)] + rest;
    }
  }

  lemma RepeatIsReader(n: nat)
    ensures ReaderOnly(Repeat(Reads, n))
  {
  }

  /** The rest of a scan. */
  lemma ScanRun(st: Streams, u: nat, s: State) returns (labels: seq<Label>, s': State)
    requires u < |st| && |st[u]| > 0 && s.reader.MinScan?
    ensures ReaderRun(st, u, s, labels, s')
    ensures s' == s.(reader := Drain) || s' == s.(reader := Pick(Upto(|st|), 150 * s.nThreads))
  {
    hide BatchStep, Upto, Run, Repeat, MinFrom, ReaderOnly;
    var n := if s.reader.k <= |s.counter| then |s.counter| - s.reader.k else 0;
    var scan := Repeat(Reads, n);
    RepeatIsReader(n);
    var s1 := Run(st, u, s, scan);
    if s.reader.k <= |s.counter| {
      ReaderScans(st, u, s, s.reader.k);
    } else {
      assert scan == [];
      RunNone(st, u, s);
    }
    s' := Fire(st, u, s1, Reads);
    ReaderRunStep(st, u, s1, Reads);
    ReaderRunConcat(st, u, s, scan, s1, [Reads], s');
    labels := scan + [Reads];
  }

  lemma RunNone(st: Streams, u: nat, s: State)
    requires u < |st| && |st[u]| > 0
    ensures Run(st, u, s, []) == s
  {
  }
}
