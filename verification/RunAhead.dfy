/** No checked record runs far ahead: it is at most 150 numbers beyond some record executed before it, even
    though the number of the last executed record is read and written without atomicity.
  */
module RunAhead {
  import opened Collections
  import opened Traces
  import opened Scheduler
  import opened Places
  import opened HappensBefore

  ghost predicate NumberIn(log: seq<Executed>, n: nat) {
    exists j :: 0 <= j < |log| && log[j].r.uid == n
  }

  ghost predicate Near(log: seq<Executed>, r: Rec) {
    exists j :: 0 <= j < |log| && r.uid <= log[j].r.uid + 150
  }

  /** Several processes were registered when a record was validated, so that it was checked. */
  ghost predicate InWindow(log: seq<Executed>) {
    forall k :: 0 <= k < |log| && |log[k].seen| > 1 ==> Near(log[..k], log[k].r)
  }

  ghost predicate PcInWindow(log: seq<Executed>, pc: Pc) {
    match pc
    case Execute(r, seen) => |seen| > 1 ==> Near(log, r)
    case ReadLast(r) => NumberIn(log, r.uid)
    case WriteLast(r, last) => NumberIn(log, r.uid) && NumberIn(log, last)
    case _ => true
  }

  /** The shared number of the last executed record is always the number of some executed record. */
  ghost predicate Window(s: State) {
    && NumberIn(s.log, s.last) && InWindow(s.log)
    && forall t :: t in s.threads ==> PcInWindow(s.log, s.threads[t].pc)
  }

  lemma WindowGrows(log: seq<Executed>, log': seq<Executed>, pc: Pc, n: nat)
    requires log <= log'
    ensures NumberIn(log, n) ==> NumberIn(log', n)
    ensures PcInWindow(log, pc) ==> PcInWindow(log', pc)
  {
    forall j | 0 <= j < |log|
      ensures log'[j] == log[j]
    {
    }
  }

  predicate Late(pc: Pc) {
    pc.Execute? || pc.ReadLast? || pc.WriteLast?
  }

  /** No thread comes to one of its last stages. */
  ghost predicate NoneLater(s: State, s': State) {
    forall t :: t in s'.threads ==> !Late(s'.threads[t].pc) || (t in s.threads && s'.threads[t].pc == s.threads[t].pc)
  }

  /** A step that neither logs nor touches the number nor brings a thread to one of the last stages. */
  lemma IdleKeepsWindow(s: State, s': State)
    requires Window(s) && s'.log == s.log && s'.last == s.last
    requires NoneLater(s, s')
    ensures Window(s')
  {
    hide NumberIn, InWindow, Near;
  }

  lemma ReaderKeepsWindow(st: Streams, u: nat, s: State, i: nat, r: Rec)
    requires u < |st| && |st[u]| > 0 && Window(s)
    ensures Window(ReaderStep(st, u, s)) && Window(PickStep(s, i)) && Window(FreeStep(s, r))
  {
    hide Window, BatchStep, RoundStep, PickStep, FreeStep;
    IdleKeepsWindow(s, BatchStep(st, s)) by { BatchSpares(st, s); BatchKeepsLast(st, s); }
    IdleKeepsWindow(s, RoundStep(st, u, s)) by { RoundKeepsLast(st, u, s); }
    IdleKeepsWindow(s, PickStep(s, i)) by { PickKeepsLast(s, i, r); }
    IdleKeepsWindow(s, FreeStep(s, r)) by { PickKeepsLast(s, i, r); }
  }

  lemma BatchKeepsLast(st: Streams, s: State)
    ensures BatchStep(st, s).last == s.last
  {
    hide Up;
  }

  lemma RoundKeepsLast(st: Streams, u: nat, s: State)
    requires u < |st| && |st[u]| > 0
    ensures var s' := RoundStep(st, u, s);
            && s'.last == s.last && s'.log == s.log
            && NoneLater(s, s')
  {
    hide Upto, Min;
  }

  lemma PickKeepsLast(s: State, i: nat, r: Rec)
    ensures PickStep(s, i).last == s.last && PickStep(s, i).log == s.log && PickStep(s, i).threads == s.threads
    ensures FreeStep(s, r).last == s.last && FreeStep(s, r).log == s.log && FreeStep(s, r).threads == s.threads
  {
  }

  lemma ValidateKeepsWindow(st: Streams, u: nat, s: State, t: Tid)
    requires u < |st| && |st[u]| > 0 && Inv(st, u, s) && Window(s) && t in s.threads && s.threads[t].pc.Validate?
    ensures Window(CheckStep(s, t))
  {
    var r := s.threads[t].pc.r;
    assert s.nThreads == |s.threads| == |s.threads.Keys|;
    if |s.threads.Keys| > 1 && Accepted(r, s.running, s.last) {
      assert Near(s.log, r);
    }
    hide Inv, Accepted, NumberIn, InWindow, Near;
  }

  lemma ExecuteKeepsWindow(s: State, t: Tid)
    requires Window(s) && t in s.threads && s.threads[t].pc.Execute?
    ensures Window(ExecuteStep(s, t, s.threads[t].pc.r, s.threads[t].pc.seen))
  {
    hide Near;
    var Execute(r, seen) := s.threads[t].pc;
    var s' := ExecuteStep(s, t, r, seen);
    assert s'.log == s.log + [Executed(r, seen)] && s'.last == s.last;
    assert s'.log[|s.log|].r.uid == r.uid;
    assert PcInWindow(s.log, s.threads[t].pc);
    forall k | 0 <= k < |s'.log| && |s'.log[k].seen| > 1
      ensures Near(s'.log[..k], s'.log[k].r)
    {
      assert s'.log[..k] == s.log[..k];
      assert s.log[..|s.log|] == s.log;
    }
    forall x | x in s'.threads
      ensures PcInWindow(s'.log, s'.threads[x].pc)
    {
      if x in s.threads {
        WindowGrows(s.log, s'.log, s.threads[x].pc, s.last);
      }
    }
    WindowGrows(s.log, s'.log, Pop, s.last);
  }

  lemma EndKeepsWindow(s: State, t: Tid)
    requires Window(s) && t in s.threads
    ensures Window(EndStep(s, t))
  {
    hide NumberIn, InWindow, Near, Without;
    assert PcInWindow(s.log, s.threads[t].pc);
  }

  lemma WaitKeepsWindow(s: State, t: Tid)
    requires Window(s) && t in s.threads
    ensures Window(WaitStep(s, t)) && Window(UndoStep(s, t))
  {
    hide Window, Up, Down, Min;
    IdleKeepsWindow(s, WaitStep(s, t));
    IdleKeepsWindow(s, UndoStep(s, t));
  }

  lemma CheckKeepsWindow(s: State, t: Tid)
    requires Window(s) && t in s.threads && !s.threads[t].pc.Validate?
    ensures Window(CheckStep(s, t))
  {
    hide Window, Accepted;
    IdleKeepsWindow(s, CheckStep(s, t));
  }

  lemma TakesKeepWindow(s: State, t: Tid, r: Rec)
    requires Window(s)
    ensures Window(TakeStep(s, t, r)) && Window(MissStep(s, t))
  {
    hide Window;
    IdleKeepsWindow(s, TakeStep(s, t, r));
    IdleKeepsWindow(s, MissStep(s, t));
  }

  lemma ThreadStepKeepsWindow(st: Streams, u: nat, s: State, t: Tid)
    requires u < |st| && |st[u]| > 0 && Inv(st, u, s) && Window(s)
    ensures Window(ThreadStep(s, t))
  {
    hide Inv, Window, WaitStep, CheckStep, UndoStep, EndStep, ExecuteStep;
    if t in s.threads {
      WaitKeepsWindow(s, t);
      EndKeepsWindow(s, t);
      if s.threads[t].pc.Execute? {
        ExecuteKeepsWindow(s, t);
      } else if s.threads[t].pc.Validate? {
        ValidateKeepsWindow(st, u, s, t);
      } else {
        CheckKeepsWindow(s, t);
      }
    }
  }

  lemma FireKeepsWindow(st: Streams, u: nat, s: State, l: Label)
    requires u < |st| && |st[u]| > 0 && Inv(st, u, s) && Window(s)
    ensures Window(Fire(st, u, s, l))
  {
    hide Inv, Window, ReaderStep, PickStep, FreeStep, TakeStep, MissStep, ThreadStep;
    match l
    case Reads => ReaderKeepsWindow(st, u, s, 0, st[u][0]);
    case PickType(i) => ReaderKeepsWindow(st, u, s, i, st[u][0]);
    case Free(r) => ReaderKeepsWindow(st, u, s, 0, r);
    case Take(t, r) => TakesKeepWindow(s, t, r);
    case Miss(t) => TakesKeepWindow(s, t, st[u][0]);
    case Runs(t) => ThreadStepKeepsWindow(st, u, s, t);
  }

  lemma {:induction false} RunKeepsWindow(st: Streams, u: nat, s: State, labels: seq<Label>)
    requires Sound(st, u) && Inv(st, u, s) && Window(s)
    ensures Window(Run(st, u, s, labels))
    decreases |labels|
  {
    if labels != [] {
      FireKeeps(st, u, s, labels[0]);
      FireKeepsWindow(st, u, s, labels[0]);
      hide Inv, Window, Sound, Fire;
      RunKeepsWindow(st, u, Fire(st, u, s, labels[0]), labels[1..]);
    }
  }

  /** In every interleaving, a record that was validated while several processes were registered is at
      most 150 numbers beyond some record that was executed before it. */
  lemma CheckedStaysInWindow(st: Streams, u: nat, labels: seq<Label>, k: nat)
    requires Sound(st, u) && k < |Run(st, u, Start(st, u), labels).log|
    ensures var log := Run(st, u, Start(st, u), labels).log;
            |log[k].seen| > 1 ==> exists j :: 0 <= j < k && log[k].r.uid <= log[j].r.uid + 150
  {
    var s := Start(st, u);
    StartHolds(st, u);
    assert Window(s) by {
      assert s.log[0].r.uid == 0 && s.log[0].seen == {};
      hide Near, Inv;
    }
    RunKeepsWindow(st, u, s, labels);
    var log := Run(st, u, s, labels).log;
    hide Inv, Sound, Start, Run;
    if |log[k].seen| > 1 {
      assert Near(log[..k], log[k].r);
      var j :| 0 <= j < |log[..k]| && log[k].r.uid <= log[..k][j].r.uid + 150;
      assert log[j] == log[..k][j];
    }
  }
}
