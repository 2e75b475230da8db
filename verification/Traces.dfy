/** The recorded system calls: one stream of records for each type of call, and the checks that an
    executor makes of a record against those that run.
  */
module Traces {
  import opened Collections

  type Tid = int

  datatype Option<+T> = None | Some(value: T)

  /** A record: its number in the whole trace, its type and its position in the stream of that type, the
      process that made the call, when it was called and when it returned, and for a clone or vfork the
      child process. */
  datatype Rec = Rec(uid: nat, typ: nat, pos: nat, pid: Tid, called: int, returned: int, child: Option<Tid>)

  type Streams = seq<seq<Rec>>

  predicate IsRecord(st: Streams, r: Rec) {
    r.typ < |st| && r.pos < |st[r.typ]| && st[r.typ][r.pos] == r
  }

  /** Only types that have records are loaded; each stream is ordered by number, and numbers are unique.
      The trace begins with the umask record 0 of type `u`. A child process is created once, and is not the
      process of that first record. */
  ghost predicate Sound(st: Streams, u: nat) {
    && u < |st|
    && (forall i :: 0 <= i < |st| ==> |st[i]| > 0)
    && (forall i, j :: 0 <= i < |st| && 0 <= j < |st[i]| ==> st[i][j].typ == i && st[i][j].pos == j)
    && (forall a, b :: IsRecord(st, a) && IsRecord(st, b) && a.typ == b.typ && a.pos < b.pos ==> a.uid < b.uid)
    && (forall a, b :: IsRecord(st, a) && IsRecord(st, b) && a.uid == b.uid ==> a == b)
    && st[u][0].uid == 0
    && (forall a :: IsRecord(st, a) && a.child.Some? ==> a.child.value != st[u][0].pid)
    && (forall a, b :: IsRecord(st, a) && IsRecord(st, b) && a.child.Some? && a.child == b.child ==> a == b)
  }

  /** Every call returns after it was called, and the calls of one process follow each other. */
  ghost predicate CallsInSequence(st: Streams) {
    && (forall a :: IsRecord(st, a) ==> a.called <= a.returned)
    && (forall a, b :: IsRecord(st, a) && IsRecord(st, b) && a.pid == b.pid && a.uid < b.uid ==> a.returned <= b.called)
  }

  // ----- the running table

  /** The record each thread has published; a thread that could not start its record publishes none. */
  type Running = map<Tid, Option<Rec>>

  predicate CheckSequential(check: Rec, last: nat) {
    check.uid <= last + 150
  }

  predicate Overlapping(check: Rec, compare: Rec) {
    || (check.called >= compare.called && check.called <= compare.returned)
    || (check.returned >= compare.called && check.returned <= compare.returned)
  }

  /** A published record that holds `check` back. */
  predicate Blocks(check: Rec, compare: Rec) {
    check != compare && !Overlapping(check, compare) && check.called > compare.returned
  }

  ghost predicate Accepted(check: Rec, running: Running, last: nat) {
    && CheckSequential(check, last)
    && forall t :: t in running ==> running[t].Some? && !Blocks(check, running[t].value)
  }

  /** For calls that return after they were called, a record is held back exactly by the other records
      that returned before it was called. */
  lemma BlocksMeaning(check: Rec, compare: Rec)
    requires check.called <= check.returned && compare.called <= compare.returned
    ensures Blocks(check, compare) <==> check != compare && compare.returned < check.called
  {
  }

  /** The check accepts if and only if the record is sequential, no thread is without a record, and no
      other published call returned before this one was called. */
  lemma AcceptedIff(check: Rec, running: Running, last: nat)
    requires check.called <= check.returned
    requires forall t :: t in running && running[t].Some? ==> running[t].value.called <= running[t].value.returned
    ensures Accepted(check, running, last) <==>
            && check.uid <= last + 150
            && forall t :: t in running ==>
                 running[t].Some? && (running[t].value == check || running[t].value.returned >= check.called)
  {
  }

  /** While every thread has published a record, the one that returned first is not held back. */
  lemma FirstToReturnPasses(running: Running, t: Tid, last: nat)
    requires forall p :: p in running ==> running[p].Some? && running[p].value.called <= running[p].value.returned
    requires t in running && forall p :: p in running ==> running[t].value.returned <= running[p].value.returned
    ensures Accepted(running[t].value, running, last) <==> CheckSequential(running[t].value, last)
  {
  }

  /** There is such a record whenever some thread is registered, so the check cannot hold all back. */
  lemma {:induction false} SomeoneReturnsFirst(running: Running)
    requires running != map[] && forall p :: p in running ==> running[p].Some?
    ensures exists t :: t in running && forall p :: p in running ==>
        running[t].value.returned <= running[p].value.returned
    decreases |running|
  {
    var t := Member(running.Keys);
    var rest := running - {t};
    if rest == map[] {
      forall p | p in running
        ensures p == t
      {
        assert p !in rest;
      }
    } else {
      assert forall p :: p in rest ==> running[p] == rest[p];
      SomeoneReturnsFirst(rest);
      var first :| first in rest && forall p :: p in rest ==> rest[first].value.returned <= rest[p].value.returned;
      var best := if running[t].value.returned <= running[first].value.returned then t else first;
      forall p | p in running
        ensures running[best].value.returned <= running[p].value.returned
      {
        assert p == t || p in rest;
      }
    }
  }

  /** The loop over the running table. */
  method CheckExecutionValidation(check: Rec, running: Running, last: nat) returns (ok: bool)
    ensures ok <==> Accepted(check, running, last)
  {
    if !CheckSequential(check, last) {
      return false;
    }
    var todo := running.Keys;
    while todo != {}
      invariant todo <= running.Keys
      invariant forall t :: t in running && t !in todo ==> running[t].Some? && !Blocks(check, running[t].value)
      decreases |todo|
    {
      ghost var some := Member(todo);
      var t :| t in todo;
      todo := todo - {t};
      var compare := running[t];
      if compare.None? {
        return false;
      }
      if check != compare.value {
        if !Overlapping(check, compare.value) {
          if check.called > compare.value.returned {
            return false;
          }
        }
      }
    }
    return true;
  }
}
