/** The traced-to-replayed address map of one process, as a sequence of intervals.

    The functions follow `VM_area` statement by statement on 64-bit addresses; the lemmas say what
    they mean: which pairs of a traced byte and a replayed byte the map denotes, and what a delete
    removes from it.
  */
module AddressMap {

  const ADDRESS_SPACE: int := 0x1_0000_0000_0000_0000

  type Address = a: int | 0 <= a < ADDRESS_SPACE

  /** Unsigned 64-bit addition and subtraction wrap around. */
  function Plus(a: Address, b: Address): Address {
    (a + b) % ADDRESS_SPACE
  }

  function Minus(a: Address, b: Address): Address {
    (a - b) % ADDRESS_SPACE
  }

  datatype Node = Node(traced: Address, replayed: Address, size: Address, tracedFd: int, replayedFd: int) {
    function End(): Address {
      Plus(traced, size)
    }

    /** The mapped range does not wrap around the end of the address space. */
    predicate Fits() {
      traced + size < ADDRESS_SPACE
    }
  }

  // ----- the four overlap tests and the switch over them

  predicate LeftOverlapping(addr: Address, size: Address, start: Address, end: Address) {
    Plus(addr, size) >= end && addr > start && addr < end
  }

  predicate RightOverlapping(addr: Address, size: Address, start: Address, end: Address) {
    Plus(addr, size) > start && Plus(addr, size) < end && addr <= start
  }

  predicate EnclosedOverlapping(addr: Address, size: Address, start: Address, end: Address) {
    addr <= start && Plus(addr, size) >= end
  }

  predicate EnclosingOverlapping(addr: Address, size: Address, start: Address, end: Address) {
    addr > start && Plus(addr, size) < end
  }

  const LEFT: bv4 := 4
  const RIGHT: bv4 := 2
  const ENCLOSED: bv4 := 8
  const ENCLOSING: bv4 := 1
  const INVALID: bv4 := 0

  function Overlapped(addr: Address, size: Address, n: Node): bv4 {
    (if LeftOverlapping(addr, size, n.traced, n.End()) then LEFT else INVALID)
    | (if RightOverlapping(addr, size, n.traced, n.End()) then RIGHT else INVALID)
    | (if EnclosedOverlapping(addr, size, n.traced, n.End()) then ENCLOSED else INVALID)
    | (if EnclosingOverlapping(addr, size, n.traced, n.End()) then ENCLOSING else INVALID)
  }

  predicate Found(addr: Address, size: Address, n: Node) {
    || LeftOverlapping(addr, size, n.traced, n.End())
    || RightOverlapping(addr, size, n.traced, n.End())
    || EnclosedOverlapping(addr, size, n.traced, n.End())
    || EnclosingOverlapping(addr, size, n.traced, n.End())
  }

  /** What a delete leaves at the place of node `n`. */
  function Keep(addr: Address, size: Address, n: Node): seq<Node> {
    var overlapped := Overlapped(addr, size, n);
    if overlapped == ENCLOSED then []
    else if overlapped == LEFT || overlapped == ENCLOSING then [n.(size := Minus(addr, n.traced))]
    else if overlapped == RIGHT then
      var start := Plus(addr, size);
      var cut := Minus(start, n.traced);
      [n.(traced := start, replayed := Plus(n.replayed, cut), size := Minus(n.size, cut))]
    else [n]
  }

  /** What a delete appends to the map on behalf of node `n`: the right part of a split. */
  function Split(addr: Address, size: Address, n: Node): seq<Node> {
    if Overlapped(addr, size, n) == ENCLOSING then
      var start := Plus(addr, size);
      [Node(start, Minus(Plus(n.replayed, start), n.traced), Minus(n.End(), start), n.tracedFd, n.replayedFd)]
    else []
  }

  function KeepAll(addr: Address, size: Address, ns: seq<Node>): seq<Node> {
    if ns == [] then [] else Keep(addr, size, ns[0]) + KeepAll(addr, size, ns[1..])
  }

  function SplitAll(addr: Address, size: Address, ns: seq<Node>): seq<Node> {
    if ns == [] then [] else Split(addr, size, ns[0]) + SplitAll(addr, size, ns[1..])
  }

  function Delete(addr: Address, size: Address, ns: seq<Node>): seq<Node> {
    KeepAll(addr, size, ns) + SplitAll(addr, size, ns)
  }

  // ----- the overlap tests as a classification

  predicate OnlyOne(a: bool, b: bool, c: bool, d: bool) {
    (a && !b && !c && !d) || (!a && b && !c && !d) || (!a && !b && c && !d) || (!a && !b && !c && d)
  }

  /** At most one test holds, wrap-around or not; for a non-empty node one holds exactly when the
      deleted range and the node intersect (for an empty range: when it lies strictly inside). */
  lemma OverlapTestsClassify(addr: Address, size: Address, n: Node)
    ensures Found(addr, size, n) <==>
            OnlyOne(LeftOverlapping(addr, size, n.traced, n.End()), RightOverlapping(addr, size, n.traced, n.End()),
                    EnclosedOverlapping(addr, size, n.traced, n.End()),
                    EnclosingOverlapping(addr, size, n.traced, n.End()))
    ensures Found(addr, size, n) <==> Overlapped(addr, size, n) != INVALID
    ensures Found(addr, size, n) ==> Overlapped(addr, size, n) in {LEFT, RIGHT, ENCLOSED, ENCLOSING}
    ensures n.Fits() && n.size > 0 && addr + size < ADDRESS_SPACE ==>
              (Found(addr, size, n) <==> n.traced < addr + size && addr < n.traced + n.size)
  {
  }

  lemma Exclusive(addr: Address, size: Address, n: Node)
    ensures LeftOverlapping(addr, size, n.traced, n.End()) <==> Overlapped(addr, size, n) == LEFT
    ensures RightOverlapping(addr, size, n.traced, n.End()) <==> Overlapped(addr, size, n) == RIGHT
    ensures EnclosedOverlapping(addr, size, n.traced, n.End()) <==> Overlapped(addr, size, n) == ENCLOSED
    ensures EnclosingOverlapping(addr, size, n.traced, n.End()) <==> Overlapped(addr, size, n) == ENCLOSING
    ensures !Found(addr, size, n) <==> Overlapped(addr, size, n) == INVALID
  {
  }

  // ----- what the map denotes

  /** One traced byte together with the replayed byte and the descriptors it is mapped to. */
  datatype Pair = Pair(traced: Address, replayed: Address, tracedFd: int, replayedFd: int)

  predicate NodeMaps(n: Node, p: Pair) {
    && n.traced <= p.traced < n.traced + n.size
    && p.replayed == Plus(n.replayed, p.traced - n.traced)
    && p.tracedFd == n.tracedFd
    && p.replayedFd == n.replayedFd
  }

  predicate Maps(ns: seq<Node>, p: Pair) {
    exists n :: n in ns && NodeMaps(n, p)
  }

  predicate AllFit(ns: seq<Node>) {
    forall n :: n in ns ==> n.Fits()
  }

  lemma MapsConcat(a: seq<Node>, b: seq<Node>, p: Pair)
    ensures Maps(a + b, p) <==> Maps(a, p) || Maps(b, p)
  {
  }

  lemma PlusAssociative(a: Address, b: Address, c: Address)
    requires b + c < ADDRESS_SPACE
    ensures Plus(Plus(a, b), c) == Plus(a, b + c)
  {
  }

  lemma PlusMinus(a: Address, b: Address, c: Address)
    requires c <= b
    ensures Minus(Plus(a, b), c) == Plus(a, b - c)
  {
  }

  /** The part of `n` from `stop` on, with its replayed addresses. */
  function From(stop: Address, n: Node): Node
    requires n.traced <= stop <= n.traced + n.size
  {
    Node(stop, Plus(n.replayed, stop - n.traced), n.traced + n.size - stop, n.tracedFd, n.replayedFd)
  }

  /** Without wrap-around, the five outcomes of a delete at one node in plain arithmetic. */
  lemma Outcomes(addr: Address, size: Address, n: Node)
    requires n.Fits() && addr + size < ADDRESS_SPACE
    ensures var stop, end := addr + size, n.traced + n.size;
            if addr <= n.traced && end <= stop then Keep(addr, size, n) == [] && Split(addr, size, n) == []
            else if n.traced < addr < end <= stop then
              Keep(addr, size, n) == [n.(size := addr - n.traced)] && Split(addr, size, n) == []
            else if addr <= n.traced < stop < end then
              Keep(addr, size, n) == [From(stop, n)] && Split(addr, size, n) == []
            else if n.traced < addr && stop < end then
              Keep(addr, size, n) == [n.(size := addr - n.traced)] && Split(addr, size, n) == [From(stop, n)]
            else Keep(addr, size, n) == [n] && Split(addr, size, n) == []
  {
    Exclusive(addr, size, n);
    var stop, end := addr + size, n.traced + n.size;
    assert Plus(addr, size) == stop && n.End() == end;
    if addr <= n.traced && end <= stop {
      assert Overlapped(addr, size, n) == ENCLOSED;
    } else if n.traced < addr < end <= stop {
      assert Overlapped(addr, size, n) == LEFT;
      assert Minus(addr, n.traced) == addr - n.traced;
    } else if addr <= n.traced < stop < end {
      assert Overlapped(addr, size, n) == RIGHT;
      var cut := stop - n.traced;
      assert Minus(stop, n.traced) == cut && Minus(n.size, cut) == n.size - cut;
    } else if n.traced < addr && stop < end {
      assert Overlapped(addr, size, n) == ENCLOSING;
      assert Minus(addr, n.traced) == addr - n.traced && Minus(end, stop) == end - stop;
      PlusMinus(n.replayed, stop, n.traced);
    } else {
      assert Overlapped(addr, size, n) == INVALID;
    }
  }

  lemma FromMaps(stop: Address, n: Node, p: Pair)
    requires n.traced <= stop <= n.traced + n.size
    ensures NodeMaps(From(stop, n), p) <==> NodeMaps(n, p) && stop <= p.traced
  {
    if stop <= p.traced < n.traced + n.size {
      PlusAssociative(n.replayed, stop - n.traced, p.traced - stop);
    }
  }

  lemma MapsOne(n: Node, p: Pair)
    ensures Maps([n], p) <==> NodeMaps(n, p)
  {
  }

  lemma NodeDelete(addr: Address, size: Address, n: Node, p: Pair)
    requires n.Fits() && addr + size < ADDRESS_SPACE
    ensures Maps(Keep(addr, size, n), p) || Maps(Split(addr, size, n), p) <==>
            NodeMaps(n, p) && !(addr <= p.traced < addr + size)
    ensures AllFit(Keep(addr, size, n)) && AllFit(Split(addr, size, n))
  {
    Outcomes(addr, size, n);
    MapsOne(n, p);
    if n.traced <= addr {
      MapsOne(n.(size := addr - n.traced), p);
    }
    if n.traced <= addr + size <= n.traced + n.size {
      MapsOne(From(addr + size, n), p);
      FromMaps(addr + size, n, p);
    }
  }

  /** A delete removes exactly the pairs whose traced byte lies in [addr, addr + size) and leaves every
      other pair, with both its descriptors, as it was. */
  lemma {:induction false} DeleteRemovesExactly(addr: Address, size: Address, ns: seq<Node>, p: Pair)
    requires AllFit(ns) && addr + size < ADDRESS_SPACE
    ensures Maps(Delete(addr, size, ns), p) <==> Maps(ns, p) && !(addr <= p.traced < addr + size)
    ensures AllFit(Delete(addr, size, ns))
  {
    var kept, split := KeepAll(addr, size, ns), SplitAll(addr, size, ns);
    MapsConcat(kept, split, p);
    if ns != [] {
      assert ns == [ns[0]] + ns[1..];
      MapsConcat([ns[0]], ns[1..], p);
      assert Maps([ns[0]], p) <==> NodeMaps(ns[0], p);
      NodeDelete(addr, size, ns[0], p);
      DeleteRemovesExactly(addr, size, ns[1..], p);
      MapsConcat(KeepAll(addr, size, ns[1..]), SplitAll(addr, size, ns[1..]), p);
      MapsConcat(Keep(addr, size, ns[0]), KeepAll(addr, size, ns[1..]), p);
      MapsConcat(Split(addr, size, ns[0]), SplitAll(addr, size, ns[1..]), p);
    }
  }

  // ----- runs

  datatype Op = Insert(node: Node) | Remove(addr: Address, size: Address)

  function Apply(op: Op, ns: seq<Node>): seq<Node> {
    match op
    case Insert(n) => ns + [n]
    case Remove(addr, size) => Delete(addr, size, ns)
  }

  /** The node vector after the operations `ops`, in order. */
  function Run(ops: seq<Op>): seq<Node> {
    if ops == [] then [] else Apply(ops[|ops| - 1], Run(ops[..|ops| - 1]))
  }

  predicate NoWrap(ops: seq<Op>) {
    forall op :: op in ops ==>
      match op
      case Insert(n) => n.Fits()
      case Remove(addr, size) => addr + size < ADDRESS_SPACE
  }

  /** The reference: a set of pairs, to which an insert adds the pairs of its node and from which a
      delete takes the pairs of its range. */
  predicate Denoted(ops: seq<Op>, p: Pair) {
    if ops == [] then false
    else
      var before := Denoted(ops[..|ops| - 1], p);
      match ops[|ops| - 1]
      case Insert(n) => before || NodeMaps(n, p)
      case Remove(addr, size) => before && !(addr <= p.traced < addr + size)
  }

  lemma {:induction false} RunDenotes(ops: seq<Op>, p: Pair)
    requires NoWrap(ops)
    ensures Maps(Run(ops), p) <==> Denoted(ops, p)
    ensures AllFit(Run(ops))
  {
    if ops != [] {
      var before, op := ops[..|ops| - 1], ops[|ops| - 1];
      assert op in ops && forall o :: o in before ==> o in ops;
      RunDenotes(before, p);
      match op
      case Insert(n) =>
        MapsConcat(Run(before), [n], p);
        assert Maps([n], p) <==> NodeMaps(n, p);
      case Remove(addr, size) =>
        DeleteRemovesExactly(addr, size, Run(before), p);
    }
  }

  /** Without the no-wrap condition the refinement is false: a range that runs past the end of the
      address space misses a node it covers. */
  lemma WrappedDeleteMissesItsRange()
    ensures var n := Node(0x1000, 0x9000, 0x1000, 3, 4);
            var addr, size := 0x800, ADDRESS_SPACE - 0x100;
            var p := Pair(0x1000, 0x9000, 3, 4);
            && n.Fits() && addr <= p.traced < addr + size
            && Maps([n], p) && Maps(Delete(addr, size, [n]), p)
  {
    var n := Node(0x1000, 0x9000, 0x1000, 3, 4);
    var addr, size := 0x800, ADDRESS_SPACE - 0x100;
    assert Plus(addr, size) == 0x700;
    assert !Found(addr, size, n);
    Exclusive(addr, size, n);
    assert KeepAll(addr, size, [n]) == [n] + KeepAll(addr, size, []);
    assert SplitAll(addr, size, [n]) == [] + SplitAll(addr, size, []);
    assert n in Delete(addr, size, [n]);
    assert n in [n];
    assert NodeMaps(n, Pair(0x1000, 0x9000, 3, 4));
  }

  // ----- exactly when a delete is right

  /** The delete takes from the node the pairs of its range and no others. */
  ghost predicate DeletesExactly(addr: Address, size: Address, n: Node) {
    forall p :: Left(addr, size, n, p) <==> NodeMaps(n, p) && !(addr <= p.traced < addr + size)
  }

  /** What is left of the node maps `p`. */
  predicate Left(addr: Address, size: Address, n: Node, p: Pair) {
    Maps(Keep(addr, size, n), p) || Maps(Split(addr, size, n), p)
  }

  /** The right part that the code computes when the range wraps around to `stop`. */
  function Stray(stop: Address, n: Node): Node {
    Node(stop, Minus(Plus(n.replayed, stop), n.traced), Minus(n.End(), stop), n.tracedFd, n.replayedFd)
  }

  lemma WrappedOutcome(addr: Address, size: Address, n: Node, p: Pair)
    requires n.Fits() && n.size > 0 && addr + size >= ADDRESS_SPACE
    ensures var stop := addr + size - ADDRESS_SPACE;
            Left(addr, size, n, p) <==>
            if n.traced < addr && stop < n.traced + n.size
            then NodeMaps(n.(size := addr - n.traced), p) || NodeMaps(Stray(stop, n), p)
            else NodeMaps(n, p)
  {
    var stop := addr + size - ADDRESS_SPACE;
    assert Plus(addr, size) == stop && n.End() == n.traced + n.size;
    Exclusive(addr, size, n);
    if n.traced < addr && stop < n.traced + n.size {
      assert Overlapped(addr, size, n) == ENCLOSING;
      assert Minus(addr, n.traced) == addr - n.traced;
      MapsOne(n.(size := addr - n.traced), p);
      MapsOne(Stray(stop, n), p);
    } else {
      assert Overlapped(addr, size, n) == INVALID;
      MapsOne(n, p);
    }
  }

  lemma StrayMaps(stop: Address, n: Node, traced: Address)
    requires n.Fits() && stop <= traced < n.traced + n.size
    ensures NodeMaps(Stray(stop, n),
                     Pair(traced, Plus(Stray(stop, n).replayed, traced - stop), n.tracedFd, n.replayedFd))
  {
  }

  /** A pair that shows that a wrapped delete is wrong at the node. */
  lemma WrappedDeleteFails(addr: Address, size: Address, n: Node)
    requires n.Fits() && n.size > 0 && addr + size >= ADDRESS_SPACE
    requires var stop, end := addr + size - ADDRESS_SPACE, n.traced + n.size;
             end > stop && !(end == addr && n.traced <= stop)
    ensures !DeletesExactly(addr, size, n)
  {
    var stop, end := addr + size - ADDRESS_SPACE, n.traced + n.size;
    var p;
    if addr <= n.traced {
      p := Pair(n.traced, n.replayed, n.tracedFd, n.replayedFd);
    } else if end < addr {
      p := Pair(end, Plus(n.replayed, end - n.traced), n.tracedFd, n.replayedFd);
    } else {
      var traced := if addr < end then end - 1 else stop;
      StrayMaps(stop, n, traced);
      p := Pair(traced, Plus(Stray(stop, n).replayed, traced - stop), n.tracedFd, n.replayedFd);
    }
    WrappedOutcome(addr, size, n, p);
    assert Left(addr, size, n, p) && !(NodeMaps(n, p) && !(addr <= p.traced < addr + size));
  }

  lemma StrayIsFrom(stop: Address, n: Node)
    requires n.Fits() && n.traced <= stop <= n.traced + n.size
    ensures Stray(stop, n) == From(stop, n)
  {
    assert Minus(n.End(), stop) == n.traced + n.size - stop;
    PlusMinus(n.replayed, stop, n.traced);
  }

  lemma WrappedDeleteHolds(addr: Address, size: Address, n: Node, p: Pair)
    requires n.Fits() && n.size > 0 && addr + size >= ADDRESS_SPACE
    requires var stop, end := addr + size - ADDRESS_SPACE, n.traced + n.size;
             end <= stop || (end == addr && n.traced <= stop)
    ensures Left(addr, size, n, p) <==> NodeMaps(n, p) && !(addr <= p.traced < addr + size)
  {
    hide Left, Stray, From, Plus, Minus;
    var stop, end := addr + size - ADDRESS_SPACE, n.traced + n.size;
    WrappedOutcome(addr, size, n, p);
    if n.traced <= stop < end {
      StrayIsFrom(stop, n);
      FromMaps(stop, n, p);
    }
  }

  /** A delete is exact at a non-empty node if and only if its range does not run past the end of the
      address space, or the node lies below the wrapped end, or it ends where the range starts and the
      wrapped end is not before it. */
  lemma DeleteExactIff(addr: Address, size: Address, n: Node)
    requires n.Fits() && n.size > 0
    ensures DeletesExactly(addr, size, n) <==>
            var stop, end := addr + size - ADDRESS_SPACE, n.traced + n.size;
            stop < 0 || end <= stop || (end == addr && n.traced <= stop)
  {
    hide Keep, Split;
    var stop, end := addr + size - ADDRESS_SPACE, n.traced + n.size;
    if stop < 0 {
      forall p
        ensures Left(addr, size, n, p) <==> NodeMaps(n, p) && !(addr <= p.traced < addr + size)
      {
        NodeDelete(addr, size, n, p);
      }
    } else if end <= stop || (end == addr && n.traced <= stop) {
      forall p
        ensures Left(addr, size, n, p) <==> NodeMaps(n, p) && !(addr <= p.traced < addr + size)
      {
        WrappedDeleteHolds(addr, size, n, p);
      }
    } else {
      WrappedDeleteFails(addr, size, n);
    }
  }

  // ----- and on a whole map

  /** A delete takes from the map the pairs of its range and no others. */
  ghost predicate DeletesAllExactly(addr: Address, size: Address, ns: seq<Node>) {
    forall p :: Maps(Delete(addr, size, ns), p) <==> Maps(ns, p) && !(addr <= p.traced < addr + size)
  }

  /** Where the offset of the node puts a traced byte, in the node or not. */
  function Image(n: Node, traced: Address): Pair {
    Pair(traced, (n.replayed + traced - n.traced) % ADDRESS_SPACE, n.tracedFd, n.replayedFd)
  }

  predicate Between(n: Node, lo: int, hi: int, p: Pair) {
    lo <= p.traced < hi && p == Image(n, p.traced)
  }

  lemma NodeIsBetween(n: Node, p: Pair)
    ensures NodeMaps(n, p) <==> Between(n, n.traced, n.traced + n.size, p)
  {
  }

  lemma ShiftTwice(r: int, stop: int, traced: int, t: int)
    ensures (((r + stop) % ADDRESS_SPACE - traced) % ADDRESS_SPACE + (t - stop)) % ADDRESS_SPACE
            == (r + t - traced) % ADDRESS_SPACE
  {
    var q := (r + stop) / ADDRESS_SPACE;
    assert (r + stop) % ADDRESS_SPACE == r + stop - q * ADDRESS_SPACE;
    var q' := ((r + stop) % ADDRESS_SPACE - traced) / ADDRESS_SPACE;
    assert ((r + stop) % ADDRESS_SPACE - traced) % ADDRESS_SPACE
        == r + stop - traced - (q + q') * ADDRESS_SPACE;
    SameRest(r + t - traced, q + q');
  }

  lemma SameRest(x: int, q: int)
    ensures (x - q * ADDRESS_SPACE) % ADDRESS_SPACE == x % ADDRESS_SPACE
  {
  }

  lemma StrayIsBetween(stop: Address, n: Node, p: Pair)
    requires n.Fits() && stop < n.traced + n.size
    ensures NodeMaps(Stray(stop, n), p) <==> Between(n, stop, n.traced + n.size, p)
  {
    assert n.End() == n.traced + n.size && Minus(n.End(), stop) == n.traced + n.size - stop;
    ShiftTwice(n.replayed, stop, n.traced, p.traced);
  }

  /** What a wrapped delete leaves of a node that it cuts: all bytes from the lower of its start and the
      wrapped end to the higher of its end and the start of the range, with the offset of the node. */
  lemma WrappedLeft(addr: Address, size: Address, n: Node, p: Pair)
    requires n.Fits() && n.size > 0 && addr + size >= ADDRESS_SPACE
    ensures var stop, end := addr + size - ADDRESS_SPACE, n.traced + n.size;
            Left(addr, size, n, p) <==>
            if n.traced < addr && stop < end
            then Between(n, if stop < n.traced then stop else n.traced, if addr < end then end else addr, p)
            else NodeMaps(n, p)
  {
    var stop, end := addr + size - ADDRESS_SPACE, n.traced + n.size;
    WrappedOutcome(addr, size, n, p);
    if n.traced < addr && stop < end {
      NodeIsBetween(n.(size := addr - n.traced), p);
      StrayIsBetween(stop, n, p);
    }
    hide Left, NodeMaps, Stray;
  }

  /** What is left of a map is what is left of its nodes. */
  lemma {:induction false} DeleteIsUnion(addr: Address, size: Address, ns: seq<Node>, p: Pair)
    ensures Maps(Delete(addr, size, ns), p) <==> exists n :: n in ns && Left(addr, size, n, p)
    decreases |ns|
  {
    MapsConcat(KeepAll(addr, size, ns), SplitAll(addr, size, ns), p);
    if ns != [] {
      assert ns == [ns[0]] + ns[1..];
      DeleteIsUnion(addr, size, ns[1..], p);
      MapsConcat(KeepAll(addr, size, ns[1..]), SplitAll(addr, size, ns[1..]), p);
      MapsConcat(Keep(addr, size, ns[0]), KeepAll(addr, size, ns[1..]), p);
      MapsConcat(Split(addr, size, ns[0]), SplitAll(addr, size, ns[1..]), p);
      assert Maps(Delete(addr, size, ns), p) <==> Left(addr, size, ns[0], p) || Maps(Delete(addr, size, ns[1..]), p);
      hide Delete, Left;
      forall n
        ensures n in ns <==> n == ns[0] || n in ns[1..]
      {
      }
    }
  }

  /** No node goes beyond the start of the range, and a node that ends after the wrapped end finds every byte
      from there, or from its own start, to the start of the range mapped with its own offset. */
  ghost predicate FilledUp(addr: Address, stop: int, ns: seq<Node>) {
    forall n :: n in ns ==>
      && n.traced + n.size <= addr
      && (n.traced + n.size > stop ==>
            forall t: Address :: (stop <= t || n.traced <= t) && t < addr ==> Maps(ns, Image(n, t)))
  }

  lemma FilledUpDeletes(addr: Address, size: Address, ns: seq<Node>, p: Pair)
    requires AllFit(ns) && NonEmpty(ns) && addr + size >= ADDRESS_SPACE
    requires FilledUp(addr, addr + size - ADDRESS_SPACE, ns)
    ensures Maps(Delete(addr, size, ns), p) <==> Maps(ns, p) && !(addr <= p.traced < addr + size)
  {
    hide Delete, Left;
    DeleteIsUnion(addr, size, ns, p);
    forall n | n in ns
      ensures NodeMaps(n, p) ==> p.traced < addr
      ensures NodeMaps(n, p) ==> Left(addr, size, n, p)
      ensures Left(addr, size, n, p) ==> Maps(ns, p)
    {
      WrappedLeft(addr, size, n, p);
      NodeIsBetween(n, p);
      hide NodeMaps;
      if NodeMaps(n, p) {
        assert Maps(ns, p);
      }
    }
  }

  /** A pair that shows that a wrapped delete is wrong on a map that is not filled up. */
  lemma NotFilledUpFails(addr: Address, size: Address, ns: seq<Node>)
    requires AllFit(ns) && NonEmpty(ns) && addr + size >= ADDRESS_SPACE
    requires !FilledUp(addr, addr + size - ADDRESS_SPACE, ns)
    ensures !DeletesAllExactly(addr, size, ns)
  {
    var stop := addr + size - ADDRESS_SPACE;
    var n :| n in ns && !(n.traced + n.size <= addr
                          && (n.traced + n.size > stop ==>
                                forall t: Address :: (stop <= t || n.traced <= t) && t < addr ==>
                                    Maps(ns, Image(n, t))));
    var end, p := n.traced + n.size, Image(n, n.traced);
    if end > addr {
      p := Image(n, end - 1);
      NodeIsBetween(n, p);
      assert Maps(ns, p) && addr <= p.traced < addr + size;
    } else {
      var t: Address :| (stop <= t || n.traced <= t) && t < addr && !Maps(ns, Image(n, t));
      p := Image(n, t);
    }
    hide Delete, Left, Maps;
    WrappedLeft(addr, size, n, p);
    NodeIsBetween(n, p);
    DeleteIsUnion(addr, size, ns, p);
  }

  /** A delete is right on a map if and only if its range does not run past the end of the address space, or
      the map is filled up to its start. */
  lemma MapDeleteExactIff(addr: Address, size: Address, ns: seq<Node>)
    requires AllFit(ns) && NonEmpty(ns)
    ensures DeletesAllExactly(addr, size, ns) <==>
            var stop := addr + size - ADDRESS_SPACE; stop < 0 || FilledUp(addr, stop, ns)
  {
    hide Delete, Maps, FilledUp, NonEmpty;
    if addr + size < ADDRESS_SPACE {
      forall p
        ensures Maps(Delete(addr, size, ns), p) <==> Maps(ns, p) && !(addr <= p.traced < addr + size)
      {
        DeleteRemovesExactly(addr, size, ns, p);
      }
    } else if FilledUp(addr, addr + size - ADDRESS_SPACE, ns) {
      forall p
        ensures Maps(Delete(addr, size, ns), p) <==> Maps(ns, p) && !(addr <= p.traced < addr + size)
      {
        FilledUpDeletes(addr, size, ns, p);
      }
    } else {
      NotFilledUpFails(addr, size, ns);
    }
  }

  // ----- structure: non-empty, pairwise disjoint, and how the size changes

  predicate Disjoint(a: Node, b: Node) {
    a.traced + a.size <= b.traced || b.traced + b.size <= a.traced
  }

  predicate Separate(ns: seq<Node>) {
    forall i, j :: 0 <= i < j < |ns| ==> Disjoint(ns[i], ns[j])
  }

  predicate NonEmpty(ns: seq<Node>) {
    forall n :: n in ns ==> n.size > 0
  }

  function Total(ns: seq<Node>): nat {
    if ns == [] then 0 else ns[0].size + Total(ns[1..])
  }

  /** Number of bytes of `n` in [addr, addr + size). */
  function Common(addr: Address, size: Address, n: Node): nat {
    var lo := if addr > n.traced then addr else n.traced;
    var hi := if addr + size < n.traced + n.size then addr + size else n.traced + n.size;
    if lo < hi then hi - lo else 0
  }

  function CommonTotal(addr: Address, size: Address, ns: seq<Node>): nat {
    if ns == [] then 0 else Common(addr, size, ns[0]) + CommonTotal(addr, size, ns[1..])
  }

  /** `part` covers only bytes that `whole` covers. */
  predicate Within(part: Node, whole: Node) {
    whole.traced <= part.traced && part.traced + part.size <= whole.traced + whole.size
  }

  /** All parts are non-empty pieces of nodes in `ns`. */
  predicate PiecesOf(parts: seq<Node>, ns: seq<Node>) {
    forall part :: part in parts ==> part.size > 0 && exists n :: n in ns && Within(part, n)
  }

  lemma NodePieces(addr: Address, size: Address, n: Node)
    requires n.Fits() && n.size > 0 && addr + size < ADDRESS_SPACE
    ensures PiecesOf(Keep(addr, size, n), [n]) && PiecesOf(Split(addr, size, n), [n])
    ensures |Keep(addr, size, n)| <= 1 && |Split(addr, size, n)| <= 1
    ensures forall x, y :: x in Keep(addr, size, n) && y in Split(addr, size, n) ==> Disjoint(x, y)
    ensures Split(addr, size, n) != [] ==> n.traced < addr && addr + size < n.traced + n.size
    ensures Total(Keep(addr, size, n)) + Total(Split(addr, size, n)) + Common(addr, size, n) == n.size
  {
    Outcomes(addr, size, n);
    assert n in [n];
  }

  lemma PiecesSeparate(a: seq<Node>, whole: Node, b: seq<Node>, ns: seq<Node>)
    requires PiecesOf(a, [whole]) && PiecesOf(b, ns)
    requires forall n :: n in ns ==> Disjoint(whole, n)
    ensures forall x, y :: x in a && y in b ==> Disjoint(x, y)
  {
  }

  lemma {:induction false} TotalConcat(a: seq<Node>, b: seq<Node>)
    ensures Total(a + b) == Total(a) + Total(b)
  {
    if a == [] {
      assert a + b == b;
    } else {
      assert (a + b)[1..] == a[1..] + b;
      TotalConcat(a[1..], b);
    }
  }

  lemma SeparateConcat(a: seq<Node>, b: seq<Node>)
    requires Separate(a) && Separate(b)
    requires forall x, y :: x in a && y in b ==> Disjoint(x, y)
    ensures Separate(a + b)
  {
  }

  lemma PiecesConcat(a: seq<Node>, whole: Node, b: seq<Node>, ns: seq<Node>)
    requires PiecesOf(a, [whole]) && PiecesOf(b, ns)
    ensures PiecesOf(a + b, [whole] + ns)
  {
  }

  /** Some node strictly contains the range. */
  predicate Straddled(addr: Address, size: Address, ns: seq<Node>) {
    exists n :: n in ns && n.traced < addr && addr + size < n.traced + n.size
  }

  lemma StraddledOnce(addr: Address, size: Address, n: Node, rest: seq<Node>)
    requires forall m :: m in rest ==> Disjoint(n, m)
    requires n.traced < addr && addr + size < n.traced + n.size
    ensures !Straddled(addr, size, rest)
  {
  }

  lemma SeparateTail(ns: seq<Node>)
    requires ns != [] && Separate(ns)
    ensures Separate(ns[1..]) && forall m :: m in ns[1..] ==> Disjoint(ns[0], m)
  {
  }

  /** The kept parts and the split parts separately: pieces of the old nodes, disjoint within and
      across; a split comes from a node that strictly contains the range, of which there is one. */
  lemma {:induction false} PartsStructure(addr: Address, size: Address, ns: seq<Node>)
    requires AllFit(ns) && NonEmpty(ns) && Separate(ns) && addr + size < ADDRESS_SPACE
    ensures var kept, split := KeepAll(addr, size, ns), SplitAll(addr, size, ns);
            && PiecesOf(kept, ns) && PiecesOf(split, ns)
            && Separate(kept) && Separate(split)
            && (forall x, y :: x in kept && y in split ==> Disjoint(x, y))
            && |kept| <= |ns| && |split| <= 1
            && (split != [] ==> Straddled(addr, size, ns))
            && Total(kept) + Total(split) + CommonTotal(addr, size, ns) == Total(ns)
  {
    if ns != [] {
      var n, rest := ns[0], ns[1..];
      assert ns == [n] + rest;
      SeparateTail(ns);
      PartsStructure(addr, size, rest);
      NodePieces(addr, size, n);
      hide Keep, Split, Disjoint, PiecesOf, Separate;
      var k0, s0 := Keep(addr, size, n), Split(addr, size, n);
      var k1, s1 := KeepAll(addr, size, rest), SplitAll(addr, size, rest);
      PiecesConcat(k0, n, k1, rest);
      PiecesConcat(s0, n, s1, rest);
      PiecesSeparate(k0, n, k1, rest);
      PiecesSeparate(k0, n, s1, rest);
      PiecesSeparate(s0, n, k1, rest);
      PiecesSeparate(s0, n, s1, rest);
      SeparateShort(k0);
      SeparateShort(s0);
      SeparateConcat(k0, k1);
      SeparateConcat(s0, s1);
      TotalConcat(k0, k1);
      TotalConcat(s0, s1);
      if s0 != [] {
        StraddledOnce(addr, size, n, rest);
      }
      CrossDisjoint(k0, k1, s0, s1);
    }
  }

  lemma SeparateShort(ns: seq<Node>)
    requires |ns| <= 1
    ensures Separate(ns)
  {
  }

  lemma CrossDisjoint(k0: seq<Node>, k1: seq<Node>, s0: seq<Node>, s1: seq<Node>)
    requires forall x, y :: x in k0 && y in s0 ==> Disjoint(x, y)
    requires forall x, y :: x in k0 && y in s1 ==> Disjoint(x, y)
    requires forall x, y :: x in s0 && y in k1 ==> Disjoint(x, y)
    requires forall x, y :: x in k1 && y in s1 ==> Disjoint(x, y)
    ensures forall x, y :: x in k0 + k1 && y in s0 + s1 ==> Disjoint(x, y)
  {
  }

  /** A delete keeps the nodes non-empty and pairwise disjoint, adds at most one node, and takes exactly
      the overlap away from the total mapped size. */
  lemma DeleteKeepsStructure(addr: Address, size: Address, ns: seq<Node>)
    requires AllFit(ns) && NonEmpty(ns) && Separate(ns) && addr + size < ADDRESS_SPACE
    ensures var after := Delete(addr, size, ns);
            && NonEmpty(after) && Separate(after)
            && |after| <= |ns| + 1
            && Total(after) == Total(ns) - CommonTotal(addr, size, ns)
  {
    PartsStructure(addr, size, ns);
    SeparateConcat(KeepAll(addr, size, ns), SplitAll(addr, size, ns));
    TotalConcat(KeepAll(addr, size, ns), SplitAll(addr, size, ns));
  }

  // ----- reading through the map

  /** The address the replayer reads for traced pointer `ptr` through a node it found. */
  function Translate(ptr: Address, n: Node): Address {
    Plus(n.replayed, Minus(ptr, n.traced))
  }

  const WORD: Address := 8

  /** A node found for the 8 bytes at `ptr` yields an address that the map pairs with `ptr` if and only
      if the node starts at or before `ptr`; a node that starts inside the 8 bytes is found too, and
      the address computed through it lies outside that node's replayed range. */
  lemma TranslationMeaning(ptr: Address, n: Node)
    requires n.Fits() && n.size > 0 && ptr + WORD < ADDRESS_SPACE
    requires Found(ptr, WORD, n)
    ensures NodeMaps(n, Pair(ptr, Translate(ptr, n), n.tracedFd, n.replayedFd)) <==> n.traced <= ptr
    ensures n.traced > ptr ==>
              forall off: Address :: off < n.size ==>
                  Translate(ptr, n) != Plus(n.replayed, off) || n.size > ADDRESS_SPACE - WORD
  {
    OverlapTestsClassify(ptr, WORD, n);
    if n.traced > ptr {
      forall off: Address | off < n.size && n.size <= ADDRESS_SPACE - WORD
        ensures Translate(ptr, n) != Plus(n.replayed, off)
      {
        var back := n.traced - ptr;
        assert 0 < back < WORD;
        assert Minus(ptr, n.traced) == ADDRESS_SPACE - back;
        PlusInjective(n.replayed, ADDRESS_SPACE - back, off);
      }
    }
  }

  lemma PlusInjective(a: Address, b: Address, c: Address)
    ensures Plus(a, b) == Plus(a, c) ==> b == c
  {
  }

  lemma TranslateIsMapped(ptr: Address, n: Node, r: Address)
    ensures (exists f, g :: NodeMaps(n, Pair(ptr, r, f, g))) <==>
            n.traced <= ptr < n.traced + n.size && Translate(ptr, n) == r
  {
    if n.traced <= ptr < n.traced + n.size && Translate(ptr, n) == r {
      assert NodeMaps(n, Pair(ptr, r, n.tracedFd, n.replayedFd));
    }
  }

  /** Some node of the map contains `ptr` and translates it to `r`. */
  predicate Translates(ns: seq<Node>, ptr: Address, r: Address) {
    exists n :: n in ns && n.traced <= ptr < n.traced + n.size && Translate(ptr, n) == r
  }

  lemma TranslatesMeansMapped(ns: seq<Node>, ptr: Address, r: Address)
    ensures Translates(ns, ptr, r) <==> exists f, g :: Maps(ns, Pair(ptr, r, f, g))
  {
    if Translates(ns, ptr, r) {
      var n :| n in ns && n.traced <= ptr < n.traced + n.size && Translate(ptr, n) == r;
      TranslateIsMapped(ptr, n, r);
      assert Maps(ns, Pair(ptr, r, n.tracedFd, n.replayedFd));
    }
    if f, g :| Maps(ns, Pair(ptr, r, f, g)) {
      var n :| n in ns && NodeMaps(n, Pair(ptr, r, f, g));
      TranslateIsMapped(ptr, n, r);
    }
  }

  /** The translation of a traced address that a delete does not remove is the same before and after;
      a removed address has none. */
  lemma DeleteKeepsTranslation(addr: Address, size: Address, ns: seq<Node>, ptr: Address, r: Address)
    requires AllFit(ns) && addr + size < ADDRESS_SPACE
    ensures Translates(Delete(addr, size, ns), ptr, r) <==> Translates(ns, ptr, r) && !(addr <= ptr < addr + size)
  {
    TranslatesMeansMapped(ns, ptr, r);
    TranslatesMeansMapped(Delete(addr, size, ns), ptr, r);
    forall f, g
      ensures Maps(Delete(addr, size, ns), Pair(ptr, r, f, g)) <==>
              Maps(ns, Pair(ptr, r, f, g)) && !(addr <= ptr < addr + size)
    {
      DeleteRemovesExactly(addr, size, ns, Pair(ptr, r, f, g));
    }
  }

  /** The addresses that an mmapped read at `ptr` dereferences, one for each node it finds. */
  function Lookups(ptr: Address, ns: seq<Node>): seq<Address> {
    if ns == [] then []
    else (if Found(ptr, WORD, ns[0]) then [Translate(ptr, ns[0])] else []) + Lookups(ptr, ns[1..])
  }

  lemma CoveringIsFound(ptr: Address, n: Node)
    requires n.Fits() && n.traced <= ptr < n.traced + n.size && ptr + WORD < ADDRESS_SPACE
    ensures Found(ptr, WORD, n) && Translate(ptr, n) == Plus(n.replayed, ptr - n.traced)
  {
    OverlapTestsClassify(ptr, WORD, n);
  }

  /** Every address that the map pairs with `ptr` is among them. */
  lemma {:induction false} MappedIsRead(ptr: Address, ns: seq<Node>, p: Pair)
    requires AllFit(ns) && ptr + WORD < ADDRESS_SPACE && Maps(ns, p) && p.traced == ptr
    ensures p.replayed in Lookups(ptr, ns)
  {
    var n, rest := ns[0], ns[1..];
    hide Found, Translate;
    if NodeMaps(n, p) {
      CoveringIsFound(ptr, n);
    } else {
      var m :| m in ns && NodeMaps(m, p);
      assert m in rest;
      MappedIsRead(ptr, rest, p);
    }
  }

  /** They are the translations of `ptr`, and besides them one for every node that starts after `ptr`
      but within the word. */
  lemma {:induction false} LookupMeaning(ptr: Address, ns: seq<Node>, r: Address)
    requires AllFit(ns) && NonEmpty(ns) && ptr + WORD < ADDRESS_SPACE
    ensures r in Lookups(ptr, ns) <==>
            || Translates(ns, ptr, r)
            || exists n :: n in ns && ptr < n.traced < ptr + WORD && Translate(ptr, n) == r
  {
    if ns != [] {
      var n, rest := ns[0], ns[1..];
      LookupMeaning(ptr, rest, r);
      OverlapTestsClassify(ptr, WORD, n);
      assert Found(ptr, WORD, n) <==> n.traced < ptr + WORD && ptr < n.traced + n.size;
      assert r in Lookups(ptr, ns) <==> (Found(ptr, WORD, n) && Translate(ptr, n) == r) || r in Lookups(ptr, rest);
      assert forall m :: m in ns <==> m == n || m in rest;
    }
  }
}
