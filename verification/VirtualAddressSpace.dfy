/** The heap side of the address map: nodes are mutable objects, a `VmArea` holds a vector of them, and
    the `VmManager` one area per traced process. Every method is tied to the functions of AddressMap.
  */
module VirtualAddressSpace {
  import opened AddressMap
  import Descriptors

  class VmNode {
    var traced: Address
    var replayed: Address
    var size: Address
    const tracedFd: int
    const replayedFd: int

    constructor (traced: Address, replayed: Address, size: Address, tracedFd: int, replayedFd: int)
      ensures Value() == Node(traced, replayed, size, tracedFd, replayedFd)
    {
      this.traced, this.replayed, this.size := traced, replayed, size;
      this.tracedFd, this.replayedFd := tracedFd, replayedFd;
    }

    function Value(): Node
      reads this
    {
      Node(traced, replayed, size, tracedFd, replayedFd)
    }
  }

  function Values(nodes: seq<VmNode>): (ns: seq<Node>)
    reads nodes
    ensures |ns| == |nodes| && forall i :: 0 <= i < |nodes| ==> ns[i] == nodes[i].Value()
  {
    seq(|nodes|, i requires 0 <= i < |nodes| reads nodes => nodes[i].Value())
  }

  ghost predicate Distinct(nodes: seq<VmNode>) {
    forall i, j :: 0 <= i < j < |nodes| ==> nodes[i] != nodes[j]
  }

  lemma DistinctParts(before: seq<VmNode>, node: VmNode, after: seq<VmNode>)
    requires Distinct(before + [node] + after)
    ensures node !in before && node !in after && Distinct(before + after)
  {
    var s := before + [node] + after;
    assert s[|before|] == node;
    forall i | 0 <= i < |before|
      ensures before[i] != node
    {
      assert s[i] == before[i];
    }
    forall i | 0 <= i < |after|
      ensures after[i] != node
    {
      assert s[|before| + 1 + i] == after[i];
    }
    forall i, j | 0 <= i < j < |before + after|
      ensures (before + after)[i] != (before + after)[j]
    {
      assert (before + after)[i] == s[if i < |before| then i else i + 1];
      assert (before + after)[j] == s[if j < |before| then j else j + 1];
    }
  }

  /** The nodes that a search for [addr, addr + size) copies, in vector order. */
  function Matching(addr: Address, size: Address, nodes: seq<VmNode>): (found: seq<VmNode>)
    reads nodes
    ensures |found| <= |nodes|
    ensures forall x :: x in found ==> x in nodes
  {
    if nodes == [] then []
    else (if Found(addr, size, nodes[0].Value()) then [nodes[0]] else []) + Matching(addr, size, nodes[1..])
  }

  lemma {:induction false} MatchingConcat(addr: Address, size: Address, a: seq<VmNode>, b: seq<VmNode>)
    ensures Matching(addr, size, a + b) == Matching(addr, size, a) + Matching(addr, size, b)
  {
    if a == [] {
      assert a + b == b;
    } else {
      assert (a + b)[1..] == a[1..] + b;
      MatchingConcat(addr, size, a[1..], b);
    }
  }

  /** Membership in the search result is membership in the vector plus the overlap tests. */
  lemma {:induction false} MatchingMembers(addr: Address, size: Address, nodes: seq<VmNode>)
    ensures forall x :: x in Matching(addr, size, nodes) <==> x in nodes && Found(addr, size, x.Value())
  {
    if nodes != [] {
      MatchingMembers(addr, size, nodes[1..]);
      assert nodes == [nodes[0]] + nodes[1..];
    }
  }

  lemma {:induction false} KeepAllConcat(addr: Address, size: Address, a: seq<Node>, b: seq<Node>)
    ensures KeepAll(addr, size, a + b) == KeepAll(addr, size, a) + KeepAll(addr, size, b)
    ensures SplitAll(addr, size, a + b) == SplitAll(addr, size, a) + SplitAll(addr, size, b)
  {
    hide Keep, Split;
    if a == [] {
      assert a + b == b;
    } else {
      assert (a + b)[1..] == a[1..] + b && (a + b)[0] == a[0];
      KeepAllConcat(addr, size, a[1..], b);
      assert KeepAll(addr, size, a + b) == Keep(addr, size, a[0]) + KeepAll(addr, size, a[1..] + b);
      assert SplitAll(addr, size, a + b) == Split(addr, size, a[0]) + SplitAll(addr, size, a[1..] + b);
    }
  }

  lemma AppendValue(addr: Address, size: Address, done: seq<Node>, n: Node)
    ensures KeepAll(addr, size, done + [n]) == KeepAll(addr, size, done) + Keep(addr, size, n)
    ensures SplitAll(addr, size, done + [n]) == SplitAll(addr, size, done) + Split(addr, size, n)
  {
    KeepAllConcat(addr, size, done, [n]);
    assert KeepAll(addr, size, [n]) == Keep(addr, size, n) + KeepAll(addr, size, []);
    assert SplitAll(addr, size, [n]) == Split(addr, size, n) + SplitAll(addr, size, []);
  }

  lemma {:induction false} NothingFoundNothingChanges(addr: Address, size: Address, ns: seq<Node>)
    requires forall n :: n in ns ==> !Found(addr, size, n)
    ensures KeepAll(addr, size, ns) == ns && SplitAll(addr, size, ns) == []
  {
    if ns != [] {
      Exclusive(addr, size, ns[0]);
      NothingFoundNothingChanges(addr, size, ns[1..]);
    }
  }

  /** The first match splits the vector: nothing before it matches. */
  lemma {:induction false} FirstMatch(addr: Address, size: Address, nodes: seq<VmNode>)
    returns (before: seq<VmNode>, after: seq<VmNode>)
    requires Matching(addr, size, nodes) != []
    ensures var node := Matching(addr, size, nodes)[0];
            && nodes == before + [node] + after
            && Matching(addr, size, before) == [] && Found(addr, size, node.Value())
            && Matching(addr, size, nodes) == [node] + Matching(addr, size, after)
    ensures forall n :: n in before || n in after ==> n in nodes
  {
    if Found(addr, size, nodes[0].Value()) {
      before, after := [], nodes[1..];
    } else {
      before, after := FirstMatch(addr, size, nodes[1..]);
      before := [nodes[0]] + before;
      assert before[1..] == before[1..];
    }
  }

  /** Nodes that do not match count as processed without any change. */
  lemma Skip(addr: Address, size: Address, done: seq<Node>, skipped: seq<VmNode>)
    requires Matching(addr, size, skipped) == []
    ensures KeepAll(addr, size, done + Values(skipped)) == KeepAll(addr, size, done) + Values(skipped)
    ensures SplitAll(addr, size, done + Values(skipped)) == SplitAll(addr, size, done)
  {
    KeepAllConcat(addr, size, done, Values(skipped));
    MatchingMembers(addr, size, skipped);
    forall n | n in Values(skipped)
      ensures !Found(addr, size, n)
    {
      var i :| 0 <= i < |skipped| && Values(skipped)[i] == n;
      assert skipped[i] in skipped;
    }
    NothingFoundNothingChanges(addr, size, Values(skipped));
  }

  lemma ValuesConcat(a: seq<VmNode>, b: seq<VmNode>)
    ensures Values(a + b) == Values(a) + Values(b)
  {
  }

  lemma ValuesAround(done: seq<Node>, skipped: seq<VmNode>, node: VmNode, after: seq<VmNode>)
    ensures done + Values(skipped + [node] + after) == (done + Values(skipped) + [node.Value()]) + Values(after)
  {
  }

  /** A search result: the matching nodes, and then null pointers up to the length of the vector. */
  ghost predicate Padded(result: seq<VmNode?>, found: seq<VmNode>) {
    && |found| <= |result|
    && (forall j :: 0 <= j < |found| ==> result[j] == found[j])
    && (forall j :: |found| <= j < |result| ==> result[j] == null)
  }

  lemma PaddedAt(result: seq<VmNode?>, found: seq<VmNode>, k: nat)
    requires Padded(result, found)
    ensures |found| <= |result|
    ensures k < |result| ==> if k < |found| then result[k] == found[k] else result[k] == null
  {
  }

  ghost predicate Inside(nodes: seq<VmNode>, s: set<VmNode>) {
    forall n :: n in nodes ==> n in s
  }

  lemma InsideHas(nodes: seq<VmNode>, s: set<VmNode>, n: VmNode)
    requires Inside(nodes, s) && n in nodes
    ensures n in s
  {
  }

  function TranslateAll(ptr: Address, nodes: seq<VmNode>): seq<Address>
    reads nodes
  {
    if nodes == [] then []
    else TranslateAll(ptr, nodes[..|nodes| - 1]) + [Translate(ptr, nodes[|nodes| - 1].Value())]
  }

  lemma {:induction false} MatchingLookups(ptr: Address, nodes: seq<VmNode>)
    ensures TranslateAll(ptr, Matching(ptr, WORD, nodes)) == Lookups(ptr, Values(nodes))
  {
    if nodes != [] {
      MatchingLookups(ptr, nodes[1..]);
      assert Values(nodes)[1..] == Values(nodes[1..]);
      assert Values(nodes)[0] == nodes[0].Value();
      var rest := Matching(ptr, WORD, nodes[1..]);
      if Found(ptr, WORD, nodes[0].Value()) {
        PrependTranslation(ptr, nodes[0], rest);
        assert Matching(ptr, WORD, nodes) == [nodes[0]] + rest;
      } else {
        assert Matching(ptr, WORD, nodes) == rest;
      }
    }
  }

  function Taken(found: seq<VmNode>, k: nat): (r: seq<VmNode>)
    ensures forall n :: n in r ==> n in found
  {
    if k <= |found| then found[..k] else found
  }

  lemma TranslateNext(ptr: Address, found: seq<VmNode>, k: nat)
    ensures k < |found| ==>
              TranslateAll(ptr, Taken(found, k + 1)) ==
                  TranslateAll(ptr, Taken(found, k)) + [Translate(ptr, found[k].Value())]
    ensures k >= |found| ==> Taken(found, k) == Taken(found, k + 1) == found
    ensures TranslateAll(ptr, Taken(found, 0)) == []
  {
    if k < |found| {
      assert found[..k + 1][..k] == found[..k];
    }
  }

  lemma {:induction false} PrependTranslation(ptr: Address, n: VmNode, nodes: seq<VmNode>)
    ensures TranslateAll(ptr, [n] + nodes) == [Translate(ptr, n.Value())] + TranslateAll(ptr, nodes)
  {
    if nodes != [] {
      PrependTranslation(ptr, n, nodes[..|nodes| - 1]);
      assert ([n] + nodes)[..|nodes|] == [n] + nodes[..|nodes| - 1];
    } else {
      assert [n] + nodes == [n];
    }
  }

  /** The loop of an mmapped read over the search result: one address for each node found. */
  method TranslateNodes(ptr: Address, nodes: seq<VmNode?>, ghost found: seq<VmNode>) returns (addresses: seq<Address>)
    requires Padded(nodes, found)
    ensures addresses == TranslateAll(ptr, found)
  {
    hide *;
    addresses := [];
    TranslateNext(ptr, found, 0);
    var k := 0;
    while k < |nodes|
      invariant 0 <= k <= |nodes|
      invariant addresses == TranslateAll(ptr, Taken(found, k))
    {
      PaddedAt(nodes, found, k);
      TranslateNext(ptr, found, k);
      if nodes[k] != null {
        var vnode: VmNode := nodes[k];
        addresses := addresses + [Translate(ptr, vnode.Value())];
      }
      k := k + 1;
    }
    PaddedAt(nodes, found, k);
    TranslateNext(ptr, found, k);
  }

  class VmArea {
    var vma: seq<VmNode>

    ghost predicate Valid()
      reads this
    {
      Distinct(vma)
    }

    /** The map this area stands for. */
    function Map(): seq<Node>
      reads this, vma
    {
      Values(vma)
    }

    /** The node objects of this area. */
    ghost function Nodes(): set<VmNode>
      reads this
    {
      set n | n in vma
    }

    constructor ()
      ensures Valid() && vma == []
    {
      vma := [];
    }

    method InsertVmNode(node: VmNode)
      requires Valid() && node !in vma
      modifies this
      ensures Valid() && vma == old(vma) + [node]
      ensures Map() == Apply(Insert(node.Value()), old(Map()))
    {
      vma := vma + [node];
    }

    /** The result has the length of the vector: first the matches, then null pointers. */
    method FindVmNode(addr: Address, size: Address) returns (result: seq<VmNode?>)
      ensures |result| == |vma| && Padded(result, Matching(addr, size, vma))
    {
      var copied: seq<VmNode> := [];
      var i := 0;
      while i < |vma|
        invariant 0 <= i <= |vma|
        invariant copied == Matching(addr, size, vma[..i])
      {
        assert vma[..i + 1] == vma[..i] + [vma[i]];
        MatchingConcat(addr, size, vma[..i], [vma[i]]);
        if Found(addr, size, vma[i].Value()) {
          copied := copied + [vma[i]];
        }
        i := i + 1;
      }
      assert vma[..i] == vma;
      result := seq(|vma|, j requires 0 <= j => if j < |copied| then copied[j] else null);
    }

    /** The addresses an mmapped read dereferences. */
    method TranslateFound(ptr: Address) returns (addresses: seq<Address>)
      ensures addresses == Lookups(ptr, Map())
    {
      var nodes := FindVmNode(ptr, WORD);
      addresses := TranslateNodes(ptr, nodes, Matching(ptr, WORD, vma));
      MatchingLookups(ptr, vma);
    }

    /** `vma.erase(std::find(vma.begin(), vma.end(), node))` */
    method Erase(node: VmNode, ghost before: seq<VmNode>, ghost after: seq<VmNode>)
      requires vma == before + [node] + after && node !in before
      modifies this
      ensures vma == before + after
    {
      var i := 0;
      while vma[i] != node
        invariant 0 <= i <= |before|
        invariant vma == before + [node] + after
        decreases |before| - i
      {
        i := i + 1;
      }
      assert i == |before|;
      vma := vma[..i] + vma[i + 1..];
    }

    /** The switch over the overlap of one node of the snapshot, on the live vector. */
    method CutNode(addr: Address, size: Address, node: VmNode,
                   ghost live: seq<VmNode>, ghost after: seq<VmNode>, ghost added: seq<VmNode>)
      returns (ghost live': seq<VmNode>, ghost added': seq<VmNode>)
      requires Valid() && vma == live + [node] + (after + added)
      modifies this, node
      ensures Valid() && vma == live' + after + added'
      ensures Values(live') == old(Values(live)) + Keep(addr, size, old(node.Value()))
      ensures Values(added') == old(Values(added)) + Split(addr, size, old(node.Value()))
      ensures node !in after
      ensures live' == live || live' == live + [node]
      ensures added' == added || (exists n :: added' == added + [n] && fresh(n))
    {
      DistinctParts(live, node, after + added);
      live', added' := live + [node], added;
      assert vma == live' + after + added;
      var overlapped := Overlapped(addr, size, node.Value());
      if overlapped == ENCLOSED {
        Erase(node, live, after + added);
        live' := live;
        assert live + (after + added) == live + after + added;
      } else if overlapped == LEFT {
        node.size := Minus(addr, node.traced);
      } else if overlapped == RIGHT {
        var start := Plus(addr, size);
        var cut := Minus(start, node.traced);
        node.replayed := Plus(node.replayed, cut);
        node.size := Minus(node.size, cut);
        node.traced := start;
      } else if overlapped == ENCLOSING {
        var start := Plus(addr, size);
        var replayed := Minus(Plus(node.replayed, start), node.traced);
        var rest := new VmNode(start, replayed, Minus(Plus(node.traced, node.size), start), node.tracedFd,
                               node.replayedFd);
        assert rest !in vma;
        vma := vma + [rest];
        node.size := Minus(addr, node.traced);
        added' := added + [rest];
        assert live' + after + added + [rest] == live' + after + added';
      }
    }

    /** The live vector in the middle of a delete: what is left of the nodes dealt with (`done` are their
        old values), the nodes still to do, and the nodes added on the way. */
    ghost predicate Midway(addr: Address, size: Address, map0: seq<Node>, done: seq<Node>,
                           live: seq<VmNode>, todo: seq<VmNode>, added: seq<VmNode>)
      reads this, live, todo, added
    {
      && vma == live + todo + added && Valid()
      && map0 == done + Values(todo)
      && Values(live) == KeepAll(addr, size, done)
      && Values(added) == SplitAll(addr, size, done)
    }

    /** As `Midway`, just before node `node` is dealt with. */
    ghost predicate AtNode(addr: Address, size: Address, map0: seq<Node>, done: seq<Node>, live: seq<VmNode>,
                           node: VmNode, after: seq<VmNode>, added: seq<VmNode>)
      reads this, live, node, after, added
    {
      && vma == live + [node] + (after + added) && Valid()
      && map0 == (done + [node.Value()]) + Values(after)
      && KeepAll(addr, size, done + [node.Value()]) == Values(live) + Keep(addr, size, node.Value())
      && SplitAll(addr, size, done + [node.Value()]) == Values(added) + Split(addr, size, node.Value())
    }

    /** The nodes before the next matching node count as dealt with. */
    lemma Advance(addr: Address, size: Address, map0: seq<Node>, done: seq<Node>, live: seq<VmNode>,
                  skipped: seq<VmNode>, node: VmNode, after: seq<VmNode>, added: seq<VmNode>)
      requires Midway(addr, size, map0, done, live, skipped + [node] + after, added)
      requires Matching(addr, size, skipped) == []
      ensures AtNode(addr, size, map0, done + Values(skipped), live + skipped, node, after, added)
    {
      assert vma == (live + skipped) + [node] + (after + added);
      assert KeepAll(addr, size, done + Values(skipped)) == Values(live + skipped) by {
        Skip(addr, size, done, skipped);
        ValuesConcat(live, skipped);
      }
      assert SplitAll(addr, size, done + Values(skipped)) == Values(added) by {
        Skip(addr, size, done, skipped);
      }
      AppendValue(addr, size, done + Values(skipped), node.Value());
      ValuesAround(done, skipped, node, after);
    }

    /** Deals with node `node`. */
    method ProcessNode(addr: Address, size: Address, node: VmNode, ghost map0: seq<Node>, ghost done: seq<Node>,
                       ghost live: seq<VmNode>, ghost after: seq<VmNode>, ghost added: seq<VmNode>)
      returns (ghost live': seq<VmNode>, ghost added': seq<VmNode>)
      requires AtNode(addr, size, map0, done, live, node, after, added)
      modifies this, node
      ensures Midway(addr, size, map0, done + [old(node.Value())], live', after, added')
      ensures Matching(addr, size, after) == old(Matching(addr, size, after))
      ensures forall n :: n in live' ==> n in live || n == node
      ensures forall n :: n in added' ==> n in added || fresh(n)
    {
      live', added' := CutNode(addr, size, node, live, after, added);
      assert Values(after) == old(Values(after));
    }

    /** Deals with the next matching node, and with the nodes before it. */
    method ProcessNext(addr: Address, size: Address, node: VmNode, ghost map0: seq<Node>, ghost done: seq<Node>,
                       ghost live: seq<VmNode>, ghost todo: seq<VmNode>, ghost added: seq<VmNode>,
                       ghost original: set<VmNode>, ghost made: set<VmNode>)
      returns (ghost done': seq<Node>, ghost live': seq<VmNode>, ghost todo': seq<VmNode>, ghost added': seq<VmNode>,
               ghost made': set<VmNode>)
      requires Inside(live, original) && Inside(todo, original) && Inside(added, made)
      requires Midway(addr, size, map0, done, live, todo, added)
      requires Matching(addr, size, todo) != [] && node == Matching(addr, size, todo)[0]
      modifies this, node
      ensures Midway(addr, size, map0, done', live', todo', added')
      ensures Matching(addr, size, todo') == old(Matching(addr, size, todo))[1..]
      ensures Inside(live', original) && Inside(todo', original) && Inside(added', made')
      ensures fresh(made' - made)
    {
      ghost var skipped, after := FirstMatch(addr, size, todo);
      Advance(addr, size, map0, done, live, skipped, node, after, added);
      hide Midway, AtNode, Valid, Matching;
      ghost var value, before := node.Value(), live + skipped;
      done' := done + Values(skipped);
      live', added' := ProcessNode(addr, size, node, map0, done', before, after, added);
      done', todo' := done' + [value], after;
      made' := made + set n | n in added' && n !in made;
    }

    lemma Start(addr: Address, size: Address)
      requires Valid()
      ensures Midway(addr, size, Map(), [], [], vma, []) && Inside(vma, Nodes())
      ensures Inside([], Nodes()) && Inside([], {})
    {
    }

    /** When no match is left, the vector is the result of the delete. */
    lemma Complete(addr: Address, size: Address, map0: seq<Node>, done: seq<Node>,
                   live: seq<VmNode>, todo: seq<VmNode>, added: seq<VmNode>, original: set<VmNode>, made: set<VmNode>)
      requires Midway(addr, size, map0, done, live, todo, added) && Matching(addr, size, todo) == []
      requires Inside(live, original) && Inside(todo, original) && Inside(added, made)
      ensures Map() == Delete(addr, size, map0) && Valid()
      ensures Inside(vma, original + made)
    {
      Skip(addr, size, done, todo);
      ValuesConcat(live + todo, added);
      ValuesConcat(live, todo);
    }

    /** Walks over a snapshot of the matching nodes while it erases from, trims in and appends to the
        live vector; the result is the delete of AddressMap for every address and size. */
    method DeleteVmNode(addr: Address, size: Address) returns (ghost made: set<VmNode>)
      requires Valid()
      modifies this, Nodes()
      ensures Valid() && Map() == Delete(addr, size, old(Map()))
      ensures Inside(vma, old(Nodes()) + made) && fresh(made)
    {
      hide *;
      var result := FindVmNode(addr, size);
      ghost var map0, done: seq<Node> := Map(), [];
      ghost var live: seq<VmNode>, added: seq<VmNode>, todo := [], [], vma;
      ghost var original := Nodes();
      made := {};
      ghost var found := Matching(addr, size, vma);
      Start(addr, size);
      var k := 0;
      while k < |result|
        invariant 0 <= k <= |result|
        invariant Matching(addr, size, todo) == if k <= |found| then found[k..] else []
        invariant Midway(addr, size, map0, done, live, todo, added)
        invariant Inside(live, original) && Inside(todo, original) && Inside(added, made) && fresh(made)
      {
        PaddedAt(result, found, k);
        if result[k] != null {
          var node: VmNode := result[k];
          InsideHas(todo, original, node);
          done, live, todo, added, made := ProcessNext(addr, size, node, map0, done, live, todo, added, original, made);
          assert found[k..][1..] == found[k + 1..];
        }
        k := k + 1;
      }
      PaddedAt(result, found, k);
      Complete(addr, size, map0, done, live, todo, added, original, made);
    }
  }

  /** One address map per traced process, made on first use. */
  class VmManager {
    var processMap: map<int, VmArea>

    ghost function AllNodes(): set<VmNode>
      reads this, processMap.Values
    {
      set pid, n | pid in processMap && n in processMap[pid].vma :: n
    }

    /** No two processes share an area or a node. */
    ghost predicate Valid()
      reads this, processMap.Values
    {
      && (forall pid :: pid in processMap ==> processMap[pid].Valid())
      && (forall p, q :: p in processMap && q in processMap && p != q ==>
            processMap[p] != processMap[q] && processMap[p].Nodes() !! processMap[q].Nodes())
    }

    /** The map of one process; a process without an area has the empty one. */
    ghost function Space(pid: int): seq<Node>
      reads this, processMap.Values, if pid in processMap then processMap[pid].Nodes() else {}
    {
      if pid in processMap then processMap[pid].Map() else []
    }

    constructor ()
      ensures Valid() && forall pid :: Space(pid) == []
    {
      processMap := map[];
    }

    method GetVmArea(pid: int) returns (area: VmArea)
      requires Valid()
      modifies this
      ensures Valid() && pid in processMap && area == processMap[pid]
      ensures processMap == old(processMap)[pid := area]
      ensures if pid in old(processMap) then area == old(processMap)[pid] else fresh(area) && area.vma == []
    {
      if pid !in processMap {
        area := new VmArea();
        processMap := processMap[pid := area];
      }
      area := processMap[pid];
    }

    /** Frame: when only the area of `pid` changed, all other processes keep their maps. */
    twostate lemma OthersUnchanged(pid: int)
      requires old(Valid()) && processMap == old(processMap) && pid in processMap && processMap[pid].Valid()
      requires forall p :: p in processMap && p != pid ==> unchanged(processMap[p])
      requires forall n :: n in old(AllNodes()) && n !in old(processMap[pid].Nodes()) ==> unchanged(n)
      requires forall n :: n in processMap[pid].vma ==> n in old(processMap[pid].Nodes()) || fresh(n)
      ensures Valid() && forall p :: p != pid ==> Space(p) == old(Space(p))
    {
      forall p | p in processMap && p != pid
        ensures Space(p) == old(Space(p)) && processMap[p].Valid()
      {
        var area := processMap[p];
        assert old(area.Nodes()) !! old(processMap[pid].Nodes());
        forall i | 0 <= i < |area.vma|
          ensures area.vma[i].Value() == old(area.vma[i].Value())
        {
          var n := area.vma[i];
          assert n in old(area.Nodes()) && n in old(AllNodes());
        }
        assert area.Map() == old(area.Map());
      }
    }

    /** The row of an mmap record: it is skipped when an address was asked for and the replay did not
        get the traced one; otherwise the mapping is added. */
    method Mmap(pid: int, startAddress: Address, size: Address, traced: Address, replayed: Address,
                tracedFd: int, replayedFd: int)
      requires Valid()
      modifies this, processMap.Values
      ensures Valid()
      ensures startAddress != 0 && replayed != traced ==> Space(pid) == old(Space(pid))
      ensures startAddress == 0 || replayed == traced ==>
                forall p :: Maps(Space(pid), p) <==>
                  || Maps(old(Space(pid)), p)
                  || (traced <= p.traced < traced + size
                      && p == Pair(p.traced, Plus(replayed, p.traced - traced), tracedFd, replayedFd))
      ensures var row := MmapRow(pid, startAddress, size, traced, replayed, tracedFd, replayedFd);
              forall p :: Space(p) == if p == pid then ApplyAll(OpsOf(row), old(Space(p))) else old(Space(p))
    {
      hide Maps;
      ghost var row := MmapRow(pid, startAddress, size, traced, replayed, tracedFd, replayedFd);
      ghost var before := Space(pid);
      InsertMeaning(row, before);
      if startAddress != 0 && replayed != traced {
        return;
      }
      AddNode(pid, traced, replayed, size, tracedFd, replayedFd);
      assert OpsOf(row)[..0] == [];
      assert Space(pid) == ApplyAll(OpsOf(row), before);
      hide ApplyAll, OpsOf;
      forall p
        ensures Maps(Space(pid), p) <==> Maps(before, p) || RowMaps(row, p)
      {
      }
    }

    /** A new node for the area of the process. */
    method AddNode(pid: int, traced: Address, replayed: Address, size: Address, tracedFd: int, replayedFd: int)
      requires Valid()
      modifies this, processMap.Values
      ensures Valid() && Space(pid) == old(Space(pid)) + [Node(traced, replayed, size, tracedFd, replayedFd)]
      ensures forall p :: p != pid ==> Space(p) == old(Space(p))
    {
      var area := GetVmArea(pid);
      assert forall p :: Space(p) == old(Space(p));
      label before:
      var node := new VmNode(traced, replayed, size, tracedFd, replayedFd);
      area.InsertVmNode(node);
      OthersUnchanged@before(pid);
    }

    /** The row of a munmap record. */
    method Munmap(pid: int, addr: Address, size: Address)
      requires Valid()
      modifies this, processMap.Values, AllNodes()
      ensures Valid()
      ensures forall p ::
          Space(p) == if p == pid then ApplyAll(OpsOf(MunmapRow(pid, addr, size)), old(Space(p))) else old(Space(p))
      ensures AllFit(old(Space(pid))) && addr + size < ADDRESS_SPACE ==>
                forall p :: Maps(Space(pid), p) <==> Maps(old(Space(pid)), p) && !(addr <= p.traced < addr + size)
    {
      var area := GetVmArea(pid);
      assert forall p :: Space(p) == old(Space(p));
      label before:
      ghost var made := area.DeleteVmNode(addr, size);
      OthersUnchanged@before(pid);
      if AllFit(old(Space(pid))) && addr + size < ADDRESS_SPACE {
        forall p
          ensures Maps(Space(pid), p) <==> Maps(old(Space(pid)), p) && !(addr <= p.traced < addr + size)
        {
          DeleteRemovesExactly(addr, size, old(Space(pid)), p);
        }
      }
    }

    /** The row of an mmapped read: the addresses it reads, one for each node the search returns. A read of a
        simulated descriptor reads nothing, and makes no area. */
    method MmapPRead(pid: int, fd: int, ptr: Address) returns (addresses: seq<Address>)
      requires Valid()
      modifies this
      ensures Valid() && forall p :: Space(p) == old(Space(p))
      ensures fd == Descriptors.SIMULATED ==> addresses == [] && unchanged(this)
      ensures fd != Descriptors.SIMULATED ==> addresses == Lookups(ptr, old(Space(pid)))
      ensures fd != Descriptors.SIMULATED && AllFit(Space(pid)) && ptr + WORD < ADDRESS_SPACE ==>
                forall p: Pair :: p.traced == ptr && Maps(Space(pid), p) ==> p.replayed in addresses
    {
      if fd == Descriptors.SIMULATED {
        return [];
      }
      var area := GetVmArea(pid);
      addresses := area.TranslateFound(ptr);
      if AllFit(Space(pid)) && ptr + WORD < ADDRESS_SPACE {
        forall p: Pair | p.traced == ptr && Maps(Space(pid), p)
          ensures p.replayed in addresses
        {
          MappedIsRead(ptr, Space(pid), p);
        }
      }
    }
  }

  // ----- all processes

  datatype Row =
    | MmapRow(pid: int, startAddress: Address, size: Address, traced: Address, replayed: Address,
              tracedFd: int, replayedFd: int)
    | MunmapRow(pid: int, addr: Address, size: Address)

  /** The operations a row stands for: none for a mapping that the replay could not place. */
  function OpsOf(row: Row): seq<Op> {
    match row
    case MmapRow(_, startAddress, size, traced, replayed, tracedFd, replayedFd) =>
      if startAddress != 0 && replayed != traced then []
      else [Insert(Node(traced, replayed, size, tracedFd, replayedFd))]
    case MunmapRow(_, addr, size) => [Remove(addr, size)]
  }

  function ApplyAll(ops: seq<Op>, ns: seq<Node>): seq<Node> {
    if ops == [] then ns else Apply(ops[|ops| - 1], ApplyAll(ops[..|ops| - 1], ns))
  }

  /** The map of process `pid` after the rows of all processes, each row applied to its own process. */
  function SpaceAfter(rows: seq<Row>, pid: int): seq<Node> {
    if rows == [] then []
    else
      var before, row := SpaceAfter(rows[..|rows| - 1], pid), rows[|rows| - 1];
      if row.pid == pid then ApplyAll(OpsOf(row), before) else before
  }

  /** The operations of process `pid` in a trace of all processes. */
  function OwnOps(rows: seq<Row>, pid: int): seq<Op> {
    if rows == [] then []
    else
      OwnOps(rows[..|rows| - 1], pid) + (if rows[|rows| - 1].pid == pid then OpsOf(rows[|rows| - 1]) else [])
  }

  // ----- what the rows mean

  /** A mapping that the replay could place, or that left the place open, pairs each traced byte with the
      replayed byte at the same offset. */
  predicate RowMaps(row: Row, p: Pair) {
    && row.MmapRow? && (row.startAddress == 0 || row.replayed == row.traced)
    && row.traced <= p.traced < row.traced + row.size
    && p == Pair(p.traced, Plus(row.replayed, p.traced - row.traced), row.tracedFd, row.replayedFd)
  }

  predicate RowUnmaps(row: Row, p: Pair) {
    row.MunmapRow? && row.addr <= p.traced < row.addr + row.size
  }

  /** The range of the row does not run past the end of the address space. */
  predicate RowFits(row: Row) {
    match row
    case MmapRow(_, startAddress, size, traced, replayed, _, _) =>
      (startAddress != 0 && replayed != traced) || traced + size < ADDRESS_SPACE
    case MunmapRow(_, addr, size) => addr + size < ADDRESS_SPACE
  }

  /** A row of the process mapped the pair, and no later one unmapped it. */
  predicate StillMapped(rows: seq<Row>, pid: int, p: Pair) {
    if rows == [] then false
    else
      var before, row := StillMapped(rows[..|rows| - 1], pid, p), rows[|rows| - 1];
      if row.pid != pid then before else RowMaps(row, p) || (before && !RowUnmaps(row, p))
  }

  lemma InsertMeaning(row: Row, ns: seq<Node>)
    requires row.MmapRow?
    ensures forall p :: Maps(ApplyAll(OpsOf(row), ns), p) <==> Maps(ns, p) || RowMaps(row, p)
  {
    if OpsOf(row) != [] {
      var n := OpsOf(row)[0].node;
      assert OpsOf(row)[..0] == [];
      forall p
        ensures Maps(ns + [n], p) <==> Maps(ns, p) || RowMaps(row, p)
      {
        MapsConcat(ns, [n], p);
        MapsOne(n, p);
      }
    }
  }

  /** A mapped read at any traced byte of a mapping that was made reads the replayed byte at the same offset. */
  lemma MappedRowIsRead(row: Row, ns: seq<Node>, off: Address)
    requires row.MmapRow? && (row.startAddress == 0 || row.replayed == row.traced) && RowFits(row) && AllFit(ns)
    requires off < row.size && row.traced + off + WORD < ADDRESS_SPACE
    ensures Plus(row.replayed, off) in Lookups(row.traced + off, ApplyAll(OpsOf(row), ns))
  {
    var p := Pair(row.traced + off, Plus(row.replayed, off), row.tracedFd, row.replayedFd);
    RowMeaning(row, ns, p);
    hide OpsOf, ApplyAll;
    MappedIsRead(row.traced + off, ApplyAll(OpsOf(row), ns), p);
  }

  /** One row, on the map of its process. */
  lemma RowMeaning(row: Row, ns: seq<Node>, p: Pair)
    requires AllFit(ns) && RowFits(row)
    ensures AllFit(ApplyAll(OpsOf(row), ns))
    ensures Maps(ApplyAll(OpsOf(row), ns), p) <==> RowMaps(row, p) || (Maps(ns, p) && !RowUnmaps(row, p))
  {
    assert OpsOf(row) != [] ==> OpsOf(row)[..|OpsOf(row)| - 1] == [];
    match row
    case MmapRow(_, _, _, _, _, _, _) => InsertMeaning(row, ns);
    case MunmapRow(_, addr, size) => DeleteRemovesExactly(addr, size, ns, p);
  }

  /** After any interleaving of the rows of all processes, the map of each process denotes what its own
      rows say: the pairs they mapped and did not unmap since. */
  lemma {:induction false} ProcessMapsDenote(rows: seq<Row>, pid: int, p: Pair)
    requires forall row :: row in rows && row.pid == pid ==> RowFits(row)
    ensures Maps(SpaceAfter(rows, pid), p) <==> StillMapped(rows, pid, p)
    ensures AllFit(SpaceAfter(rows, pid))
    decreases |rows|
  {
    if rows != [] {
      var before, row := rows[..|rows| - 1], rows[|rows| - 1];
      ProcessMapsDenote(before, pid, p);
      if row.pid == pid {
        RowMeaning(row, SpaceAfter(before, pid), p);
      }
      hide RowMaps, RowUnmaps, RowFits, OpsOf, ApplyAll;
    }
  }

  /** The same through the operations of the process. */
  lemma OwnOpsDenote(rows: seq<Row>, pid: int, p: Pair)
    requires NoWrap(OwnOps(rows, pid))
    ensures Maps(SpaceAfter(rows, pid), p) <==> Denoted(OwnOps(rows, pid), p)
  {
    OwnRun(rows, pid);
    RunDenotes(OwnOps(rows, pid), p);
  }

  lemma {:induction false} OwnRun(rows: seq<Row>, pid: int)
    ensures SpaceAfter(rows, pid) == Run(OwnOps(rows, pid))
  {
    if rows != [] {
      var before, row := rows[..|rows| - 1], rows[|rows| - 1];
      OwnRun(before, pid);
      var own := OwnOps(before, pid);
      assert own + [] == own;
      if row.pid == pid && OpsOf(row) != [] {
        var op := OpsOf(row)[0];
        assert OpsOf(row) == [op] && OwnOps(rows, pid) == own + [op];
        assert (own + [op])[..|own|] == own;
        var ns := Run(own);
        assert ApplyAll([op], ns) == Apply(op, ApplyAll([op][..0], ns));
      }
    }
  }
}
