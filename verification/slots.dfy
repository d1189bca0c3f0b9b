/** Free worker slots, offered node by node in rounds. */
module Slots {
  import opened Base

  /** `node` stands for the node's name; nodes are ordered as their names are. */
  datatype Slot = Slot(node: int, port: int)

  // ---- interleaving lists -------------------------------------------------

  function Heads<T>(lists: seq<seq<T>>): seq<T> {
    if lists == [] then []
    else if lists[0] == [] then Heads(lists[1..])
    else [lists[0][0]] + Heads(lists[1..])
  }

  function Tails<T>(lists: seq<seq<T>>): (r: seq<seq<T>>)
    ensures |r| == |Heads(lists)|
    ensures Size(r) + |r| == Size(lists)
  {
    if lists == [] then []
    else if lists[0] == [] then Tails(lists[1..])
    else
      assert ([lists[0][1..]] + Tails(lists[1..]))[1..] == Tails(lists[1..]);
      [lists[0][1..]] + Tails(lists[1..])
  }

  function Size<T>(lists: seq<seq<T>>): nat {
    if lists == [] then 0 else |lists[0]| + Size(lists[1..])
  }

  /** First all heads, then all second elements, and so on. */
  function Interleave<T>(lists: seq<seq<T>>): seq<T>
    decreases Size(lists)
  {
    if Heads(lists) == [] then [] else Heads(lists) + Interleave(Tails(lists))
  }

  /** A null list counts as empty. */
  function OrEmpty<T>(o: Option<seq<T>>): seq<T> {
    if o.Some? then o.value else []
  }

  function AllOrEmpty<T>(os: seq<Option<seq<T>>>): (r: seq<seq<T>>)
    ensures |r| == |os|
  {
    seq(|os|, i requires 0 <= i < |os| => OrEmpty(os[i]))
  }

  lemma {:induction false} HeadsAppend<T>(lists: seq<seq<T>>, l: seq<T>)
    ensures Heads(lists + [l]) == Heads(lists) + if l == [] then [] else [l[0]]
    ensures Tails(lists + [l]) == Tails(lists) + if l == [] then [] else [l[1..]]
  {
    if lists == [] {
      assert [l][1..] == [];
    } else {
      HeadsAppend(lists[1..], l);
      assert (lists + [l])[1..] == lists[1..] + [l];
    }
  }

  /** `interleaveAll`: null for a null or empty list of lists. */
  method InterleaveAll<T>(nodeList: Option<seq<Option<seq<T>>>>) returns (r: Option<seq<T>>)
    ensures r.None? <==> nodeList.None? || nodeList.value == []
    ensures r.Some? ==> r.value == Interleave(AllOrEmpty(nodeList.value))
    decreases if nodeList.Some? && nodeList.value != [] then Size(AllOrEmpty(nodeList.value)) + 1 else 0
  {
    if nodeList.None? || |nodeList.value| == 0 {
      return None;
    }
    var first: seq<T> := [];
    var rest: seq<Option<seq<T>>> := [];
    var nodes := nodeList.value;
    ghost var lists := AllOrEmpty(nodes);
    for i := 0 to |nodes|
      invariant first == Heads(lists[..i]) && AllOrEmpty(rest) == Tails(lists[..i])
    {
      var node := nodes[i];
      assert lists[..i + 1] == lists[..i] + [lists[i]] && lists[i] == OrEmpty(node);
      HeadsAppend(lists[..i], lists[i]);
      if node.Some? && |node.value| > 0 {
        first := first + [node.value[0]];
        rest := rest + [Some(node.value[1..])];
        assert AllOrEmpty(rest) == Tails(lists[..i]) + [node.value[1..]];
      }
    }
    assert lists[..|nodes|] == lists;
    var interleaveRest := InterleaveAll(Some(rest));
    if interleaveRest.Some? {
      first := first + interleaveRest.value;
    }
    return Some(first);
  }

  // ---- nodes in a list of slots -------------------------------------------

  /** The slots of one node, in the order of the list. */
  function OfNode(node: int, s: seq<Slot>): seq<Slot> {
    if s == [] then []
    else if s[0].node == node then [s[0]] + OfNode(node, s[1..])
    else OfNode(node, s[1..])
  }

  lemma {:induction false} OfNodeConcat(node: int, a: seq<Slot>, b: seq<Slot>)
    ensures OfNode(node, a + b) == OfNode(node, a) + OfNode(node, b)
  {
    if a == [] {
      assert a + b == b;
    } else {
      OfNodeConcat(node, a[1..], b);
      assert (a + b)[1..] == a[1..] + b;
    }
  }

  /** All slots of a list are on one node. */
  predicate OnNode(node: int, s: seq<Slot>) {
    forall i :: 0 <= i < |s| ==> s[i].node == node
  }

  lemma {:induction false} OfNodeAll(node: int, s: seq<Slot>, other: int)
    requires OnNode(other, s)
    ensures OfNode(node, s) == if node == other then s else []
  {
    if s != [] { OfNodeAll(node, s[1..], other); }
  }

  /** One list for each node. */
  predicate Grouped(nodes: seq<int>, lists: seq<seq<Slot>>) {
    && |nodes| == |lists|
    && (forall i :: 0 <= i < |lists| ==> OnNode(nodes[i], lists[i]))
    && (forall i, j :: 0 <= i < j < |nodes| ==> nodes[i] != nodes[j])
  }

  /** The list of a node, if there is one. */
  function ListOf(node: int, nodes: seq<int>, lists: seq<seq<Slot>>): seq<Slot>
    requires |nodes| == |lists|
  {
    if nodes == [] then []
    else if nodes[0] == node then lists[0]
    else ListOf(node, nodes[1..], lists[1..])
  }

  /** The nodes that still have slots. */
  function NodesLeft(nodes: seq<int>, lists: seq<seq<Slot>>): (r: seq<int>)
    requires |nodes| == |lists|
    ensures |r| == |Heads(lists)|
    ensures forall x :: x in r ==> x in nodes
  {
    if nodes == [] then []
    else if lists[0] == [] then NodesLeft(nodes[1..], lists[1..])
    else [nodes[0]] + NodesLeft(nodes[1..], lists[1..])
  }

  lemma NotListed(node: int, nodes: seq<int>, lists: seq<seq<Slot>>)
    requires |nodes| == |lists| && node !in nodes
    ensures ListOf(node, nodes, lists) == []
  {
  }

  /** What a round takes of a node's list, and what it leaves. */
  function Taken(l: seq<Slot>): seq<Slot> { if l == [] then [] else [l[0]] }

  function Left(l: seq<Slot>): seq<Slot> { if l == [] then [] else l[1..] }

  /** One round takes the first slot of every node that has one left. */
  lemma {:induction false} RoundTakes(node: int, nodes: seq<int>, lists: seq<seq<Slot>>)
    requires Grouped(nodes, lists)
    ensures OfNode(node, Heads(lists)) == Taken(ListOf(node, nodes, lists))
  {
    if nodes != [] {
      var n1, l1 := nodes[1..], lists[1..];
      RoundTakes(node, n1, l1);
      if nodes[0] == node { NotListed(node, n1, l1); }
      if lists[0] != [] {
        assert ([lists[0][0]] + Heads(l1))[1..] == Heads(l1);
        assert lists[0][0].node == nodes[0];
      }
    }
  }

  lemma {:induction false} RoundLeaves(node: int, nodes: seq<int>, lists: seq<seq<Slot>>)
    requires Grouped(nodes, lists)
    ensures ListOf(node, NodesLeft(nodes, lists), Tails(lists)) == Left(ListOf(node, nodes, lists))
  {
    if nodes != [] {
      var n1, l1 := nodes[1..], lists[1..];
      RoundLeaves(node, n1, l1);
      if nodes[0] == node { NotListed(node, n1, l1); }
      if lists[0] != [] {
        assert ([nodes[0]] + NodesLeft(n1, l1))[1..] == NodesLeft(n1, l1);
        assert ([lists[0][1..]] + Tails(l1))[1..] == Tails(l1);
      }
    }
  }

  lemma {:induction false} RoundGrouped(nodes: seq<int>, lists: seq<seq<Slot>>)
    requires Grouped(nodes, lists)
    ensures Grouped(NodesLeft(nodes, lists), Tails(lists))
  {
    if nodes != [] {
      var n1, l1 := nodes[1..], lists[1..];
      RoundGrouped(n1, l1);
      if lists[0] != [] {
        GroupedCons(nodes[0], lists[0][1..], NodesLeft(n1, l1), Tails(l1));
      }
    }
  }

  lemma GroupedCons(node: int, l: seq<Slot>, nodes: seq<int>, lists: seq<seq<Slot>>)
    requires Grouped(nodes, lists) && OnNode(node, l) && node !in nodes
    ensures Grouped([node] + nodes, [l] + lists)
  {
    forall i | 0 <= i < |lists| + 1 ensures OnNode(([node] + nodes)[i], ([l] + lists)[i]) {
      if i > 0 { assert OnNode(nodes[i - 1], lists[i - 1]); }
    }
  }

  lemma {:induction false} NoHeads(lists: seq<seq<Slot>>, nodes: seq<int>, node: int)
    requires |nodes| == |lists| && Heads(lists) == []
    ensures ListOf(node, nodes, lists) == []
  {
    if lists != [] { NoHeads(lists[1..], nodes[1..], node); }
  }

  /** Interleaving keeps the slots of each node, in their order. */
  lemma {:induction false} InterleaveKeepsNodes(node: int, nodes: seq<int>, lists: seq<seq<Slot>>)
    requires Grouped(nodes, lists)
    ensures OfNode(node, Interleave(lists)) == ListOf(node, nodes, lists)
    decreases Size(lists)
  {
    if Heads(lists) == [] {
      NoHeads(lists, nodes, node);
    } else {
      RoundTakes(node, nodes, lists);
      RoundLeaves(node, nodes, lists);
      RoundGrouped(nodes, lists);
      InterleaveKeepsNodes(node, NodesLeft(nodes, lists), Tails(lists));
      OfNodeConcat(node, Heads(lists), Interleave(Tails(lists)));
    }
  }

  /** In a list of slots, node b is at most one slot ahead of node a, unless all of
      a's slots are in it. */
  predicate Fair(a: int, b: int, p: seq<Slot>, all: seq<Slot>) {
    |OfNode(b, p)| <= |OfNode(a, p)| + 1 || OfNode(a, p) == all
  }

  lemma OfPrefix(node: int, s: seq<Slot>, n: nat)
    requires n <= |s|
    ensures OfNode(node, s[..n]) <= OfNode(node, s)
  {
    OfNodeConcat(node, s[..n], s[n..]);
    assert s == s[..n] + s[n..];
  }

  /** Fairness after one more round in front. */
  lemma RoundIsFair(a: int, b: int, h: seq<Slot>, p: seq<Slot>, allA: seq<Slot>, allB: seq<Slot>)
    requires OfNode(a, h) == Taken(allA) && OfNode(b, h) == Taken(allB)
    requires OfNode(a, p) <= Left(allA) && OfNode(b, p) <= Left(allB)
    requires Fair(a, b, p, Left(allA))
    ensures Fair(a, b, h + p, allA)
  {
    OfNodeConcat(a, h, p);
    OfNodeConcat(b, h, p);
  }

  /** Every prefix of the interleaved order is fair. */
  lemma {:induction false} InterleaveIsFair(a: int, b: int, nodes: seq<int>, lists: seq<seq<Slot>>, n: nat)
    requires Grouped(nodes, lists) && n <= |Interleave(lists)|
    ensures Fair(a, b, Interleave(lists)[..n], ListOf(a, nodes, lists))
    decreases Size(lists)
  {
    if Heads(lists) != [] {
      var h, rest := Heads(lists), Interleave(Tails(lists));
      var left := NodesLeft(nodes, lists);
      RoundTakes(a, nodes, lists);
      RoundTakes(b, nodes, lists);
      if n <= |h| {
        assert Interleave(lists)[..n] == h[..n];
        OfPrefix(b, h, n);
      } else {
        RoundGrouped(nodes, lists);
        RoundLeaves(a, nodes, lists);
        RoundLeaves(b, nodes, lists);
        InterleaveKeepsNodes(a, left, Tails(lists));
        InterleaveKeepsNodes(b, left, Tails(lists));
        OfPrefix(a, rest, n - |h|);
        OfPrefix(b, rest, n - |h|);
        InterleaveIsFair(a, b, left, Tails(lists), n - |h|);
        RoundIsFair(a, b, h, rest[..n - |h|], ListOf(a, nodes, lists), ListOf(b, nodes, lists));
        assert Interleave(lists)[..n] == h + rest[..n - |h|];
      }
    }
  }
}
