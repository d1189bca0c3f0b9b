/** `sortSlots`: slots grouped by node, ordered by port within a node, nodes with
    many free slots first, and then interleaved. */
module SlotSorting {
  import opened Base
  import opened Slots

  // ---- stable sorting -----------------------------------------------------

  predicate SortedBy<T>(key: T -> int, s: seq<T>) {
    forall i, j :: 0 <= i < j < |s| ==> key(s[i]) <= key(s[j])
  }

  /** The elements with one key, in their order. */
  function WithKey<T>(key: T -> int, k: int, s: seq<T>): seq<T> {
    if s == [] then []
    else if key(s[0]) == k then [s[0]] + WithKey(key, k, s[1..])
    else WithKey(key, k, s[1..])
  }

  /** Before the first element whose key is not smaller. */
  function Insert<T>(key: T -> int, x: T, s: seq<T>): (r: seq<T>)
    ensures |r| == |s| + 1 && multiset(r) == multiset(s) + multiset{x}
  {
    if s == [] || key(x) <= key(s[0]) then
      [x] + s
    else
      assert s == [s[0]] + s[1..];
      [s[0]] + Insert(key, x, s[1..])
  }

  /** The library's sort: ascending keys, equal keys in their old order. */
  function StableSort<T>(key: T -> int, s: seq<T>): (r: seq<T>)
    ensures |r| == |s| && multiset(r) == multiset(s)
  {
    if s == [] then []
    else
      assert s == [s[0]] + s[1..];
      Insert(key, s[0], StableSort(key, s[1..]))
  }

  lemma {:induction false} InsertSorted<T>(key: T -> int, x: T, s: seq<T>)
    requires SortedBy(key, s)
    ensures SortedBy(key, Insert(key, x, s))
  {
    if s != [] && key(s[0]) < key(x) {
      var r := Insert(key, x, s[1..]);
      InsertSorted(key, x, s[1..]);
      forall j | 0 <= j < |r| ensures key(s[0]) <= key(r[j]) {
        assert r[j] in multiset(r);
        assert r[j] == x || r[j] in multiset(s[1..]);
      }
    }
  }

  lemma {:induction false} InsertStable<T>(key: T -> int, x: T, s: seq<T>, k: int)
    ensures WithKey(key, k, Insert(key, x, s)) == (if key(x) == k then [x] else []) + WithKey(key, k, s)
  {
    if s == [] || key(x) <= key(s[0]) {
      assert ([x] + s)[1..] == s;
    } else {
      InsertStable(key, x, s[1..], k);
      assert Insert(key, x, s)[1..] == Insert(key, x, s[1..]);
      if key(x) == k {
        KeysAbove(key, k, s);
      }
    }
  }

  /** If the first key is smaller than k, it does not count among those with key k. */
  lemma KeysAbove<T>(key: T -> int, k: int, s: seq<T>)
    requires s != [] && key(s[0]) < k
    ensures WithKey(key, k, s) == WithKey(key, k, s[1..])
  {
  }

  lemma {:induction false} StableSortIsStable<T>(key: T -> int, s: seq<T>)
    ensures SortedBy(key, StableSort(key, s))
    ensures forall k :: WithKey(key, k, StableSort(key, s)) == WithKey(key, k, s)
  {
    if s != [] {
      StableSortIsStable(key, s[1..]);
      InsertSorted(key, s[0], StableSort(key, s[1..]));
      forall k ensures WithKey(key, k, StableSort(key, s)) == WithKey(key, k, s) {
        InsertStable(key, s[0], StableSort(key, s[1..]), k);
      }
    }
  }

  lemma SameElements<T>(a: seq<T>, b: seq<T>)
    requires multiset(a) == multiset(b)
    ensures forall x :: x in a <==> x in b
  {
    forall x ensures x in a <==> x in b {
      assert x in a <==> x in multiset(a);
      assert x in b <==> x in multiset(b);
    }
  }

  lemma InsertMembers<T>(key: T -> int, x: T, s: seq<T>)
    ensures forall y :: y in Insert(key, x, s) <==> y == x || y in s
  {
    assert multiset([x] + s) == multiset(s) + multiset{x};
    SameElements(Insert(key, x, s), [x] + s);
  }

  lemma {:induction false} InsertNoDuplicates<T>(key: T -> int, x: T, s: seq<T>)
    requires NoDuplicates(s) && x !in s
    ensures NoDuplicates(Insert(key, x, s))
  {
    if s != [] && key(s[0]) < key(x) {
      InsertNoDuplicates(key, x, s[1..]);
      InsertMembers(key, x, s[1..]);
      var r := Insert(key, x, s[1..]);
      forall j | 0 <= j < |r| ensures s[0] != r[j] { assert r[j] in r; }
    }
  }

  lemma {:induction false} SortNoDuplicates<T>(key: T -> int, s: seq<T>)
    requires NoDuplicates(s)
    ensures NoDuplicates(StableSort(key, s))
  {
    if s != [] {
      SortNoDuplicates(key, s[1..]);
      SameElements(StableSort(key, s[1..]), s[1..]);
      InsertNoDuplicates(key, s[0], StableSort(key, s[1..]));
    }
  }

  // ---- the nodes and their groups -----------------------------------------

  function Port(s: Slot): int { s.port }

  function Same(n: int): int { n }

  /** The nodes of a list of slots, ascending, as a sorted map keeps them. */
  function NodesOf(s: seq<Slot>): seq<int> {
    if s == [] then []
    else
      var nodes := NodesOf(s[..|s| - 1]);
      var node := s[|s| - 1].node;
      if node in nodes then nodes else Insert(Same, node, nodes)
  }

  /** The slots of a node, by port. */
  function GroupOf(s: seq<Slot>, node: int): seq<Slot> { StableSort(Port, OfNode(node, s)) }

  function Groups(s: seq<Slot>, nodes: seq<int>): (r: seq<seq<Slot>>)
    ensures |r| == |nodes|
  {
    seq(|nodes|, i requires 0 <= i < |nodes| => GroupOf(s, nodes[i]))
  }

  function FewerSlots(l: seq<Slot>): int { -|l| }

  function FewerOnNode(s: seq<Slot>): int -> int { (n: int) => -|GroupOf(s, n)| }

  /** Nodes with more slots first, others in the order of their names. */
  function NodeOrder(s: seq<Slot>): seq<int> { StableSort(FewerOnNode(s), NodesOf(s)) }

  function SlotOrder(s: seq<Slot>): seq<Slot> { Interleave(Groups(s, NodeOrder(s))) }

  lemma OfNodeAppend(n: int, s: seq<Slot>, x: Slot)
    ensures OfNode(n, s + [x]) == OfNode(n, s) + (if x.node == n then [x] else [])
  {
    OfNodeConcat(n, s, [x]);
    assert [x][1..] == [];
  }

  /** Exactly the nodes with slots are listed, each once. */
  lemma {:induction false} NodesOfShape(s: seq<Slot>)
    ensures NoDuplicates(NodesOf(s))
    ensures forall n :: n in NodesOf(s) <==> OfNode(n, s) != []
  {
    if s != [] {
      var init, last := s[..|s| - 1], s[|s| - 1];
      NodesOfShape(init);
      assert s == init + [last];
      forall n ensures OfNode(n, s) != [] <==> OfNode(n, init) != [] || n == last.node { OfNodeAppend(n, init, last); }
      if last.node !in NodesOf(init) {
        InsertNoDuplicates(Same, last.node, NodesOf(init));
        InsertMembers(Same, last.node, NodesOf(init));
      }
    }
  }

  lemma {:induction false} OfNodeOn(node: int, s: seq<Slot>)
    ensures OnNode(node, OfNode(node, s))
  {
    if s != [] { OfNodeOn(node, s[1..]); }
  }

  lemma GroupOnNode(s: seq<Slot>, node: int)
    ensures OnNode(node, GroupOf(s, node)) && |GroupOf(s, node)| == |OfNode(node, s)|
  {
    OfNodeOn(node, s);
    SameElements(GroupOf(s, node), OfNode(node, s));
    forall i | 0 <= i < |GroupOf(s, node)| ensures GroupOf(s, node)[i].node == node {
      assert GroupOf(s, node)[i] in OfNode(node, s);
    }
  }

  lemma OrderShape(s: seq<Slot>)
    ensures Grouped(NodeOrder(s), Groups(s, NodeOrder(s)))
    ensures forall n :: n in NodeOrder(s) <==> OfNode(n, s) != []
  {
    NodesOfShape(s);
    SortNoDuplicates(FewerOnNode(s), NodesOf(s));
    SameElements(NodeOrder(s), NodesOf(s));
    forall i | 0 <= i < |NodeOrder(s)| ensures OnNode(NodeOrder(s)[i], Groups(s, NodeOrder(s))[i]) {
      GroupOnNode(s, NodeOrder(s)[i]);
    }
  }

  lemma {:induction false} ListOfGroup(s: seq<Slot>, node: int, nodes: seq<int>)
    ensures ListOf(node, nodes, Groups(s, nodes)) == if node in nodes then GroupOf(s, node) else []
  {
    if nodes != [] {
      ListOfGroup(s, node, nodes[1..]);
      assert Groups(s, nodes)[1..] == Groups(s, nodes[1..]);
    }
  }

  // ---- main results -------------------------------------------------------

  /** The order has, of every node, exactly its slots, by ascending port; slots with
      the same port keep their order. */
  lemma OrderKeepsNodes(s: seq<Slot>, node: int)
    ensures OfNode(node, SlotOrder(s)) == GroupOf(s, node)
    ensures SortedBy(Port, OfNode(node, SlotOrder(s)))
    ensures forall p :: WithKey(Port, p, OfNode(node, SlotOrder(s))) == WithKey(Port, p, OfNode(node, s))
  {
    OrderShape(s);
    InterleaveKeepsNodes(node, NodeOrder(s), Groups(s, NodeOrder(s)));
    ListOfGroup(s, node, NodeOrder(s));
    StableSortIsStable(Port, OfNode(node, s));
  }

  /** The order is a permutation of the slots. */
  lemma OrderIsPermutation(s: seq<Slot>)
    ensures multiset(SlotOrder(s)) == multiset(s)
  {
    forall x: Slot ensures multiset(SlotOrder(s))[x] == multiset(s)[x] {
      OrderKeepsNodes(s, x.node);
      CountOnNode(x, s);
      CountOnNode(x, SlotOrder(s));
    }
  }

  lemma {:induction false} CountOnNode(x: Slot, s: seq<Slot>)
    ensures multiset(s)[x] == multiset(OfNode(x.node, s))[x]
  {
    if s != [] {
      CountOnNode(x, s[1..]);
      assert s == [s[0]] + s[1..];
      assert OfNode(x.node, s) == (if s[0].node == x.node then [s[0]] else []) + OfNode(x.node, s[1..]);
    }
  }

  /** In every prefix of the order, a node is at most one slot ahead of another,
      unless the other has no slot left. */
  lemma OrderIsFair(s: seq<Slot>, n: nat, a: int, b: int)
    requires n <= |SlotOrder(s)|
    ensures var p := SlotOrder(s)[..n];
            |OfNode(b, p)| <= |OfNode(a, p)| + 1 || |OfNode(a, p)| == |OfNode(a, s)|
  {
    OrderShape(s);
    InterleaveIsFair(a, b, NodeOrder(s), Groups(s, NodeOrder(s)), n);
    ListOfGroup(s, a, NodeOrder(s));
  }

  /** The first slot is on a node with the most slots. */
  lemma {:induction false} LargestNodeFirst(s: seq<Slot>, node: int)
    requires s != []
    ensures SlotOrder(s) != [] && |OfNode(node, s)| <= |OfNode(SlotOrder(s)[0].node, s)|
  {
    OrderShape(s);
    var order := NodeOrder(s);
    var lists := Groups(s, order);
    assert OfNode(s[0].node, s) != [] && s[0].node in order;
    GroupOnNode(s, order[0]);
    assert order[0] in order;
    assert lists[0] == GroupOf(s, order[0]) && Heads(lists)[0] == lists[0][0];
    StableSortIsStable(FewerOnNode(s), NodesOf(s));
    if node in order {
      var i :| 0 <= i < |order| && order[i] == node;
      assert FewerOnNode(s)(order[0]) <= FewerOnNode(s)(order[i]);
    }
  }

  // ---- the code -----------------------------------------------------------

  lemma GroupsCons(s: seq<Slot>, node: int, nodes: seq<int>)
    ensures Groups(s, [node] + nodes) == [GroupOf(s, node)] + Groups(s, nodes)
  {
  }

  /** Sorting the groups by size is sorting their nodes. */
  lemma {:induction false} InsertGroup(s: seq<Slot>, node: int, nodes: seq<int>)
    ensures Insert(FewerSlots, GroupOf(s, node), Groups(s, nodes)) == Groups(s, Insert(FewerOnNode(s), node, nodes))
  {
    var key, g, gs := FewerOnNode(s), GroupOf(s, node), Groups(s, nodes);
    if nodes == [] || key(node) <= key(nodes[0]) {
      GroupsCons(s, node, nodes);
      assert Insert(key, node, nodes) == [node] + nodes && Insert(FewerSlots, g, gs) == [g] + gs;
    } else {
      var rest := Insert(key, node, nodes[1..]);
      InsertGroup(s, node, nodes[1..]);
      GroupsCons(s, nodes[0], rest);
      GroupsRest(s, nodes);
      assert Insert(FewerSlots, g, gs) == [gs[0]] + Insert(FewerSlots, g, gs[1..]);
      assert Insert(key, node, nodes) == [nodes[0]] + rest;
    }
  }

  lemma GroupsRest(s: seq<Slot>, nodes: seq<int>)
    requires nodes != []
    ensures Groups(s, nodes)[1..] == Groups(s, nodes[1..])
  {
  }

  lemma {:induction false} SortGroups(s: seq<Slot>, nodes: seq<int>)
    ensures StableSort(FewerSlots, Groups(s, nodes)) == Groups(s, StableSort(FewerOnNode(s), nodes))
  {
    if nodes != [] {
      SortGroups(s, nodes[1..]);
      GroupsRest(s, nodes);
      InsertGroup(s, nodes[0], StableSort(FewerOnNode(s), nodes[1..]));
    }
  }

  /** The slots of each node so far. */
  ghost predicate GroupedSoFar(slots: seq<Slot>, nodes: seq<int>, groups: map<int, seq<Slot>>) {
    && nodes == NodesOf(slots)
    && (forall n :: n in groups <==> n in nodes)
    && (forall n :: n in groups ==> groups[n] == OfNode(n, slots))
  }

  /** One more slot of a node that is already there. */
  lemma OneMoreSlot(slots: seq<Slot>, slot: Slot, nodes: seq<int>, groups: map<int, seq<Slot>>)
    requires GroupedSoFar(slots, nodes, groups) && slot.node in groups
    ensures GroupedSoFar(slots + [slot], nodes, groups[slot.node := groups[slot.node] + [slot]])
  {
    assert (slots + [slot])[..|slots|] == slots;
    forall n ensures OfNode(n, slots + [slot]) == OfNode(n, slots) + (if slot.node == n then [slot] else []) {
      OfNodeAppend(n, slots, slot);
    }
  }

  lemma NoSlotsYet(slots: seq<Slot>, node: int)
    requires node !in NodesOf(slots)
    ensures OfNode(node, slots) == []
  {
    NodesOfShape(slots);
  }

  lemma NodesOfAppend(slots: seq<Slot>, slot: Slot)
    requires slot.node !in NodesOf(slots)
    ensures NodesOf(slots + [slot]) == Insert(Same, slot.node, NodesOf(slots))
  {
    assert (slots + [slot])[..|slots|] == slots;
  }

  /** The first slot of a node. */
  lemma OneMoreNode(slots: seq<Slot>, slot: Slot, nodes: seq<int>, groups: map<int, seq<Slot>>)
    requires GroupedSoFar(slots, nodes, groups) && slot.node !in groups
    ensures GroupedSoFar(slots + [slot], Insert(Same, slot.node, nodes), groups[slot.node := [slot]])
  {
    NoSlotsYet(slots, slot.node);
    NodesOfAppend(slots, slot);
    InsertMembers(Same, slot.node, nodes);
    var groups' := groups[slot.node := [slot]];
    forall n | n in groups' ensures groups'[n] == OfNode(n, slots + [slot]) {
      OfNodeAppend(n, slots, slot);
    }
  }

  /** The first loop of `sortSlots`.  `nodes` are the keys of the sorted map. */
  method GroupByNode(slots: seq<Slot>) returns (nodes: seq<int>, groups: map<int, seq<Slot>>)
    ensures nodes == NodesOf(slots)
    ensures forall i :: 0 <= i < |nodes| ==> nodes[i] in groups && groups[nodes[i]] == OfNode(nodes[i], slots)
  {
    nodes, groups := [], map[];
    for i := 0 to |slots|
      invariant GroupedSoFar(slots[..i], nodes, groups)
    {
      var slot := slots[i];
      assert slots[..i + 1] == slots[..i] + [slot];
      if slot.node in groups {
        OneMoreSlot(slots[..i], slot, nodes, groups);
        groups := groups[slot.node := groups[slot.node] + [slot]];
      } else {
        OneMoreNode(slots[..i], slot, nodes, groups);
        nodes := Insert(Same, slot.node, nodes);
        groups := groups[slot.node := [slot]];
      }
    }
    assert slots[..|slots|] == slots;
    forall i | 0 <= i < |nodes| ensures nodes[i] in groups && groups[nodes[i]] == OfNode(nodes[i], slots) {
      var n := nodes[i];
      assert n in nodes;
    }
  }

  /** The second loop: each group is sorted by port. */
  method SortByPort(ghost slots: seq<Slot>, nodes: seq<int>, groups: map<int, seq<Slot>>) returns (list: seq<seq<Slot>>)
    requires forall i :: 0 <= i < |nodes| ==> nodes[i] in groups && groups[nodes[i]] == OfNode(nodes[i], slots)
    ensures list == Groups(slots, nodes)
  {
    list := [];
    for i := 0 to |nodes|
      invariant |list| == i && forall j :: 0 <= j < i ==> list[j] == GroupOf(slots, nodes[j])
    {
      list := list + [StableSort(Port, groups[nodes[i]])];
    }
  }

  lemma OrderNonempty(s: seq<Slot>)
    requires s != []
    ensures NodeOrder(s) != []
  {
    OrderShape(s);
    assert OfNode(s[0].node, s) != [] && s[0].node in NodeOrder(s);
  }

  /** `sortSlots`: null without slots. */
  method SortSlots(availableSlots: Option<seq<Slot>>) returns (r: Option<seq<Slot>>)
    ensures r.None? <==> availableSlots.None? || availableSlots.value == []
    ensures r.Some? ==> r.value == SlotOrder(availableSlots.value)
  {
    if availableSlots.None? || |availableSlots.value| == 0 {
      return None;
    }
    var slots := availableSlots.value;
    var nodes, groups := GroupByNode(slots);
    var byPort := SortByPort(slots, nodes, groups);
    var list := StableSort(FewerSlots, byPort);
    SortGroups(slots, nodes);
    OrderNonempty(slots);
    var nodeList := seq(|list|, i requires 0 <= i < |list| => Some(list[i]));
    assert AllOrEmpty(nodeList) == list;
    r := InterleaveAll(Some(nodeList));
  }
}
