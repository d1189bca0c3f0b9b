/** `scheduleTopology` and `reverseMap`: unassigned executors are dealt out to the
    chosen slots in turn. */
module Placement {
  import opened Arithmetic
  import opened Base
  import opened Slots
  import opened SlotSorting

  datatype Exec = Exec(startTask: int, endTask: int)

  /** A sublist with a negative end is an illegal argument. */
  datatype Result<+T> = Ok(value: T) | IllegalArgument

  // ---- reversing a map ----------------------------------------------------

  /** `r` lists, for every value of `m`, the keys with that value, each once. */
  ghost predicate IsReverse<K(!new), V(!new)>(m: map<K, V>, r: map<V, seq<K>>) {
    && (forall v :: v in r ==> r[v] != [] && NoDuplicates(r[v]))
    && (forall v, k :: v in r && k in r[v] ==> k in m && m[k] == v)
    && (forall k :: k in m ==> m[k] in r && k in r[m[k]])
  }

  /** Adding an entry with a new key at the end of its list. */
  function Grown<K, V(==)>(r: map<V, seq<K>>, k: K, v: V): map<V, seq<K>> {
    if v in r then r[v := r[v] + [k]] else r[v := [k]]
  }

  lemma GrownIsReverse<K(!new), V(!new)>(m: map<K, V>, r: map<V, seq<K>>, k: K, v: V)
    requires IsReverse(m, r) && k !in m
    ensures IsReverse(m[k := v], Grown(r, k, v))
  {
    var r' := Grown(r, k, v);
    assert forall w :: w in r' && w != v ==> w in r && r'[w] == r[w];
    assert r'[v] == (if v in r then r[v] else []) + [k];
    forall x | x in m ensures m[x] in r' && x in r'[m[x]] {
      assert x in r[m[x]];
    }
  }

  /** `reverseMap`: null counts as empty.  Entries come in any order. */
  method ReverseMap<K(==, !new), V(==, !new)>(m: Option<map<K, V>>) returns (rtn: map<V, seq<K>>)
    ensures IsReverse(if m.Some? then m.value else map[], rtn)
  {
    rtn := map[];
    if m.None? {
      return;
    }
    var todo := m.value.Keys;
    ghost var done: map<K, V> := map[];
    while todo != {}
      invariant todo <= m.value.Keys && IsReverse(done, rtn)
      invariant done == map k | k in m.value && k !in todo :: m.value[k]
      decreases |todo|
    {
      var key :| key in todo;
      var val := m.value[key];
      GrownIsReverse(done, rtn, key, val);
      if val in rtn {
        rtn := rtn[val := rtn[val] + [key]];
      } else {
        rtn := rtn[val := [key]];
      }
      done := done[key := val];
      todo := todo - {key};
    }
    assert done == m.value;
  }

  /** A map can be read back from its reverse: nothing is lost or added. */
  lemma ReverseDeterminesMap<K(!new), V(!new)>(m1: map<K, V>, m2: map<K, V>, r: map<V, seq<K>>)
    requires IsReverse(m1, r) && IsReverse(m2, r)
    ensures m1 == m2
  {
    forall k ensures k in m1 <==> k in m2 {
      if k in m1 { assert k in r[m1[k]]; }
      if k in m2 { assert k in r[m2[k]]; }
    }
    forall k | k in m1 ensures m1[k] == m2[k] { assert k in r[m1[k]]; }
  }

  /** The keys with one value. */
  function Load<K(!new), V(==)>(m: map<K, V>, v: V): nat { |KeysOf(m, v)| }

  function KeysOf<K(!new), V(==)>(m: map<K, V>, v: V): set<K> {
    set k | k in m && m[k] == v
  }

  lemma {:induction false} SizeOfElements<K>(s: seq<K>)
    requires NoDuplicates(s)
    ensures |set x | x in s| == |s|
  {
    if s != [] {
      SizeOfElements(s[1..]);
      assert (set x | x in s) == {s[0]} + (set x | x in s[1..]);
      assert s[0] !in s[1..];
    }
  }

  /** The length of a list of the reverse is the load of its value. */
  lemma ReverseLengths<K(!new), V(!new)>(m: map<K, V>, r: map<V, seq<K>>, v: V)
    requires IsReverse(m, r)
    ensures Load(m, v) == if v in r then |r[v]| else 0
  {
    if v in r {
      SizeOfElements(r[v]);
      assert KeysOf(m, v) == set x | x in r[v];
    } else {
      assert KeysOf(m, v) == {};
    }
  }

  // ---- dealing out executors ----------------------------------------------

  function Unassigned(all: set<Exec>, alive: map<Slot, seq<Exec>>): set<Exec> {
    set e | e in all && forall s :: s in alive ==> e !in alive[s]
  }

  function StartTask(e: Exec): int { e.startTask }

  /** Executor i goes to slot i modulo the number of slots. */
  function RoundRobin(executors: seq<Exec>, slots: seq<Slot>): (m: map<Exec, Slot>)
    requires slots != []
    ensures forall e :: e in m <==> e in executors
  {
    if executors == [] then map[]
    else
      var n := |executors| - 1;
      assert executors == executors[..n] + [executors[n]];
      RoundRobin(executors[..n], slots)[executors[n] := slots[n % |slots|]]
  }

  /** How many of the first n turns are those of slot j. */
  function Turns(n: nat, slots: nat, j: nat): nat
    requires slots > 0
  {
    n / slots + if j < n % slots then 1 else 0
  }

  lemma NextTurn(n: nat, slots: nat, j: nat)
    requires j < slots
    ensures Turns(n + 1, slots, j) == Turns(n, slots, j) + if n % slots == j then 1 else 0
  {
    var q, r := n / slots, n % slots;
    assert n == q * slots + r;
    if r + 1 < slots {
      DivMod(n + 1, slots, q, r + 1);
    } else {
      assert n + 1 == (q + 1) * slots;
      DivMod(n + 1, slots, q + 1, 0);
    }
  }

  lemma LoadOfPut<K(!new), V(!new)>(m: map<K, V>, k: K, w: V, v: V)
    requires k !in m
    ensures Load(m[k := w], v) == Load(m, v) + if w == v then 1 else 0
  {
    assert KeysOf(m[k := w], v) == KeysOf(m, v) + if w == v then {k} else {};
  }

  /** Each slot gets as many executors as it has turns. */
  lemma {:induction false} RoundRobinLoad(executors: seq<Exec>, slots: seq<Slot>, j: nat)
    requires NoDuplicates(executors) && NoDuplicates(slots) && j < |slots|
    ensures Load(RoundRobin(executors, slots), slots[j]) == Turns(|executors|, |slots|, j)
  {
    if executors == [] {
      assert KeysOf(RoundRobin(executors, slots), slots[j]) == {};
    } else {
      var n := |executors| - 1;
      RoundRobinLoad(executors[..n], slots, j);
      NextTurn(n, |slots|, j);
      assert executors[n] !in executors[..n];
      LoadOfPut(RoundRobin(executors[..n], slots), executors[n], slots[n % |slots|], slots[j]);
    }
  }

  /** The number of slots to add: not more than are wanted, nor than are free. */
  function ToChoose(numWorkers: int, available: nat, alive: nat): int {
    (if numWorkers <= available + alive then numWorkers else available + alive) - alive
  }

  /** The executors were dealt out in the order of their start tasks. */
  ghost predicate DealtOut(m: map<Exec, Slot>, executors: set<Exec>, slots: seq<Slot>)
    requires slots != []
  {
    exists order :: Listed(order, executors) && SortedBy(StartTask, order) && m == RoundRobin(order, slots)
  }

  /** What `scheduleTopology` returns when it does not fail. */
  ghost predicate IsPlacement(numWorkers: int, available: seq<Slot>, all: set<Exec>, alive: map<Slot, seq<Exec>>,
                              m: map<Exec, Slot>)
  {
    var n := ToChoose(numWorkers, |available|, |alive|);
    if available == [] || n == 0 then m == map[]
    else 0 < n <= |SlotOrder(available)| && DealtOut(m, Unassigned(all, alive), SlotOrder(available)[..n])
  }

  /** The list has the elements of the set, each once. */
  ghost predicate Listed<T(!new)>(s: seq<T>, elements: set<T>) {
    NoDuplicates(s) && forall x :: x in s <==> x in elements
  }

  // ---- the code -----------------------------------------------------------

  /** A list of the elements of a set, in any order. */
  method ListElements(elements: set<Exec>) returns (s: seq<Exec>)
    ensures Listed(s, elements)
  {
    s := [];
    var todo := elements;
    while todo != {}
      invariant todo <= elements && Listed(s, elements - todo)
      decreases |todo|
    {
      var x :| x in todo;
      s := s + [x];
      todo := todo - {x};
    }
  }

  method DealOut(executors: seq<Exec>, slots: seq<Slot>) returns (reassignment: map<Exec, Slot>)
    requires slots != []
    ensures reassignment == RoundRobin(executors, slots)
  {
    reassignment := map[];
    for i := 0 to |executors|
      invariant reassignment == RoundRobin(executors[..i], slots)
    {
      assert executors[..i + 1][..i] == executors[..i];
      reassignment := reassignment[executors[i] := slots[i % |slots|]];
    }
    assert executors[..|executors|] == executors;
  }

  /** `aliveExecutors`, and the executors that are not among them. */
  method UnassignedExecutors(all: set<Exec>, alive: map<Slot, seq<Exec>>) returns (r: set<Exec>)
    ensures r == Unassigned(all, alive)
  {
    var aliveExecutors: set<Exec> := {};
    var todo := alive.Keys;
    while todo != {}
      invariant todo <= alive.Keys
      invariant forall e :: e in aliveExecutors <==> exists s :: s in alive && s !in todo && e in alive[s]
      decreases |todo|
    {
      var slot :| slot in todo;
      aliveExecutors := aliveExecutors + set e | e in alive[slot];
      todo := todo - {slot};
    }
    r := all - aliveExecutors;
  }

  lemma OrderLength(available: seq<Slot>)
    ensures |SlotOrder(available)| == |available|
  {
    OrderIsPermutation(available);
    assert |multiset(SlotOrder(available))| == |SlotOrder(available)| && |multiset(available)| == |available|;
  }

  /** `scheduleTopology`.  It fails exactly when slots are free but the topology
      already has more slots than workers are wanted. */
  method ScheduleTopology(numWorkers: int, available: seq<Slot>, all: set<Exec>, alive: map<Slot, seq<Exec>>)
    returns (r: Result<map<Exec, Slot>>)
    ensures r.IllegalArgument? <==> available != [] && numWorkers < |alive|
    ensures r.Ok? ==> IsPlacement(numWorkers, available, all, alive, r.value)
  {
    var used := |available| + |alive|;
    var totalSlotsToUse := if numWorkers <= used then numWorkers else used;
    var sorted := SortSlots(Some(available));
    if sorted.None? {
      return Ok(map[]);
    }
    var size := |sorted.value|;
    OrderLength(available);
    var wanted := totalSlotsToUse - |alive|;
    var toIndex := if wanted > size then size else wanted;
    if toIndex < 0 {
      return IllegalArgument;
    }
    var reassignSlots := sorted.value[..toIndex];
    if |reassignSlots| == 0 {
      return Ok(map[]);
    }
    var reassignment := Reassign(all, alive, reassignSlots);
    assert toIndex == ToChoose(numWorkers, |available|, |alive|);
    PlacementFrom(numWorkers, available, all, alive, reassignment, toIndex);
    return Ok(reassignment);
  }

  lemma PlacementFrom(numWorkers: int, available: seq<Slot>, all: set<Exec>, alive: map<Slot, seq<Exec>>,
                      m: map<Exec, Slot>, n: nat)
    requires 0 < n == ToChoose(numWorkers, |available|, |alive|) <= |SlotOrder(available)|
    requires DealtOut(m, Unassigned(all, alive), SlotOrder(available)[..n]) && available != []
    ensures IsPlacement(numWorkers, available, all, alive, m)
  {
  }

  method Reassign(all: set<Exec>, alive: map<Slot, seq<Exec>>, slots: seq<Slot>) returns (m: map<Exec, Slot>)
    requires slots != []
    ensures DealtOut(m, Unassigned(all, alive), slots)
  {
    var reassignExecutors := UnassignedExecutors(all, alive);
    var executors := ListElements(reassignExecutors);
    SortNoDuplicates(StartTask, executors);
    SameElements(StableSort(StartTask, executors), executors);
    StableSortIsStable(StartTask, executors);
    executors := StableSort(StartTask, executors);
    m := DealOut(executors, slots);
  }

  // ---- main results -------------------------------------------------------

  lemma {:induction false} MultisetNoDuplicates(a: seq<Slot>, b: seq<Slot>)
    requires multiset(a) == multiset(b) && NoDuplicates(a)
    ensures NoDuplicates(b)
  {
    forall i, j | 0 <= i < j < |b| ensures b[i] != b[j] {
      if b[i] == b[j] {
        assert b == b[..i] + [b[i]] + b[i + 1..j] + [b[j]] + b[j + 1..];
        assert multiset(b)[b[i]] >= 2;
        OnceEach(a, b[i]);
      }
    }
  }

  lemma {:induction false} OnceEach(a: seq<Slot>, x: Slot)
    requires NoDuplicates(a)
    ensures multiset(a)[x] <= 1
  {
    if a != [] {
      OnceEach(a[1..], x);
      assert a == [a[0]] + a[1..];
      if a[0] == x { assert x !in multiset(a[1..]) by { assert x !in a[1..]; } }
    }
  }

  /** If slots are chosen, every unassigned executor gets exactly one of them, no
      other executor gets any, no more slots are in use than wanted, and the loads
      of any two chosen slots differ by at most one. */
  lemma PlacementIsBalanced(numWorkers: int, available: seq<Slot>, all: set<Exec>, alive: map<Slot, seq<Exec>>,
                            m: map<Exec, Slot>, i: nat, j: nat)
    requires IsPlacement(numWorkers, available, all, alive, m) && NoDuplicates(available)
    requires available != [] && numWorkers > |alive|
    requires i < ToChoose(numWorkers, |available|, |alive|) && j < ToChoose(numWorkers, |available|, |alive|)
    ensures var n := ToChoose(numWorkers, |available|, |alive|);
            && |alive| + n <= numWorkers && n <= |SlotOrder(available)| && m.Keys == Unassigned(all, alive)
            && (forall e :: e in m ==> m[e] in SlotOrder(available)[..n])
            && Load(m, SlotOrder(available)[i]) <= Load(m, SlotOrder(available)[j]) + 1
  {
    var n := ToChoose(numWorkers, |available|, |alive|);
    var slots := SlotOrder(available)[..n];
    var order :| Listed(order, Unassigned(all, alive)) && SortedBy(StartTask, order) && m == RoundRobin(order, slots);
    OrderIsPermutation(available);
    MultisetNoDuplicates(available, SlotOrder(available));
    RoundRobinLoad(order, slots, i);
    RoundRobinLoad(order, slots, j);
    RoundRobinSlots(order, slots);
    assert m.Keys == Unassigned(all, alive);
  }

  lemma {:induction false} RoundRobinSlots(executors: seq<Exec>, slots: seq<Slot>)
    requires slots != []
    ensures forall e :: e in RoundRobin(executors, slots) ==> RoundRobin(executors, slots)[e] in slots
  {
    if executors != [] { RoundRobinSlots(executors[..|executors| - 1], slots); }
  }

  /** The lists of executors handed to the cluster, slot by slot, differ in length
      by at most one. */
  lemma AssignedListsAreBalanced(numWorkers: int, available: seq<Slot>, all: set<Exec>, alive: map<Slot, seq<Exec>>,
                                 m: map<Exec, Slot>, r: map<Slot, seq<Exec>>, a: Slot, b: Slot)
    requires IsPlacement(numWorkers, available, all, alive, m) && NoDuplicates(available) && IsReverse(m, r)
    requires a in r && b in r
    ensures |r[a]| <= |r[b]| + 1
    ensures m.Keys == Unassigned(all, alive)
  {
    var i := ChosenIndex(numWorkers, available, all, alive, m, r, a);
    var j := ChosenIndex(numWorkers, available, all, alive, m, r, b);
    PlacementIsBalanced(numWorkers, available, all, alive, m, i, j);
    ReverseLengths(m, r, a);
    ReverseLengths(m, r, b);
  }

  lemma KeyWithValue(m: map<Exec, Slot>, r: map<Slot, seq<Exec>>, a: Slot) returns (e: Exec)
    requires IsReverse(m, r) && a in r
    ensures e in m && m[e] == a
  {
    e := r[a][0];
    assert e in r[a];
  }

  lemma ChosenIndex(numWorkers: int, available: seq<Slot>, all: set<Exec>, alive: map<Slot, seq<Exec>>,
                    m: map<Exec, Slot>, r: map<Slot, seq<Exec>>, a: Slot) returns (i: nat)
    requires IsPlacement(numWorkers, available, all, alive, m) && IsReverse(m, r) && a in r
    ensures available != [] && numWorkers > |alive|
    ensures i < ToChoose(numWorkers, |available|, |alive|) <= |SlotOrder(available)| && SlotOrder(available)[i] == a
  {
    var e := KeyWithValue(m, r, a);
    i := SlotIndex(numWorkers, available, all, alive, m, e);
  }

  lemma SlotIndex(numWorkers: int, available: seq<Slot>, all: set<Exec>, alive: map<Slot, seq<Exec>>,
                  m: map<Exec, Slot>, e: Exec) returns (i: nat)
    requires IsPlacement(numWorkers, available, all, alive, m) && e in m
    ensures available != [] && numWorkers > |alive|
    ensures i < ToChoose(numWorkers, |available|, |alive|) <= |SlotOrder(available)| && SlotOrder(available)[i] == m[e]
  {
    var slots := SlotOrder(available)[..ToChoose(numWorkers, |available|, |alive|)];
    var order :| Listed(order, Unassigned(all, alive)) && SortedBy(StartTask, order) && m == RoundRobin(order, slots);
    RoundRobinSlots(order, slots);
    i :| 0 <= i < |slots| && slots[i] == m[e];
  }
}
