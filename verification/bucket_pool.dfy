/** Buckets that circulate between producers and a consumer. */
module BucketPool {
  import opened Base
  import opened Sums

  const QUEUE_SIZE: nat := 100

  /** Every socket has one bucket more than its queues are asked to hold. */
  const NR_BUCKETS: nat := QUEUE_SIZE + 1

  datatype Producer =
    | Fetching
    | Polling(batch: seq<int>)
    | Filling(bucket: nat, batch: seq<int>, next: nat)
    | OfferingLength(bucket: nat, batch: seq<int>)
    | OfferingBucket(bucket: nat, batch: seq<int>)

  /** One socket.  Buckets are never copied: queues carry references, here the
      numbers of the buckets, and `mem` holds what is in them.  `received` and
      `delivered` are the batches that the producer has fetched and that the
      consumer has been given; the model keeps them. */
  datatype Socket = Socket(
    back: seq<nat>,
    lengths: seq<nat>,
    values: seq<nat>,
    prod: Producer,
    mem: seq<seq<int>>,
    received: seq<seq<int>>,
    delivered: seq<seq<int>>)

  /** `Returning` until the bucket of the last call is back in its queue. */
  datatype Consumer = Idle | Returning | PollingLength | Taking(length: nat)

  /** `tuningKnob` is the size of a bucket.  The capacities are what the queues
      really hold, which may be more than they were asked for.  `from` is the
      socket that the held bucket came from; the model keeps it. */
  datatype State = State(
    sockets: seq<Socket>,
    tuningKnob: nat,
    capacity: nat,
    backCapacity: nat,
    cons: Consumer,
    queueIdx: nat,
    oldQueueIdx: nat,
    held: Option<nat>,
    from: nat,
    nrFilled: nat)

  function Numbers(n: nat): seq<nat> { seq(n, i => i) }

  function NewSocket(tuningKnob: nat): Socket {
    Socket(Numbers(NR_BUCKETS), [], [], Fetching, seq(NR_BUCKETS, b => seq(tuningKnob, k => 0)), [], [])
  }

  function Init(nrSockets: nat, tuningKnob: nat, capacity: nat, backCapacity: nat): State {
    State(seq(nrSockets, i => NewSocket(tuningKnob)), tuningKnob, capacity, backCapacity, Idle, 0, 0, None, 0, 0)
  }

  datatype Step = StepProducer(i: nat, batch: seq<int>) | StepConsumer

  // ---- the producer -------------------------------------------------------

  predicate ProducerEnabled(k: Socket, tuningKnob: nat, capacity: nat, batch: seq<int>) {
    match k.prod
    case Fetching => |batch| <= tuningKnob
    case Polling(_) => k.back != []
    case Filling(b, batch, i) => b < |k.mem| && i <= |batch| <= |k.mem[b]|
    case OfferingLength(_, _) => |k.lengths| < capacity
    case OfferingBucket(_, _) => |k.values| < capacity
  }

  function ProducerStep(k: Socket, tuningKnob: nat, capacity: nat, batch: seq<int>): Socket
    requires ProducerEnabled(k, tuningKnob, capacity, batch)
  {
    match k.prod
    case Fetching => k.(prod := Polling(batch), received := k.received + [batch])
    case Polling(bt) => k.(prod := Filling(k.back[0], bt, 0), back := k.back[1..])
    case Filling(b, bt, i) =>
      if i < |bt| then k.(mem := k.mem[b := k.mem[b][i := bt[i]]], prod := Filling(b, bt, i + 1))
      else k.(prod := OfferingLength(b, bt))
    case OfferingLength(b, bt) => k.(lengths := k.lengths + [|bt|], prod := OfferingBucket(b, bt))
    case OfferingBucket(b, bt) => k.(values := k.values + [b], prod := Fetching)
  }

  // ---- the consumer: fetchVBucketNB ---------------------------------------

  /** The socket that the call polls. */
  function PollIdx(s: State): nat { if |s.sockets| == 1 then 0 else s.queueIdx }

  /** The socket to poll next, and the one polled: with a single socket neither
      index changes. */
  function Advance(s: State): State {
    if |s.sockets| < 2 then s
    else s.(oldQueueIdx := s.queueIdx, queueIdx := if s.queueIdx + 1 == |s.sockets| then 0 else s.queueIdx + 1)
  }

  predicate ConsumerEnabled(s: State) {
    match s.cons
    case Idle => true
    case Returning => s.held.Some? ==>
      s.oldQueueIdx < |s.sockets| && |s.sockets[s.oldQueueIdx].back| < s.backCapacity
    case PollingLength => |s.sockets| > 0 ==> PollIdx(s) < |s.sockets|
    case Taking(n) => PollIdx(s) < |s.sockets| && CanTake(s.sockets[PollIdx(s)], n)
  }

  predicate CanTake(k: Socket, n: nat) {
    k.values != [] && k.values[0] < |k.mem| && n <= |k.mem[k.values[0]]|
  }

  function GiveBack(k: Socket, b: nat): Socket { k.(back := k.back + [b]) }

  function TakeBucket(k: Socket, n: nat): Socket
    requires CanTake(k, n)
  {
    k.(values := k.values[1..], delivered := k.delivered + [k.mem[k.values[0]][..n]])
  }

  function ConsumerStep(s: State): State
    requires ConsumerEnabled(s)
  {
    match s.cons
    case Idle => s.(cons := Returning)
    case Returning =>
      if s.held.None? then s.(cons := PollingLength)
      else s.(cons := PollingLength, held := None,
              sockets := s.sockets[s.oldQueueIdx := GiveBack(s.sockets[s.oldQueueIdx], s.held.value)])
    case PollingLength =>
      if |s.sockets| == 0 then s.(cons := Idle)
      else
        var i := PollIdx(s);
        var k := s.sockets[i];
        if k.lengths == [] then Advance(s).(cons := Idle)
        else s.(cons := Taking(k.lengths[0]), sockets := s.sockets[i := k.(lengths := k.lengths[1..])])
    case Taking(n) =>
      var i := PollIdx(s);
      var k := s.sockets[i];
      Advance(s.(cons := Idle, held := Some(k.values[0]), from := i, nrFilled := n,
                 sockets := s.sockets[i := TakeBucket(k, n)]))
  }

  // ---- steps and runs -----------------------------------------------------

  predicate Enabled(s: State, a: Step) {
    match a
    case StepProducer(i, batch) => i < |s.sockets| && ProducerEnabled(s.sockets[i], s.tuningKnob, s.capacity, batch)
    case StepConsumer => ConsumerEnabled(s)
  }

  function Next(s: State, a: Step): State
    requires Enabled(s, a)
  {
    match a
    case StepProducer(i, batch) =>
      s.(sockets := s.sockets[i := ProducerStep(s.sockets[i], s.tuningKnob, s.capacity, batch)])
    case StepConsumer => ConsumerStep(s)
  }

  predicate Legal(s: State, run: seq<Step>)
    decreases |run|
  {
    run == [] || (Enabled(s, run[0]) && Legal(Next(s, run[0]), run[1..]))
  }

  function Exec(s: State, run: seq<Step>): State
    requires Legal(s, run)
    decreases |run|
  {
    if run == [] then s else Exec(Next(s, run[0]), run[1..])
  }

  /** Queues hold at least as much as they were asked to. */
  predicate Sized(s: State) {
    s.capacity >= QUEUE_SIZE && s.backCapacity >= NR_BUCKETS
  }

  /** The consumer and one producer per socket, in any interleaving. */
  ghost predicate Reachable(nrSockets: nat, tuningKnob: nat, s: State) {
    Sized(s) &&
    exists run ::
      var s0 := Init(nrSockets, tuningKnob, s.capacity, s.backCapacity);
      Legal(s0, run) && Exec(s0, run) == s
  }

  // ---- the invariant of a socket ------------------------------------------

  function Is(b: nat): nat -> nat { (x: nat) => if x == b then 1 else 0 }

  function InHand(p: Producer): seq<nat> {
    if p.Fetching? || p.Polling? then [] else [p.bucket]
  }

  function AsSeq(o: Option<nat>): seq<nat> { if o.Some? then [o.value] else [] }

  /** Where the buckets of a socket are: `h` is the one that the consumer holds. */
  function Pool(k: Socket, h: Option<nat>): seq<nat> {
    k.back + k.values + InHand(k.prod) + AsSeq(h)
  }

  function Occurrences(k: Socket, h: Option<nat>, b: nat): nat {
    Total(Is(b), k.back) + Total(Is(b), k.values) + Total(Is(b), InHand(k.prod)) + Total(Is(b), AsSeq(h))
  }

  predicate BucketsExist(q: seq<nat>) {
    forall i :: 0 <= i < |q| ==> q[i] < NR_BUCKETS
  }

  predicate PoolOk(k: Socket, h: Option<nat>) {
    && BucketsExist(k.back) && BucketsExist(k.values) && BucketsExist(InHand(k.prod)) && BucketsExist(AsSeq(h))
    && |Pool(k, h)| == NR_BUCKETS
    && forall b: nat :: b < NR_BUCKETS ==> Occurrences(k, h, b) == 1
  }

  predicate MemOk(k: Socket, tuningKnob: nat) {
    && |k.mem| == NR_BUCKETS
    && forall b :: 0 <= b < NR_BUCKETS ==> |k.mem[b]| == tuningKnob
  }

  /** Lengths not yet matched with a bucket: `t` is the one that the consumer has
      polled. */
  function Lengths(k: Socket, t: Option<nat>): seq<nat> { AsSeq(t) + k.lengths }

  /** Buckets whose length has been offered. */
  function Buckets(k: Socket): seq<nat> {
    k.values + (if k.prod.OfferingBucket? then [k.prod.bucket] else [])
  }

  predicate InProgress(p: Producer) { p.Polling? || p.Filling? || p.OfferingLength? }

  /** The producer has written the first elements of its batch. */
  predicate Written(k: Socket, n: nat)
    requires !k.prod.Fetching? && !k.prod.Polling?
  {
    && k.prod.bucket < |k.mem| && n <= |k.prod.batch| <= |k.mem[k.prod.bucket]|
    && k.mem[k.prod.bucket][..n] == k.prod.batch[..n]
  }

  predicate ProducerOk(k: Socket, tuningKnob: nat) {
    match k.prod
    case Fetching => true
    case Polling(bt) => |bt| <= tuningKnob
    case Filling(_, bt, i) => i <= |bt| && Written(k, i)
    case OfferingLength(_, bt) => Written(k, |bt|)
    case OfferingBucket(_, bt) => Written(k, |bt|)
  }

  /** The bucket holds this batch. */
  predicate Holds(mem: seq<seq<int>>, b: nat, n: nat, batch: seq<int>) {
    b < |mem| && n <= |mem[b]| && mem[b][..n] == batch
  }

  /** Batches are delivered in the order received; those in between are in the
      buckets queued, each with its length. */
  predicate FlowOk(k: Socket, t: Option<nat>) {
    var done := |k.delivered|;
    && |Lengths(k, t)| == |Buckets(k)|
    && |k.received| == done + |Buckets(k)| + (if InProgress(k.prod) then 1 else 0)
    && k.delivered == k.received[..done]
    && (InProgress(k.prod) ==> k.prod.batch == k.received[|k.received| - 1])
    && (forall j :: 0 <= j < |Buckets(k)| ==> Holds(k.mem, Buckets(k)[j], Lengths(k, t)[j], k.received[done + j]))
  }

  /** The consumer's bucket still holds the batch last delivered. */
  predicate HeldOk(k: Socket, h: Option<nat>, nrFilled: nat) {
    h.Some? ==> k.delivered != [] && Holds(k.mem, h.value, nrFilled, k.delivered[|k.delivered| - 1])
  }

  predicate SocketOk(k: Socket, tuningKnob: nat, h: Option<nat>, nrFilled: nat, t: Option<nat>) {
    PoolOk(k, h) && MemOk(k, tuningKnob) && ProducerOk(k, tuningKnob) && FlowOk(k, t) && HeldOk(k, h, nrFilled)
  }

  // ---- buckets stay apart -------------------------------------------------

  /** A bucket of the producer is in no queue, and the consumer does not hold it. */
  lemma ProducersBucket(k: Socket, h: Option<nat>, b: nat)
    requires PoolOk(k, h) && InHand(k.prod) == [b]
    ensures b !in k.back && b !in k.values && h != Some(b) && b < NR_BUCKETS
  {
    assert InHand(k.prod)[0] < NR_BUCKETS;
    assert Occurrences(k, h, b) == 1;
    OneElement(b, b);
    assert h == Some(b) ==> AsSeq(h) == [b];
    if b in k.back {
      var i :| 0 <= i < |k.back| && k.back[i] == b;
      TotalContains(Is(b), k.back, i);
    }
    if b in k.values {
      var i :| 0 <= i < |k.values| && k.values[i] == b;
      TotalContains(Is(b), k.values, i);
    }
  }

  lemma {:induction false} Apart(q: seq<nat>)
    requires forall b: nat :: b in q ==> Total(Is(b), q) <= 1
    ensures forall i, j :: 0 <= i < j < |q| ==> q[i] != q[j]
  {
    forall i, j | 0 <= i < j < |q| ensures q[i] != q[j] {
      TotalContainsTwo(Is(q[i]), q, i, j);
    }
  }

  lemma PoolCounts(k: Socket, h: Option<nat>, b: nat)
    ensures Total(Is(b), Pool(k, h)) == Occurrences(k, h, b)
  {
    TotalConcat(Is(b), k.back, k.values);
    TotalConcat(Is(b), k.back + k.values, InHand(k.prod));
    TotalConcat(Is(b), k.back + k.values + InHand(k.prod), AsSeq(h));
  }

  lemma PoolIsApart(k: Socket, h: Option<nat>)
    requires PoolOk(k, h)
    ensures BucketsExist(Pool(k, h))
    ensures forall x, y :: 0 <= x < y < |Pool(k, h)| ==> Pool(k, h)[x] != Pool(k, h)[y]
  {
    var p := Pool(k, h);
    assert BucketsExist(p);
    forall b: nat | b in p ensures Total(Is(b), p) <= 1 {
      PoolCounts(k, h, b);
    }
    Apart(p);
  }

  // ---- the producer keeps the invariant -----------------------------------

  lemma OneElement(b: nat, x: nat)
    ensures Total(Is(b), [x]) == Is(b)(x) && Total(Is(b), []) == 0
  {
    assert [x][1..] == [];
  }

  lemma PollPool(k: Socket, tuningKnob: nat, capacity: nat, batch: seq<int>, h: Option<nat>)
    requires PoolOk(k, h) && k.prod.Polling? && ProducerEnabled(k, tuningKnob, capacity, batch)
    ensures PoolOk(ProducerStep(k, tuningKnob, capacity, batch), h)
  {
    var k' := ProducerStep(k, tuningKnob, capacity, batch);
    forall b: nat | b < NR_BUCKETS ensures Occurrences(k', h, b) == 1 {
      assert Occurrences(k, h, b) == 1;
      OneElement(b, k.back[0]);
    }
  }

  lemma OfferPool(k: Socket, tuningKnob: nat, capacity: nat, batch: seq<int>, h: Option<nat>)
    requires PoolOk(k, h) && k.prod.OfferingBucket? && ProducerEnabled(k, tuningKnob, capacity, batch)
    ensures PoolOk(ProducerStep(k, tuningKnob, capacity, batch), h)
  {
    var k' := ProducerStep(k, tuningKnob, capacity, batch);
    forall b: nat | b < NR_BUCKETS ensures Occurrences(k', h, b) == 1 {
      assert Occurrences(k, h, b) == 1;
      OneElement(b, k.prod.bucket);
      TotalAppend(Is(b), k.values, k.prod.bucket);
    }
  }

  lemma ProducerPool(k: Socket, tuningKnob: nat, capacity: nat, batch: seq<int>, h: Option<nat>)
    requires PoolOk(k, h) && ProducerEnabled(k, tuningKnob, capacity, batch)
    ensures PoolOk(ProducerStep(k, tuningKnob, capacity, batch), h)
  {
    if k.prod.Polling? {
      PollPool(k, tuningKnob, capacity, batch, h);
    } else if k.prod.OfferingBucket? {
      OfferPool(k, tuningKnob, capacity, batch, h);
    } else {
      var k' := ProducerStep(k, tuningKnob, capacity, batch);
      forall b: nat | b < NR_BUCKETS ensures Occurrences(k', h, b) == 1 { assert Occurrences(k, h, b) == 1; }
    }
  }

  /** Writing the producer's bucket leaves all other buckets alone. */
  lemma WriteElsewhere(k: Socket, tuningKnob: nat, h: Option<nat>, nrFilled: nat, t: Option<nat>)
    requires SocketOk(k, tuningKnob, h, nrFilled, t) && k.prod.Filling? && k.prod.next < |k.prod.batch|
    ensures ProducerEnabled(k, tuningKnob, 0, [])
    ensures SocketOk(ProducerStep(k, tuningKnob, 0, []), tuningKnob, h, nrFilled, t)
  {
    var k' := ProducerStep(k, tuningKnob, 0, []);
    var b, i := k.prod.bucket, k.prod.next;
    ProducersBucket(k, h, b);
    ProducerPool(k, tuningKnob, 0, [], h);
    assert k'.mem[b][..i + 1] == k.mem[b][..i] + [k.prod.batch[i]] == k.prod.batch[..i + 1];
    forall j | 0 <= j < |Buckets(k)|
      ensures Holds(k'.mem, Buckets(k)[j], Lengths(k, t)[j], k.received[|k.delivered| + j])
    {
      assert Buckets(k)[j] in k.values;
    }
  }

  lemma ProducerFlow(k: Socket, tuningKnob: nat, capacity: nat, batch: seq<int>,
    h: Option<nat>, nrFilled: nat, t: Option<nat>)
    requires SocketOk(k, tuningKnob, h, nrFilled, t) && ProducerEnabled(k, tuningKnob, capacity, batch)
    requires !(k.prod.Filling? && k.prod.next < |k.prod.batch|)
    ensures FlowOk(ProducerStep(k, tuningKnob, capacity, batch), t)
  {
    var k' := ProducerStep(k, tuningKnob, capacity, batch);
    if k.prod.OfferingBucket? {
      assert Buckets(k') == Buckets(k);
    } else if k.prod.OfferingLength? {
      assert Lengths(k', t) == Lengths(k, t) + [|k.prod.batch|];
    } else {
      assert Buckets(k') == Buckets(k) && Lengths(k', t) == Lengths(k, t);
    }
  }

  lemma ProducerKeeps(k: Socket, tuningKnob: nat, capacity: nat, batch: seq<int>,
    h: Option<nat>, nrFilled: nat, t: Option<nat>)
    requires SocketOk(k, tuningKnob, h, nrFilled, t) && ProducerEnabled(k, tuningKnob, capacity, batch)
    ensures SocketOk(ProducerStep(k, tuningKnob, capacity, batch), tuningKnob, h, nrFilled, t)
  {
    if k.prod.Filling? && k.prod.next < |k.prod.batch| {
      WriteElsewhere(k, tuningKnob, h, nrFilled, t);
    } else {
      ProducerPool(k, tuningKnob, capacity, batch, h);
      ProducerFlow(k, tuningKnob, capacity, batch, h, nrFilled, t);
      if k.prod.Polling? { assert k.back[0] < NR_BUCKETS; }
    }
  }

  // ---- the consumer keeps the invariant -----------------------------------

  lemma GiveBackKeeps(k: Socket, tuningKnob: nat, b: nat, nrFilled: nat)
    requires SocketOk(k, tuningKnob, Some(b), nrFilled, None)
    ensures SocketOk(GiveBack(k, b), tuningKnob, None, nrFilled, None)
    ensures |k.back| < NR_BUCKETS
  {
    var k' := GiveBack(k, b);
    assert AsSeq(Some(b))[0] < NR_BUCKETS;
    forall x: nat | x < NR_BUCKETS ensures Occurrences(k', None, x) == 1 {
      assert Occurrences(k, Some(b), x) == 1;
      OneElement(x, b);
      TotalAppend(Is(x), k.back, b);
    }
    assert Buckets(k') == Buckets(k);
  }

  lemma PollKeeps(k: Socket, tuningKnob: nat, nrFilled: nat)
    requires SocketOk(k, tuningKnob, None, nrFilled, None) && k.lengths != []
    ensures SocketOk(k.(lengths := k.lengths[1..]), tuningKnob, None, nrFilled, Some(k.lengths[0]))
  {
    var k' := k.(lengths := k.lengths[1..]);
    assert Lengths(k', Some(k.lengths[0])) == Lengths(k, None);
    assert Buckets(k') == Buckets(k);
    forall b: nat | b < NR_BUCKETS ensures Occurrences(k', None, b) == 1 { assert Occurrences(k, None, b) == 1; }
  }

  lemma TakeKeeps(k: Socket, tuningKnob: nat, nrFilled: nat, n: nat)
    requires SocketOk(k, tuningKnob, None, nrFilled, Some(n)) && CanTake(k, n)
    ensures SocketOk(TakeBucket(k, n), tuningKnob, Some(k.values[0]), n, None)
  {
    var k' := TakeBucket(k, n);
    var b := k.values[0];
    assert Buckets(k)[0] == b && Lengths(k, Some(n))[0] == n;
    assert Holds(k.mem, b, n, k.received[|k.delivered|]);
    assert k'.delivered == k.received[..|k.delivered| + 1];
    forall j | 0 <= j < |Buckets(k')|
      ensures Holds(k.mem, Buckets(k')[j], Lengths(k', None)[j], k.received[|k'.delivered| + j])
    {
      assert Buckets(k')[j] == Buckets(k)[j + 1] && Lengths(k', None)[j] == Lengths(k, Some(n))[j + 1];
    }
    forall x: nat | x < NR_BUCKETS ensures Occurrences(k', Some(b), x) == 1 {
      assert Occurrences(k, None, x) == 1;
      OneElement(x, b);
    }
  }

  // ---- all sockets --------------------------------------------------------

  function HeldAt(s: State, i: nat): Option<nat> {
    if s.held.Some? && s.from == i then s.held else None
  }

  function TakenAt(s: State, i: nat): Option<nat> {
    if s.cons.Taking? && PollIdx(s) == i then Some(s.cons.length) else None
  }

  predicate SocketInv(s: State, i: nat)
    requires i < |s.sockets|
  {
    SocketOk(s.sockets[i], s.tuningKnob, HeldAt(s, i), s.nrFilled, TakenAt(s, i))
  }

  predicate ConsumerInv(s: State) {
    && Sized(s)
    && (|s.sockets| > 0 ==> s.queueIdx < |s.sockets|)
    && (|s.sockets| == 1 ==> s.oldQueueIdx == 0)
    && (s.held.Some? ==> s.from == s.oldQueueIdx < |s.sockets| && (s.cons.Idle? || s.cons.Returning?))
    && (s.cons.Taking? ==> |s.sockets| > 0)
  }

  predicate Inv(s: State) {
    ConsumerInv(s) && forall i :: 0 <= i < |s.sockets| ==> SocketInv(s, i)
  }

  lemma NewSocketOk(tuningKnob: nat)
    ensures SocketOk(NewSocket(tuningKnob), tuningKnob, None, 0, None)
  {
    var k := NewSocket(tuningKnob);
    forall b: nat | b < NR_BUCKETS ensures Occurrences(k, None, b) == 1 {
      NumbersOnce(NR_BUCKETS, b);
    }
  }

  lemma {:induction false} NumbersOnce(n: nat, b: nat)
    ensures Total(Is(b), Numbers(n)) == if b < n then 1 else 0
  {
    if n > 0 {
      NumbersOnce(n - 1, b);
      TotalAppend<nat>(Is(b), Numbers(n - 1), n - 1);
      assert Numbers(n) == Numbers(n - 1) + [n - 1];
    }
  }

  lemma ProducerStepKeeps(s: State, a: Step)
    requires Inv(s) && Enabled(s, a) && a.StepProducer?
    ensures Inv(Next(s, a))
  {
    var s' := Next(s, a);
    assert SocketInv(s, a.i);
    ProducerKeeps(s.sockets[a.i], s.tuningKnob, s.capacity, a.batch, HeldAt(s, a.i), s.nrFilled, TakenAt(s, a.i));
    forall i | 0 <= i < |s'.sockets| ensures SocketInv(s', i) { assert SocketInv(s, i); }
  }

  lemma ReturnKeeps(s: State)
    requires Inv(s) && s.cons.Returning? && s.held.Some?
    ensures ConsumerEnabled(s) && Inv(ConsumerStep(s))
  {
    assert SocketInv(s, s.from);
    GiveBackKeeps(s.sockets[s.from], s.tuningKnob, s.held.value, s.nrFilled);
    var s' := ConsumerStep(s);
    forall i | 0 <= i < |s'.sockets| ensures SocketInv(s', i) { assert SocketInv(s, i); }
  }

  lemma PollStepKeeps(s: State)
    requires Inv(s) && s.cons.PollingLength? && ConsumerEnabled(s)
    ensures Inv(ConsumerStep(s))
  {
    var s' := ConsumerStep(s);
    if |s.sockets| > 0 && s.sockets[PollIdx(s)].lengths != [] {
      assert SocketInv(s, PollIdx(s));
      PollKeeps(s.sockets[PollIdx(s)], s.tuningKnob, s.nrFilled);
      forall i | 0 <= i < |s'.sockets| ensures SocketInv(s', i) { assert SocketInv(s, i); }
    } else {
      forall i | 0 <= i < |s'.sockets| ensures SocketInv(s', i) { assert SocketInv(s, i); }
    }
  }

  /** Without a held bucket, the number last delivered does not matter. */
  lemma NrFilledFree(k: Socket, tuningKnob: nat, n: nat, m: nat, t: Option<nat>)
    requires SocketOk(k, tuningKnob, None, n, t)
    ensures SocketOk(k, tuningKnob, None, m, t)
  {
  }

  lemma TakeStepKeeps(s: State)
    requires Inv(s) && s.cons.Taking? && ConsumerEnabled(s)
    ensures Inv(ConsumerStep(s))
  {
    var s' := ConsumerStep(s);
    assert SocketInv(s, PollIdx(s));
    TakeKeeps(s.sockets[PollIdx(s)], s.tuningKnob, s.nrFilled, s.cons.length);
    forall i | 0 <= i < |s'.sockets| ensures SocketInv(s', i) {
      assert SocketInv(s, i);
      if i != PollIdx(s) { NrFilledFree(s.sockets[i], s.tuningKnob, s.nrFilled, s'.nrFilled, None); }
    }
  }

  lemma StepKeeps(s: State, a: Step)
    requires Inv(s) && Enabled(s, a)
    ensures Inv(Next(s, a))
  {
    if a.StepProducer? {
      ProducerStepKeeps(s, a);
    } else if s.cons.Returning? && s.held.Some? {
      ReturnKeeps(s);
    } else if s.cons.PollingLength? {
      PollStepKeeps(s);
    } else if s.cons.Taking? {
      TakeStepKeeps(s);
    } else {
      var s' := Next(s, a);
      forall i | 0 <= i < |s'.sockets| ensures SocketInv(s', i) { assert SocketInv(s, i); }
    }
  }

  lemma {:induction false} RunKeeps(s: State, run: seq<Step>)
    requires Inv(s) && Legal(s, run)
    ensures Inv(Exec(s, run))
    decreases |run|
  {
    if run != [] {
      StepKeeps(s, run[0]);
      RunKeeps(Next(s, run[0]), run[1..]);
    }
  }

  lemma ReachableInv(nrSockets: nat, tuningKnob: nat, s: State)
    requires Reachable(nrSockets, tuningKnob, s)
    ensures Inv(s)
  {
    var s0 := Init(nrSockets, tuningKnob, s.capacity, s.backCapacity);
    var run :| Legal(s0, run) && Exec(s0, run) == s;
    NewSocketOk(tuningKnob);
    assert forall i :: 0 <= i < |s0.sockets| ==> s0.sockets[i] == NewSocket(tuningKnob);
    RunKeeps(s0, run);
  }

  // ---- main results -------------------------------------------------------

  /** The buckets of a socket are always split up between its back queue, its
      values queue, its producer and the consumer: each is in exactly one place. */
  lemma BucketsArePartitioned(nrSockets: nat, tuningKnob: nat, s: State, i: nat)
    requires Reachable(nrSockets, tuningKnob, s) && i < |s.sockets|
    ensures var p := Pool(s.sockets[i], HeldAt(s, i));
            |p| == NR_BUCKETS && BucketsExist(p) && forall x, y :: 0 <= x < y < |p| ==> p[x] != p[y]
  {
    ReachableInv(nrSockets, tuningKnob, s);
    assert SocketInv(s, i);
    PoolIsApart(s.sockets[i], HeldAt(s, i));
  }

  /** A producer never writes a bucket that the consumer holds or that is queued. */
  lemma WritesAreExclusive(nrSockets: nat, tuningKnob: nat, s: State, i: nat)
    requires Reachable(nrSockets, tuningKnob, s) && i < |s.sockets| && s.sockets[i].prod.Filling?
    ensures var b := s.sockets[i].prod.bucket;
            HeldAt(s, i) != Some(b) && b !in s.sockets[i].back && b !in s.sockets[i].values
  {
    ReachableInv(nrSockets, tuningKnob, s);
    assert SocketInv(s, i);
    ProducersBucket(s.sockets[i], HeldAt(s, i), s.sockets[i].prod.bucket);
  }

  /** What the consumer was given is what was received, in that order; and the
      bucket it holds keeps the batch, and its length, until it is given back to
      the socket that it came from. */
  lemma DeliveriesAreFifo(nrSockets: nat, tuningKnob: nat, s: State, i: nat)
    requires Reachable(nrSockets, tuningKnob, s) && i < |s.sockets|
    ensures s.sockets[i].delivered <= s.sockets[i].received
    ensures |s.sockets[i].received| - |s.sockets[i].delivered| <= NR_BUCKETS + 1
    ensures s.held.Some? && s.from == i ==>
              && s.oldQueueIdx == i && s.sockets[i].delivered != []
              && Holds(s.sockets[i].mem, s.held.value, s.nrFilled, s.sockets[i].delivered[|s.sockets[i].delivered| - 1])
  {
    ReachableInv(nrSockets, tuningKnob, s);
    assert SocketInv(s, i);
  }

  /** Giving a bucket back never fails, and taking one waits only for a producer
      that has already offered its length and has room to offer the bucket. */
  lemma ConsumerNeverStuck(nrSockets: nat, tuningKnob: nat, s: State)
    requires Reachable(nrSockets, tuningKnob, s)
    ensures !s.cons.Taking? ==> ConsumerEnabled(s)
    ensures s.cons.Taking? ==> PollIdx(s) < |s.sockets|
    ensures s.cons.Taking? && !ConsumerEnabled(s) ==>
              var k := s.sockets[PollIdx(s)];
              k.values == [] && k.prod.OfferingBucket? && ProducerEnabled(k, s.tuningKnob, s.capacity, [])
  {
    ReachableInv(nrSockets, tuningKnob, s);
    if s.held.Some? {
      assert SocketInv(s, s.from);
    }
    if s.cons.Taking? {
      assert SocketInv(s, PollIdx(s));
      var k := s.sockets[PollIdx(s)];
      assert Lengths(k, TakenAt(s, PollIdx(s)))[0] == s.cons.length;
      assert Holds(k.mem, Buckets(k)[0], s.cons.length, k.received[|k.delivered|]);
    }
  }

  /** A producer waits only while the consumer has a bucket to take: its next call
      on that socket succeeds.  So the two are never stuck together. */
  lemma ProducerNeverStuck(nrSockets: nat, tuningKnob: nat, s: State, i: nat)
    requires Reachable(nrSockets, tuningKnob, s) && i < |s.sockets|
    requires !ProducerEnabled(s.sockets[i], s.tuningKnob, s.capacity, [])
    ensures s.sockets[i].values != []
    ensures s.sockets[i].lengths != [] || (s.cons.Taking? && PollIdx(s) == i && ConsumerEnabled(s))
  {
    ReachableInv(nrSockets, tuningKnob, s);
    assert SocketInv(s, i);
    var k := s.sockets[i];
    if s.cons.Taking? && PollIdx(s) == i {
      assert Lengths(k, TakenAt(s, i))[0] == s.cons.length;
      assert Holds(k.mem, Buckets(k)[0], s.cons.length, k.received[|k.delivered|]);
    }
  }
}
