/** The code of the bucket factory: the consumer's fetch, and what the producer
    does with one bucket. */
module BucketFactoryCode {
  import opened Base
  import opened BucketPool

  /** The bucket of the last call is given back. */
  function GivenBack(s: State): (r: State)
    requires Inv(s) && s.cons.Idle?
    ensures Inv(r) && r.cons.PollingLength?
  {
    StepKeeps(s, StepConsumer);
    var s1 := ConsumerStep(s);
    CanReturn(s1);
    StepKeeps(s1, StepConsumer);
    ConsumerStep(s1)
  }

  /** A length is polled, and then the bucket that belongs to it; if that is not yet
      queued, the call spins until the producer has offered it. */
  function PolledAndTaken(s: State): (r: State)
    requires Inv(s) && s.cons.PollingLength?
    ensures Inv(r) && r.cons.Idle?
  {
    StepKeeps(s, StepConsumer);
    var s1 := ConsumerStep(s);
    if s1.cons.Taking? then
      AwaitedIsReady(s1);
      var s2 := Awaited(s1);
      StepKeeps(s2, StepConsumer);
      ConsumerStep(s2)
    else s1
  }

  /** The steps of one call. */
  function Fetched(s: State): (r: State)
    requires Inv(s) && s.cons.Idle?
    ensures Inv(r) && r.cons.Idle?
  {
    PolledAndTaken(GivenBack(s))
  }

  /** The producer offers its bucket if the values queue is empty. */
  function Offered(k: Socket): Socket {
    if k.values == [] && k.prod.OfferingBucket? then k.(values := [k.prod.bucket], prod := Fetching) else k
  }

  /** What the spinning call waits for. */
  function Awaited(s: State): State
    requires PollIdx(s) < |s.sockets|
  {
    s.(sockets := s.sockets[PollIdx(s) := Offered(s.sockets[PollIdx(s)])])
  }

  /** The wait ends: it is one step of the producer, or none, and the bucket can then
      be taken. */
  lemma AwaitedIsReady(s: State)
    requires Inv(s) && s.cons.Taking?
    ensures PollIdx(s) < |s.sockets|
    ensures s.sockets[PollIdx(s)].values != [] ==> Awaited(s) == s
    ensures s.sockets[PollIdx(s)].values == [] ==>
      (Enabled(s, StepProducer(PollIdx(s), [])) && Awaited(s) == Next(s, StepProducer(PollIdx(s), [])))
    ensures Inv(Awaited(s)) && ConsumerEnabled(Awaited(s))
  {
    var i := PollIdx(s);
    assert SocketInv(s, i);
    var k := s.sockets[i];
    assert Lengths(k, TakenAt(s, i))[0] == s.cons.length;
    assert Holds(k.mem, Buckets(k)[0], s.cons.length, k.received[|k.delivered|]);
    if k.values == [] {
      var a := StepProducer(i, []);
      assert |Buckets(k)| > 0 && k.prod.OfferingBucket?;
      assert ProducerStep(k, s.tuningKnob, s.capacity, []).values == [k.prod.bucket];
      assert Offered(k) == ProducerStep(k, s.tuningKnob, s.capacity, []);
      StepKeeps(s, a);
    } else {
      assert Awaited(s).sockets == s.sockets;
    }
  }

  lemma CanReturn(s: State)
    requires Inv(s) && s.cons.Returning?
    ensures ConsumerEnabled(s)
  {
    if s.held.Some? { ReturnKeeps(s); }
  }

  /** Whether the call finds a length. */
  predicate Finds(s: State) { PollIdx(s) < |s.sockets| && s.sockets[PollIdx(s)].lengths != [] }

  /** A length and a bucket are removed from socket i, the bucket is held. */
  function Taken(s: State, i: nat): State
    requires i < |s.sockets| && s.sockets[i].lengths != [] && Offered(s.sockets[i]).values != []
  {
    var k := Offered(s.sockets[i]);
    var n := k.lengths[0];
    var k' := k.(lengths := k.lengths[1..], values := k.values[1..],
                 delivered := k.delivered + [if CanTake(k, n) then k.mem[k.values[0]][..n] else []]);
    s.(cons := Idle, held := Some(k.values[0]), from := i, nrFilled := n, sockets := s.sockets[i := k'])
  }

  /** All steps of taking at once. */
  lemma TakenShape(s: State)
    requires Inv(s) && s.cons.PollingLength?
    ensures Finds(s) ==>
      Offered(s.sockets[PollIdx(s)]).values != [] && PolledAndTaken(s) == Advance(Taken(s, PollIdx(s)))
    ensures !Finds(s) ==> PolledAndTaken(s) == Advance(s).(cons := Idle)
  {
    var i := PollIdx(s);
    if Finds(s) {
      var s1 := ConsumerStep(s);
      StepKeeps(s, StepConsumer);
      AwaitedIsReady(s1);
      assert ConsumerStep(Awaited(s1)).sockets == Taken(s, i).sockets;
    }
  }

  /** The steps of a call: the consumer's, and the producer's if the call spins. */
  function FetchSteps(s: State): seq<Step>
    requires Inv(s) && s.cons.Idle?
  {
    var s2 := GivenBack(s);
    var spins := Finds(s2) && s2.sockets[PollIdx(s2)].values == [];
    [StepConsumer, StepConsumer, StepConsumer]
    + (if spins then [StepProducer(PollIdx(s2), [])] else [])
    + (if Finds(s2) then [StepConsumer] else [])
  }

  /** A call is a run of the model. */
  lemma FetchedIsRun(s: State)
    requires Inv(s) && s.cons.Idle?
    ensures Legal(s, FetchSteps(s)) && Exec(s, FetchSteps(s)) == Fetched(s)
  {
    var s1 := ConsumerStep(s);
    StepKeeps(s, StepConsumer);
    CanReturn(s1);
    var s2 := GivenBack(s);
    StepKeeps(s2, StepConsumer);
    var run := FetchSteps(s);
    assert run[1..][1..] == run[2..] && run[2..][1..] == run[3..];
    RunOfTaking(s2, run[2..]);
    assert Legal(s1, run[1..]) && Exec(s1, run[1..]) == Fetched(s);
  }

  lemma RunOfTaking(s: State, run: seq<Step>)
    requires Inv(s) && s.cons.PollingLength?
    requires run == [StepConsumer]
      + (if Finds(s) && s.sockets[PollIdx(s)].values == [] then [StepProducer(PollIdx(s), [])] else [])
      + (if Finds(s) then [StepConsumer] else [])
    ensures Legal(s, run) && Exec(s, run) == PolledAndTaken(s)
  {
    StepKeeps(s, StepConsumer);
    var s1 := ConsumerStep(s);
    if s1.cons.Taking? {
      AwaitedIsReady(s1);
      StepKeeps(Awaited(s1), StepConsumer);
      assert Exec(Awaited(s1), [StepConsumer]) == PolledAndTaken(s) by { assert [StepConsumer][1..] == []; }
      if s.sockets[PollIdx(s)].values == [] {
        assert run[1..] == [StepProducer(PollIdx(s), []), StepConsumer];
        assert run[1..][1..] == [StepConsumer];
        assert Exec(s1, run[1..]) == PolledAndTaken(s);
      } else {
        assert run[1..] == [StepConsumer];
      }
    } else {
      assert run[1..] == [];
    }
  }

  /** The consumer's side.  The queues are those shared with the producers. */
  class JObjFactory {
    var backQueues: seq<seq<nat>>
    var alenQueues: seq<seq<nat>>
    var varrQueues: seq<seq<nat>>
    const backCapacity: nat
    var queueIdx: nat
    var oldQueueIdx: nat
    var vBucketFilled: Option<nat>

    ghost predicate Represents(s: State)
      reads this
    {
      && |backQueues| == |alenQueues| == |varrQueues| == |s.sockets| && backCapacity == s.backCapacity
      && (forall i :: 0 <= i < |s.sockets| ==>
            && backQueues[i] == s.sockets[i].back && alenQueues[i] == s.sockets[i].lengths
            && varrQueues[i] == s.sockets[i].values)
      && queueIdx == s.queueIdx && oldQueueIdx == s.oldQueueIdx && vBucketFilled == s.held
    }

    method OfferBack(i: nat, b: nat) returns (ok: bool)
      requires i < |backQueues|
      modifies `backQueues
      ensures ok <==> |old(backQueues)[i]| < backCapacity
      ensures backQueues == if ok then old(backQueues)[i := old(backQueues)[i] + [b]] else old(backQueues)
    {
      ok := |backQueues[i]| < backCapacity;
      if ok { backQueues := backQueues[i := backQueues[i] + [b]]; }
    }

    method PollLength(i: nat) returns (n: Option<nat>)
      requires i < |alenQueues|
      modifies `alenQueues
      ensures n.None? <==> old(alenQueues)[i] == []
      ensures n.None? ==> alenQueues == old(alenQueues)
      ensures n.Some? ==>
        n.value == old(alenQueues)[i][0] && alenQueues == old(alenQueues)[i := old(alenQueues)[i][1..]]
    {
      n := None;
      if alenQueues[i] != [] {
        n := Some(alenQueues[i][0]);
        alenQueues := alenQueues[i := alenQueues[i][1..]];
      }
    }

    method PollBucket(i: nat) returns (b: nat)
      requires i < |varrQueues| && varrQueues[i] != []
      modifies `varrQueues
      ensures b == old(varrQueues)[i][0] && varrQueues == old(varrQueues)[i := old(varrQueues)[i][1..]]
    {
      b := varrQueues[i][0];
      varrQueues := varrQueues[i := varrQueues[i][1..]];
    }

    method GiveBackBucket(ghost s: State)
      requires Inv(s) && s.cons.Idle? && Represents(s)
      modifies this
      ensures Represents(GivenBack(s)) && vBucketFilled.None?
    {
      ghost var s1 := ConsumerStep(s);
      StepKeeps(s, StepConsumer);
      CanReturn(s1);
      if vBucketFilled.Some? {
        var offered := OfferBack(oldQueueIdx, vBucketFilled.value);
        vBucketFilled := None;
      }
    }

    /** `arriving` is the bucket that the producer offers while the call spins. */
    method FetchFrom(i: nat, arriving: Option<nat>) returns (n: Option<nat>)
      requires i < |alenQueues| == |varrQueues| && (alenQueues[i] != [] && varrQueues[i] == [] ==> arriving.Some?)
      requires vBucketFilled.None?
      modifies `alenQueues, `varrQueues, `vBucketFilled
      ensures n.None? <==> old(alenQueues)[i] == []
      ensures n.None? ==> alenQueues == old(alenQueues) && varrQueues == old(varrQueues) && vBucketFilled.None?
      ensures n.Some? ==>
        && n.value == old(alenQueues)[i][0] && alenQueues == old(alenQueues)[i := old(alenQueues)[i][1..]]
        && var q := if old(varrQueues)[i] == [] then [arriving.value] else old(varrQueues)[i];
           vBucketFilled == Some(q[0]) && varrQueues == old(varrQueues)[i := q[1..]]
    {
      n := PollLength(i);
      if n.Some? {
        ghost var polled := alenQueues;
        while varrQueues[i] == []
          invariant alenQueues == polled
          invariant |varrQueues| == |old(varrQueues)|
          invariant varrQueues == old(varrQueues) ||
            (old(varrQueues)[i] == [] && varrQueues == old(varrQueues)[i := [arriving.value]])
          decreases if varrQueues[i] == [] then 1 else 0
        {
          varrQueues := varrQueues[i := [arriving.value]];
        }
        var b := PollBucket(i);
        vBucketFilled := Some(b);
      }
    }

    /** The bucket that the producer of the polled socket is about to offer. */
    ghost predicate Arriving(s: State, arriving: Option<nat>) {
      PollIdx(s) < |s.sockets| ==>
        var p := s.sockets[PollIdx(s)].prod; arriving == if p.OfferingBucket? then Some(p.bucket) else None
    }

    /** `fetchVBucketNB`: give back the bucket of the last call, then take the next
        one from the socket whose turn it is. */
    method FetchVBucketNB(ghost s: State, arriving: Option<nat>) returns (data: Option<(nat, nat)>)
      requires Inv(s) && s.cons.Idle? && Represents(s) && Arriving(s, arriving)
      modifies this
      ensures Represents(Fetched(s))
      ensures data.None? <==> Fetched(s).held.None?
      ensures data.Some? ==> data.value == (Fetched(s).held.value, Fetched(s).nrFilled)
    {
      GiveBackBucket(s);
      GivenBackShape(s);
      data := PollAndTake(GivenBack(s), arriving);
    }

    method PollAndTake(ghost s: State, arriving: Option<nat>) returns (data: Option<(nat, nat)>)
      requires Inv(s) && s.cons.PollingLength? && Represents(s) && Arriving(s, arriving)
      modifies this
      ensures Represents(PolledAndTaken(s))
      ensures data.None? <==> PolledAndTaken(s).held.None?
      ensures data.Some? ==> data.value == (PolledAndTaken(s).held.value, PolledAndTaken(s).nrFilled)
    {
      TakenShape(s);
      data := None;
      var n: Option<nat> := None;
      var nrSockets := |backQueues|;
      if nrSockets == 1 {
        n := FetchFrom(0, arriving);
      } else if nrSockets >= 2 {
        n := FetchFrom(queueIdx, arriving);
        oldQueueIdx := queueIdx;
        queueIdx := queueIdx + 1;
        if queueIdx == nrSockets { queueIdx := 0; }
      }
      if n.Some? {
        data := Some((vBucketFilled.value, n.value));
      }
    }
  }

  /** The sockets are polled in turn: a call moves on by one socket, whether or not
      it finds a bucket. */
  lemma SocketsTakeTurns(s: State)
    requires Inv(s) && s.cons.Idle?
    ensures |s.sockets| >= 2 ==> Fetched(s).queueIdx == (s.queueIdx + 1) % |s.sockets|
    ensures |s.sockets| == 1 ==> Fetched(s).queueIdx == s.queueIdx == 0
    ensures Fetched(s).held.Some? <==> |s.sockets| > 0 && s.sockets[PollIdx(s)].lengths != []
  {
    GivenBackShape(s);
    TakenShape(GivenBack(s));
    if |s.sockets| >= 2 { AdvanceTurns(s); }
  }

  lemma GivenBackShape(s: State)
    requires Inv(s) && s.cons.Idle?
    ensures var r := GivenBack(s);
            && r.queueIdx == s.queueIdx && r.held.None? && |r.sockets| == |s.sockets|
            && forall i :: 0 <= i < |s.sockets| ==>
                 && r.sockets[i].lengths == s.sockets[i].lengths && r.sockets[i].values == s.sockets[i].values
                 && r.sockets[i].prod == s.sockets[i].prod
  {
    StepKeeps(s, StepConsumer);
    CanReturn(ConsumerStep(s));
  }

  lemma AdvanceTurns(s: State)
    requires ConsumerInv(s) && |s.sockets| >= 2
    ensures Advance(s).queueIdx == (s.queueIdx + 1) % |s.sockets|
  {
  }

  // ---- the producer's side ------------------------------------------------

  /** The constructor offers every bucket to the back queue, whatever the result:
      none is dropped. */
  method FillBackQueue(backCapacity: nat) returns (back: seq<nat>)
    requires backCapacity >= NR_BUCKETS
    ensures back == NewSocket(0).back
  {
    back := [];
    for i := 0 to QUEUE_SIZE + 1
      invariant back == Numbers(i)
    {
      if |back| < backCapacity {
        back := back + [i];
      }
    }
  }

  /** The elements of a bucket are replaced from the front; the rest are those of
      an earlier batch. */
  method FillBucket(vBucket: array<int>, batch: seq<int>)
    requires |batch| <= vBucket.Length
    modifies vBucket
    ensures vBucket[..] == batch + old(vBucket[|batch|..])
  {
    for i := 0 to |batch|
      invariant vBucket[..i] == batch[..i] && vBucket[i..] == old(vBucket[i..])
    {
      vBucket[i] := batch[i];
    }
  }

  /** The producer's steps of filling its bucket, up to the end. */
  function FilledUp(k: Socket): Socket
    requires k.prod.Filling? && ProducerEnabled(k, 0, 0, [])
    decreases |k.prod.batch| - k.prod.next
  {
    var k' := ProducerStep(k, 0, 0, []);
    if k'.prod.Filling? then FilledUp(k') else k'
  }

  /** Those steps leave the bucket as the loop leaves the array. */
  lemma {:induction false} FilledUpBucket(k: Socket)
    requires k.prod.Filling? && ProducerEnabled(k, 0, 0, [])
    requires k.mem[k.prod.bucket][..k.prod.next] == k.prod.batch[..k.prod.next]
    ensures var b, bt := k.prod.bucket, k.prod.batch;
            FilledUp(k) == k.(prod := OfferingLength(b, bt), mem := k.mem[b := bt + k.mem[b][|bt|..]])
    decreases |k.prod.batch| - k.prod.next
  {
    var b, bt, i := k.prod.bucket, k.prod.batch, k.prod.next;
    if i < |bt| {
      var k' := ProducerStep(k, 0, 0, []);
      assert k'.mem[b][..i + 1] == k.mem[b][..i] + [bt[i]] == bt[..i + 1];
      FilledUpBucket(k');
      assert k'.mem[b][|bt|..] == k.mem[b][|bt|..];
      assert k'.mem[b := bt + k.mem[b][|bt|..]] == k.mem[b := bt + k.mem[b][|bt|..]];
    } else {
      assert bt + k.mem[b][|bt|..] == k.mem[b];
    }
  }
}
