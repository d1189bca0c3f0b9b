/** The sampling protocol loses no job and no channel. */
module FpcProtocol {
  import opened Base
  import opened FpcModel

  // ---- the invariant ------------------------------------------------------

  /** A running thread is the registered one of its period; a terminated one has
      nothing left. */
  predicate DescrOk(thrMap: map<nat, nat>, d: nat, ds: Descr) {
    if ds.pc.Terminated? then ds.queue == [] && ds.closures == {}
    else ds.period in thrMap && thrMap[ds.period] == d
  }

  predicate MapInv(s: State) {
    && (forall p :: p in s.thrMap ==>
          s.thrMap[p] < |s.descrs| && s.descrs[s.thrMap[p]].period == p && !s.descrs[s.thrMap[p]].pc.Terminated?)
    && (forall d :: 0 <= d < |s.descrs| ==> DescrOk(s.thrMap, d, s.descrs[d]))
  }

  predicate ClosuresOk(chs: seq<Channel>, d: nat, ds: Descr) {
    forall c :: c in ds.closures ==> c < |chs| && chs[c].owner == Some(d)
  }

  predicate OwnerOk(descrs: seq<Descr>, c: nat, ch: Channel) {
    ch.owner.Some? ==>
      var d := ch.owner.value; d < |descrs| && c in descrs[d].closures && ch.period == descrs[d].period
  }

  /** A channel is among the closures of its owner and of no other thread. */
  predicate ClosureInv(s: State) {
    && (forall d :: 0 <= d < |s.descrs| ==> ClosuresOk(s.chs, d, s.descrs[d]))
    && (forall c :: 0 <= c < |s.chs| ==> OwnerOk(s.descrs, c, s.chs[c]))
  }

  /** A thread's local state fits its descriptor. */
  predicate PcOk(ds: Descr) {
    match ds.pc
    case Sampling(todo, done) => todo !! done && todo + done == ds.closures
    case Processing(todo) => todo <= ds.closures
    case Jobs(left) => left <= |ds.queue|
    case Executing(_, left) => left <= |ds.queue|
    case Forwarding(_, left) => left <= |ds.queue|
    case Removing => ds.period != FPC_DEFAULT_PERIOD ==> ds.closures == {}
    case _ => true
  }

  predicate PcInv(s: State) {
    forall d :: 0 <= d < |s.descrs| ==> PcOk(s.descrs[d])
  }

  predicate Distinct(q: seq<Job>) {
    forall i, j :: 0 <= i < j < |q| ==> q[i].ch != q[j].ch
  }

  predicate QueueOk(chs: seq<Channel>, d: nat, ds: Descr) {
    && Distinct(ds.queue)
    && forall jb :: jb in ds.queue ==>
         jb.ch < |chs| && chs[jb.ch].job == InQueue(d, jb) && chs[jb.ch].period == ds.period
  }

  predicate InQueueOk(descrs: seq<Descr>, c: nat, ch: Channel) {
    ch.job.InQueue? ==>
      ch.job.job.ch == c && ch.job.d < |descrs| && ch.job.job in descrs[ch.job.d].queue
  }

  /** Queues hold each job once, at the thread of its channel's period. */
  predicate QueueInv(s: State) {
    && (forall d :: 0 <= d < |s.descrs| ==> QueueOk(s.chs, d, s.descrs[d]))
    && (forall c :: 0 <= c < |s.chs| ==> InQueueOk(s.descrs, c, s.chs[c]))
  }

  function Held(ds: Descr): Option<Job> {
    match ds.pc
    case Executing(jb, _) => Some(jb)
    case Forwarding(jb, _) => Some(jb)
    case _ => None
  }

  predicate HeldOk(chs: seq<Channel>, d: nat, ds: Descr) {
    Held(ds).Some? ==>
      var jb := Held(ds).value;
      && jb.ch < |chs| && chs[jb.ch].job == InHand(d, jb)
      && (if ds.pc.Executing? then chs[jb.ch].period == ds.period else jb.kind == Insert)
  }

  predicate InHandOk(descrs: seq<Descr>, c: nat, ch: Channel) {
    ch.job.InHand? ==>
      ch.job.job.ch == c && ch.job.d < |descrs| && Held(descrs[ch.job.d]) == Some(ch.job.job)
  }

  predicate HandInv(s: State) {
    && (forall d :: 0 <= d < |s.descrs| ==> HeldOk(s.chs, d, s.descrs[d]))
    && (forall c :: 0 <= c < |s.chs| ==> InHandOk(s.descrs, c, s.chs[c]))
  }

  /** The state of the caller, of the job and of the ownership fit together. */
  predicate ApiOk(ch: Channel) {
    && (ch.api.Waiting? <==> ch.job != Nowhere)
    && match ch.api
       case Unopened => ch.owner == None
       case Opening => ch.owner == None
       case Idle => ch.owner.Some?
       case Closing => ch.owner.Some?
       case Closed => ch.owner == None
       case Waiting(kind, after) => JobOk(ch, kind, after)
  }

  predicate JobOk(ch: Channel, kind: JobKind, after: Api)
    requires ch.job != Nowhere
  {
    var jobKind := ch.job.job.kind;
    match kind
    case Insert => after == Idle && jobKind == Insert && ch.owner == None
    case Delete => after == Closed && jobKind == Delete && ch.owner.Some?
    case Move =>
      || (after == Closed && jobKind == Move && ch.owner == None)
      || (after == Idle && jobKind == Move && ch.owner.Some?)
      || (after == Idle && jobKind == Insert && ch.owner == None)
  }

  predicate ApiInv(s: State) {
    forall c :: 0 <= c < |s.chs| ==> ApiOk(s.chs[c])
  }

  /** All but the agreement with the callers. */
  predicate CoreInv(s: State) {
    MapInv(s) && ClosureInv(s) && PcInv(s) && QueueInv(s) && HandInv(s)
  }

  predicate Inv(s: State) {
    CoreInv(s) && ApiInv(s)
  }

  // ---- steps of one channel's caller --------------------------------------

  /** Only one channel changes, and not its period, owner or job. */
  predicate ChannelStep(s: State, s': State, c: nat) {
    && c < |s.chs| == |s'.chs| && s'.chs == s.chs[c := s'.chs[c]]
    && s'.descrs == s.descrs && s'.thrMap == s.thrMap
    && s'.chs[c].period == s.chs[c].period && s'.chs[c].owner == s.chs[c].owner && s'.chs[c].job == s.chs[c].job
  }

  lemma ChannelStepKeeps(s: State, s': State, c: nat)
    requires CoreInv(s) && ChannelStep(s, s', c)
    ensures CoreInv(s')
  {
    forall d | 0 <= d < |s'.descrs| ensures ClosuresOk(s'.chs, d, s'.descrs[d]) && QueueOk(s'.chs, d, s'.descrs[d])
      && HeldOk(s'.chs, d, s'.descrs[d])
    {
      assert ClosuresOk(s.chs, d, s.descrs[d]) && QueueOk(s.chs, d, s.descrs[d]) && HeldOk(s.chs, d, s.descrs[d]);
    }
  }

  /** The thread registered for the period of an owned channel is its owner. */
  lemma OwnerIsRegistered(s: State, c: nat)
    requires MapInv(s) && ClosureInv(s) && c < |s.chs| && s.chs[c].owner.Some?
    ensures s.chs[c].period in s.thrMap && s.thrMap[s.chs[c].period] == s.chs[c].owner.value
  {
    assert OwnerOk(s.descrs, c, s.chs[c]);
  }

  // ---- submitting a job ---------------------------------------------------

  lemma AddJobQueues(s: State, d: nat, jb: Job)
    requires QueueInv(s) && d < |s.descrs|
    requires jb.ch < |s.chs| && !s.chs[jb.ch].job.InQueue? && s.chs[jb.ch].period == s.descrs[d].period
    ensures QueueInv(AddJob(s, d, jb))
  {
    var s' := AddJob(s, d, jb);
    forall e | 0 <= e < |s'.descrs| ensures QueueOk(s'.chs, e, s'.descrs[e]) {
      assert QueueOk(s.chs, e, s.descrs[e]);
      forall i | 0 <= i < |s.descrs[e].queue| ensures s.descrs[e].queue[i].ch != jb.ch {
        assert s.descrs[e].queue[i] in s.descrs[e].queue;
      }
    }
    forall c | 0 <= c < |s'.chs| ensures InQueueOk(s'.descrs, c, s'.chs[c]) {
      assert InQueueOk(s.descrs, c, s.chs[c]);
    }
  }

  /** A job that is nowhere yet may be queued with the registered thread. */
  lemma AddJobKeeps(s: State, d: nat, jb: Job)
    requires CoreInv(s)
    requires jb.ch < |s.chs| && s.chs[jb.ch].job == Nowhere
    requires s.chs[jb.ch].period in s.thrMap && s.thrMap[s.chs[jb.ch].period] == d
    ensures CoreInv(AddJob(s, d, jb))
  {
    var s' := AddJob(s, d, jb);
    AddJobQueues(s, d, jb);
    forall e | 0 <= e < |s'.descrs| ensures DescrOk(s'.thrMap, e, s'.descrs[e]) && PcOk(s'.descrs[e])
      && ClosuresOk(s'.chs, e, s'.descrs[e]) && HeldOk(s'.chs, e, s'.descrs[e])
    {
      assert DescrOk(s.thrMap, e, s.descrs[e]) && PcOk(s.descrs[e])
        && ClosuresOk(s.chs, e, s.descrs[e]) && HeldOk(s.chs, e, s.descrs[e]);
    }
    forall c | 0 <= c < |s'.chs| ensures OwnerOk(s'.descrs, c, s'.chs[c]) && InHandOk(s'.descrs, c, s'.chs[c]) {
      assert OwnerOk(s.descrs, c, s.chs[c]) && InHandOk(s.descrs, c, s.chs[c]);
    }
  }

  lemma CreateKeeps(s: State, jb: Job)
    requires CoreInv(s)
    requires jb.ch < |s.chs| && s.chs[jb.ch].job == Nowhere && s.chs[jb.ch].period !in s.thrMap
    ensures CoreInv(Submit(s, jb))
  {
    var s' := Submit(s, jb);
    var n := |s.descrs|;
    forall e | 0 <= e < |s'.descrs| ensures DescrOk(s'.thrMap, e, s'.descrs[e]) && PcOk(s'.descrs[e])
      && ClosuresOk(s'.chs, e, s'.descrs[e]) && HeldOk(s'.chs, e, s'.descrs[e]) && QueueOk(s'.chs, e, s'.descrs[e])
    {
      if e < n {
        assert DescrOk(s.thrMap, e, s.descrs[e]) && PcOk(s.descrs[e]) && QueueOk(s.chs, e, s.descrs[e])
          && ClosuresOk(s.chs, e, s.descrs[e]) && HeldOk(s.chs, e, s.descrs[e]);
      }
    }
    forall c | 0 <= c < |s'.chs|
      ensures OwnerOk(s'.descrs, c, s'.chs[c]) && InHandOk(s'.descrs, c, s'.chs[c])
      ensures InQueueOk(s'.descrs, c, s'.chs[c])
    {
      assert OwnerOk(s.descrs, c, s.chs[c]) && InHandOk(s.descrs, c, s.chs[c]) && InQueueOk(s.descrs, c, s.chs[c]);
    }
  }

  lemma SubmitKeeps(s: State, jb: Job)
    requires CoreInv(s) && jb.ch < |s.chs| && s.chs[jb.ch].job == Nowhere
    ensures CoreInv(Submit(s, jb))
  {
    if s.chs[jb.ch].period in s.thrMap {
      AddJobKeeps(s, s.thrMap[s.chs[jb.ch].period], jb);
    } else {
      CreateKeeps(s, jb);
    }
  }

  /** A submitted job is in some queue, and the other channels are untouched. */
  lemma SubmitChannel(s: State, jb: Job) returns (d: nat)
    requires jb.ch < |s.chs| && MapInRange(s)
    ensures Submit(s, jb).chs == s.chs[jb.ch := s.chs[jb.ch].(job := InQueue(d, jb))]
  {
    var p := s.chs[jb.ch].period;
    d := if p in s.thrMap then s.thrMap[p] else |s.descrs|;
  }

  /** The state in which the caller submits its job, and the job. */
  function CallState(s: State, a: Step): (r: (State, Job))
    requires (a.StepOpenSubmit? || a.StepSetArg? || a.StepCloseSubmit?) && a.c < |s.chs|
  {
    match a
    case StepOpenSubmit(c) => (SetApi(s, c, Waiting(Insert, Idle)), Job(Insert, c, 0))
    case StepSetArg(c, value) => (SetApi(s, c, Waiting(Move, s.chs[c].api)), Job(Move, c, value))
    case StepCloseSubmit(c) => (SetApi(s, c, Waiting(Delete, Closed)), Job(Delete, c, 0))
  }

  lemma CallKeeps(s: State, a: Step)
    requires Inv(s) && Enabled(s, a) && (a.StepOpenSubmit? || a.StepSetArg? || a.StepCloseSubmit?)
    ensures Inv(Next(s, a))
  {
    var c := a.c;
    assert ApiOk(s.chs[c]);
    var (s1, jb) := CallState(s, a);
    ChannelStepKeeps(s, s1, c);
    SubmitKeeps(s1, jb);
    var d := SubmitChannel(s1, jb);
    if a.StepCloseSubmit? {
      OwnerIsRegistered(s, c);
    }
    var s' := Next(s, a);
    assert s' == Submit(s1, jb);
    CallApis(s, s', a, d);
  }

  lemma CallApis(s: State, s': State, a: Step, d: nat)
    requires ApiInv(s) && Enabled(s, a) && (a.StepOpenSubmit? || a.StepSetArg? || a.StepCloseSubmit?)
    requires var (s1, jb) := CallState(s, a); s'.chs == s1.chs[jb.ch := s1.chs[jb.ch].(job := InQueue(d, jb))]
    ensures ApiInv(s')
  {
    forall c | 0 <= c < |s'.chs| ensures ApiOk(s'.chs[c]) { assert ApiOk(s.chs[c]); }
  }

  lemma CallerKeeps(s: State, a: Step)
    requires Inv(s) && Enabled(s, a) && (a.StepOpen? || a.StepClose? || a.StepLog?)
    ensures Inv(Next(s, a))
  {
    var s' := Next(s, a);
    ChannelStepKeeps(s, s', a.c);
    forall c | 0 <= c < |s'.chs| ensures ApiOk(s'.chs[c]) { assert ApiOk(s.chs[c]); }
  }

  // ---- steps of a sampling thread -----------------------------------------

  /** A thread moves on without a job in hand. */
  lemma PcStepKeeps(s: State, d: nat, pc: Pc)
    requires CoreInv(s) && d < |s.descrs| && !s.descrs[d].pc.Terminated? && Held(s.descrs[d]) == None
    requires !pc.Terminated? && Held(s.descrs[d].(pc := pc)) == None && PcOk(s.descrs[d].(pc := pc))
    ensures CoreInv(SetPc(s, d, pc))
  {
    var s' := SetPc(s, d, pc);
    forall e | 0 <= e < |s'.descrs| ensures DescrOk(s'.thrMap, e, s'.descrs[e]) && PcOk(s'.descrs[e])
      && ClosuresOk(s'.chs, e, s'.descrs[e]) && HeldOk(s'.chs, e, s'.descrs[e]) && QueueOk(s'.chs, e, s'.descrs[e])
    {
      assert DescrOk(s.thrMap, e, s.descrs[e]) && PcOk(s.descrs[e]) && QueueOk(s.chs, e, s.descrs[e])
        && ClosuresOk(s.chs, e, s.descrs[e]) && HeldOk(s.chs, e, s.descrs[e]);
    }
    forall c | 0 <= c < |s'.chs|
      ensures OwnerOk(s'.descrs, c, s'.chs[c]) && InHandOk(s'.descrs, c, s'.chs[c])
      ensures InQueueOk(s'.descrs, c, s'.chs[c])
    {
      assert OwnerOk(s.descrs, c, s.chs[c]) && InHandOk(s.descrs, c, s.chs[c]) && InQueueOk(s.descrs, c, s.chs[c]);
    }
  }

  /** What a thread may see of a channel: only thread d has to do with it. */
  predicate Concerns(s: State, d: nat, c: nat)
    requires d < |s.descrs| && c < |s.chs|
  {
    && (s.chs[c].owner == None || s.chs[c].owner == Some(d))
    && (s.chs[c].job.InQueue? ==> s.chs[c].job.d == d)
    && (s.chs[c].job.InHand? ==> s.chs[c].job.d == d)
  }

  /** Thread d changes its descriptor only as far as channel c is concerned. */
  predicate OnlyFor(c: nat, a: Descr, b: Descr) {
    && a.period == b.period && !a.pc.Terminated? && !b.pc.Terminated?
    && a.closures - {c} == b.closures - {c}
    && (forall jb :: jb in a.queue && jb.ch != c ==> jb in b.queue)
    && (Held(a).Some? ==> Held(a).value.ch == c)
  }

  /** A step of thread d on channel c keeps the invariant if it does so for the
      two of them. */
  lemma UpdateKeeps(s: State, s': State, d: nat, c: nat)
    requires CoreInv(s) && d < |s.descrs| && c < |s.chs| && Concerns(s, d, c)
    requires |s'.descrs| == |s.descrs| && |s'.chs| == |s.chs| && s'.thrMap == s.thrMap
    requires s'.chs == s.chs[c := s'.chs[c]] && s'.descrs == s.descrs[d := s'.descrs[d]]
    requires OnlyFor(c, s.descrs[d], s'.descrs[d]) && PcOk(s'.descrs[d])
    requires ClosuresOk(s'.chs, d, s'.descrs[d]) && QueueOk(s'.chs, d, s'.descrs[d]) && HeldOk(s'.chs, d, s'.descrs[d])
    requires OwnerOk(s'.descrs, c, s'.chs[c]) && InQueueOk(s'.descrs, c, s'.chs[c]) && InHandOk(s'.descrs, c, s'.chs[c])
    ensures CoreInv(s')
  {
    forall e | 0 <= e < |s'.descrs| ensures DescrOk(s'.thrMap, e, s'.descrs[e]) && PcOk(s'.descrs[e])
      && ClosuresOk(s'.chs, e, s'.descrs[e]) && HeldOk(s'.chs, e, s'.descrs[e]) && QueueOk(s'.chs, e, s'.descrs[e])
    {
      assert DescrOk(s.thrMap, e, s.descrs[e]) && PcOk(s.descrs[e]) && QueueOk(s.chs, e, s.descrs[e])
        && ClosuresOk(s.chs, e, s.descrs[e]) && HeldOk(s.chs, e, s.descrs[e]);
    }
    forall x | 0 <= x < |s'.chs|
      ensures OwnerOk(s'.descrs, x, s'.chs[x]) && InHandOk(s'.descrs, x, s'.chs[x])
      ensures InQueueOk(s'.descrs, x, s'.chs[x])
    {
      OthersKept(s, s', d, c, x);
    }
  }

  lemma OthersKept(s: State, s': State, d: nat, c: nat, x: nat)
    requires d < |s.descrs| && c < |s.chs| && x < |s.chs|
    requires OwnerOk(s.descrs, x, s.chs[x]) && InHandOk(s.descrs, x, s.chs[x]) && InQueueOk(s.descrs, x, s.chs[x])
    requires |s'.descrs| == |s.descrs| && |s'.chs| == |s.chs|
    requires s'.chs == s.chs[c := s'.chs[c]] && s'.descrs == s.descrs[d := s'.descrs[d]]
    requires OnlyFor(c, s.descrs[d], s'.descrs[d])
    requires OwnerOk(s'.descrs, c, s'.chs[c]) && InQueueOk(s'.descrs, c, s'.chs[c]) && InHandOk(s'.descrs, c, s'.chs[c])
    ensures OwnerOk(s'.descrs, x, s'.chs[x]) && InHandOk(s'.descrs, x, s'.chs[x])
    ensures InQueueOk(s'.descrs, x, s'.chs[x])
  {
    if x != c {
      assert s'.chs[x] == s.chs[x];
      if s.chs[x].owner == Some(d) {
        assert x in s.descrs[d].closures - {c};
        assert x in s'.descrs[d].closures - {c};
      }
    }
  }

  /** The next job is taken from the queue. */
  lemma TakeJobKeeps(s: State, d: nat, left: nat)
    requires CoreInv(s) && d < |s.descrs| && s.descrs[d].pc == Jobs(left) && left > 0
    ensures s.descrs[d].queue != []
    ensures ThreadEnabled(s, d) ==> CoreInv(ThreadStep(s, d, false))
  {
    var ds := s.descrs[d];
    assert PcOk(ds);
    var jb := ds.queue[0];
    assert jb in ds.queue;
    assert QueueOk(s.chs, d, ds) && ClosuresOk(s.chs, d, ds) && InHandOk(s.descrs, jb.ch, s.chs[jb.ch]);
    assert OwnerOk(s.descrs, jb.ch, s.chs[jb.ch]);
    if ThreadEnabled(s, d) {
      OwnerHere(s, d, jb.ch);
      RestOfQueue(s.chs, d, ds);
      UpdateKeeps(s, ThreadStep(s, d, false), d, jb.ch);
    }
  }

  /** The jobs behind the first one are those of other channels. */
  lemma RestOfQueue(chs: seq<Channel>, d: nat, ds: Descr)
    requires QueueOk(chs, d, ds) && ds.queue != []
    ensures Distinct(ds.queue[1..])
    ensures forall x :: x in ds.queue[1..] ==> x in ds.queue && x.ch != ds.queue[0].ch
    ensures forall x :: x in ds.queue && x.ch != ds.queue[0].ch ==> x in ds.queue[1..]
  {
    forall x | x in ds.queue[1..] ensures x in ds.queue && x.ch != ds.queue[0].ch {
      var i :| 0 <= i < |ds.queue[1..]| && ds.queue[1..][i] == x;
      assert ds.queue[i + 1] == x;
    }
  }

  /** An owned channel's job is with its owner's thread. */
  lemma OwnerHere(s: State, d: nat, c: nat)
    requires MapInv(s) && ClosureInv(s) && d < |s.descrs| && c < |s.chs|
    requires !s.descrs[d].pc.Terminated? && s.chs[c].period == s.descrs[d].period
    ensures s.chs[c].owner == None || s.chs[c].owner == Some(d)
    ensures s.chs[c].owner == Some(d) <==> c in s.descrs[d].closures
  {
    assert DescrOk(s.thrMap, d, s.descrs[d]) && OwnerOk(s.descrs, c, s.chs[c]) && ClosuresOk(s.chs, d, s.descrs[d]);
    if s.chs[c].owner.Some? { OwnerIsRegistered(s, c); }
  }

  /** What a thread that executes a job knows of the job's channel. */
  lemma AtJob(s: State, d: nat, jb: Job, left: nat)
    requires Inv(s) && d < |s.descrs| && s.descrs[d].pc == Executing(jb, left)
    ensures jb.ch < |s.chs| && s.chs[jb.ch].job == InHand(d, jb) && ApiOk(s.chs[jb.ch])
    ensures s.chs[jb.ch].period == s.descrs[d].period && Concerns(s, d, jb.ch)
    ensures s.chs[jb.ch].owner == Some(d) <==> jb.ch in s.descrs[d].closures
    ensures PcOk(s.descrs[d]) && QueueOk(s.chs, d, s.descrs[d]) && ClosuresOk(s.chs, d, s.descrs[d])
    ensures forall x :: x in s.descrs[d].queue ==> x.ch != jb.ch
  {
    assert HeldOk(s.chs, d, s.descrs[d]) && QueueOk(s.chs, d, s.descrs[d]);
    OwnerHere(s, d, jb.ch);
  }

  lemma ExecuteInsert(s: State, d: nat, jb: Job, left: nat)
    requires Inv(s) && d < |s.descrs| && s.descrs[d].pc == Executing(jb, left) && jb.kind.Insert?
    ensures jb.ch < |s.chs| && CoreInv(Execute(s, d, jb, left)) && ApiOk(Execute(s, d, jb, left).chs[jb.ch])
  {
    AtJob(s, d, jb, left);
    UpdateKeeps(s, Execute(s, d, jb, left), d, jb.ch);
  }

  lemma ExecuteMove(s: State, d: nat, jb: Job, left: nat)
    requires Inv(s) && d < |s.descrs| && s.descrs[d].pc == Executing(jb, left) && jb.kind.Move?
    ensures jb.ch < |s.chs| && CoreInv(Execute(s, d, jb, left)) && ApiOk(Execute(s, d, jb, left).chs[jb.ch])
  {
    AtJob(s, d, jb, left);
    UpdateKeeps(s, Execute(s, d, jb, left), d, jb.ch);
  }

  lemma ExecuteDelete(s: State, d: nat, jb: Job, left: nat)
    requires Inv(s) && d < |s.descrs| && s.descrs[d].pc == Executing(jb, left) && jb.kind.Delete?
    ensures jb.ch < |s.chs| && CoreInv(Execute(s, d, jb, left)) && ApiOk(Execute(s, d, jb, left).chs[jb.ch])
  {
    AtJob(s, d, jb, left);
    UpdateKeeps(s, Execute(s, d, jb, left), d, jb.ch);
  }

  lemma ExecuteKeeps(s: State, d: nat, jb: Job, left: nat)
    requires Inv(s) && d < |s.descrs| && s.descrs[d].pc == Executing(jb, left)
    ensures jb.ch < |s.chs| && Inv(Execute(s, d, jb, left))
  {
    AtJob(s, d, jb, left);
    var s' := Execute(s, d, jb, left);
    match jb.kind {
      case Insert => ExecuteInsert(s, d, jb, left);
      case Move => ExecuteMove(s, d, jb, left);
      case Delete => ExecuteDelete(s, d, jb, left);
    }
    forall x | 0 <= x < |s'.chs| ensures ApiOk(s'.chs[x]) { assert ApiOk(s.chs[x]); }
  }

  lemma ForwardKeeps(s: State, d: nat, jb: Job, left: nat)
    requires Inv(s) && d < |s.descrs| && s.descrs[d].pc == Forwarding(jb, left) && jb.ch < |s.chs|
    ensures Inv(Submit(SetPc(s, d, Jobs(left)), jb))
  {
    var c := jb.ch;
    var ds := s.descrs[d];
    assert HeldOk(s.chs, d, ds) && PcOk(ds) && QueueOk(s.chs, d, ds) && ClosuresOk(s.chs, d, ds);
    assert ApiOk(s.chs[c]);
    var s1 := SetPc(s, d, Jobs(left)).(chs := s.chs[c := s.chs[c].(job := Nowhere)]);
    UpdateKeeps(s, s1, d, c);
    SubmitKeeps(s1, jb);
    var e := SubmitChannel(s1, jb);
    var s' := Submit(SetPc(s, d, Jobs(left)), jb);
    SubmitForgets(SetPc(s, d, Jobs(left)), jb, s1);
    forall x | 0 <= x < |s'.chs| ensures ApiOk(s'.chs[x]) { assert ApiOk(s.chs[x]); }
  }

  /** Submitting does not depend on where the job was before. */
  lemma SubmitForgets(s: State, jb: Job, s1: State)
    requires jb.ch < |s.chs| && MapInRange(s)
    requires s1 == s.(chs := s.chs[jb.ch := s.chs[jb.ch].(job := Nowhere)])
    ensures Submit(s1, jb) == Submit(s, jb)
  {
    var d := SubmitChannel(s, jb);
    assert s1.chs[jb.ch := s1.chs[jb.ch].(job := InQueue(d, jb))]
        == s.chs[jb.ch := s.chs[jb.ch].(job := InQueue(d, jb))];
  }

  lemma RemoveKeeps(s: State, d: nat)
    requires CoreInv(s) && d < |s.descrs| && s.descrs[d].pc.Removing?
    ensures CoreInv(Remove(s, d))
  {
    var ds := s.descrs[d];
    assert DescrOk(s.thrMap, d, ds) && PcOk(ds);
    if ds.queue != [] || ds.closures != {} {
      PcStepKeeps(s, d, Resting);
    } else {
      var s' := Remove(s, d);
      forall e | 0 <= e < |s'.descrs| ensures DescrOk(s'.thrMap, e, s'.descrs[e]) && PcOk(s'.descrs[e])
        && ClosuresOk(s'.chs, e, s'.descrs[e]) && HeldOk(s'.chs, e, s'.descrs[e]) && QueueOk(s'.chs, e, s'.descrs[e])
      {
        assert DescrOk(s.thrMap, e, s.descrs[e]) && PcOk(s.descrs[e]) && QueueOk(s.chs, e, s.descrs[e])
          && ClosuresOk(s.chs, e, s.descrs[e]) && HeldOk(s.chs, e, s.descrs[e]);
      }
      forall c | 0 <= c < |s'.chs|
        ensures OwnerOk(s'.descrs, c, s'.chs[c]) && InHandOk(s'.descrs, c, s'.chs[c])
        ensures InQueueOk(s'.descrs, c, s'.chs[c])
      {
        assert OwnerOk(s.descrs, c, s.chs[c]) && InHandOk(s.descrs, c, s.chs[c]) && InQueueOk(s.descrs, c, s.chs[c]);
      }
    }
  }

  /** Sampling or processing the next channel. */
  lemma VisitKeeps(s: State, d: nat, pc: Pc, c: nat, ch: Channel)
    requires Inv(s) && d < |s.descrs| && c < |s.chs| && !s.descrs[d].pc.Terminated? && Held(s.descrs[d]) == None
    requires !pc.Terminated? && Held(s.descrs[d].(pc := pc)) == None && PcOk(s.descrs[d].(pc := pc))
    requires ch.period == s.chs[c].period && ch.owner == s.chs[c].owner
    requires ch.job == s.chs[c].job && ch.api == s.chs[c].api
    ensures Inv(SetPc(s, d, pc).(chs := s.chs[c := ch]))
  {
    PcStepKeeps(s, d, pc);
    var s1 := SetPc(s, d, pc);
    var s' := s1.(chs := s.chs[c := ch]);
    ChannelStepKeeps(s1, s', c);
    forall x | 0 <= x < |s'.chs| ensures ApiOk(s'.chs[x]) { assert ApiOk(s.chs[x]); }
  }

  lemma ThreadKeeps(s: State, d: nat, due: bool)
    requires Inv(s) && ThreadEnabled(s, d)
    ensures Inv(ThreadStep(s, d, due))
  {
    var ds := s.descrs[d];
    assert PcOk(ds);
    var s' := ThreadStep(s, d, due);
    if ds.pc.Sampling? && ds.pc.todo != {} {
      var c := Least(ds.pc.todo);
      VisitKeeps(s, d, s'.descrs[d].pc, c, Sampled(s.chs[c]));
    } else if ds.pc.Processing? && ds.pc.todo != {} {
      var c := Least(ds.pc.todo);
      VisitKeeps(s, d, s'.descrs[d].pc, c, Processed(s.chs[c]));
    } else if ds.pc.Jobs? && ds.pc.left > 0 {
      TakeJobKeeps(s, d, ds.pc.left);
      TakeJobApis(s, d, due);
    } else if ds.pc.Executing? {
      ExecuteKeeps(s, d, ds.pc.job, ds.pc.left);
    } else if ds.pc.Forwarding? {
      ForwardKeeps(s, d, ds.pc.job, ds.pc.left);
    } else if ds.pc.Removing? {
      RemoveKeeps(s, d);
    } else {
      PcStepKeeps(s, d, s'.descrs[d].pc);
    }
  }

  lemma TakeJobApis(s: State, d: nat, due: bool)
    requires ApiInv(s) && QueueInv(s) && ThreadEnabled(s, d) && s.descrs[d].pc.Jobs? && s.descrs[d].pc.left > 0
    ensures ApiInv(ThreadStep(s, d, due))
  {
    var s' := ThreadStep(s, d, due);
    var jb := s.descrs[d].queue[0];
    assert QueueOk(s.chs, d, s.descrs[d]) && jb in s.descrs[d].queue;
    forall x | 0 <= x < |s'.chs| ensures ApiOk(s'.chs[x]) { assert ApiOk(s.chs[x]); }
  }

  // ---- every run ----------------------------------------------------------

  lemma StepKeeps(s: State, a: Step)
    requires Inv(s) && Enabled(s, a)
    ensures Inv(Next(s, a))
  {
    if a.StepThread? {
      ThreadKeeps(s, a.d, a.due);
    } else if a.StepOpen? || a.StepClose? || a.StepLog? {
      CallerKeeps(s, a);
    } else {
      CallKeeps(s, a);
    }
  }

  lemma {:induction false} RunKeeps(s: State, run: seq<Step>)
    requires Inv(s) && Legal(s, run)
    ensures Inv(Exec(s, run))
    decreases |run|
  {
    if run != [] {
      StepKeeps(s, run[0]);
      RunKeeps(Next(s, run[0]), run[1..]);
    }
  }

  lemma ReachableInv(n: nat, s: State)
    requires Reachable(n, s)
    ensures Inv(s)
  {
    var run :| Legal(Init(n), run) && Exec(Init(n), run) == s;
    RunKeeps(Init(n), run);
  }

  // ---- what the invariant means -------------------------------------------

  predicate QueuedAt(s: State, c: nat, d: nat, i: nat) {
    d < |s.descrs| && i < |s.descrs[d].queue| && s.descrs[d].queue[i].ch == c
  }

  predicate HeldBy(s: State, c: nat, d: nat) {
    d < |s.descrs| && Held(s.descrs[d]).Some? && Held(s.descrs[d]).value.ch == c
  }

  /** Channel c is among the channels that thread d samples. */
  predicate Samples(s: State, c: nat, d: nat) {
    d < |s.descrs| && c in s.descrs[d].closures
  }

  /** Thread d runs, and is the one registered for its period. */
  predicate Registered(s: State, d: nat) {
    && d < |s.descrs| && !s.descrs[d].pc.Terminated?
    && s.descrs[d].period in s.thrMap && s.thrMap[s.descrs[d].period] == d
  }

  /** The channel's job is at one place in one queue, and in no thread's hand. */
  ghost predicate OnlyQueuedAt(s: State, c: nat, d: nat, i: nat) {
    && QueuedAt(s, c, d, i)
    && (forall e: nat, j: nat :: QueuedAt(s, c, e, j) ==> e == d && j == i)
    && (forall e: nat :: !HeldBy(s, c, e))
  }

  /** The channel's job is in the hand of one thread, and in no queue. */
  ghost predicate OnlyHeldBy(s: State, c: nat, d: nat) {
    && HeldBy(s, c, d)
    && (forall e: nat :: HeldBy(s, c, e) ==> e == d)
    && (forall e: nat, j: nat :: !QueuedAt(s, c, e, j))
  }

  lemma QueuedOnce(s: State, c: nat, d: nat, i: nat)
    requires QueueInv(s) && QueuedAt(s, c, d, i)
    ensures c < |s.chs| && s.chs[c].job == InQueue(d, s.descrs[d].queue[i])
    ensures forall e: nat, j: nat :: QueuedAt(s, c, e, j) ==> e == d && j == i
  {
    assert QueueOk(s.chs, d, s.descrs[d]) && s.descrs[d].queue[i] in s.descrs[d].queue;
    forall e: nat, j: nat | QueuedAt(s, c, e, j) ensures e == d && j == i {
      assert QueueOk(s.chs, e, s.descrs[e]) && s.descrs[e].queue[j] in s.descrs[e].queue;
    }
  }

  lemma HeldOnce(s: State, c: nat, d: nat)
    requires HandInv(s) && HeldBy(s, c, d)
    ensures c < |s.chs| && s.chs[c].job.InHand? && s.chs[c].job.d == d
    ensures forall e: nat :: HeldBy(s, c, e) ==> e == d
  {
    assert HeldOk(s.chs, d, s.descrs[d]);
    forall e: nat | HeldBy(s, c, e) ensures e == d { assert HeldOk(s.chs, e, s.descrs[e]); }
  }

  /** No job is ever lost: while a call waits, its job is in exactly one place,
      which is the queue of the registered thread of the channel's period, or the
      hand of a running thread; at other times the channel has no job. */
  lemma NoLostJob(n: nat, s: State, c: nat)
    requires Reachable(n, s) && c < |s.chs|
    ensures s.chs[c].api.Waiting? ==>
              || (exists d: nat, i: nat ::
                    OnlyQueuedAt(s, c, d, i) && Registered(s, d) && s.descrs[d].period == s.chs[c].period)
              || (exists d: nat :: OnlyHeldBy(s, c, d) && Registered(s, d))
    ensures !s.chs[c].api.Waiting? ==>
              (forall d: nat, i: nat :: !QueuedAt(s, c, d, i)) && (forall d: nat :: !HeldBy(s, c, d))
  {
    ReachableInv(n, s);
    assert ApiOk(s.chs[c]) && InQueueOk(s.descrs, c, s.chs[c]) && InHandOk(s.descrs, c, s.chs[c]);
    forall d: nat, i: nat | QueuedAt(s, c, d, i) ensures s.chs[c].job.InQueue? { QueuedOnce(s, c, d, i); }
    forall d: nat | HeldBy(s, c, d) ensures s.chs[c].job.InHand? { HeldOnce(s, c, d); }
    if s.chs[c].job.InQueue? {
      var d := s.chs[c].job.d;
      var i :| 0 <= i < |s.descrs[d].queue| && s.descrs[d].queue[i] == s.chs[c].job.job;
      QueuedOnce(s, c, d, i);
      assert DescrOk(s.thrMap, d, s.descrs[d]) && QueueOk(s.chs, d, s.descrs[d]);
      assert s.chs[c].job.job in s.descrs[d].queue;
      assert OnlyQueuedAt(s, c, d, i) && Registered(s, d);
    } else if s.chs[c].job.InHand? {
      var d := s.chs[c].job.d;
      assert HeldBy(s, c, d);
      HeldOnce(s, c, d);
      assert DescrOk(s.thrMap, d, s.descrs[d]);
      assert OnlyHeldBy(s, c, d) && Registered(s, d);
    }
  }

  /** A running thread never pops an empty queue and never meets a channel that does
      not exist. */
  lemma RunningIsEnabled(s: State, d: nat)
    requires Inv(s)
    ensures ThreadEnabled(s, d) <==> d < |s.descrs| && !s.descrs[d].pc.Terminated?
  {
    if d < |s.descrs| {
      assert PcOk(s.descrs[d]) && ClosuresOk(s.chs, d, s.descrs[d]) && QueueOk(s.chs, d, s.descrs[d]);
      assert HeldOk(s.chs, d, s.descrs[d]);
    }
  }

  /** Every sampling thread that has not terminated can make its next step. */
  lemma ThreadsNeverStuck(n: nat, s: State, d: nat)
    requires Reachable(n, s)
    ensures ThreadEnabled(s, d) <==> d < |s.descrs| && !s.descrs[d].pc.Terminated?
  {
    ReachableInv(n, s);
    RunningIsEnabled(s, d);
  }

  /** A channel is sampled by at most one thread.  A channel that is open, with no
      call under way or with a DELETE about to be submitted, is sampled by exactly
      one: the thread registered for its period. */
  lemma UniqueOwner(n: nat, s: State, c: nat)
    requires Reachable(n, s) && c < |s.chs|
    ensures forall d: nat, e: nat :: Samples(s, c, d) && Samples(s, c, e) ==> d == e
    ensures s.chs[c].api.Idle? || s.chs[c].api.Closing? ==>
              && s.chs[c].period in s.thrMap && Registered(s, s.thrMap[s.chs[c].period])
              && Samples(s, c, s.thrMap[s.chs[c].period])
    ensures s.chs[c].api.Unopened? || s.chs[c].api.Opening? || s.chs[c].api.Closed? ==>
              forall d: nat :: !Samples(s, c, d)
  {
    ReachableInv(n, s);
    assert ApiOk(s.chs[c]) && OwnerOk(s.descrs, c, s.chs[c]);
    forall d: nat | Samples(s, c, d) ensures s.chs[c].owner == Some(d) {
      assert ClosuresOk(s.chs, d, s.descrs[d]);
    }
    if s.chs[c].owner.Some? { OwnerIsRegistered(s, c); }
  }

  /** The thread map and the running threads correspond one to one. */
  lemma MapIsExact(n: nat, s: State)
    requires Reachable(n, s)
    ensures forall d :: 0 <= d < |s.descrs| ==> (Registered(s, d) <==> !s.descrs[d].pc.Terminated?)
    ensures forall p :: p in s.thrMap ==> Registered(s, s.thrMap[p]) && s.descrs[s.thrMap[p]].period == p
    ensures forall d: nat, e: nat ::
      Registered(s, d) && Registered(s, e) && s.descrs[d].period == s.descrs[e].period ==> d == e
  {
    ReachableInv(n, s);
    forall d: nat | 0 <= d < |s.descrs| ensures DescrOk(s.thrMap, d, s.descrs[d]) {}
  }

  /** A DELETE job is executed by the thread that samples the channel, and a MOVE
      job fails to find its channel exactly when the channel was closed before. */
  lemma JobsFindTheirChannel(n: nat, s: State, d: nat)
    requires Reachable(n, s) && d < |s.descrs| && s.descrs[d].pc.Executing?
    ensures var jb := s.descrs[d].pc.job; jb.ch < |s.chs| && s.chs[jb.ch].api.Waiting?
    ensures var jb := s.descrs[d].pc.job; jb.kind.Delete? ==> jb.ch in s.descrs[d].closures
    ensures var jb := s.descrs[d].pc.job; jb.kind.Move? ==>
              (jb.ch in s.descrs[d].closures <==> s.chs[jb.ch].api.after == Idle)
    ensures var jb := s.descrs[d].pc.job; jb.kind.Insert? ==> forall e: nat :: !Samples(s, jb.ch, e)
  {
    ReachableInv(n, s);
    AtJob(s, d, s.descrs[d].pc.job, s.descrs[d].pc.left);
    forall e | 0 <= e < |s.descrs| ensures ClosuresOk(s.chs, e, s.descrs[e]) {}
  }

  /** Of the two errors that removal reports, the missing thread never occurs, and
      leftover channels only at the default period. */
  lemma RemovalErrors(n: nat, s: State, d: nat)
    requires Reachable(n, s) && d < |s.descrs| && s.descrs[d].pc.Removing?
    ensures Registered(s, d)
    ensures s.descrs[d].closures != {} ==> s.descrs[d].period == FPC_DEFAULT_PERIOD
    ensures MapInRange(s)
    ensures Remove(s, d).descrs[d].pc.Terminated? <==> s.descrs[d].queue == [] && s.descrs[d].closures == {}
  {
    ReachableInv(n, s);
    assert DescrOk(s.thrMap, d, s.descrs[d]) && PcOk(s.descrs[d]);
  }
}
