/** Two boards that signal each other over single-bit pins. */
module Gpio {
  /** There is a start barrier, and then round trips.  Both sides keep the value
      that they expect to see next and reverse it at every exchange; nobody counts.
      The client calls the handler once a round; `Ready` is between two calls. */
  datatype ClientPc = Connecting | AtBarrier | Ready | Flipped | AwaitAnswer

  datatype MasterPc = Starting | AwaitClient | SignalStart | Serving | AwaitRequest | Answering

  /** The pins that each side drives, the senses that each side keeps, and, as
      histories, how often each pin was toggled and how many rounds the client has
      finished. */
  datatype State = State(
    pinLineC: bool, pinLineM: bool, pinBarrC: bool, pinBarrM: bool,
    client: ClientPc, clientLineC: bool, clientLineM: bool, clientBarrC: bool, clientBarrM: bool,
    master: MasterPc, masterLineC: bool, masterLineM: bool, masterBarrC: bool, masterBarrM: bool,
    togglesLineC: nat, togglesLineM: nat, togglesBarrC: nat, togglesBarrM: nat,
    rounds: nat)

  /** Both sides have set their pins low. */
  function Init(): State {
    State(false, false, false, false,
          Connecting, false, false, false, false,
          Starting, false, false, false, false,
          0, 0, 0, 0, 0)
  }

  /** A waiting side is blocked while the pin has not the value expected. */
  predicate ClientBlocked(s: State) {
    match s.client
    case AtBarrier => s.pinBarrM != s.clientBarrM
    case AwaitAnswer => s.pinLineM != s.clientLineM
    case _ => false
  }

  predicate MasterBlocked(s: State) {
    match s.master
    case AwaitClient => s.pinBarrC != s.masterBarrC
    case AwaitRequest => s.pinLineC != s.masterLineC
    case _ => false
  }

  function ClientStep(s: State): State
    requires !ClientBlocked(s)
  {
    match s.client
    case Connecting =>
      s.(client := AtBarrier, clientBarrC := !s.clientBarrC, clientBarrM := !s.clientBarrM,
         pinBarrC := !s.pinBarrC, togglesBarrC := s.togglesBarrC + 1)
    case AtBarrier => s.(client := Ready)
    case Ready => s.(client := Flipped, clientLineC := !s.clientLineC, clientLineM := !s.clientLineM)
    case Flipped => s.(client := AwaitAnswer, pinLineC := !s.pinLineC, togglesLineC := s.togglesLineC + 1)
    case AwaitAnswer => s.(client := Ready, rounds := s.rounds + 1)
  }

  function MasterStep(s: State): State
    requires !MasterBlocked(s)
  {
    match s.master
    case Starting => s.(master := AwaitClient, masterBarrC := !s.masterBarrC)
    case AwaitClient => s.(master := SignalStart, masterBarrM := !s.masterBarrM)
    case SignalStart => s.(master := Serving, pinBarrM := !s.pinBarrM, togglesBarrM := s.togglesBarrM + 1)
    case Serving => s.(master := AwaitRequest, masterLineC := !s.masterLineC, masterLineM := !s.masterLineM)
    case AwaitRequest => s.(master := Answering)
    case Answering => s.(master := Serving, pinLineM := !s.pinLineM, togglesLineM := s.togglesLineM + 1)
  }

  datatype Step = StepClient | StepMaster

  predicate Enabled(s: State, a: Step) {
    if a.StepClient? then !ClientBlocked(s) else !MasterBlocked(s)
  }

  function Next(s: State, a: Step): State
    requires Enabled(s, a)
  {
    if a.StepClient? then ClientStep(s) else MasterStep(s)
  }

  predicate Legal(s: State, run: seq<Step>)
    decreases |run|
  {
    run == [] || (Enabled(s, run[0]) && Legal(Next(s, run[0]), run[1..]))
  }

  function Exec(s: State, run: seq<Step>): State
    requires Legal(s, run)
    decreases |run|
  {
    if run == [] then s else Exec(Next(s, run[0]), run[1..])
  }

  ghost predicate Reachable(s: State) {
    exists run :: Legal(Init(), run) && Exec(Init(), run) == s
  }

  // ---- the invariant ------------------------------------------------------

  predicate Odd(n: int) { n % 2 == 1 }

  /** Each pin shows the parity of the toggles of its owner. */
  predicate PinsOk(s: State) {
    && s.pinLineC == Odd(s.togglesLineC) && s.pinLineM == Odd(s.togglesLineM)
    && s.pinBarrC == Odd(s.togglesBarrC) && s.pinBarrM == Odd(s.togglesBarrM)
  }

  /** The client's senses are the parities of the exchanges it has begun. */
  predicate ClientOk(s: State) {
    var begun := if s.client.Flipped? then s.togglesLineC + 1 else s.togglesLineC;
    && s.clientLineC == Odd(begun) && s.clientLineM == Odd(begun)
    && s.clientBarrC == s.clientBarrM == Odd(s.togglesBarrC)
    && s.togglesBarrC == (if s.client.Connecting? then 0 else 1)
    && s.togglesLineC == (if s.client.AwaitAnswer? then s.rounds + 1 else s.rounds)
    && (s.client.Connecting? || s.client.AtBarrier? ==> s.rounds == 0)
  }

  predicate MasterOk(s: State) {
    var begun := if s.master.AwaitRequest? || s.master.Answering? then s.togglesLineM + 1 else s.togglesLineM;
    && s.masterLineC == Odd(begun) && s.masterLineM == Odd(begun)
    && s.masterBarrC == !s.master.Starting?
    && s.masterBarrM == !(s.master.Starting? || s.master.AwaitClient?)
    && s.togglesBarrM == (if s.master.Starting? || s.master.AwaitClient? || s.master.SignalStart? then 0 else 1)
    && (s.togglesBarrM == 0 ==> s.togglesLineM == 0)
  }

  /** How far apart the two sides can be. */
  predicate InStep(s: State) {
    && s.togglesBarrM <= s.togglesBarrC
    && s.rounds <= s.togglesLineM <= s.togglesLineC
    && (!s.client.Connecting? && !s.client.AtBarrier? ==> s.togglesBarrM == 1)
    && (s.master.SignalStart? ==> s.togglesBarrC == 1)
    && (s.master.Answering? ==> s.togglesLineM < s.togglesLineC)
  }

  predicate Inv(s: State) { PinsOk(s) && ClientOk(s) && MasterOk(s) && InStep(s) }

  /** The one-bit tests are exact: a side waits as long as the count that it cannot
      see has not caught up. */
  lemma BitsStandForCounts(s: State)
    requires Inv(s)
    ensures s.client.AwaitAnswer? ==> (ClientBlocked(s) <==> s.togglesLineM < s.togglesLineC)
    ensures s.master.AwaitRequest? ==> (MasterBlocked(s) <==> s.togglesLineC == s.togglesLineM)
    ensures s.client.AtBarrier? ==> (ClientBlocked(s) <==> s.togglesBarrM == 0)
    ensures s.master.AwaitClient? ==> (MasterBlocked(s) <==> s.togglesBarrC == 0)
  {
  }

  lemma ClientKeeps(s: State)
    requires Inv(s) && !ClientBlocked(s)
    ensures Inv(ClientStep(s))
  {
    BitsStandForCounts(s);
  }

  lemma MasterKeeps(s: State)
    requires Inv(s) && !MasterBlocked(s)
    ensures Inv(MasterStep(s))
  {
    BitsStandForCounts(s);
  }

  lemma {:induction false} RunKeeps(s: State, run: seq<Step>)
    requires Inv(s) && Legal(s, run)
    ensures Inv(Exec(s, run))
    decreases |run|
  {
    if run != [] {
      if run[0].StepClient? { ClientKeeps(s); } else { MasterKeeps(s); }
      RunKeeps(Next(s, run[0]), run[1..]);
    }
  }

  lemma ReachableInv(s: State)
    requires Reachable(s)
    ensures Inv(s)
  {
    var run :| Legal(Init(), run) && Exec(Init(), run) == s;
    RunKeeps(Init(), run);
  }

  // ---- main results -------------------------------------------------------

  /** The number of rounds the master has answered, and those the client has
      finished, are the same or one apart; the client finishes a round only after
      the master answered it, and the master answers only a round that was begun. */
  lemma RoundsInLockstep(s: State)
    requires Reachable(s)
    ensures s.rounds <= s.togglesLineM <= s.togglesLineC <= s.rounds + 1
    ensures !s.client.AwaitAnswer? ==> s.rounds == s.togglesLineM == s.togglesLineC
  {
    ReachableInv(s);
  }

  /** The pins carry the parity of their owner's toggles. */
  lemma PinsShowParity(s: State)
    requires Reachable(s)
    ensures PinsOk(s)
  {
    ReachableInv(s);
  }

  /** No round begins, on either side, before both have passed the start barrier. */
  lemma StartTogether(s: State)
    requires Reachable(s)
    ensures s.client.Ready? || s.client.Flipped? || s.client.AwaitAnswer? || s.togglesLineC > 0 ==>
              s.togglesBarrC == 1 && s.togglesBarrM == 1
    ensures s.master.Serving? || s.master.AwaitRequest? || s.master.Answering? || s.togglesLineM > 0 ==>
              s.togglesBarrC == 1 && s.togglesBarrM == 1
  {
    ReachableInv(s);
  }

  /** The two sides are never both blocked. */
  lemma NeverBothBlocked(s: State)
    requires Reachable(s)
    ensures !ClientBlocked(s) || !MasterBlocked(s)
  {
    ReachableInv(s);
    BitsStandForCounts(s);
  }

  /** How many steps the master needs until it has answered, or has started. */
  function MasterDistance(s: State): nat {
    match s.master
    case Starting => 3
    case AwaitClient => 2
    case SignalStart => 1
    case Serving => 3
    case AwaitRequest => 2
    case Answering => 1
  }

  function Alone(n: nat): seq<Step> { seq(n, i => StepMaster) }

  /** A client that waits is released by the master's next few steps alone. */
  lemma {:induction false} ClientIsAnswered(s: State)
    requires Inv(s) && ClientBlocked(s)
    ensures Legal(s, Alone(MasterDistance(s))) && !ClientBlocked(Exec(s, Alone(MasterDistance(s))))
    decreases MasterDistance(s)
  {
    BitsStandForCounts(s);
    var n := MasterDistance(s);
    assert !MasterBlocked(s) && Alone(n)[0] == StepMaster && Alone(n)[1..] == Alone(n - 1);
    var s' := MasterStep(s);
    MasterKeeps(s);
    if ClientBlocked(s') {
      ClientIsAnswered(s');
    } else {
      BitsStandForCounts(s');
      assert n == 1 && Alone(0) == [];
    }
  }
}
