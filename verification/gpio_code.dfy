/** The code of the two boards over their output registers.  Waiting loops are
    split into the test that they repeat and what follows them.  Each method is tied
    to the steps of the handshake that stand for it. */
module GpioCode {
  import opened Gpio

  const PIN_LINE_M: bv6 := 8
  const PIN_LINE_C: bv6 := 9
  const PIN_BARR_M: bv6 := 10
  const PIN_BARR_C: bv6 := 11

  predicate Pin(target: bv32, pin: bv6)
    requires pin < 32
  {
    (target >> pin) & 1 == 1
  }

  function Bit(pin: bv6): bv32
    requires pin < 32
  {
    (1 as bv32) << pin
  }

  /** Exclusive or with its bit toggles one pin of the four and leaves the others. */
  lemma ToggleOne(target: bv32, pin: bv6, other: bv6)
    requires pin in {PIN_LINE_M, PIN_LINE_C, PIN_BARR_M, PIN_BARR_C}
    requires other in {PIN_LINE_M, PIN_LINE_C, PIN_BARR_M, PIN_BARR_C}
    ensures Pin(target ^ Bit(pin), other) == (if other == pin then !Pin(target, other) else Pin(target, other))
  {
  }

  /** Clearing its bit sets one pin low and leaves the others. */
  lemma ClearOne(target: bv32, pin: bv6, other: bv6)
    requires pin in {PIN_LINE_M, PIN_LINE_C, PIN_BARR_M, PIN_BARR_C}
    requires other in {PIN_LINE_M, PIN_LINE_C, PIN_BARR_M, PIN_BARR_C}
    ensures Pin(target & !Bit(pin), other) == (other != pin && Pin(target, other))
  {
  }

  /** The pins that one side drives are set low. */
  function PinsLow(register: bv32, master: bool): (r: bv32)
    ensures master ==> !Pin(r, PIN_LINE_M) && !Pin(r, PIN_BARR_M)
    ensures !master ==> !Pin(r, PIN_LINE_C) && !Pin(r, PIN_BARR_C)
  {
    if master then
      ClearOne(register & !Bit(PIN_LINE_M), PIN_BARR_M, PIN_LINE_M);
      (register & !Bit(PIN_LINE_M)) & !Bit(PIN_BARR_M)
    else
      (register & !Bit(PIN_LINE_C)) & !Bit(PIN_BARR_C)
  }

  /** One closure; `outp` is the output register of its board. */
  class GPIORTTClosure {
    const isMaster: bool
    var outp: bv32
    var lineC: bool
    var lineM: bool
    var barrC: bool
    var barrM: bool

    ghost predicate IsClient(s: State)
      reads this
    {
      && !isMaster && Pin(outp, PIN_LINE_C) == s.pinLineC && Pin(outp, PIN_BARR_C) == s.pinBarrC
      && lineC == s.clientLineC && lineM == s.clientLineM && barrC == s.clientBarrC && barrM == s.clientBarrM
    }

    ghost predicate IsMaster(s: State)
      reads this
    {
      && isMaster && Pin(outp, PIN_LINE_M) == s.pinLineM && Pin(outp, PIN_BARR_M) == s.pinBarrM
      && lineC == s.masterLineC && lineM == s.masterLineM && barrC == s.masterBarrC && barrM == s.masterBarrM
    }

    /** The closure is set up and the pins that this side drives are set low. */
    constructor (master: bool, register: bv32)
      ensures if master then IsMaster(Init()) else IsClient(Init())
    {
      isMaster := master;
      lineC, lineM, barrC, barrM := false, false, false, false;
      outp := PinsLow(register, master);
    }

    method Toggle(pin: bv6)
      requires pin in {PIN_LINE_M, PIN_LINE_C, PIN_BARR_M, PIN_BARR_C}
      modifies `outp
      ensures forall p :: p in {PIN_LINE_M, PIN_LINE_C, PIN_BARR_M, PIN_BARR_C} ==>
                Pin(outp, p) == (if p == pin then !Pin(old(outp), p) else Pin(old(outp), p))
    {
      forall p | p in {PIN_LINE_M, PIN_LINE_C, PIN_BARR_M, PIN_BARR_C}
        ensures Pin(outp ^ Bit(pin), p) == (if p == pin then !Pin(outp, p) else Pin(outp, p))
      {
        ToggleOne(outp, pin, p);
      }
      outp := outp ^ Bit(pin);
    }

    // ---- client -----------------------------------------------------------

    /** The client's side of the start barrier, up to its waiting loop. */
    method ClientConnect(ghost s: State)
      requires IsClient(s) && s.client.Connecting?
      modifies this
      ensures IsClient(ClientStep(s))
    {
      barrC := !barrC;
      barrM := !barrM;
      Toggle(PIN_BARR_C);
    }

    /** A call of the handler, up to its waiting loop. */
    method ClientSignal(ghost s: State)
      requires IsClient(s) && s.client.Ready?
      modifies this
      ensures IsClient(ClientStep(ClientStep(s))) && ClientStep(ClientStep(s)).client.AwaitAnswer?
    {
      lineC := !lineC;
      lineM := !lineM;
      Toggle(PIN_LINE_C);
    }

    /** The tests of the client's two waiting loops; `inp` shows the master's pins. */
    method ClientWaitsAtBarrier(inp: bv32, ghost s: State) returns (waits: bool)
      requires IsClient(s) && s.client.AtBarrier? && Pin(inp, PIN_BARR_M) == s.pinBarrM
      ensures waits <==> ClientBlocked(s)
    {
      waits := Pin(inp, PIN_BARR_M) != barrM;
    }

    method ClientWaitsForAnswer(inp: bv32, ghost s: State) returns (waits: bool)
      requires IsClient(s) && s.client.AwaitAnswer? && Pin(inp, PIN_LINE_M) == s.pinLineM
      ensures waits <==> ClientBlocked(s)
    {
      waits := Pin(inp, PIN_LINE_M) != lineM;
    }

    // ---- master -----------------------------------------------------------

    method MasterStart(ghost s: State)
      requires IsMaster(s) && s.master.Starting?
      modifies this
      ensures IsMaster(MasterStep(s))
    {
      barrC := !barrC;
    }

    /** What follows the master's wait at the barrier. */
    method MasterSignalStart(inp: bv32, ghost s: State)
      requires IsMaster(s) && s.master.AwaitClient? && Pin(inp, PIN_BARR_C) == s.pinBarrC
      requires Pin(inp, PIN_BARR_C) == barrC
      modifies this
      ensures !MasterBlocked(s) && IsMaster(MasterStep(MasterStep(s)))
    {
      barrM := !barrM;
      Toggle(PIN_BARR_M);
    }

    method MasterExpect(ghost s: State)
      requires IsMaster(s) && s.master.Serving?
      modifies this
      ensures IsMaster(MasterStep(s)) && MasterStep(s).master.AwaitRequest?
    {
      lineC := !lineC;
      lineM := !lineM;
    }

    /** What follows the master's wait for a request. */
    method MasterAnswer(inp: bv32, ghost s: State)
      requires IsMaster(s) && s.master.AwaitRequest? && Pin(inp, PIN_LINE_C) == s.pinLineC
      requires Pin(inp, PIN_LINE_C) == lineC
      modifies this
      ensures !MasterBlocked(s) && IsMaster(MasterStep(MasterStep(s))) && MasterStep(MasterStep(s)).master.Serving?
    {
      Toggle(PIN_LINE_M);
    }
  }
}
