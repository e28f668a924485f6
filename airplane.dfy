/**
 * The airplane whose state is a variant of three alternatives: at a gate,
 * taxiing to a lane with its passengers, or flying at some speed. Taxiing
 * is only allowed from the gate and taking off only from taxiing; a refused
 * request leaves the state as it was.
 */
module Aviation {
  import opened CppInt

  /** The three alternatives of the state variant; the float speed is an uninterpreted real. */
  datatype PlaneState = AtGate(gate: Int32) | Taxi(lane: Int32, passengers: Int32) | Flying(speed: real)

  /** What currentStatus reports for each alternative. */
  datatype Status = AtGateNumber(gate: Int32) | TaxiingToLane(lane: Int32) | FlyingAtSpeed(speed: real)

  /** A request made of the airplane. */
  datatype Command = StartTaxi(lane: Int32, passengers: Int32) | TakeOff(speed: real)

  /** How far along the flight a state is: gate 0, taxi 1, flying 2. */
  function Phase(s: PlaneState): (phase: nat) {
    match s
    case AtGate(_) => 0
    case Taxi(_, _) => 1
    case Flying(_) => 2
  }

  /**
   * The state after one request. A request moves the plane at most one
   * phase forward, and it changes the state only when its guard holds: a
   * taxi request at the gate, or a take-off request while taxiing.
   */
  function Apply(s: PlaneState, command: Command): (t: PlaneState)
    ensures Phase(s) <= Phase(t) <= Phase(s) + 1
    ensures t != s <==> (command.StartTaxi? && s.AtGate?) || (command.TakeOff? && s.Taxi?)
    ensures command.StartTaxi? && s.AtGate? ==> t == Taxi(command.lane, command.passengers)
    ensures command.TakeOff? && s.Taxi? ==> t == Flying(command.speed)
  {
    match command
    case StartTaxi(lane, passengers) => if s.AtGate? then Taxi(lane, passengers) else s
    case TakeOff(speed) => if !s.Taxi? then s else Flying(speed)
  }

  /** The state after a sequence of requests, first to last. */
  function Run(s: PlaneState, commands: seq<Command>): (t: PlaneState)
    decreases |commands|
  {
    if commands == [] then s else Run(Apply(s, commands[0]), commands[1..])
  }

  /**
   * Along any sequence of requests the phase never goes back, a flying
   * plane stays exactly as it is, and a plane still at the gate is at the
   * gate it started from: the reachable states follow gate, taxi, flying.
   */
  lemma {:induction false} RunMovesForward(s: PlaneState, commands: seq<Command>)
    ensures Phase(s) <= Phase(Run(s, commands))
    ensures s.Flying? ==> Run(s, commands) == s
    ensures Run(s, commands).AtGate? ==> Run(s, commands) == s
    decreases |commands|
  {
    if commands != [] {
      RunMovesForward(Apply(s, commands[0]), commands[1..]);
    }
  }

  /** From the gate, a taxi request followed by a take-off request ends flying at the requested speed. */
  lemma GateTaxiTakeOff(gate: Int32, lane: Int32, passengers: Int32, speed: real)
    ensures Run(AtGate(gate), [StartTaxi(lane, passengers), TakeOff(speed)]) == Flying(speed)
  {
    var commands := [StartTaxi(lane, passengers), TakeOff(speed)];
    var taxi := Taxi(lane, passengers);
    assert commands[1..] == [TakeOff(speed)] && commands[1..][1..] == [];
    assert Run(taxi, commands[1..]) == Run(Flying(speed), []);
  }

  /** A take-off request at the gate is refused, so the plane cannot skip taxiing. */
  lemma NoTakeOffFromGate(gate: Int32, speed: real, lane: Int32, passengers: Int32)
    ensures Run(AtGate(gate), [TakeOff(speed)]) == AtGate(gate)
    ensures Run(AtGate(gate), [TakeOff(speed), StartTaxi(lane, passengers)]) == Taxi(lane, passengers)
  {
    var commands := [TakeOff(speed), StartTaxi(lane, passengers)];
    assert [TakeOff(speed)][1..] == [];
    assert commands[1..] == [StartTaxi(lane, passengers)] && commands[1..][1..] == [];
    assert Run(AtGate(gate), commands[1..]) == Run(Taxi(lane, passengers), []);
  }

  class Airplane {
    var state: PlaneState

    /** Airplane(gate): a new plane stands at the given gate. */
    constructor(gate: Int32)
      ensures state == AtGate(gate)
    {
      state := AtGate(gate);
    }

    /** startTaxi: leaves the gate for the lane with the passengers; refused anywhere but at the gate. */
    method StartTaxi(lane: Int32, passengers: Int32)
      modifies this
      ensures state == Apply(old(state), Command.StartTaxi(lane, passengers))
    {
      if state.AtGate? {
        state := Taxi(lane, passengers);
      }
    }

    /** takeOff: from taxiing to flying at the speed; refused anywhere but while taxiing. */
    method TakeOff(speed: real)
      modifies this
      ensures state == Apply(old(state), Command.TakeOff(speed))
    {
      if !state.Taxi? {
        return;
      }
      state := Flying(speed);
    }

    /**
     * currentStatus: reports the gate, the lane or the speed of the current
     * alternative, and changes nothing.
     */
    method CurrentStatus() returns (status: Status)
      ensures status.AtGateNumber? <==> state.AtGate?
      ensures status.TaxiingToLane? <==> state.Taxi?
      ensures state.AtGate? ==> status.gate == state.gate
      ensures state.Taxi? ==> status.lane == state.lane
      ensures state.Flying? ==> status == FlyingAtSpeed(state.speed)
    {
      if state.AtGate? {
        status := AtGateNumber(state.gate);
      } else if state.Taxi? {
        status := TaxiingToLane(state.lane);
      } else {
        status := FlyingAtSpeed(state.speed);
      }
    }
  }
}
