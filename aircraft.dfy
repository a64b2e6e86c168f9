/**
 * The telemetry simulator of cpp/aircraft.cpp: the phase and engine-status
 * state machine of class `Aircraft`, advanced one tick at a time. The values
 * of `rand()` are passed in, and the trigonometric flight update is a
 * caller-supplied function.
 */
module Simulator {

  /** glibc's RAND_MAX; `rand()` returns a value in 0..RAND_MAX. */
  const RAND_MAX: int := 2147483647
  type Draw = x: int | 0 <= x <= RAND_MAX

  /** The ticks 1..120 are training ticks. */
  const TRAINING_TICKS: int := 120
  /** `delayMs` on a testing tick. */
  const TESTING_DELAY_MS: nat := 500

  /** The fields of `Aircraft` (cpp/aircraft.hpp); the logger is left out. */
  datatype AircraftState = AircraftState(
    altitude: real,
    airspeed: real,
    pitch: real,
    engineFailure: bool,
    vibration: real,
    simulationTime: int,
    trainingPhase: bool)

  datatype Flight = Flight(altitude: real, airspeed: real, pitch: real)

  /** `updateFlightParameters`: the new flight values from the old ones, the fault flag and the time. */
  type FlightDynamics = (Flight, bool, int) -> Flight

  /** The three `rand()` values a testing tick consumes, in call order. */
  datatype Draws = Draws(failure: Draw, recovery: Draw, vibration: Draw)

  /** The member initialisers of the constructor. */
  function InitialState(): AircraftState {
    AircraftState(1000.0, 250.0, 2.0, false, 2.5, 0, true)
  }

  /** `updatePhase`: training up to tick 120, with the fault cleared; testing afterwards. */
  function AfterUpdatePhase(s: AircraftState): (r: AircraftState)
    ensures r.trainingPhase <==> s.simulationTime <= TRAINING_TICKS
    ensures r.trainingPhase ==> !r.engineFailure
    ensures !r.trainingPhase ==> r.engineFailure == s.engineFailure
    ensures r.(trainingPhase := s.trainingPhase, engineFailure := s.engineFailure) == s
  {
    if s.simulationTime <= TRAINING_TICKS then s.(trainingPhase := true, engineFailure := false)
    else s.(trainingPhase := false)
  }

  /** `updateFlightParameters`: only the three flight values change, to what the dynamics gives. */
  function AfterUpdateFlightParameters(s: AircraftState, dynamics: FlightDynamics): (r: AircraftState)
    ensures Flight(r.altitude, r.airspeed, r.pitch) ==
            dynamics(Flight(s.altitude, s.airspeed, s.pitch), s.engineFailure, s.simulationTime)
    ensures r.(altitude := s.altitude, airspeed := s.airspeed, pitch := s.pitch) == s
  {
    var f := dynamics(Flight(s.altitude, s.airspeed, s.pitch), s.engineFailure, s.simulationTime);
    s.(altitude := f.altitude, airspeed := f.airspeed, pitch := f.pitch)
  }

  /**
   * `updateEngineStatus`: on a testing tick the first draw may set the fault
   * and the second may then clear it, so clearing wins.
   */
  function NextEngineFailure(trainingPhase: bool, engineFailure: bool, failure: Draw, recovery: Draw): (r: bool)
    ensures trainingPhase ==> r == engineFailure
    ensures !trainingPhase && recovery % 10 == 0 ==> !r
    ensures !trainingPhase && recovery % 10 != 0 && failure % 20 == 0 ==> r
    ensures !trainingPhase && recovery % 10 != 0 && failure % 20 != 0 ==> r == engineFailure
  {
    if !trainingPhase then
      var afterFailure := if failure % 20 == 0 then true else engineFailure;
      if recovery % 10 == 0 then false else afterFailure
    else engineFailure
  }

  /** `updateVibration`: 5.0-10.0 g with the fault, 2.5-3.5 g without. */
  function NextVibration(engineFailure: bool, r: Draw): (v: real)
    ensures engineFailure ==> 5.0 <= v <= 10.0
    ensures !engineFailure ==> 2.5 <= v <= 3.5
  {
    var fraction := (r as real) / (RAND_MAX as real);
    if engineFailure then 5.0 + fraction * 5.0 else 2.5 + fraction
  }

  /** The vibration band a state's fault flag calls for. */
  predicate VibrationInBand(s: AircraftState) {
    if s.engineFailure then 5.0 <= s.vibration <= 10.0 else 2.5 <= s.vibration <= 3.5
  }

  /** `int delayMs = trainingPhase ? 0 : 500`. */
  function DelayMs(trainingPhase: bool): (ms: nat)
    ensures ms == 0 <==> trainingPhase
    ensures !trainingPhase ==> ms == TESTING_DELAY_MS
  {
    if trainingPhase then 0 else TESTING_DELAY_MS
  }

  /** One pass of the loop of `startSimulation`, up to and including the state logged. */
  function AfterTick(s: AircraftState, draws: Draws, dynamics: FlightDynamics): AircraftState {
    var timed := s.(simulationTime := s.simulationTime + 1);
    var phased := AfterUpdatePhase(timed);
    var flown := AfterUpdateFlightParameters(phased, dynamics);
    var status := flown.(engineFailure := NextEngineFailure(flown.trainingPhase, flown.engineFailure,
                                                            draws.failure, draws.recovery));
    status.(vibration := NextVibration(status.engineFailure, draws.vibration))
  }

  /**
   * What one tick guarantees: the clock advances by one, the phase follows
   * the clock, a training tick logs a healthy engine, and the logged
   * vibration lies in the band of the logged fault flag.
   */
  lemma TickFacts(s: AircraftState, draws: Draws, dynamics: FlightDynamics)
    ensures var r := AfterTick(s, draws, dynamics);
      && r.simulationTime == s.simulationTime + 1
      && (r.trainingPhase <==> r.simulationTime <= TRAINING_TICKS)
      && (r.trainingPhase ==> !r.engineFailure)
      && VibrationInBand(r)
  {
  }

  /** On a testing tick the fault flag follows the two draws from the flag before the tick. */
  lemma TestingTickFault(s: AircraftState, draws: Draws, dynamics: FlightDynamics)
    requires s.simulationTime >= TRAINING_TICKS
    ensures var r := AfterTick(s, draws, dynamics);
      && !r.trainingPhase
      && r.engineFailure == (if draws.recovery % 10 == 0 then false
                             else if draws.failure % 20 == 0 then true
                             else s.engineFailure)
  {
  }

  /** The state after the given ticks. */
  function Run(s: AircraftState, ticks: seq<Draws>, dynamics: FlightDynamics): AircraftState
    decreases |ticks|
  {
    if ticks == [] then s
    else AfterTick(Run(s, ticks[..|ticks| - 1], dynamics), ticks[|ticks| - 1], dynamics)
  }

  /** The records `logTelemetry` writes, one per tick, starting from `s`. */
  function LogFrom(s: AircraftState, ticks: seq<Draws>, dynamics: FlightDynamics): seq<AircraftState>
    decreases |ticks|
  {
    if ticks == [] then []
    else LogFrom(s, ticks[..|ticks| - 1], dynamics) + [Run(s, ticks, dynamics)]
  }

  /** The records logged by a simulator started right after construction. */
  function Log(ticks: seq<Draws>, dynamics: FlightDynamics): seq<AircraftState> {
    LogFrom(InitialState(), ticks, dynamics)
  }

  /** After n ticks from construction: the clock reads n, and the phase is training exactly for n <= 120. */
  lemma {:induction false} RunFromStart(ticks: seq<Draws>, dynamics: FlightDynamics)
    ensures var r := Run(InitialState(), ticks, dynamics);
      && r.simulationTime == |ticks|
      && (r.trainingPhase <==> |ticks| <= TRAINING_TICKS)
      && (r.trainingPhase ==> !r.engineFailure)
      && VibrationInBand(r)
    decreases |ticks|
  {
    if ticks != [] {
      var n := |ticks| - 1;
      RunFromStart(ticks[..n], dynamics);
      TickFacts(Run(InitialState(), ticks[..n], dynamics), ticks[n], dynamics);
    }
  }

  /** The k-th logged record is the state after k + 1 ticks. */
  lemma {:induction false} LogAt(ticks: seq<Draws>, dynamics: FlightDynamics, k: nat)
    requires k < |ticks|
    ensures |Log(ticks, dynamics)| == |ticks|
    ensures Log(ticks, dynamics)[k] == Run(InitialState(), ticks[..k + 1], dynamics)
    decreases |ticks|
  {
    var n := |ticks| - 1;
    LogLength(ticks[..n], dynamics);
    if k < n {
      LogAt(ticks[..n], dynamics, k);
      assert ticks[..n][..k + 1] == ticks[..k + 1];
    } else {
      assert ticks[..k + 1] == ticks;
    }
  }

  lemma {:induction false} LogLength(ticks: seq<Draws>, dynamics: FlightDynamics)
    ensures |Log(ticks, dynamics)| == |ticks|
    decreases |ticks|
  {
    if ticks != [] {
      LogLength(ticks[..|ticks| - 1], dynamics);
    }
  }

  /**
   * Every logged record: the k-th carries simulationTime k + 1, is a training
   * record exactly for the first 120, reports a healthy engine while
   * training, and has vibration in the band of its fault flag. Testing
   * records are never followed by training ones; the delay after a record is
   * 0 ms while training and 500 ms afterwards.
   */
  lemma LoggedRecords(ticks: seq<Draws>, dynamics: FlightDynamics)
    ensures |Log(ticks, dynamics)| == |ticks|
    ensures forall k :: 0 <= k < |ticks| ==>
      var r := Log(ticks, dynamics)[k];
      && r.simulationTime == k + 1
      && (r.trainingPhase <==> k < TRAINING_TICKS)
      && (r.trainingPhase ==> !r.engineFailure)
      && VibrationInBand(r)
      && DelayMs(r.trainingPhase) == (if k < TRAINING_TICKS then 0 else TESTING_DELAY_MS)
    ensures forall i, j :: 0 <= i <= j < |ticks| && !Log(ticks, dynamics)[i].trainingPhase ==>
      !Log(ticks, dynamics)[j].trainingPhase
  {
    LogLength(ticks, dynamics);
    forall k | 0 <= k < |ticks|
      ensures var r := Log(ticks, dynamics)[k];
        && r.simulationTime == k + 1
        && (r.trainingPhase <==> k < TRAINING_TICKS)
        && (r.trainingPhase ==> !r.engineFailure)
        && VibrationInBand(r)
    {
      LogAt(ticks, dynamics, k);
      RunFromStart(ticks[..k + 1], dynamics);
    }
  }

  /** The number of training records among those logged. */
  function TrainingRecordCount(log: seq<AircraftState>): nat
    decreases |log|
  {
    if log == [] then 0
    else TrainingRecordCount(log[..|log| - 1]) + (if log[|log| - 1].trainingPhase then 1 else 0)
  }

  /** A run logs exactly min(n, 120) training records: the detector sees exactly 120 once n >= 120. */
  lemma {:induction false} TrainingRecordsLogged(ticks: seq<Draws>, dynamics: FlightDynamics)
    ensures TrainingRecordCount(Log(ticks, dynamics)) ==
            if |ticks| <= TRAINING_TICKS then |ticks| else TRAINING_TICKS
    decreases |ticks|
  {
    if ticks != [] {
      var n := |ticks| - 1;
      TrainingRecordsLogged(ticks[..n], dynamics);
      LogLength(ticks[..n], dynamics);
      RunFromStart(ticks, dynamics);
      var log := Log(ticks, dynamics);
      assert log[..|log| - 1] == Log(ticks[..n], dynamics);
    }
  }

  /** Class `Aircraft`: its fields are advanced in place, one tick at a time. */
  class Aircraft {
    var altitude: real
    var airspeed: real
    var pitch: real
    var engineFailure: bool
    var vibration: real
    var simulationTime: int
    var trainingPhase: bool

    function State(): AircraftState
      reads this
    {
      AircraftState(altitude, airspeed, pitch, engineFailure, vibration, simulationTime, trainingPhase)
    }

    constructor ()
      ensures State() == InitialState()
    {
      altitude, airspeed, pitch := 1000.0, 250.0, 2.0;
      engineFailure := false;
      vibration := 2.5;
      simulationTime := 0;
      trainingPhase := true;
    }

    method UpdatePhase()
      modifies this
      ensures State() == AfterUpdatePhase(old(State()))
    {
      if simulationTime <= TRAINING_TICKS {
        trainingPhase := true;
        engineFailure := false;
      } else {
        trainingPhase := false;
      }
    }

    method UpdateFlightParameters(dynamics: FlightDynamics)
      modifies this
      ensures State() == AfterUpdateFlightParameters(old(State()), dynamics)
    {
      var f := dynamics(Flight(altitude, airspeed, pitch), engineFailure, simulationTime);
      altitude, airspeed, pitch := f.altitude, f.airspeed, f.pitch;
    }

    method UpdateEngineStatus(failure: Draw, recovery: Draw)
      modifies this
      ensures State() == old(State()).(engineFailure :=
        NextEngineFailure(old(trainingPhase), old(engineFailure), failure, recovery))
    {
      if !trainingPhase {
        if failure % 20 == 0 { engineFailure := true; }
        if recovery % 10 == 0 { engineFailure := false; }
      }
    }

    method UpdateVibration(r: Draw)
      modifies this
      ensures State() == old(State()).(vibration := NextVibration(old(engineFailure), r))
    {
      if engineFailure {
        vibration := 5.0 + (r as real) / (RAND_MAX as real) * 5.0;
      } else {
        vibration := 2.5 + (r as real) / (RAND_MAX as real);
      }
    }

    /** One pass of the loop of `startSimulation`; returns the state logged and the delay chosen. */
    method Tick(draws: Draws, dynamics: FlightDynamics) returns (logged: AircraftState, delayMs: nat)
      modifies this
      ensures State() == AfterTick(old(State()), draws, dynamics)
      ensures logged == State() && delayMs == DelayMs(trainingPhase)
    {
      simulationTime := simulationTime + 1;
      UpdatePhase();
      UpdateFlightParameters(dynamics);
      UpdateEngineStatus(draws.failure, draws.recovery);
      UpdateVibration(draws.vibration);
      logged := State();
      delayMs := if trainingPhase then 0 else TESTING_DELAY_MS;
    }

    /** `startSimulation` for the given ticks: what it logs. */
    method StartSimulation(ticks: seq<Draws>, dynamics: FlightDynamics) returns (log: seq<AircraftState>)
      modifies this
      ensures log == LogFrom(old(State()), ticks, dynamics)
      ensures State() == Run(old(State()), ticks, dynamics)
    {
      ghost var start := State();
      log := [];
      var i := 0;
      while i < |ticks|
        invariant 0 <= i <= |ticks|
        invariant State() == Run(start, ticks[..i], dynamics)
        invariant log == LogFrom(start, ticks[..i], dynamics)
      {
        assert ticks[..i + 1][..i] == ticks[..i];
        var logged, delayMs := Tick(ticks[i], dynamics);
        log := log + [logged];
        i := i + 1;
      }
      assert ticks[..i] == ticks;
    }
  }
}
