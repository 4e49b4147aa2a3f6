/** The autonomous mapping coordinator and its policy
    (include/robot_slamd/autonomy/autonomous_slam_coordinator.hpp, autonomous_slam_policy.hpp).
    What the sensor, map and motion ports answer during a step is part of that step's input. */
module Coordinator {

  datatype State =
    | Idle | WaitingForSensors | Initializing | Mapping | NeedActiveScan | SendingMotionCommand
    | WaitingMotionSettle | IntegratingScan | Completed | Fault

  datatype FaultKind =
    | None | SensorTimeout | InitializationFailed | MotionRejected | MotionTransportFailed
    | MapQualityStuck | SafetyGateBlocked | InvalidStateTransition

  datatype Options = Options(enabled: bool, maxIterations: int, sensorTimeout: real, settleTimeout: real,
                             maxCommands: int)
  {
    /** What validate_config demands. */
    ghost predicate Valid() { maxIterations > 0 && maxCommands > 0 && sensorTimeout > 0.0 && settleTimeout > 0.0 }
  }

  datatype Sensors = Sensors(hasTof: bool, hasMultiTof: bool, hasImu: bool, hasWheel: bool, timesFinite: bool)
  {
    predicate HasPayload() { hasTof || hasMultiTof || hasImu || hasWheel }

    predicate ReadyToInitialize() { hasTof && (hasImu || hasWheel) && timesFinite }
  }

  datatype Feedback = Feedback(t: real, settled: bool, fault: bool)

  datatype SendResult = Accepted | NotAccepted | TransportError | OtherError

  /** A port that is missing answers like one that is not ready; a missing motion port reports the
      default feedback, which is settled. */
  datatype Input = Input(
    now: real, startRequested: bool, stopRequested: bool,
    sensors: Sensors, portSensors: Sensors, sensorReady: bool,
    mapReady: bool, goodEnough: bool,
    motionReady: bool, sendResult: SendResult, stopReady: bool, stopAccepted: bool,
    feedback: Feedback, portFeedback: Feedback)
  {
    function Snapshot(): Sensors { if sensors.HasPayload() then sensors else portSensors }

    function MotionFeedback(): Feedback { if feedback.t > 0.0 then feedback else portFeedback }
  }

  datatype Command = NoCommand | Turn

  /** What a step does to the world, in order. */
  datatype Action = Integrated(good: bool) | Sent(command: Command) | StopAttempted

  datatype Output = Output(state: State, fault: FaultKind, commandSent: bool, completed: bool)

  datatype Coord = Coord(
    state: State, fault: FaultKind, iterations: int, lastReady: real, lastCommand: real, pending: Command,
    policyCount: int, sent: nat, stops: nat, activeScans: nat, notReady: nat, goods: nat, poors: nat,
    rejects: nat, faults: nat)

  const INIT_COORD := Coord(Idle, None, 0, 0.0, 0.0, NoCommand, 0, 0, 0, 0, 0, 0, 0, 0, 0)

  datatype Result = Result(c: Coord, out: Output, actions: seq<Action>)

  // ----- one step, as a function -----

  function SendStop(r: Result, inp: Input): Result {
    r.(c := r.c.(stops := r.c.stops + 1),
       out := if inp.stopReady then r.out.(commandSent := inp.stopAccepted) else r.out,
       actions := r.actions + [StopAttempted])
  }

  function EnterFault(r: Result, inp: Input, fault: FaultKind): Result {
    SendStop(r.(c := r.c.(state := Fault, fault := fault, faults := r.c.faults + 1),
                out := r.out.(state := Fault, fault := fault)), inp)
  }

  function HandleWaitingForSensors(opt: Options, r: Result, inp: Input): Result {
    if !inp.sensorReady then r.(c := r.c.(notReady := r.c.notReady + 1))
    else if inp.now - r.c.lastReady > opt.sensorTimeout && r.c.lastReady > 0.0 then EnterFault(r, inp, SensorTimeout)
    else r.(c := r.c.(lastReady := inp.now, state := Initializing))
  }

  function HandleInitializing(r: Result, inp: Input): Result {
    if !inp.Snapshot().ReadyToInitialize() then EnterFault(r, inp, InitializationFailed)
    else r.(c := r.c.(state := Mapping))
  }

  function HandleMapping(r: Result, inp: Input): Result {
    if !inp.mapReady then EnterFault(r, inp, InvalidStateTransition)
    else
      var seen := r.(actions := r.actions + [Integrated(inp.goodEnough)]);
      if inp.goodEnough then
        var stopped := SendStop(seen.(c := r.c.(goods := r.c.goods + 1)), inp);
        stopped.(c := stopped.c.(state := Completed))
      else seen.(c := r.c.(poors := r.c.poors + 1, state := NeedActiveScan))
  }

  /** The policy has used up its turns. */
  predicate LimitHit(opt: Options, c: Coord) { c.policyCount >= opt.maxCommands }

  function HandleNeedActiveScan(opt: Options, r: Result, inp: Input): Result {
    if LimitHit(opt, r.c) then EnterFault(SendStop(r, inp), inp, MapQualityStuck)
    else r.(c := r.c.(policyCount := r.c.policyCount + 1, pending := Turn, activeScans := r.c.activeScans + 1,
                      state := SendingMotionCommand))
  }

  function HandleSendingMotionCommand(r: Result, inp: Input): Result {
    if !inp.motionReady then EnterFault(r, inp, MotionTransportFailed)
    else
      var tried := r.(actions := r.actions + [Sent(r.c.pending)]);
      match inp.sendResult
      case Accepted =>
        tried.(c := r.c.(sent := r.c.sent + 1, lastCommand := inp.now, state := WaitingMotionSettle),
               out := r.out.(commandSent := true))
      case _ =>
        var kind := if inp.sendResult == TransportError then MotionTransportFailed else MotionRejected;
        var failed := EnterFault(tried, inp, kind);
        failed.(c := failed.c.(rejects := failed.c.rejects + 1))
  }

  function HandleWaitingMotionSettle(opt: Options, r: Result, inp: Input): Result {
    var f := inp.MotionFeedback();
    if f.fault then EnterFault(r, inp, SafetyGateBlocked)
    else if f.settled then r.(c := r.c.(state := IntegratingScan))
    else if inp.now - r.c.lastCommand > opt.settleTimeout then EnterFault(r, inp, SafetyGateBlocked)
    else r
  }

  function Handle(opt: Options, r: Result, inp: Input): Result {
    match r.c.state
    case Idle => if inp.startRequested then r.(c := r.c.(state := WaitingForSensors)) else r
    case WaitingForSensors => HandleWaitingForSensors(opt, r, inp)
    case Initializing => HandleInitializing(r, inp)
    case Mapping => HandleMapping(r, inp)
    case NeedActiveScan => HandleNeedActiveScan(opt, r, inp)
    case SendingMotionCommand => HandleSendingMotionCommand(r, inp)
    case WaitingMotionSettle => HandleWaitingMotionSettle(opt, r, inp)
    case IntegratingScan => r.(c := r.c.(state := Mapping))
    case Completed => r
    case Fault => SendStop(r, inp)
  }

  predicate Terminal(s: State) { s == Completed || s == Fault }

  predicate Working(s: State) { s != Idle && !Terminal(s) }

  function Step(opt: Options, c: Coord, inp: Input): Result {
    var r := Result(c, Output(c.state, c.fault, false, false), []);
    if !opt.enabled then r.(c := c.(state := Idle), out := r.out.(state := Idle))
    else if inp.stopRequested then
      var stopped := SendStop(r, inp);
      stopped.(c := stopped.c.(state := Idle, fault := None), out := stopped.out.(state := Idle, fault := None))
    else if c.iterations >= opt.maxIterations && !Terminal(c.state) then EnterFault(r, inp, MapQualityStuck)
    else Closed(Handle(opt, r, inp))
  }

  /** The end of a step that was handled: the iteration is counted and the state reported. */
  function Closed(h: Result): Result {
    var c := if Working(h.c.state) then h.c.(iterations := h.c.iterations + 1) else h.c;
    h.(c := c, out := h.out.(state := c.state, fault := c.fault, completed := c.state == Completed))
  }

  // ----- the objects -----

  datatype Decision = StopCompleted | StopStuck | SendTurn

  class AutonomousSlamPolicy {
    const maxCommands: int
    var count: int

    constructor (maxCommands: int)
      ensures this.maxCommands == maxCommands && count == 0
    {
      this.maxCommands, count := maxCommands, 0;
    }

    method Decide(goodEnough: bool) returns (d: Decision)
      modifies this
      ensures d == if goodEnough then StopCompleted else if old(count) >= maxCommands then StopStuck else SendTurn
      ensures count == old(count) + if d == SendTurn then 1 else 0
    {
      if goodEnough {
        return StopCompleted;
      }
      if count >= maxCommands {
        return StopStuck;
      }
      count := count + 1;
      d := SendTurn;
    }
  }

  class AutonomousSlamCoordinator {
    const opt: Options
    const policy: AutonomousSlamPolicy
    var state: State
    var fault: FaultKind
    var iterations: int
    var lastReady: real
    var lastCommand: real
    var pending: Command
    var sent: nat
    var stops: nat
    var activeScans: nat
    var notReady: nat
    var goods: nat
    var poors: nat
    var rejects: nat
    var faults: nat
    ghost var actions: seq<Action> // what the current step did to the ports
    ghost var trace: seq<Action> // everything done to the ports so far

    ghost function View(): Coord
      reads this, policy
    {
      Coord(state, fault, iterations, lastReady, lastCommand, pending, policy.count, sent, stops, activeScans,
            notReady, goods, poors, rejects, faults)
    }

    ghost predicate Valid()
      reads this
    {
      policy.maxCommands == opt.maxCommands
    }

    constructor (opt: Options)
      ensures Valid() && this.opt == opt && View() == INIT_COORD && trace == [] && fresh(policy)
    {
      this.opt := opt;
      policy := new AutonomousSlamPolicy(opt.maxCommands);
      state, fault, iterations, lastReady, lastCommand, pending := Idle, None, 0, 0.0, 0.0, NoCommand;
      sent, stops, activeScans, notReady, goods, poors, rejects, faults := 0, 0, 0, 0, 0, 0, 0, 0;
      actions, trace := [], [];
    }

    method Stop(inp: Input, out: Output) returns (o: Output)
      modifies this`stops, this`actions
      ensures Result(View(), o, actions) == SendStop(Result(old(View()), out, old(actions)), inp)
    {
      o := out;
      if inp.stopReady {
        o := o.(commandSent := inp.stopAccepted);
      }
      actions := actions + [StopAttempted];
      stops := stops + 1;
    }

    method Fail(inp: Input, out: Output, kind: FaultKind) returns (o: Output)
      modifies this
      ensures trace == old(trace)
      ensures Result(View(), o, actions) == EnterFault(Result(old(View()), out, old(actions)), inp, kind)
    {
      state, fault, faults := Fault, kind, faults + 1;
      o := out.(state := Fault, fault := kind);
      o := Stop(inp, o);
    }

    method DoWaitingForSensors(inp: Input, out: Output) returns (o: Output)
      modifies this
      ensures trace == old(trace)
      ensures Result(View(), o, actions) == HandleWaitingForSensors(opt, Result(old(View()), out, old(actions)), inp)
    {
      hide SendStop, EnterFault;
      o := out;
      if !inp.sensorReady {
        notReady := notReady + 1;
        return;
      }
      if inp.now - lastReady > opt.sensorTimeout && lastReady > 0.0 {
        o := Fail(inp, o, SensorTimeout);
        return;
      }
      lastReady, state := inp.now, Initializing;
    }

    method DoMapping(inp: Input, out: Output) returns (o: Output)
      modifies this
      ensures trace == old(trace)
      ensures Result(View(), o, actions) == HandleMapping(Result(old(View()), out, old(actions)), inp)
    {
      hide SendStop, EnterFault;
      o := out;
      if !inp.mapReady {
        o := Fail(inp, o, InvalidStateTransition);
        return;
      }
      actions := actions + [Integrated(inp.goodEnough)];
      if inp.goodEnough {
        goods := goods + 1;
        o := Stop(inp, o);
        state := Completed;
        return;
      }
      poors, state := poors + 1, NeedActiveScan;
    }

    method DoNeedActiveScan(inp: Input, out: Output) returns (o: Output)
      requires Valid()
      modifies this, policy
      ensures trace == old(trace)
      ensures Result(View(), o, actions) == HandleNeedActiveScan(opt, Result(old(View()), out, old(actions)), inp)
    {
      hide SendStop, EnterFault;
      o := out;
      var decision := policy.Decide(false);
      if decision != SendTurn {
        o := Stop(inp, o);
        if decision == StopCompleted {
          assert false; // the coordinator only asks when the map is not good enough
        } else {
          o := Fail(inp, o, MapQualityStuck);
        }
        return;
      }
      pending, activeScans, state := Turn, activeScans + 1, SendingMotionCommand;
    }

    method DoSendingMotionCommand(inp: Input, out: Output) returns (o: Output)
      modifies this
      ensures trace == old(trace)
      ensures Result(View(), o, actions) == HandleSendingMotionCommand(Result(old(View()), out, old(actions)), inp)
    {
      hide SendStop, EnterFault;
      o := out;
      if !inp.motionReady {
        o := Fail(inp, o, MotionTransportFailed);
        return;
      }
      actions := actions + [Sent(pending)];
      if inp.sendResult == TransportError || inp.sendResult == OtherError {
        o := Fail(inp, o, if inp.sendResult == TransportError then MotionTransportFailed else MotionRejected);
        rejects := rejects + 1;
        return;
      }
      if inp.sendResult == NotAccepted {
        o := Fail(inp, o, MotionRejected);
        rejects := rejects + 1;
        return;
      }
      sent := sent + 1;
      o := o.(commandSent := true);
      lastCommand, state := inp.now, WaitingMotionSettle;
    }

    method DoWaitingMotionSettle(inp: Input, out: Output) returns (o: Output)
      modifies this
      ensures trace == old(trace)
      ensures Result(View(), o, actions) == HandleWaitingMotionSettle(opt, Result(old(View()), out, old(actions)), inp)
    {
      hide SendStop, EnterFault;
      o := out;
      var f := inp.MotionFeedback();
      if f.fault {
        o := Fail(inp, o, SafetyGateBlocked);
        return;
      }
      if f.settled {
        state := IntegratingScan;
        return;
      }
      if inp.now - lastCommand > opt.settleTimeout {
        o := Fail(inp, o, SafetyGateBlocked);
      }
    }

    method Dispatch(inp: Input, out: Output) returns (o: Output)
      requires Valid()
      modifies this, policy
      ensures trace == old(trace)
      ensures Result(View(), o, actions) == Handle(opt, Result(old(View()), out, old(actions)), inp)
    {
      hide HandleWaitingForSensors, HandleMapping, HandleNeedActiveScan, HandleSendingMotionCommand,
        HandleWaitingMotionSettle, SendStop, EnterFault;
      o := out;
      match state {
        case Idle =>
          if inp.startRequested {
            state := WaitingForSensors;
          }
        case WaitingForSensors => o := DoWaitingForSensors(inp, o);
        case Initializing =>
          if !inp.Snapshot().ReadyToInitialize() {
            o := Fail(inp, o, InitializationFailed);
          } else {
            state := Mapping;
          }
        case Mapping => o := DoMapping(inp, o);
        case NeedActiveScan => o := DoNeedActiveScan(inp, o);
        case SendingMotionCommand => o := DoSendingMotionCommand(inp, o);
        case WaitingMotionSettle => o := DoWaitingMotionSettle(inp, o);
        case IntegratingScan => state := Mapping;
        case Completed =>
        case Fault => o := Stop(inp, o);
      }
    }

    method StepOnce(inp: Input) returns (o: Output)
      requires Valid()
      modifies this, policy
      ensures Result(View(), o, actions) == Step(opt, old(View()), inp) && trace == old(trace) + actions
    {
      hide Handle, SendStop, EnterFault, Closed;
      o := Output(state, fault, false, false);
      actions := [];
      if !opt.enabled {
        state := Idle;
        o := o.(state := Idle);
        return;
      }
      if inp.stopRequested {
        o := Stop(inp, o);
        trace := trace + actions;
        state, fault := Idle, None;
        o := o.(state := Idle, fault := None);
        return;
      }
      if iterations >= opt.maxIterations && state != Completed && state != Fault {
        o := Fail(inp, o, MapQualityStuck);
        trace := trace + actions;
        return;
      }
      o := Dispatch(inp, o);
      trace := trace + actions;
      o := Close(o);
    }

    method Close(out: Output) returns (o: Output)
      modifies this`iterations
      ensures Result(View(), o, actions) == Closed(Result(old(View()), out, actions))
    {
      if state != Idle && state != Completed && state != Fault {
        iterations := iterations + 1;
      }
      o := out.(state := state, fault := fault, completed := state == Completed);
    }
  }
}
