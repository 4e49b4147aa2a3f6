/** What makes the coordinator enter each state and report each fault, told from the state entered
    (include/robot_slamd/autonomy/autonomous_slam_coordinator.hpp). */
module CoordinatorTransitions {
  import opened Coordinator
  import opened CoordinatorTheorems

  /** The step is handled: switched on, not stopped, and with iterations left. */
  ghost predicate IsHandled(opt: Options, c: Coord, inp: Input) {
    opt.enabled && !inp.stopRequested && (c.iterations < opt.maxIterations || Terminal(c.state))
  }

  /** The sensors the step sees, its own before the port's: a range sensor, a motion sensor, and finite times. */
  ghost predicate HasSensors(inp: Input) {
    var own := inp.sensors.hasTof || inp.sensors.hasMultiTof || inp.sensors.hasImu || inp.sensors.hasWheel;
    var seen := if own then inp.sensors else inp.portSensors;
    seen.hasTof && (seen.hasImu || seen.hasWheel) && seen.timesFinite
  }

  /** The feedback the step sees, its own if it carries a time, else the port's. */
  ghost predicate SeesFault(inp: Input) {
    (inp.feedback.t > 0.0 && inp.feedback.fault) || (inp.feedback.t <= 0.0 && inp.portFeedback.fault)
  }

  ghost predicate SeesSettled(inp: Input) {
    (inp.feedback.t > 0.0 && inp.feedback.settled) || (inp.feedback.t <= 0.0 && inp.portFeedback.settled)
  }

  ghost predicate SensorsTimedOut(opt: Options, c: Coord, inp: Input) {
    c.lastReady > 0.0 && inp.now > c.lastReady + opt.sensorTimeout
  }

  ghost predicate SettleTimedOut(opt: Options, c: Coord, inp: Input) { inp.now > c.lastCommand + opt.settleTimeout }

  /** What raises a fault of this kind. */
  ghost predicate Raises(opt: Options, c: Coord, inp: Input, kind: FaultKind) {
    && opt.enabled && !inp.stopRequested && !Terminal(c.state)
    && match kind
       case None => false
       case SensorTimeout =>
         && c.iterations < opt.maxIterations && c.state == WaitingForSensors && inp.sensorReady
         && SensorsTimedOut(opt, c, inp)
       case InitializationFailed => c.iterations < opt.maxIterations && c.state == Initializing && !HasSensors(inp)
       case InvalidStateTransition => c.iterations < opt.maxIterations && c.state == Mapping && !inp.mapReady
       case MapQualityStuck =>
         c.iterations >= opt.maxIterations || (c.state == NeedActiveScan && c.policyCount >= opt.maxCommands)
       case MotionTransportFailed =>
         && c.iterations < opt.maxIterations && c.state == SendingMotionCommand
         && (!inp.motionReady || inp.sendResult == TransportError)
       case MotionRejected =>
         && c.iterations < opt.maxIterations && c.state == SendingMotionCommand && inp.motionReady
         && (inp.sendResult == NotAccepted || inp.sendResult == OtherError)
       case SafetyGateBlocked =>
         && c.iterations < opt.maxIterations && c.state == WaitingMotionSettle
         && (SeesFault(inp) || (!SeesSettled(inp) && SettleTimedOut(opt, c, inp)))
  }

  /** What takes the coordinator to this state, or leaves it there. */
  ghost predicate Takes(opt: Options, c: Coord, inp: Input, to: State) {
    match to
    case Idle => !opt.enabled || inp.stopRequested || (IsHandled(opt, c, inp) && c.state == Idle && !inp.startRequested)
    case Fault => (IsHandled(opt, c, inp) && c.state == Fault) || exists kind :: Raises(opt, c, inp, kind)
    case Completed =>
      IsHandled(opt, c, inp) && (c.state == Completed || (c.state == Mapping && inp.mapReady && inp.goodEnough))
    case WaitingForSensors =>
      && IsHandled(opt, c, inp)
      && ((c.state == Idle && inp.startRequested) || (c.state == WaitingForSensors && !inp.sensorReady))
    case Initializing =>
      IsHandled(opt, c, inp) && c.state == WaitingForSensors && inp.sensorReady && !SensorsTimedOut(opt, c, inp)
    case Mapping =>
      IsHandled(opt, c, inp) && (c.state == IntegratingScan || (c.state == Initializing && HasSensors(inp)))
    case NeedActiveScan => IsHandled(opt, c, inp) && c.state == Mapping && inp.mapReady && !inp.goodEnough
    case SendingMotionCommand => IsHandled(opt, c, inp) && c.state == NeedActiveScan && c.policyCount < opt.maxCommands
    case WaitingMotionSettle =>
      && IsHandled(opt, c, inp)
      && ((c.state == SendingMotionCommand && inp.motionReady && inp.sendResult == Accepted)
          || (c.state == WaitingMotionSettle && !SeesFault(inp) && !SeesSettled(inp) && !SettleTimedOut(opt, c, inp)))
    case IntegratingScan =>
      IsHandled(opt, c, inp) && c.state == WaitingMotionSettle && SeesSettled(inp) && !SeesFault(inp)
  }

  // ----- each state is taken for its ground -----

  /** The step's new state and fault have their ground. */
  ghost predicate IsGrounded(opt: Options, c: Coord, inp: Input, d: Coord) {
    && Takes(opt, c, inp, d.state)
    && (d.state == Fault && c.state != Fault ==> Raises(opt, c, inp, d.fault))
    && (d.state == Fault && c.state == Fault ==> d.fault == c.fault)
  }

  lemma {:induction false} FaultIsGrounded(opt: Options, c: Coord, inp: Input, d: Coord)
    requires d.state == Fault && c.state != Fault && Raises(opt, c, inp, d.fault)
    ensures IsGrounded(opt, c, inp, d)
  {
    hide Raises;
    assert exists kind :: Raises(opt, c, inp, kind);
  }

  lemma {:induction false} SensorMeans(inp: Input)
    ensures inp.Snapshot().ReadyToInitialize() <==> HasSensors(inp)
    ensures inp.MotionFeedback().fault <==> SeesFault(inp)
    ensures inp.MotionFeedback().settled <==> SeesSettled(inp)
  {}

  lemma {:induction false} WaitingGrounded(opt: Options, r: Result, inp: Input)
    requires IsHandled(opt, r.c, inp) && r.c.state == WaitingForSensors
    ensures IsGrounded(opt, r.c, inp, HandleWaitingForSensors(opt, r, inp).c)
  {
    var d := HandleWaitingForSensors(opt, r, inp).c;
    if d.state == Fault { FaultIsGrounded(opt, r.c, inp, d); }
  }

  lemma {:induction false} InitializingGrounded(opt: Options, r: Result, inp: Input)
    requires IsHandled(opt, r.c, inp) && r.c.state == Initializing
    ensures IsGrounded(opt, r.c, inp, HandleInitializing(r, inp).c)
  {
    SensorMeans(inp);
    hide HasSensors;
    var d := HandleInitializing(r, inp).c;
    if d.state == Fault { FaultIsGrounded(opt, r.c, inp, d); }
  }

  lemma {:induction false} MappingGrounded(opt: Options, r: Result, inp: Input)
    requires IsHandled(opt, r.c, inp) && r.c.state == Mapping
    ensures IsGrounded(opt, r.c, inp, HandleMapping(r, inp).c)
  {
    var d := HandleMapping(r, inp).c;
    if d.state == Fault { FaultIsGrounded(opt, r.c, inp, d); }
  }

  lemma {:induction false} ScanGrounded(opt: Options, r: Result, inp: Input)
    requires IsHandled(opt, r.c, inp) && r.c.state == NeedActiveScan
    ensures IsGrounded(opt, r.c, inp, HandleNeedActiveScan(opt, r, inp).c)
  {
    var d := HandleNeedActiveScan(opt, r, inp).c;
    if d.state == Fault { FaultIsGrounded(opt, r.c, inp, d); }
  }

  lemma {:induction false} SendingGrounded(opt: Options, r: Result, inp: Input)
    requires IsHandled(opt, r.c, inp) && r.c.state == SendingMotionCommand
    ensures IsGrounded(opt, r.c, inp, HandleSendingMotionCommand(r, inp).c)
  {
    var d := HandleSendingMotionCommand(r, inp).c;
    if d.state == Fault { FaultIsGrounded(opt, r.c, inp, d); }
  }

  lemma {:induction false} SettleGrounded(opt: Options, r: Result, inp: Input)
    requires IsHandled(opt, r.c, inp) && r.c.state == WaitingMotionSettle
    ensures IsGrounded(opt, r.c, inp, HandleWaitingMotionSettle(opt, r, inp).c)
  {
    SensorMeans(inp);
    hide SeesFault, SeesSettled;
    var d := HandleWaitingMotionSettle(opt, r, inp).c;
    if d.state == Fault { FaultIsGrounded(opt, r.c, inp, d); }
  }

  lemma {:induction false} HandleGrounded(opt: Options, r: Result, inp: Input)
    requires IsHandled(opt, r.c, inp)
    ensures IsGrounded(opt, r.c, inp, Handle(opt, r, inp).c)
  {
    match r.c.state {
      case WaitingForSensors => WaitingGrounded(opt, r, inp);
      case Initializing => InitializingGrounded(opt, r, inp);
      case Mapping => MappingGrounded(opt, r, inp);
      case NeedActiveScan => ScanGrounded(opt, r, inp);
      case SendingMotionCommand => SendingGrounded(opt, r, inp);
      case WaitingMotionSettle => SettleGrounded(opt, r, inp);
      case _ =>
        hide Raises;
    }
    hide HandleWaitingForSensors, HandleInitializing, HandleMapping, HandleNeedActiveScan, HandleSendingMotionCommand,
      HandleWaitingMotionSettle;
  }

  lemma {:induction false} StepGrounded(opt: Options, c: Coord, inp: Input)
    requires opt.Valid() && Inv(opt, c)
    ensures IsGrounded(opt, c, inp, Step(opt, c, inp).c)
  {
    var r := Result(c, Output(c.state, c.fault, false, false), []);
    if IsHandled(opt, c, inp) {
      HandleGrounded(opt, r, inp);
      hide Handle;
    } else if opt.enabled && !inp.stopRequested {
      FaultIsGrounded(opt, c, inp, Step(opt, c, inp).c);
    }
  }

  /** A step is taken to one state only, for one kind of fault. */
  lemma {:induction false} GroundsExclude(opt: Options, c: Coord, inp: Input, to: State, other: State)
    requires Takes(opt, c, inp, to) && Takes(opt, c, inp, other)
    ensures to == other
  {
    hide HasSensors, SeesFault, SeesSettled, SensorsTimedOut, SettleTimedOut;
  }

  lemma {:induction false} KindsExclude(opt: Options, c: Coord, inp: Input, kind: FaultKind, other: FaultKind)
    requires opt.Valid() && Inv(opt, c) && Raises(opt, c, inp, kind) && Raises(opt, c, inp, other)
    ensures kind == other
  {
    hide HasSensors, SeesFault, SeesSettled, SensorsTimedOut, SettleTimedOut;
  }

  /** From every state that a run can reach, a step leads to a state exactly when the ground for it is given. */
  lemma {:induction false} StateIff(opt: Options, c: Coord, inp: Input, to: State)
    requires opt.Valid() && Inv(opt, c)
    ensures Step(opt, c, inp).c.state == to <==> Takes(opt, c, inp, to)
  {
    hide Step, Takes, Raises, Inv;
    StepGrounded(opt, c, inp);
    if Takes(opt, c, inp, to) {
      GroundsExclude(opt, c, inp, to, Step(opt, c, inp).c.state);
    }
  }

  /** And a fault of a kind is raised exactly when the ground for it is given. */
  lemma {:induction false} FaultIff(opt: Options, c: Coord, inp: Input, kind: FaultKind)
    requires opt.Valid() && Inv(opt, c)
    ensures var d := Step(opt, c, inp).c;
            c.state != Fault && d.state == Fault && d.fault == kind <==> Raises(opt, c, inp, kind)
  {
    hide Step, Takes, Inv;
    StepGrounded(opt, c, inp);
    if Raises(opt, c, inp, kind) {
      FaultIsGrounded(opt, c, inp, c.(state := Fault, fault := kind));
      StateIff(opt, c, inp, Fault);
      KindsExclude(opt, c, inp, kind, Step(opt, c, inp).c.fault);
    }
  }

  // ----- what a step does to the ports, and what it counts -----

  ghost predicate SendsTurn(opt: Options, c: Coord, inp: Input) {
    IsHandled(opt, c, inp) && c.state == SendingMotionCommand && inp.motionReady
  }

  ghost predicate Integrates(opt: Options, c: Coord, inp: Input) {
    IsHandled(opt, c, inp) && c.state == Mapping && inp.mapReady
  }

  /** Stops attempted: on request, on entering Completed, and in or on entering Fault, twice when the policy gave up. */
  ghost function StopsTried(opt: Options, c: Coord, inp: Input): nat {
    if !opt.enabled then 0
    else if inp.stopRequested then 1
    else if Raises(opt, c, inp, MapQualityStuck) && c.iterations < opt.maxIterations then 2
    else if Takes(opt, c, inp, Fault) || (Takes(opt, c, inp, Completed) && c.state != Completed) then 1
    else 0
  }

  ghost predicate AcceptsTurn(opt: Options, c: Coord, inp: Input) {
    SendsTurn(opt, c, inp) && inp.sendResult == Accepted
  }

  ghost function One(b: bool): nat { if b then 1 else 0 }

  /** The actions of the step: a turn sent, or the map integrated, and then the stops. */
  ghost function ActionsOf(opt: Options, c: Coord, inp: Input): seq<Action> {
    (if SendsTurn(opt, c, inp) then [Sent(Turn)]
     else if Integrates(opt, c, inp) then [Integrated(inp.goodEnough)] else [])
    + (if StopsTried(opt, c, inp) == 0 then []
       else if StopsTried(opt, c, inp) == 1 then [StopAttempted] else [StopAttempted, StopAttempted])
  }

  /** What the step counts and remembers. */
  ghost predicate Counts(opt: Options, c: Coord, inp: Input, d: Coord) {
    && d.stops == c.stops + StopsTried(opt, c, inp)
    && d.sent == c.sent + One(AcceptsTurn(opt, c, inp))
    && d.rejects == c.rejects + One(SendsTurn(opt, c, inp) && inp.sendResult != Accepted)
    && d.goods == c.goods + One(Integrates(opt, c, inp) && inp.goodEnough)
    && d.poors == c.poors + One(Integrates(opt, c, inp) && !inp.goodEnough)
    && d.notReady == c.notReady + One(IsHandled(opt, c, inp) && c.state == WaitingForSensors && !inp.sensorReady)
    && d.activeScans == c.activeScans + One(Takes(opt, c, inp, SendingMotionCommand))
    && d.faults == c.faults + One(d.state == Fault && c.state != Fault)
    && d.lastReady == (if Takes(opt, c, inp, Initializing) then inp.now else c.lastReady)
    && d.lastCommand == (if AcceptsTurn(opt, c, inp) then inp.now else c.lastCommand)
  }

  /** A command or a stop was accepted. */
  ghost predicate Transmits(opt: Options, c: Coord, inp: Input) {
    AcceptsTurn(opt, c, inp) || (StopsTried(opt, c, inp) > 0 && inp.stopReady && inp.stopAccepted)
  }

  /** The step has done this much when its state is handled. */
  ghost predicate Does(opt: Options, c: Coord, inp: Input, n: Result) {
    && n.actions == ActionsOf(opt, c, inp) && Counts(opt, c, inp, n.c) && n.c.iterations == c.iterations
    && (n.out.commandSent <==> Transmits(opt, c, inp))
  }

  /** The new state tells which grounds were given. */
  ghost predicate Tells(opt: Options, c: Coord, inp: Input, d: Coord) {
    && (d.state == Fault <==> Takes(opt, c, inp, Fault)) && (d.state == Completed <==> Takes(opt, c, inp, Completed))
    && (d.state == SendingMotionCommand <==> Takes(opt, c, inp, SendingMotionCommand))
    && (d.state == Initializing <==> Takes(opt, c, inp, Initializing))
    && (c.state != Fault && d.state == Fault && d.fault == MapQualityStuck <==> Raises(opt, c, inp, MapQualityStuck))
  }

  lemma {:induction false} StepTells(opt: Options, c: Coord, inp: Input)
    requires opt.Valid() && Inv(opt, c)
    ensures Tells(opt, c, inp, Step(opt, c, inp).c)
  {
    hide Step, Takes, Raises, Inv;
    StateIff(opt, c, inp, Fault);
    StateIff(opt, c, inp, Completed);
    StateIff(opt, c, inp, SendingMotionCommand);
    StateIff(opt, c, inp, Initializing);
    FaultIff(opt, c, inp, MapQualityStuck);
  }

  ghost predicate IsFresh(r: Result) { r.actions == [] && !r.out.commandSent }

  lemma {:induction false} WaitingDoes(opt: Options, r: Result, inp: Input)
    requires IsHandled(opt, r.c, inp) && IsFresh(r) && r.c.state == WaitingForSensors
    requires Tells(opt, r.c, inp, HandleWaitingForSensors(opt, r, inp).c)
    ensures Does(opt, r.c, inp, HandleWaitingForSensors(opt, r, inp))
  {
    hide Takes, Raises;
  }

  lemma {:induction false} InitializingDoes(opt: Options, r: Result, inp: Input)
    requires IsHandled(opt, r.c, inp) && IsFresh(r) && r.c.state == Initializing
    requires Tells(opt, r.c, inp, HandleInitializing(r, inp).c)
    ensures Does(opt, r.c, inp, HandleInitializing(r, inp))
  {
    hide Takes, Raises;
  }

  lemma {:induction false} MappingDoes(opt: Options, r: Result, inp: Input)
    requires IsHandled(opt, r.c, inp) && IsFresh(r) && r.c.state == Mapping
    requires Tells(opt, r.c, inp, HandleMapping(r, inp).c)
    ensures Does(opt, r.c, inp, HandleMapping(r, inp))
  {
    hide Takes, Raises;
  }

  lemma {:induction false} ScanDoes(opt: Options, r: Result, inp: Input)
    requires IsHandled(opt, r.c, inp) && IsFresh(r) && r.c.state == NeedActiveScan
    requires Tells(opt, r.c, inp, HandleNeedActiveScan(opt, r, inp).c)
    ensures Does(opt, r.c, inp, HandleNeedActiveScan(opt, r, inp))
  {
    hide Takes, Raises;
  }

  lemma {:induction false} SendingDoes(opt: Options, r: Result, inp: Input)
    requires IsHandled(opt, r.c, inp) && IsFresh(r) && r.c.state == SendingMotionCommand && r.c.pending == Turn
    requires Tells(opt, r.c, inp, HandleSendingMotionCommand(r, inp).c)
    ensures Does(opt, r.c, inp, HandleSendingMotionCommand(r, inp))
  {
    hide Takes, Raises;
  }

  lemma {:induction false} SettleDoes(opt: Options, r: Result, inp: Input)
    requires IsHandled(opt, r.c, inp) && IsFresh(r) && r.c.state == WaitingMotionSettle
    requires Tells(opt, r.c, inp, HandleWaitingMotionSettle(opt, r, inp).c)
    ensures Does(opt, r.c, inp, HandleWaitingMotionSettle(opt, r, inp))
  {
    hide Takes, Raises;
  }

  lemma {:induction false} HandleDoes(opt: Options, r: Result, inp: Input)
    requires IsHandled(opt, r.c, inp) && IsFresh(r) && (r.c.state == SendingMotionCommand ==> r.c.pending == Turn)
    requires Tells(opt, r.c, inp, Handle(opt, r, inp).c)
    ensures Does(opt, r.c, inp, Handle(opt, r, inp))
  {
    hide Takes, Raises, Tells;
    match r.c.state {
      case WaitingForSensors => WaitingDoes(opt, r, inp);
      case Initializing => InitializingDoes(opt, r, inp);
      case Mapping => MappingDoes(opt, r, inp);
      case NeedActiveScan => ScanDoes(opt, r, inp);
      case SendingMotionCommand => SendingDoes(opt, r, inp);
      case WaitingMotionSettle => SettleDoes(opt, r, inp);
      case _ => RestDoes(opt, r, inp);
    }
    hide HandleWaitingForSensors, HandleInitializing, HandleMapping, HandleNeedActiveScan, HandleSendingMotionCommand,
      HandleWaitingMotionSettle, Does;
  }

  lemma {:induction false} RestDoes(opt: Options, r: Result, inp: Input)
    requires IsHandled(opt, r.c, inp) && IsFresh(r) && Tells(opt, r.c, inp, Handle(opt, r, inp).c)
    requires r.c.state == Idle || r.c.state == IntegratingScan || Terminal(r.c.state)
    ensures Does(opt, r.c, inp, Handle(opt, r, inp))
  {
    hide Takes, Raises, HandleWaitingForSensors, HandleInitializing, HandleMapping, HandleNeedActiveScan,
      HandleSendingMotionCommand, HandleWaitingMotionSettle;
  }

  /** From every state that a run can reach: what a step does to the ports, counts, remembers and reports. */
  lemma {:induction false} StepMeans(opt: Options, c: Coord, inp: Input)
    requires opt.Valid() && Inv(opt, c)
    ensures var r := Step(opt, c, inp);
            && r.actions == ActionsOf(opt, c, inp) && Counts(opt, c, inp, r.c)
            && r.c.iterations == c.iterations + One(IsHandled(opt, c, inp) && Working(r.c.state))
            && r.out.state == r.c.state && r.out.fault == r.c.fault && (r.out.completed <==> r.c.state == Completed)
            && (r.out.commandSent <==> Transmits(opt, c, inp))
  {
    StepTells(opt, c, inp);
    var r := Result(c, Output(c.state, c.fault, false, false), []);
    if IsHandled(opt, c, inp) {
      TellsClosed(opt, c, inp, Handle(opt, r, inp));
      HandleDoes(opt, r, inp);
      hide Handle, Takes, Raises, ActionsOf, Transmits;
    } else {
      hide Takes, Raises, Handle;
    }
  }

  lemma {:induction false} TellsClosed(opt: Options, c: Coord, inp: Input, n: Result)
    requires Tells(opt, c, inp, Closed(n).c)
    ensures Tells(opt, c, inp, n.c)
  {
    hide Takes, Raises;
  }

  // ----- after a fault -----

  /** Between i and n there was a stop request, and after it a start from Idle. */
  ghost predicate IsRestarted(opt: Options, inps: seq<Input>, i: nat, n: nat)
    requires n <= |inps|
  {
    exists k: nat, l: nat :: i < k < l < n && inps[k].stopRequested && StartsAt(opt, inps, l)
  }

  ghost predicate StartsAt(opt: Options, inps: seq<Input>, l: nat)
    requires l < |inps|
  {
    inps[l].startRequested && Run(opt, inps[..l]).state == Idle
  }

  ghost predicate IsStopped(inps: seq<Input>, i: nat, n: nat)
    requires n <= |inps|
  {
    exists k: nat :: i < k < n && inps[k].stopRequested
  }

  lemma {:induction false} RunNext(opt: Options, inps: seq<Input>, n: nat)
    requires n < |inps|
    ensures Run(opt, inps[..n + 1]) == Step(opt, Run(opt, inps[..n]), inps[n]).c
  {
    hide Step;
    assert inps[..n + 1][..n] == inps[..n];
  }

  /** Where a step from Fault or Idle can lead. */
  lemma {:induction false} HeldStep(opt: Options, c: Coord, inp: Input)
    requires opt.enabled && (c.state == Fault || c.state == Idle)
    ensures var d := Step(opt, c, inp).c;
            || d.state == Fault || (d.state == Idle && (inp.stopRequested || c.state == Idle))
            || (c.state == Idle && inp.startRequested)
  {}

  lemma {:induction false} FaultHolds(opt: Options, inps: seq<Input>, i: nat, n: nat)
    requires opt.enabled && i < n <= |inps| && Run(opt, inps[..i + 1]).state == Fault
    ensures || IsRestarted(opt, inps, i, n) || Run(opt, inps[..n]).state == Fault
            || (Run(opt, inps[..n]).state == Idle && IsStopped(inps, i, n))
    decreases n
  {
    hide Run, Step;
    if i + 1 < n {
      FaultHolds(opt, inps, i, n - 1);
      RunNext(opt, inps, n - 1);
      var c := Run(opt, inps[..n - 1]);
      if c.state == Fault || c.state == Idle {
        HeldStep(opt, c, inps[n - 1]);
        if c.state == Idle && IsStopped(inps, i, n - 1) && inps[n - 1].startRequested {
          assert StartsAt(opt, inps, n - 1);
        }
      }
    }
  }

  /** A faulty motion feedback stops the robot in the same step, and no command is sent again before a stop request
      and, after it, a start from Idle. */
  lemma {:induction false} FaultyFeedbackStops(opt: Options, inps: seq<Input>, i: nat, j: nat)
    requires opt.Valid() && i < j < |inps| && Run(opt, inps[..i]).state == WaitingMotionSettle
    requires IsHandled(opt, Run(opt, inps[..i]), inps[i]) && SeesFault(inps[i])
    ensures StopAttempted in Step(opt, Run(opt, inps[..i]), inps[i]).actions
    ensures SendsTurn(opt, Run(opt, inps[..j]), inps[j]) ==> IsRestarted(opt, inps, i, j)
  {
    var c := Run(opt, inps[..i]);
    RunHasInv(opt, inps[..i]);
    StepMeans(opt, c, inps[i]);
    assert Raises(opt, c, inps[i], SafetyGateBlocked);
    FaultIff(opt, c, inps[i], SafetyGateBlocked);
    StateIff(opt, c, inps[i], Fault);
    hide Run, Step, Inv, Raises, Takes, Counts, Transmits, IsRestarted;
    RunNext(opt, inps, i);
    FaultHolds(opt, inps, i, j);
  }
}
