/** What holds over every run of the coordinator, whatever the ports answer and however often it is
    stopped and started again. */
module CoordinatorTheorems {
  import opened Coordinator

  function Run(opt: Options, inps: seq<Input>): Coord {
    if inps == [] then INIT_COORD else Step(opt, Run(opt, inps[..|inps| - 1]), inps[|inps| - 1]).c
  }

  /** Everything the run did to the ports. */
  function Trace(opt: Options, inps: seq<Input>): seq<Action> {
    if inps == [] then []
    else
      var before := inps[..|inps| - 1];
      Trace(opt, before) + Step(opt, Run(opt, before), inps[|inps| - 1]).actions
  }

  // ----- counting -----

  /** How far a state is into the five-step cycle, counted from the acceptance of a turn. */
  function Phase(s: State): nat {
    match s
    case WaitingForSensors => 1
    case Initializing => 2
    case Mapping => 3
    case NeedActiveScan => 4
    case SendingMotionCommand => 5
    case WaitingMotionSettle => 1
    case IntegratingScan => 2
    case _ => 0
  }

  /** The same cycle, counted from the policy's decision to turn. */
  function PolicyPhase(s: State): nat { if s == SendingMotionCommand then 0 else Phase(s) }

  ghost predicate Inv(opt: Options, c: Coord) {
    && c.iterations >= 5 * c.sent + Phase(c.state)
    && c.iterations >= 5 * c.policyCount + PolicyPhase(c.state)
    && (c.sent > 0 ==> c.iterations >= 5 * c.sent + 1)
    && 0 <= c.iterations <= opt.maxIterations
    && 0 <= c.policyCount <= opt.maxCommands && c.policyCount == c.activeScans
    && c.sent + (if c.state == SendingMotionCommand then 1 else 0) <= c.policyCount
    && (c.state == Fault <==> c.fault != None) && (!opt.enabled ==> c.state == Idle)
    && (c.state == SendingMotionCommand ==> c.pending == Turn)
  }

  lemma {:induction false} StepKeepsInv(opt: Options, c: Coord, inp: Input)
    requires opt.Valid() && Inv(opt, c)
    ensures Inv(opt, Step(opt, c, inp).c)
  {
    var r := Result(c, Output(c.state, c.fault, false, false), []);
    if opt.enabled && !inp.stopRequested && !(c.iterations >= opt.maxIterations && !Terminal(c.state)) {
      HandleAdvances(opt, r, inp);
      hide Handle;
    }
  }

  /** The invariant once the iteration of a handled step is counted. */
  ghost predicate Advanced(opt: Options, n: Coord) {
    Inv(opt, if Working(n.state) then n.(iterations := n.iterations + 1) else n)
  }

  lemma {:induction false} HandleAdvances(opt: Options, r: Result, inp: Input)
    requires opt.Valid() && Inv(opt, r.c) && opt.enabled && (r.c.iterations < opt.maxIterations || Terminal(r.c.state))
    ensures Advanced(opt, Handle(opt, r, inp).c)
  {
    if r.c.state == Mapping {
      MappingAdvances(opt, r, inp);
    } else if r.c.state == NeedActiveScan {
      ScanAdvances(opt, r, inp);
    } else if r.c.state == SendingMotionCommand {
      SendingAdvances(opt, r, inp);
    }
    hide HandleMapping, HandleNeedActiveScan, HandleSendingMotionCommand;
  }

  lemma {:induction false} MappingAdvances(opt: Options, r: Result, inp: Input)
    requires opt.Valid() && Inv(opt, r.c) && opt.enabled && r.c.iterations < opt.maxIterations && r.c.state == Mapping
    ensures Advanced(opt, HandleMapping(r, inp).c)
  {}

  lemma {:induction false} ScanAdvances(opt: Options, r: Result, inp: Input)
    requires opt.Valid() && Inv(opt, r.c) && opt.enabled && r.c.iterations < opt.maxIterations
    requires r.c.state == NeedActiveScan
    ensures Advanced(opt, HandleNeedActiveScan(opt, r, inp).c)
  {}

  lemma {:induction false} SendingAdvances(opt: Options, r: Result, inp: Input)
    requires opt.Valid() && Inv(opt, r.c) && opt.enabled && r.c.iterations < opt.maxIterations
    requires r.c.state == SendingMotionCommand
    ensures Advanced(opt, HandleSendingMotionCommand(r, inp).c)
  {}

  /** Every run: five iterations pay for each accepted turn, the iteration count never exceeds its
      limit, and the fault field is set exactly in the fault state. */
  lemma {:induction false} RunHasInv(opt: Options, inps: seq<Input>)
    requires opt.Valid()
    ensures Inv(opt, Run(opt, inps))
  {
    if inps != [] {
      RunHasInv(opt, inps[..|inps| - 1]);
      StepKeepsInv(opt, Run(opt, inps[..|inps| - 1]), inps[|inps| - 1]);
    }
  }

  /** The number of accepted turns over any run is at most (max_iterations - 1) / 5. */
  lemma {:induction false} TurnsAreBounded(opt: Options, inps: seq<Input>)
    requires opt.Valid()
    ensures Run(opt, inps).sent <= (opt.maxIterations - 1) / 5
    ensures Run(opt, inps).sent <= opt.maxCommands
  {
    RunHasInv(opt, inps);
  }

  // ----- when the policy limit can act -----

  /** The next step would stop because the policy has used up its turns. */
  predicate StopsForLimit(opt: Options, c: Coord, inp: Input) {
    && opt.enabled && !inp.stopRequested && c.iterations < opt.maxIterations
    && c.state == NeedActiveScan && LimitHit(opt, c)
  }

  /** An input on which every cycle goes round: sensors fine, map poor, turns accepted and settled. */
  const DRIVE := Input(0.0, true, false, Sensors(true, false, true, false, true),
                       Sensors(true, false, true, false, true),
                       true, true, false, true, Accepted, true, true, Feedback(0.0, true, false),
                       Feedback(0.0, true, false))

  function Repeat(n: nat): seq<Input> { if n == 0 then [] else Repeat(n - 1) + [DRIVE] }

  lemma {:induction false} DriveStep(opt: Options, n: nat)
    ensures Run(opt, Repeat(n + 1)) == Step(opt, Run(opt, Repeat(n)), DRIVE).c
  {
    assert Repeat(n + 1)[..|Repeat(n + 1)| - 1] == Repeat(n);
  }

  /** Driven that way, the run comes round to the scan decision for the k-th time after 5k + 4 steps. */
  lemma {:induction false} DriveReaches(opt: Options, k: nat)
    requires opt.Valid() && opt.enabled && k <= opt.maxCommands && 5 * k + 4 <= opt.maxIterations
    ensures var c := Run(opt, Repeat(5 * k + 4));
            c.state == NeedActiveScan && c.iterations == 5 * k + 4 && c.policyCount == k && c.lastReady == 0.0
  {
    hide Step;
    if k == 0 {
      DriveStart(opt);
    } else {
      DriveReaches(opt, k - 1);
      DriveCycle(opt, 5 * k - 1);
    }
  }

  lemma {:induction false} DriveStart(opt: Options)
    requires opt.Valid() && opt.enabled && 4 <= opt.maxIterations
    ensures var c := Run(opt, Repeat(4));
            c.state == NeedActiveScan && c.iterations == 4 && c.policyCount == 0 && c.lastReady == 0.0
  {
    var c := INIT_COORD;
    assert Run(opt, Repeat(0)) == c;
    DriveStep(opt, 0);
    DriveStep(opt, 1);
    DriveStep(opt, 2);
    DriveStep(opt, 3);
    var c1 := Step(opt, c, DRIVE).c;
    assert c1.state == WaitingForSensors && c1.iterations == 1 && c1.policyCount == 0 && c1.lastReady == 0.0;
    var c2 := Step(opt, c1, DRIVE).c;
    assert c2.state == Initializing && c2.iterations == 2 && c2.policyCount == 0 && c2.lastReady == 0.0;
    var c3 := Step(opt, c2, DRIVE).c;
    assert c3.state == Mapping && c3.iterations == 3 && c3.policyCount == 0 && c3.lastReady == 0.0;
  }

  lemma {:induction false} DriveCycle(opt: Options, n: nat)
    requires opt.Valid() && opt.enabled
    requires var c := Run(opt, Repeat(n));
             && c.state == NeedActiveScan && c.iterations == n && n + 5 <= opt.maxIterations
             && c.policyCount < opt.maxCommands
    ensures var c, d := Run(opt, Repeat(n)), Run(opt, Repeat(n + 5));
            && d.state == NeedActiveScan && d.iterations == n + 5 && d.policyCount == c.policyCount + 1
            && d.lastReady == c.lastReady
  {
    hide Run, Repeat;
    DriveStep(opt, n);
    DriveStep(opt, n + 1);
    DriveStep(opt, n + 2);
    DriveStep(opt, n + 3);
    DriveStep(opt, n + 4);
    OneCycle(opt, Run(opt, Repeat(n)));
  }

  lemma {:induction false} OneCycle(opt: Options, c: Coord)
    requires opt.enabled && c.state == NeedActiveScan && c.iterations + 5 <= opt.maxIterations
    requires c.policyCount < opt.maxCommands
    ensures var c1 := Step(opt, c, DRIVE).c;
            var c2 := Step(opt, c1, DRIVE).c;
            var c3 := Step(opt, c2, DRIVE).c;
            var c4 := Step(opt, c3, DRIVE).c;
            var d := Step(opt, c4, DRIVE).c;
            d.state == NeedActiveScan && d.iterations == c.iterations + 5 && d.policyCount == c.policyCount + 1
            && d.lastReady == c.lastReady
  {
    var c1 := Step(opt, c, DRIVE).c;
    assert c1.state == SendingMotionCommand && c1.iterations == c.iterations + 1 &&
      c1.policyCount == c.policyCount + 1 && c1.lastReady == c.lastReady;
    var c2 := Step(opt, c1, DRIVE).c;
    assert c2.state == WaitingMotionSettle && c2.iterations == c.iterations + 2 &&
      c2.policyCount == c.policyCount + 1 && c2.lastReady == c.lastReady;
    var c3 := Step(opt, c2, DRIVE).c;
    assert c3.state == IntegratingScan && c3.iterations == c.iterations + 3 && c3.policyCount == c.policyCount + 1 &&
      c3.lastReady == c.lastReady;
    var c4 := Step(opt, c3, DRIVE).c;
    assert c4.state == Mapping && c4.iterations == c.iterations + 4 && c4.policyCount == c.policyCount + 1 &&
      c4.lastReady == c.lastReady;
  }

  /** The policy limit can ever act only if there are more than 5 * max_commands + 4 iterations, and then
      it can. With the defaults, 100 iterations and 24 commands, it never does. */
  lemma {:induction false} LimitReachableIff(opt: Options)
    requires opt.Valid() && opt.enabled
    ensures (exists inps, inp :: StopsForLimit(opt, Run(opt, inps), inp)) <==>
            opt.maxIterations > 5 * opt.maxCommands + 4
  {
    hide Run, Repeat, Step;
    forall inps, inp | StopsForLimit(opt, Run(opt, inps), inp)
      ensures opt.maxIterations > 5 * opt.maxCommands + 4
    {
      RunHasInv(opt, inps);
    }
    if opt.maxIterations > 5 * opt.maxCommands + 4 {
      DriveReaches(opt, opt.maxCommands);
      assert StopsForLimit(opt, Run(opt, Repeat(5 * opt.maxCommands + 4)), DRIVE);
    }
  }

  // ----- termination -----

  function RunFrom(opt: Options, c: Coord, inps: seq<Input>): Coord
    decreases |inps|
  {
    if inps == [] then c else RunFrom(opt, Step(opt, c, inps[0]).c, inps[1..])
  }

  ghost predicate NoStop(inps: seq<Input>) { forall i :: 0 <= i < |inps| ==> !inps[i].stopRequested }

  lemma {:induction false} TerminalStays(opt: Options, c: Coord, inps: seq<Input>)
    requires opt.enabled && NoStop(inps) && Terminal(c.state)
    ensures RunFrom(opt, c, inps).state == c.state && RunFrom(opt, c, inps).fault == c.fault
    decreases |inps|
  {
    if inps != [] {
      TerminalStays(opt, Step(opt, c, inps[0]).c, inps[1..]);
    }
  }

  /** A working coordinator that is not stopped is Completed or in Fault after at most one step more
      than it has iterations left, whatever the ports answer, and it stays there. */
  lemma {:induction false} WorkEnds(opt: Options, c: Coord, inps: seq<Input>)
    requires opt.enabled && NoStop(inps) && c.state != Idle && c.iterations <= opt.maxIterations
    requires |inps| > opt.maxIterations - c.iterations
    ensures Terminal(RunFrom(opt, c, inps).state)
    decreases |inps|
  {
    if Terminal(c.state) {
      TerminalStays(opt, c, inps);
    } else {
      var d := Step(opt, c, inps[0]).c;
      WorkStep(opt, c, inps[0]);
      hide Step;
      if Terminal(d.state) {
        TerminalStays(opt, d, inps[1..]);
      } else {
        WorkEnds(opt, d, inps[1..]);
      }
    }
  }

  lemma {:induction false} WorkStep(opt: Options, c: Coord, inp: Input)
    requires opt.enabled && !inp.stopRequested && Working(c.state) && c.iterations <= opt.maxIterations
    ensures var d := Step(opt, c, inp).c;
            d.state != Idle && (Terminal(d.state) || d.iterations == c.iterations + 1 <= opt.maxIterations)
  {}

  /** From a start request on, max_iterations + 1 steps are enough. */
  lemma {:induction false} StartedRunEnds(opt: Options, before: seq<Input>, inps: seq<Input>)
    requires opt.Valid() && opt.enabled && NoStop(inps) && |inps| > opt.maxIterations && inps[0].startRequested
    ensures Terminal(RunFrom(opt, Run(opt, before), inps).state)
  {
    var c := Run(opt, before);
    RunHasInv(opt, before);
    hide Run;
    if c.state == Idle {
      StartStep(opt, c, inps[0]);
      hide Step;
      if Terminal(Step(opt, c, inps[0]).c.state) {
        TerminalStays(opt, Step(opt, c, inps[0]).c, inps[1..]);
      } else {
        WorkEnds(opt, Step(opt, c, inps[0]).c, inps[1..]);
      }
    } else {
      WorkEnds(opt, c, inps);
    }
  }

  lemma {:induction false} StartStep(opt: Options, c: Coord, inp: Input)
    requires opt.enabled && !inp.stopRequested && inp.startRequested && c.state == Idle
    requires c.iterations <= opt.maxIterations
    ensures var d := Step(opt, c, inp).c;
            d.state == Fault || (d.state == WaitingForSensors && d.iterations == c.iterations + 1 <= opt.maxIterations)
  {}

  // ----- safety of what is sent -----

  /** The map was integrated after the last command sent. */
  predicate FreshMap(t: seq<Action>) {
    t != [] && match t[|t| - 1]
               case Integrated(_) => true
               case Sent(_) => false
               case StopAttempted => FreshMap(t[..|t| - 1])
  }

  /** Every command sent is a turn, decided on a map that is newer than any earlier command. */
  ghost predicate SendsAreFresh(t: seq<Action>) {
    forall i :: 0 <= i < |t| && t[i].Sent? ==> t[i].command == Turn && FreshMap(t[..i])
  }

  lemma {:induction false} FreshAppend(t: seq<Action>, a: Action)
    requires SendsAreFresh(t)
    ensures FreshMap(t + [a]) == (if a.Integrated? then true else if a.Sent? then false else FreshMap(t))
    ensures (a.Sent? ==> a.command == Turn && FreshMap(t)) ==> SendsAreFresh(t + [a])
  {
    assert (t + [a])[..|t|] == t;
    forall i | 0 <= i < |t| ensures (t + [a])[..i] == t[..i] {}
  }

  lemma {:induction false} FreshActions(t: seq<Action>, done: seq<Action>)
    requires SendsAreFresh(t) && |done| <= 2 && (|done| == 2 ==> done[1] == StopAttempted)
    requires done != [] && done[0].Sent? ==> done[0].command == Turn && FreshMap(t)
    ensures SendsAreFresh(t + done)
    ensures done == [] || done == [Integrated(false)] ==> FreshMap(t + done) == (done != [] || FreshMap(t))
  {
    hide SendsAreFresh, FreshMap;
    if done == [] {
      assert t + done == t;
    } else {
      FreshAppend(t, done[0]);
      if |done| == 1 {
        assert t + done == t + [done[0]];
      } else {
        FreshAppend(t + [done[0]], done[1]);
        assert t + done == t + [done[0]] + [done[1]];
      }
    }
  }

  lemma {:induction false} ActionsAreFresh(opt: Options, c: Coord, inp: Input, t: seq<Action>)
    requires opt.Valid() && Inv(opt, c) && SendsAreFresh(t)
    requires c.state == NeedActiveScan || c.state == SendingMotionCommand ==> FreshMap(t)
    ensures var r := Step(opt, c, inp);
            && SendsAreFresh(t + r.actions)
            && (r.c.state == NeedActiveScan || r.c.state == SendingMotionCommand ==> FreshMap(t + r.actions))
  {
    hide Step, Inv, SendsAreFresh, FreshMap;
    ShapeOfActions(opt, c, inp);
    FreshActions(t, Step(opt, c, inp).actions);
  }

  /** A step does at most two things to the ports; only the sending state sends, only the mapping state
      integrates. */
  lemma {:induction false} ShapeOfActions(opt: Options, c: Coord, inp: Input)
    requires opt.Valid() && Inv(opt, c)
    ensures HasShape(c, Step(opt, c, inp))
  {
    var r := Result(c, Output(c.state, c.fault, false, false), []);
    ShapeOfHandle(opt, r, inp);
    hide Handle;
  }

  /** The actions of a handler that was given none, and the states they go with. */
  ghost predicate HasShape(before: Coord, n: Result) {
    && |n.actions| <= 2 && (|n.actions| == 2 ==> n.actions[1] == StopAttempted)
    && (|n.actions| >= 1 && n.actions[0].Sent? ==>
          before.state == SendingMotionCommand && n.actions[0].command == Turn)
    && (n.c.state == NeedActiveScan ==> before.state == Mapping && n.actions == [Integrated(false)])
    && (n.c.state == SendingMotionCommand ==> before.state == NeedActiveScan && n.actions == [])
  }

  lemma {:induction false} ShapeOfMapping(r: Result, inp: Input)
    requires r.c.state == Mapping && r.actions == []
    ensures HasShape(r.c, HandleMapping(r, inp))
  {}

  lemma {:induction false} ShapeOfScan(opt: Options, r: Result, inp: Input)
    requires r.c.state == NeedActiveScan && r.actions == []
    ensures HasShape(r.c, HandleNeedActiveScan(opt, r, inp))
  {}

  lemma {:induction false} ShapeOfSending(r: Result, inp: Input)
    requires r.c.state == SendingMotionCommand && r.c.pending == Turn && r.actions == []
    ensures HasShape(r.c, HandleSendingMotionCommand(r, inp))
  {}

  lemma {:induction false} ShapeOfHandle(opt: Options, r: Result, inp: Input)
    requires Inv(opt, r.c) && r.actions == []
    ensures HasShape(r.c, Handle(opt, r, inp))
  {
    hide HandleMapping, HandleNeedActiveScan, HandleSendingMotionCommand;
    if r.c.state == Mapping {
      ShapeOfMapping(r, inp);
    } else if r.c.state == NeedActiveScan {
      ShapeOfScan(opt, r, inp);
    } else if r.c.state == SendingMotionCommand {
      ShapeOfSending(r, inp);
    }
  }

  lemma {:induction false} TraceIsFresh(opt: Options, inps: seq<Input>)
    requires opt.Valid()
    ensures var c, t := Run(opt, inps), Trace(opt, inps);
            SendsAreFresh(t) && (c.state == NeedActiveScan || c.state == SendingMotionCommand ==> FreshMap(t))
  {
    if inps != [] {
      var before := inps[..|inps| - 1];
      TraceIsFresh(opt, before);
      RunHasInv(opt, before);
      ActionsAreFresh(opt, Run(opt, before), inps[|inps| - 1], Trace(opt, before));
      hide Step, Inv, SendsAreFresh, FreshMap;
    }
  }

  lemma {:induction false} FreshHasIntegration(t: seq<Action>, i: nat)
    requires FreshMap(t) && i < |t| && t[i].Sent?
    ensures exists k :: i < k < |t| && t[k].Integrated?
    decreases |t|
  {
    if !t[|t| - 1].Integrated? {
      FreshHasIntegration(t[..|t| - 1], i);
      var k :| i < k < |t| - 1 && t[..|t| - 1][k].Integrated?;
      assert t[k].Integrated?;
    }
  }

  /** Over any run, between any two motion commands the map was integrated, whether or not the first was
      accepted and whatever stops and restarts lie between. */
  lemma {:induction false} TurnsAreSeparated(opt: Options, inps: seq<Input>, i: nat, j: nat)
    requires opt.Valid()
    ensures var t := Trace(opt, inps);
            i < j < |t| && t[i].Sent? && t[j].Sent? ==> exists k :: i < k < j && t[k].Integrated?
  {
    var t := Trace(opt, inps);
    TraceIsFresh(opt, inps);
    if i < j < |t| && t[i].Sent? && t[j].Sent? {
      FreshHasIntegration(t[..j], i);
      var k :| i < k < j && t[..j][k].Integrated?;
      assert t[k].Integrated?;
    }
  }

  /** Completed is entered only in a step whose map was good enough. Entering Completed or Fault attempts a
      stop in that same step. */
  lemma {:induction false} TerminalEntry(opt: Options, c: Coord, inp: Input)
    requires opt.Valid() && Inv(opt, c)
    ensures EntersWithStop(c, Step(opt, c, inp))
  {
    var r := Result(c, Output(c.state, c.fault, false, false), []);
    EntryOfHandle(opt, r, inp);
    hide Handle;
  }

  /** How the terminal states are entered. */
  ghost predicate EntersWithStop(before: Coord, n: Result) {
    && (n.c.state == Completed && before.state != Completed ==>
          before.state == Mapping && n.actions == [Integrated(true), StopAttempted])
    && (n.c.state == Fault && before.state != Fault ==>
          n.actions != [] && n.actions[|n.actions| - 1] == StopAttempted)
  }

  lemma {:induction false} EntryOfMapping(r: Result, inp: Input)
    requires r.c.state == Mapping && r.actions == []
    ensures EntersWithStop(r.c, HandleMapping(r, inp))
  {}

  lemma {:induction false} EntryOfScan(opt: Options, r: Result, inp: Input)
    requires r.c.state == NeedActiveScan && r.actions == []
    ensures EntersWithStop(r.c, HandleNeedActiveScan(opt, r, inp))
  {}

  lemma {:induction false} EntryOfSending(r: Result, inp: Input)
    requires r.c.state == SendingMotionCommand && r.actions == []
    ensures EntersWithStop(r.c, HandleSendingMotionCommand(r, inp))
  {}

  lemma {:induction false} EntryOfHandle(opt: Options, r: Result, inp: Input)
    requires r.actions == []
    ensures EntersWithStop(r.c, Handle(opt, r, inp))
  {
    hide HandleMapping, HandleNeedActiveScan, HandleSendingMotionCommand;
    if r.c.state == Mapping {
      EntryOfMapping(r, inp);
    } else if r.c.state == NeedActiveScan {
      EntryOfScan(opt, r, inp);
    } else if r.c.state == SendingMotionCommand {
      EntryOfSending(r, inp);
    }
  }

  /** Completed and Fault are left only by a stop request, which clears the fault. */
  lemma {:induction false} TerminalExit(opt: Options, c: Coord, inp: Input)
    requires opt.enabled && Terminal(c.state)
    ensures var r := Step(opt, c, inp);
            if inp.stopRequested then r.c.state == Idle && r.c.fault == None
            else r.c.state == c.state && r.c.fault == c.fault && (r.out.completed <==> c.state == Completed)
  {}
}
