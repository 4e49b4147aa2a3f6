/** Conservation of samples and the session protocol of the sparse-scan collector, over every run. */
module CollectorTheorems {
  import opened Angles
  import opened Sequences
  import opened Collector

  // ----- bins and samples -----

  /** What bin i holds after the given samples, taken in order. */
  ghost function BinOf(cfg: Config, samples: seq<Sample>, i: nat): Bin
    requires cfg.binAngle > 0.0
  {
    if samples == [] then EMPTY_BIN
    else
      var b := BinOf(cfg, Init(samples), i);
      if BinIndex(cfg, Last(samples).bearing) == i then AddToBin(b, Last(samples)) else b
  }

  ghost function NumValid(samples: seq<Sample>): nat {
    if samples == [] then 0 else NumValid(Init(samples)) + Count(Last(samples).valid)
  }

  ghost function SumSamples(bins: seq<Bin>): nat {
    if bins == [] then 0 else SumSamples(Init(bins)) + Last(bins).samples
  }

  ghost function SumValids(bins: seq<Bin>): nat {
    if bins == [] then 0 else SumValids(Init(bins)) + Last(bins).valids
  }

  /** x belongs to bin i. */
  ghost predicate Lands(cfg: Config, x: Sample, i: nat)
    requires cfg.binAngle > 0.0
  {
    BinIndex(cfg, x.bearing) == i
  }

  ghost predicate IsBeaten(x: Sample, confidence: int, range: real) {
    x.confidence < confidence || (x.confidence == confidence && x.range >= range)
  }

  /** A bin is valid exactly when a valid sample fell into it. It then shows one of its valid samples,
      and no valid sample of the bin has higher confidence, or equal confidence and a shorter range. */
  lemma {:induction false} WinnerIsBest(cfg: Config, samples: seq<Sample>, i: nat)
    requires cfg.binAngle > 0.0
    ensures var b := BinOf(cfg, samples, i);
            && (b.valid <==> exists j :: 0 <= j < |samples| && samples[j].valid && Lands(cfg, samples[j], i))
            && (b.valid ==> exists j :: 0 <= j < |samples| && samples[j].valid && Lands(cfg, samples[j], i)
                                        && samples[j].confidence == b.confidence && samples[j].range == b.range)
            && (forall j :: 0 <= j < |samples| && samples[j].valid && Lands(cfg, samples[j], i) ==>
                              IsBeaten(samples[j], b.confidence, b.range))
  {
    if samples != [] {
      var rest, x := Init(samples), Last(samples);
      WinnerIsBest(cfg, rest, i);
      assert forall j :: 0 <= j < |rest| ==> rest[j] == samples[j];
      assert samples[|rest|] == x;
      hide BinIndex;
    }
  }

  lemma {:induction false} SumsAfterWrite(bins: seq<Bin>, i: nat, b: Bin)
    requires i < |bins|
    ensures SumSamples(bins[i := b]) == SumSamples(bins) + b.samples - bins[i].samples
    ensures SumValids(bins[i := b]) == SumValids(bins) + b.valids - bins[i].valids
  {
    var w := bins[i := b];
    if i < |bins| - 1 {
      SumsAfterWrite(Init(bins), i, b);
      assert Init(w) == Init(bins)[i := b];
    } else {
      assert Init(w) == Init(bins);
    }
  }

  /** The counters and bins of a session say exactly what its samples say. */
  ghost predicate Tallied(cfg: Config, samples: seq<Sample>, bins: seq<Bin>, total: int, valid: int, invalid: int)
    requires cfg.binAngle > 0.0
  {
    && |bins| == BinCount(cfg) && (forall i :: 0 <= i < |bins| ==> bins[i] == BinOf(cfg, samples, i))
    && total == |samples| == SumSamples(bins) && valid == NumValid(samples) == SumValids(bins)
    && total == valid + invalid && total <= cfg.maxSamples
  }

  ghost predicate TalliedSession(cfg: Config, s: Session)
    requires cfg.binAngle > 0.0
  {
    Tallied(cfg, s.samples, s.bins, s.total, s.valid, s.invalid)
  }

  lemma {:induction false} EmptySums(n: nat, bins: seq<Bin>)
    requires bins == seq(n, _ => EMPTY_BIN)
    ensures SumSamples(bins) == SumValids(bins) == 0
  {
    if n > 0 {
      assert Init(bins) == seq(n - 1, _ => EMPTY_BIN);
      EmptySums(n - 1, Init(bins));
    }
  }

  lemma {:induction false} OpenedIsTallied(cfg: Config, s: Session, inp: Input)
    requires cfg.Valid()
    ensures TalliedSession(cfg, Opened(cfg, s, inp))
  {
    EmptySums(BinCount(cfg), FreshBins(cfg));
    assert FreshBins(cfg) == seq(BinCount(cfg), _ => EMPTY_BIN);
  }

  lemma {:induction false} TakeKeepsTally(cfg: Config, s: Session, now: real, x: Sample)
    requires cfg.Valid() && TalliedSession(cfg, s) && s.total < cfg.maxSamples
    ensures TalliedSession(cfg, TakeSample(cfg, s, now, x))
  {
    hide BinCount;
    var r, i := TakeSample(cfg, s, now, x), BinIndex(cfg, x.bearing);
    assert Init(r.samples) == s.samples && Last(r.samples) == x;
    SumsAfterWrite(s.bins, i, AddToBin(s.bins[i], x));
    hide BinIndex;
  }

  lemma {:induction false} CollectKeepsTally(cfg: Config, scanId: nat, s: Session, inp: Input, i: nat)
    requires cfg.Valid() && TalliedSession(cfg, s)
    ensures TalliedSession(cfg, CollectFrom(cfg, scanId, s, inp, i))
    decreases |inp.tofs| - i
  {
    hide Tallied, SampleOf, TakeSample, BinCount, Keeps;
    if i < |inp.tofs| && s.total < cfg.maxSamples {
      if Keeps(cfg, inp.tofs[i]) {
        var x := SampleOf(cfg, scanId, inp, inp.tofs[i]);
        TallyBinCount(cfg, s);
        TakeKeepsTally(cfg, s, inp.now, x);
        CollectKeepsTally(cfg, scanId, TakeSample(cfg, s, inp.now, x), inp, i + 1);
      } else {
        CollectKeepsTally(cfg, scanId, s, inp, i + 1);
      }
    }
  }

  lemma {:induction false} TallyBinCount(cfg: Config, s: Session)
    requires cfg.binAngle > 0.0 && TalliedSession(cfg, s)
    ensures |s.bins| == BinCount(cfg)
  {}

  // ----- one update, seen from outside -----

  /** The update works on a session, opening it first if need be. */
  predicate Active(cfg: Config, s: Coll, inp: Input) {
    cfg.enabled && (s.state == Collecting || Opens(cfg, s, inp))
  }

  /** The session's state in this update just before it may be ended. */
  function Gathered(cfg: Config, s: Coll, inp: Input): Coll
    requires cfg.Valid() && |s.ses.bins| == BinCount(cfg)
  {
    if s.state != Collecting then Collected(cfg, Begun(cfg, s, inp), inp)
    else
      var s1 := s.(ses := Rotated(s.ses, inp.yaw));
      if StopReason(cfg, s1, inp).0 then s1 else Collected(cfg, s1, inp)
  }

  /** n ends the session of g. A session that ends as completed has turned far enough to be useful. */
  ghost predicate EndsAs(cfg: Config, g: Coll, now: real, n: Coll, completed: bool, reason: Reason) {
    n == Finalize(cfg, g, now, completed, reason) && (completed ==> g.ses.observed >= cfg.usefulAngle)
  }

  /** Every update either leaves sessions alone, or continues one, or continues and ends one. */
  lemma {:induction false} UpdateShape(cfg: Config, s: Coll, inp: Input)
    requires cfg.Valid() && |s.ses.bins| == BinCount(cfg)
    ensures var n, g := Updated(cfg, s, inp), Gathered(cfg, s, inp);
            if Active(cfg, s, inp) then n == g || exists c, r :: EndsAs(cfg, g, inp.now, n, c, r)
            else n == s.(state := n.state, ses := n.ses) && n.state != Collecting
  {
    hide BinCount, Begun, Collected, Finalize, Trigger, GatesOk, YawRateDps, BlockedReason, ResetRuntime, Abs;
    var n, g := Updated(cfg, s, inp), Gathered(cfg, s, inp);
    if Active(cfg, s, inp) && n != g {
      var (stop, completed, reason) := StopReason(cfg, s.(ses := Rotated(s.ses, inp.yaw)), inp);
      if s.state == Collecting && stop {
        assert EndsAs(cfg, g, inp.now, n, completed, reason);
      } else if g.ses.full {
        assert EndsAs(cfg, g, inp.now, n, g.ses.observed >= cfg.usefulAngle, MaxSamplesReached);
      } else {
        assert EndsAs(cfg, g, inp.now, n, true, CompleteTurn);
      }
    }
  }

  lemma {:induction false} CollectKeepsRest(cfg: Config, scanId: nat, s: Session, inp: Input, i: nat)
    requires cfg.binAngle > 0.0 && |s.bins| == BinCount(cfg)
    ensures var r := CollectFrom(cfg, scanId, s, inp, i);
            r.start == s.start && r.observed == s.observed && r.lastYaw == s.lastYaw
    decreases |inp.tofs| - i
  {
    hide BinCount, SampleOf, BinIndex, AddToBin;
    if i < |inp.tofs| && s.total < cfg.maxSamples {
      if Keeps(cfg, inp.tofs[i]) {
        var x := SampleOf(cfg, scanId, inp, inp.tofs[i]);
        CollectKeepsRest(cfg, scanId, TakeSample(cfg, s, inp.now, x), inp, i + 1);
      } else {
        CollectKeepsRest(cfg, scanId, s, inp, i + 1);
      }
    }
  }

  /** What the update has gathered: its session is well tallied, and nothing earlier is touched. */
  lemma {:induction false} GatheredEffect(cfg: Config, s: Coll, inp: Input)
    requires cfg.Valid() && Active(cfg, s, inp) && |s.ses.bins| == BinCount(cfg)
    requires s.state == Collecting ==> TalliedSession(cfg, s.ses)
    ensures var g, was := Gathered(cfg, s, inp), if s.state == Collecting then s.ses.samples else [];
            && g.state == Collecting && TalliedSession(cfg, g.ses)
            && was <= g.ses.samples && g.pendingSamples == s.pendingSamples + g.ses.samples[|was|..]
            && g == s.(state := Collecting, ses := g.ses, pendingSamples := g.pendingSamples,
                       scanId := g.scanId, stats := g.stats)
            && g.ses.lastYaw == inp.yaw
            && if s.state == Collecting then
                 g.scanId == s.scanId && g.stats == s.stats && g.ses.start == s.ses.start
                 && g.ses.observed == s.ses.observed + Rad2Deg(Abs(WrapPi(inp.yaw - s.ses.lastYaw)))
               else
                 g.scanId == s.scanId + 1 && g.stats == s.stats.(started := s.stats.started + 1)
                 && g.ses.start == inp.now && g.ses.observed == 0.0
  {
    var s1 := if s.state == Collecting then s.(ses := Rotated(s.ses, inp.yaw)) else Begun(cfg, s, inp);
    OpenedIsTallied(cfg, s.ses, inp);
    CollectKeepsTally(cfg, s1.scanId, s1.ses, inp, 0);
    CollectKeepsRest(cfg, s1.scanId, s1.ses, inp, 0);
    hide BinCount, Tallied, CollectFrom, StopReason, Opens, Abs, WrapPi, Rad2Deg;
  }

  // ----- runs -----

  datatype Event = Tick(inp: Input) | DrainSummaries | DrainRecords | DrainSamples | DrainBins

  /** The collector, all it has handed out, and the yaws at which sessions began and ended. */
  datatype Log = Log(c: Coll, sums: seq<Summary>, recs: seq<Record>, samples: seq<Sample>, bins: seq<Bin>,
                           startYaw: real, turns: seq<(real, real)>)

  ghost function LogStep(cfg: Config, l: Log, e: Event): (n: Log)
    requires cfg.Valid() && |l.c.ses.bins| == BinCount(cfg)
    ensures |n.c.ses.bins| == BinCount(cfg)
  {
    match e
    case Tick(inp) =>
      var c := Updated(cfg, l.c, inp);
      var startYaw := if Opens(cfg, l.c, inp) then inp.yaw else l.startYaw;
      l.(c := c, startYaw := startYaw,
         turns := if |c.summaries| > |l.c.summaries| then l.turns + [(startYaw, inp.yaw)] else l.turns)
    case DrainSummaries => l.(c := l.c.(summaries := []), sums := l.sums + l.c.summaries)
    case DrainRecords => l.(c := l.c.(records := []), recs := l.recs + l.c.records)
    case DrainSamples => l.(c := l.c.(pendingSamples := []), samples := l.samples + l.c.pendingSamples)
    case DrainBins => l.(c := l.c.(pendingBins := []), bins := l.bins + l.c.pendingBins)
  }

  ghost function Run(cfg: Config, evs: seq<Event>): (l: Log)
    requires cfg.Valid()
    ensures |l.c.ses.bins| == BinCount(cfg)
  {
    if evs == [] then Log(InitColl(cfg), [], [], [], [], 0.0, [])
    else LogStep(cfg, Run(cfg, Init(evs)), Last(evs))
  }

  // Handed out and still pending, together the whole history.

  ghost function Summaries(l: Log): seq<Summary> { l.sums + l.c.summaries }

  ghost function Records(l: Log): seq<Record> { l.recs + l.c.records }

  ghost function Samples(l: Log): seq<Sample> { l.samples + l.c.pendingSamples }

  ghost function Bins(l: Log): seq<Bin> { l.bins + l.c.pendingBins }

  ghost function Open(c: Coll): seq<Sample> { if c.state == Collecting then c.ses.samples else [] }

  /** How one event moves the history. */
  ghost predicate Moves(cfg: Config, l: Log, e: Event, n: Log)
    requires cfg.Valid() && |l.c.ses.bins| == BinCount(cfg)
  {
    if !e.Tick? || !Active(cfg, l.c, e.inp) then
      && Summaries(n) == Summaries(l) && Records(n) == Records(l) && Samples(n) == Samples(l) && Bins(n) == Bins(l)
      && n.turns == l.turns && n.startYaw == l.startYaw && n.c.stats == l.c.stats && n.c.scanId == l.c.scanId
      && n.c.cooldownUntil == l.c.cooldownUntil
      && (if e.Tick? then n.c.state != Collecting else n.c.state == l.c.state && n.c.ses == l.c.ses)
    else
      var g := Gathered(cfg, l.c, e.inp);
      && n.startYaw == (if l.c.state == Collecting then l.startYaw else e.inp.yaw)
      && Samples(n) == Samples(l) + g.ses.samples[|Open(l.c)|..]
      && if n.c.state == Collecting then
           && n.c == g && Summaries(n) == Summaries(l) && Records(n) == Records(l) && Bins(n) == Bins(l)
           && n.turns == l.turns
         else
           exists c, r :: Closes(cfg, l, e.inp, g, n, SummaryOf(cfg, g.scanId, g.ses, e.inp.now, c, r))
  }

  ghost predicate Closes(cfg: Config, l: Log, inp: Input, g: Coll, n: Log, x: Summary) {
    && Summaries(n) == Summaries(l) + [x] && Records(n) == Records(l) + [Record(x, g.ses.samples, g.ses.bins)]
    && Bins(n) == Bins(l) + g.ses.bins && n.turns == l.turns + [(n.startYaw, inp.yaw)]
    && n.c.stats == StatsAfter(g.stats, x) && n.c.scanId == g.scanId && n.c.cooldownUntil == inp.now + cfg.cooldown
    && (x.completed ==> x.useful)
  }

  lemma {:induction false} DrainMoves(cfg: Config, l: Log, e: Event)
    requires cfg.Valid() && |l.c.ses.bins| == BinCount(cfg) && !e.Tick?
    ensures Moves(cfg, l, e, LogStep(cfg, l, e))
  {
    hide BinCount, Active;
  }

  lemma {:induction false} QuietMoves(cfg: Config, l: Log, inp: Input)
    requires cfg.Valid() && |l.c.ses.bins| == BinCount(cfg) && !Active(cfg, l.c, inp)
    ensures Moves(cfg, l, Tick(inp), LogStep(cfg, l, Tick(inp)))
  {
    hide BinCount, Trigger, GatesOk, Gathered, Updated;
    UpdateShape(cfg, l.c, inp);
  }

  lemma {:induction false} SessionMoves(cfg: Config, l: Log, inp: Input)
    requires cfg.Valid() && |l.c.ses.bins| == BinCount(cfg) && Active(cfg, l.c, inp)
    requires l.c.state == Collecting ==> TalliedSession(cfg, l.c.ses)
    ensures Moves(cfg, l, Tick(inp), LogStep(cfg, l, Tick(inp)))
  {
    hide BinCount, Trigger, GatesOk, Tallied, Gathered, Updated, StatsAfter, CountValid, Rad2Deg, Abs, WrapPi;
    var n, g := LogStep(cfg, l, Tick(inp)), Gathered(cfg, l.c, inp);
    UpdateShape(cfg, l.c, inp);
    GatheredEffect(cfg, l.c, inp);
    assert Samples(n) == Samples(l) + g.ses.samples[|Open(l.c)|..];
    if n.c != g {
      var c, r :| EndsAs(cfg, g, inp.now, n.c, c, r);
      var x := SummaryOf(cfg, g.scanId, g.ses, inp.now, c, r);
      assert Closes(cfg, l, inp, g, n, x);
    }
  }

  lemma {:induction false} StepMoves(cfg: Config, l: Log, e: Event)
    requires cfg.Valid() && |l.c.ses.bins| == BinCount(cfg)
    requires l.c.state == Collecting ==> TalliedSession(cfg, l.c.ses)
    ensures Moves(cfg, l, e, LogStep(cfg, l, e))
  {
    hide Moves, LogStep, BinCount, TalliedSession, Active;
    if !e.Tick? {
      DrainMoves(cfg, l, e);
    } else if Active(cfg, l.c, e.inp) {
      SessionMoves(cfg, l, e.inp);
    } else {
      QuietMoves(cfg, l, e.inp);
    }
  }

  // ----- the invariant -----

  ghost predicate RecordOk(cfg: Config, r: Record)
    requires cfg.binAngle > 0.0
  {
    && Tallied(cfg, r.samples, r.bins, r.summary.total, r.summary.valid, r.summary.invalid)
    && (r.summary.completed ==> r.summary.useful)
  }

  ghost predicate AreTallied(cfg: Config, recs: seq<Record>)
    requires cfg.binAngle > 0.0
  {
    forall k :: 0 <= k < |recs| ==> RecordOk(cfg, recs[k])
  }

  ghost function FlatSamples(recs: seq<Record>): seq<Sample> {
    if recs == [] then [] else FlatSamples(Init(recs)) + Last(recs).samples
  }

  ghost function FlatBins(recs: seq<Record>): seq<Bin> {
    if recs == [] then [] else FlatBins(Init(recs)) + Last(recs).bins
  }

  ghost function NumCompleted(sums: seq<Summary>): nat {
    if sums == [] then 0 else NumCompleted(Init(sums)) + Count(Last(sums).completed)
  }

  /** Sessions are numbered and counted; each has one summary and one record. */
  ghost predicate Counted(l: Log) {
    var c, sums, recs := l.c, Summaries(l), Records(l);
    && c.stats.started == c.scanId == c.stats.completed + c.stats.aborted + Count(c.state == Collecting)
    && |sums| == |recs| == c.stats.completed + c.stats.aborted && c.stats.completed == NumCompleted(sums)
    && AreNumbered(sums, recs)
  }

  /** The k-th session has scan id k, one summary and one record with that summary. */
  ghost predicate AreNumbered(sums: seq<Summary>, recs: seq<Record>) {
    |sums| == |recs| && forall k :: 0 <= k < |sums| ==> recs[k].summary == sums[k] && sums[k].scanId == k + 1
  }

  lemma {:induction false} NumberedSnoc(sums: seq<Summary>, recs: seq<Record>, r: Record)
    requires AreNumbered(sums, recs) && r.summary.scanId == |sums| + 1
    ensures AreNumbered(sums + [r.summary], recs + [r])
    ensures NumCompleted(sums + [r.summary]) == NumCompleted(sums) + Count(r.summary.completed)
  {
    assert Init(sums + [r.summary]) == sums;
  }

  /** Each record tells the truth about its samples, and no sample or bin is lost or repeated. */
  ghost predicate Conserved(cfg: Config, l: Log)
    requires cfg.binAngle > 0.0
  {
    && (l.c.state == Collecting ==> cfg.enabled && TalliedSession(cfg, l.c.ses))
    && AreTallied(cfg, Records(l))
    && Samples(l) == FlatSamples(Records(l)) + Open(l.c) && Bins(l) == FlatBins(Records(l))
  }

  lemma {:induction false} RecordTells(cfg: Config, scanId: nat, s: Session, now: real, completed: bool, reason: Reason)
    requires cfg.binAngle > 0.0 && TalliedSession(cfg, s)
    ensures var x := SummaryOf(cfg, scanId, s, now, completed, reason);
            (x.completed ==> x.useful) ==> RecordOk(cfg, Record(x, s.samples, s.bins))
  {
    hide Tallied, CountValid;
  }

  lemma {:induction false} RecordsSnoc(cfg: Config, recs: seq<Record>, r: Record)
    requires cfg.binAngle > 0.0 && AreTallied(cfg, recs) && RecordOk(cfg, r)
    ensures AreTallied(cfg, recs + [r])
  {
    hide RecordOk;
  }

  lemma {:induction false} FlatSnoc(recs: seq<Record>, r: Record)
    ensures FlatSamples(recs + [r]) == FlatSamples(recs) + r.samples
    ensures FlatBins(recs + [r]) == FlatBins(recs) + r.bins
  {
    assert Init(recs + [r]) == recs;
  }

  lemma {:induction false} StepKeepsTallied(cfg: Config, l: Log, e: Event)
    requires cfg.Valid() && |l.c.ses.bins| == BinCount(cfg) && Conserved(cfg, l)
    ensures var n := LogStep(cfg, l, e);
            (n.c.state == Collecting ==> cfg.enabled && TalliedSession(cfg, n.c.ses)) && AreTallied(cfg, Records(n))
  {
    hide AreTallied, BinCount, TalliedSession, RecordOk, FlatSamples, FlatBins, Opens, Gathered, StatsAfter, SummaryOf,
      LogStep, Rad2Deg, Abs, WrapPi, Bins, Samples, Summaries;
    var n := LogStep(cfg, l, e);
    StepMoves(cfg, l, e);
    if e.Tick? && Active(cfg, l.c, e.inp) {
      var g := Gathered(cfg, l.c, e.inp);
      GatheredEffect(cfg, l.c, e.inp);
      if n.c.state != Collecting {
        var c, r :| Closes(cfg, l, e.inp, g, n, SummaryOf(cfg, g.scanId, g.ses, e.inp.now, c, r));
        RecordTells(cfg, g.scanId, g.ses, e.inp.now, c, r);
        RecordsSnoc(cfg, Records(l), Last(Records(n)));
      }
    }
  }

  lemma {:induction false} StepKeepsFlat(cfg: Config, l: Log, e: Event)
    requires cfg.Valid() && |l.c.ses.bins| == BinCount(cfg) && Conserved(cfg, l)
    ensures var n := LogStep(cfg, l, e);
            Samples(n) == FlatSamples(Records(n)) + Open(n.c) && Bins(n) == FlatBins(Records(n))
  {
    hide AreTallied, BinCount, TalliedSession, RecordOk, FlatSamples, FlatBins, Opens, Gathered, StatsAfter, SummaryOf,
      LogStep, Rad2Deg, Abs, WrapPi, Summaries;
    var n := LogStep(cfg, l, e);
    StepMoves(cfg, l, e);
    if e.Tick? && Active(cfg, l.c, e.inp) {
      var g := Gathered(cfg, l.c, e.inp);
      GatheredEffect(cfg, l.c, e.inp);
      SamplesGrow(FlatSamples(Records(l)), Open(l.c), g.ses.samples);
      if n.c.state != Collecting {
        var c, r :| Closes(cfg, l, e.inp, g, n, SummaryOf(cfg, g.scanId, g.ses, e.inp.now, c, r));
        FlatSnoc(Records(l), Last(Records(n)));
      }
    }
  }

  lemma {:induction false} SamplesGrow(before: seq<Sample>, was: seq<Sample>, now: seq<Sample>)
    requires was <= now
    ensures before + was + now[|was|..] == before + now
  {}

  lemma {:induction false} StepKeepsConserved(cfg: Config, l: Log, e: Event)
    requires cfg.Valid() && |l.c.ses.bins| == BinCount(cfg) && Conserved(cfg, l)
    ensures Conserved(cfg, LogStep(cfg, l, e))
  {
    hide LogStep, BinCount, TalliedSession, AreTallied;
    StepKeepsTallied(cfg, l, e);
    StepKeepsFlat(cfg, l, e);
  }

  lemma {:induction false} StepKeepsCounted(cfg: Config, l: Log, e: Event)
    requires cfg.Valid() && |l.c.ses.bins| == BinCount(cfg) && Conserved(cfg, l) && Counted(l)
    requires !cfg.enabled ==> l.c.state == Disabled
    ensures Counted(LogStep(cfg, l, e))
  {
    hide BinCount, TalliedSession, AreTallied, Opens, Gathered, CountValid, LogStep, FlatSamples, FlatBins, AreNumbered,
      NumCompleted, Rad2Deg, Abs, WrapPi;
    var n := LogStep(cfg, l, e);
    StepMoves(cfg, l, e);
    if e.Tick? && Active(cfg, l.c, e.inp) {
      var g := Gathered(cfg, l.c, e.inp);
      GatheredEffect(cfg, l.c, e.inp);
      if n.c.state != Collecting {
        var c, r :| Closes(cfg, l, e.inp, g, n, SummaryOf(cfg, g.scanId, g.ses, e.inp.now, c, r));
        NumberedSnoc(Summaries(l), Records(l), Last(Records(n)));
      }
    }
  }

  lemma {:induction false} StaysDisabled(cfg: Config, evs: seq<Event>)
    requires cfg.Valid()
    ensures !cfg.enabled ==> Run(cfg, evs).c.state == Disabled
  {
    if evs != [] {
      StaysDisabled(cfg, Init(evs));
      hide Continued, CollectAndMaybeFinalize, Opens, BinCount, Begun;
    }
  }

  lemma {:induction false} StartIsConserved(cfg: Config)
    requires cfg.Valid()
    ensures Counted(Run(cfg, [])) && Conserved(cfg, Run(cfg, []))
  {}

  /** In every run: sessions started = completed + aborted + the one running; the k-th session has scan
      id k and exactly one summary and one record, whether drained yet or not; all samples and bins
      ever handed out or pending are those of the records in order, then those of the running session;
      every record, and the running session, is exactly tallied; completed sessions were useful. */
  lemma {:induction false} RunIsConserved(cfg: Config, evs: seq<Event>)
    requires cfg.Valid()
    ensures Counted(Run(cfg, evs)) && Conserved(cfg, Run(cfg, evs))
  {
    if evs == [] {
      StartIsConserved(cfg);
    } else {
      var l := Run(cfg, Init(evs));
      RunIsConserved(cfg, Init(evs));
      StepKeepsConserved(cfg, l, Last(evs));
      StaysDisabled(cfg, Init(evs));
      StepKeepsCounted(cfg, l, Last(evs));
      hide Counted, Conserved, BinCount, LogStep;
    }
  }

  // ----- spacing of sessions -----

  ghost predicate TimesAreNonNegative(evs: seq<Event>) {
    forall i :: 0 <= i < |evs| && evs[i].Tick? ==> evs[i].inp.now >= 0.0
  }

  ghost predicate AreSpaced(cfg: Config, sums: seq<Summary>) {
    forall k {:trigger sums[k]} :: 0 < k < |sums| ==> sums[k].start >= sums[k - 1].end + cfg.cooldown
  }

  lemma {:induction false} SpacedSnoc(cfg: Config, sums: seq<Summary>, x: Summary)
    requires AreSpaced(cfg, sums) && (sums != [] ==> x.start >= Last(sums).end + cfg.cooldown)
    ensures AreSpaced(cfg, sums + [x])
  {}

  ghost predicate Spaced(cfg: Config, l: Log) {
    var sums := Summaries(l);
    && AreSpaced(cfg, sums)
    && (sums != [] ==> Last(sums).end >= 0.0 && l.c.cooldownUntil == Last(sums).end + cfg.cooldown)
    && (sums != [] && l.c.state == Collecting ==> l.c.ses.start >= Last(sums).end + cfg.cooldown)
  }

  lemma {:induction false} OpensAfterCooldown(cfg: Config, s: Coll, inp: Input)
    requires Opens(cfg, s, inp) && s.cooldownUntil >= 0.0
    ensures inp.now >= s.cooldownUntil
  {
    hide Trigger, YawRateDps, Abs;
  }

  lemma {:induction false} SummaryTimes(cfg: Config, scanId: nat, s: Session, now: real, completed: bool,
                                        reason: Reason)
    ensures var x := SummaryOf(cfg, scanId, s, now, completed, reason); x.start == s.start && x.end == now
  {}

  lemma {:induction false} StepKeepsSpaced(cfg: Config, l: Log, e: Event)
    requires cfg.Valid() && |l.c.ses.bins| == BinCount(cfg) && Conserved(cfg, l) && Spaced(cfg, l)
    requires e.Tick? ==> e.inp.now >= 0.0
    ensures Spaced(cfg, LogStep(cfg, l, e))
  {
    hide AreSpaced, BinCount, Opens, TalliedSession, Gathered, SummaryOf, StatsAfter, FlatSamples, FlatBins, RecordOk,
      WrapPi, Abs, LogStep;
    var n := LogStep(cfg, l, e);
    StepMoves(cfg, l, e);
    if e.Tick? && Active(cfg, l.c, e.inp) {
      var g := Gathered(cfg, l.c, e.inp);
      GatheredEffect(cfg, l.c, e.inp);
      if l.c.state != Collecting && Summaries(l) != [] {
        OpensAfterCooldown(cfg, l.c, e.inp);
      }
      if n.c.state != Collecting {
        var c, r :| Closes(cfg, l, e.inp, g, n, SummaryOf(cfg, g.scanId, g.ses, e.inp.now, c, r));
        SummaryTimes(cfg, g.scanId, g.ses, e.inp.now, c, r);
        SpacedSnoc(cfg, Summaries(l), Last(Summaries(n)));
      }
    }
  }

  /** A session never starts before the cooldown that follows the end of the session before it. */
  lemma {:induction false} SessionsAreSpaced(cfg: Config, evs: seq<Event>)
    requires cfg.Valid() && TimesAreNonNegative(evs)
    ensures Spaced(cfg, Run(cfg, evs))
  {
    hide Updated;
    if evs != [] {
      SessionsAreSpaced(cfg, Init(evs));
      RunIsConserved(cfg, Init(evs));
      StepKeepsSpaced(cfg, Run(cfg, Init(evs)), Last(evs));
      hide Spaced, LogStep;
    }
  }

  // ----- rotation -----

  ghost predicate Covers(observed: real, fromYaw: real, toYaw: real) {
    observed >= Rad2Deg(Abs(WrapPi(toYaw - fromYaw)))
  }

  ghost predicate Covered(l: Log) {
    var sums := Summaries(l);
    && |l.turns| == |sums| && (forall k :: 0 <= k < |sums| ==> Covers(sums[k].observed, l.turns[k].0, l.turns[k].1))
    && (l.c.state == Collecting ==> Covers(l.c.ses.observed, l.startYaw, l.c.ses.lastYaw))
  }

  /** Adding up wrapped steps covers the wrapped sum of the steps. */
  lemma {:induction false} CoversMore(observed: real, a: real, b: real, c: real)
    requires Covers(observed, a, b)
    ensures Covers(observed + Rad2Deg(Abs(WrapPi(c - b))), a, c)
  {
    hide WrapPi, Abs;
    WrapTriangle(b - a, c - b);
    assert (b - a) + (c - b) == c - a;
    DegreesAdd(Abs(WrapPi(b - a)), Abs(WrapPi(c - b)), Abs(WrapPi(c - a)));
  }

  lemma {:induction false} DegreesAdd(a: real, b: real, c: real)
    requires c <= a + b
    ensures Rad2Deg(c) <= Rad2Deg(a) + Rad2Deg(b)
  {}

  lemma {:induction false} StepKeepsCovered(cfg: Config, l: Log, e: Event)
    requires cfg.Valid() && |l.c.ses.bins| == BinCount(cfg) && Conserved(cfg, l) && Covered(l)
    ensures Covered(LogStep(cfg, l, e))
  {
    hide BinCount, Trigger, GatesOk, Tallied, Gathered, Updated, CountValid, StatsAfter, FlatSamples, FlatBins,
      RecordOk, Covers, WrapPi, Abs, LogStep;
    var n := LogStep(cfg, l, e);
    StepMoves(cfg, l, e);
    if e.Tick? && Active(cfg, l.c, e.inp) {
      var g := Gathered(cfg, l.c, e.inp);
      GatheredEffect(cfg, l.c, e.inp);
      if l.c.state == Collecting {
        CoversMore(l.c.ses.observed, l.startYaw, l.c.ses.lastYaw, e.inp.yaw);
      } else {
        StandingStill(e.inp.yaw);
      }
      if n.c.state != Collecting {
        var c, r :| Closes(cfg, l, e.inp, g, n, SummaryOf(cfg, g.scanId, g.ses, e.inp.now, c, r));
      }
    }
  }

  lemma {:induction false} StandingStill(yaw: real)
    ensures Covers(0.0, yaw, yaw)
  {
    assert WrapPi(0.0) == 0.0;
  }

  /** The rotation a session reports is never less than the angle between its first and its last yaw. */
  lemma {:induction false} RotationIsCovered(cfg: Config, evs: seq<Event>)
    requires cfg.Valid()
    ensures Covered(Run(cfg, evs))
  {
    if evs != [] {
      RotationIsCovered(cfg, Init(evs));
      RunIsConserved(cfg, Init(evs));
      StepKeepsCovered(cfg, Run(cfg, Init(evs)), Last(evs));
      hide Covered, LogStep;
    }
  }
}
