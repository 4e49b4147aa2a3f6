/** One sparse scan matched against the map in yaw, and the matcher object
    (include/robot_slamd/active_scan/sparse_scan_yaw_matcher.hpp). */
module YawMatching {
  import opened Angles
  import opened Sequences
  import opened YawCurve
  import opened YawMatcher
  import C = Collector

  datatype Config = Config(
    enabled: bool, requireComplete: bool, onCompleted: bool, onUseful: bool,
    minValidSamples: int, minValidBins: int, minObserved: real, minBinRatio: real,
    maxSearch: real, coarseStep: real, refine: bool, refineWindow: real, refineStep: real, maxSamples: int,
    minBestScore: real, minMargin: real, minInlierRatio: real, maxFlatness: real,
    multimodalCheck: bool, peakSeparation: real, maxPeakRatio: real)
  {
    /** What validate_config demands of the sparse_scan_yaw_match section. */
    ghost predicate Valid() {
      && 0.0 < coarseStep <= maxSearch && 0.0 <= refineWindow && 0.0 < refineStep && maxSamples > 0
      && 0.0 <= peakSeparation && 0.0 <= maxPeakRatio <= 1.0 && 0.0 <= maxFlatness <= 1.0
    }
  }

  datatype Reason =
    | Ok | RequireCompleteSession | CompletedScanDisabled | UsefulScanDisabled | ScanNotUseful | InsufficientSamples
    | InsufficientBins | InsufficientYawCoverage | LowValidBinRatio | NoMapSupport | NoCandidates
    | LowBestScore | LowScoreMargin | LowInlierRatio | CurveFlat | Multimodal | OutsideSearchRange

  datatype MatchSummary = MatchSummary(scanId: nat, attempted: bool, usable: bool, reason: Reason,
                                       best: Candidate, second: Candidate, margin: real, flatness: real, flat: bool,
                                       multimodal: bool, peaks: nat)

  const NO_CANDIDATE := Candidate(0.0, 0.0, 0.0)

  function Rejected(scanId: nat, why: Reason): MatchSummary {
    MatchSummary(scanId, false, false, why, NO_CANDIDATE, NO_CANDIDATE, 0.0, 0.0, false, false, 0)
  }

  function BinRatio(x: C.Summary): real {
    if x.totalBins == 0 then 0.0 else (x.validBins as real) / (x.totalBins as real)
  }

  /** Why a scan is not matched at all; Ok when it is. */
  function Refusal(cfg: Config, scan: C.Record, occupied: nat, known: nat): Reason
    requires cfg.maxSamples > 0
  {
    var x := scan.summary;
    if cfg.requireComplete && !x.complete then RequireCompleteSession
    else if x.complete && !cfg.onCompleted then CompletedScanDisabled
    else if !x.complete && x.useful && !cfg.onUseful then UsefulScanDisabled
    else if !x.complete && !x.useful then ScanNotUseful
    else if x.valid < cfg.minValidSamples then InsufficientSamples
    else if x.validBins < cfg.minValidBins then InsufficientBins
    else if x.observed < cfg.minObserved then InsufficientYawCoverage
    else if BinRatio(x) < cfg.minBinRatio then LowValidBinRatio
    else if occupied == 0 || known == 0 then NoMapSupport
    else if |SelectedSamples(scan.samples, cfg.maxSamples)| < cfg.minValidSamples then InsufficientSamples
    else Ok
  }

  // ----- the curve -----

  /** The first element with the highest score. */
  function FirstTop(curve: seq<Candidate>): (b: nat)
    requires curve != []
    ensures IsBest(curve, b)
  {
    var last := |curve| - 1;
    if last == 0 then 0
    else
      var b := FirstTop(curve[..last]);
      assert forall i :: 0 <= i < last ==> curve[..last][i] == curve[i];
      if curve[b].score < curve[last].score then last else b
  }

  function Coarse(cfg: Config, f: real -> Fit): seq<Candidate> {
    RangeSwept([], f, -cfg.maxSearch, cfg.maxSearch, cfg.coarseStep, cfg.maxSearch)
  }

  /** The best yaw of the coarse sweep. */
  function Centre(cfg: Config, f: real -> Fit): real
    requires Coarse(cfg, f) != []
  {
    Coarse(cfg, f)[FirstTop(Coarse(cfg, f))].yaw
  }

  function Curve(cfg: Config, f: real -> Fit): seq<Candidate> {
    var coarse := Coarse(cfg, f);
    if coarse == [] || !cfg.refine then coarse
    else
      var centre := Centre(cfg, f);
      RangeSwept(coarse, f, centre - cfg.refineWindow, centre + cfg.refineWindow, cfg.refineStep, cfg.maxSearch)
  }

  /** The coarse sweep always finds candidates, so the reason NoCandidates is never given. */
  lemma {:induction false} CoarseFindsCandidates(cfg: Config, f: real -> Fit)
    requires cfg.Valid()
    ensures Coarse(cfg, f) != []
  {
    var n := SweepSize(-cfg.maxSearch, cfg.maxSearch, cfg.coarseStep);
    var span, step := cfg.maxSearch + cfg.maxSearch, cfg.coarseStep;
    assert span / step >= 0.0;
    assert n >= 1;
    SweepTops([], f, -cfg.maxSearch, cfg.coarseStep, cfg.maxSearch, n);
    assert YawAt(-cfg.maxSearch, cfg.coarseStep, 0) == -cfg.maxSearch;
    assert InRange(YawAt(-cfg.maxSearch, cfg.coarseStep, 0), cfg.maxSearch);
  }

  /** All elements are genuine; refining never lowers the best score; and the best score is at least
      that of every yaw in range that either sweep tries. */
  lemma {:induction false} CurveIsGenuine(cfg: Config, f: real -> Fit)
    requires cfg.Valid() && Coarse(cfg, f) != []
    ensures var c, max, coarse := Curve(cfg, f), cfg.maxSearch, Coarse(cfg, f);
            && Genuine(c, f, max) && c != [] && TopScore(c) >= TopScore(coarse)
            && BeatsSweep(c, f, -max, cfg.coarseStep, max, SweepSize(-max, max, cfg.coarseStep))
            && (cfg.refine ==>
                  var lo, hi := Centre(cfg, f) - cfg.refineWindow, Centre(cfg, f) + cfg.refineWindow;
                  BeatsSweep(c, f, lo, cfg.refineStep, max, SweepSize(lo, hi, cfg.refineStep)))
  {
    hide Genuine, TopScore, YawAt, InRange, Swept, SweepSize, FirstTop;
    var coarse, max := Coarse(cfg, f), cfg.maxSearch;
    var n := SweepSize(-max, max, cfg.coarseStep);
    NothingIsGenuine(f, max);
    SweepIsGenuine([], f, -max, cfg.coarseStep, max, n);
    SweepTops([], f, -max, cfg.coarseStep, max, n);
    if cfg.refine {
      var lo := Centre(cfg, f) - cfg.refineWindow;
      var k := SweepSize(lo, Centre(cfg, f) + cfg.refineWindow, cfg.refineStep);
      SweepIsGenuine(coarse, f, lo, cfg.refineStep, max, k);
      SweepTops(coarse, f, lo, cfg.refineStep, max, k);
    }
  }

  /** The coarse sweep tries the yaw, or the refining sweep around the best of the coarse one does. */
  ghost predicate Tried(cfg: Config, f: real -> Fit, yaw: real)
    requires cfg.Valid() && Coarse(cfg, f) != []
  {
    var max := cfg.maxSearch;
    || IsTried(yaw, -max, cfg.coarseStep, max, SweepSize(-max, max, cfg.coarseStep))
    || (cfg.refine &&
        var lo, hi := Centre(cfg, f) - cfg.refineWindow, Centre(cfg, f) + cfg.refineWindow;
        IsTried(yaw, lo, cfg.refineStep, max, SweepSize(lo, hi, cfg.refineStep)))
  }

  /** Every yaw on the curve was tried, and the best of them is the best of all that were. */
  lemma {:induction false} CurveIsTried(cfg: Config, f: real -> Fit)
    requires cfg.Valid() && Coarse(cfg, f) != []
    ensures var c := Curve(cfg, f);
            && c != [] && (forall x :: x in c ==> Tried(cfg, f, x.yaw))
            && forall yaw :: Tried(cfg, f, yaw) ==> InRange(yaw, cfg.maxSearch) && f(yaw).score <= TopScore(c)
  {
    hide Genuine, TopScore, YawAt, InRange, Swept, SweepSize, FirstTop;
    CurveIsGenuine(cfg, f);
    var coarse, max := Coarse(cfg, f), cfg.maxSearch;
    SweepAddsTried([], f, -max, cfg.coarseStep, max, SweepSize(-max, max, cfg.coarseStep));
    if cfg.refine {
      var lo, hi := Centre(cfg, f) - cfg.refineWindow, Centre(cfg, f) + cfg.refineWindow;
      SweepAddsTried(coarse, f, lo, cfg.refineStep, max, SweepSize(lo, hi, cfg.refineStep));
    }
  }

  lemma {:induction false} NothingIsGenuine(f: real -> Fit, max: real)
    ensures Genuine([], f, max)
  {}

  /** The curve never holds two yaws closer than TINY: without refinement for every configuration, with
      it when the coarse step is at least 2 * TINY and the fine step at least TINY. */
  lemma {:induction false} CurveIsSeparated(cfg: Config, f: real -> Fit)
    requires cfg.Valid() && Coarse(cfg, f) != []
    requires cfg.refine ==> cfg.coarseStep >= 2.0 * TINY && cfg.refineStep >= TINY
    ensures Separated(Curve(cfg, f))
  {
    hide Separated, Swept, SweepSize, FirstTop, Wide;
    var coarse, max := Coarse(cfg, f), cfg.maxSearch;
    var n := SweepSize(-max, max, cfg.coarseStep);
    if cfg.refine {
      var lo := Centre(cfg, f) - cfg.refineWindow;
      var k := SweepSize(lo, Centre(cfg, f) + cfg.refineWindow, cfg.refineStep);
      FirstSweepWide(f, -max, cfg.coarseStep, max, n);
      RefiningSweepSeparated(coarse, f, lo, cfg.refineStep, max, k);
    } else {
      FirstSweepSeparated(f, -max, cfg.coarseStep, max, n);
    }
  }

  // ----- the decision -----

  function Flatness(rows: seq<Candidate>, best: real): (r: real)
    ensures 0.0 <= r <= 1.0
  {
    1.0 - Clamp((best - Median(rows)) / Max(Abs(best), TINY), 0.0, 1.0)
  }

  /** The last reason of the program's cascade, OutsideSearchRange, is left out: it is never reached. */
  function Verdict(cfg: Config, m: MatchSummary): Reason {
    if m.best.score < cfg.minBestScore then LowBestScore
    else if m.margin < cfg.minMargin then LowScoreMargin
    else if m.best.inlierRatio < cfg.minInlierRatio then LowInlierRatio
    else if m.flat then CurveFlat
    else if m.multimodal then Multimodal
    else Ok
  }

  ghost predicate Picks(rows: seq<Candidate>, m: MatchSummary) {
    rows != [] && m.best == BestOf(rows) && m.second == SecondOf(rows)
  }

  /** The summary of a scan that was matched, with the curve it reports. */
  ghost predicate Judged(cfg: Config, f: real -> Fit, m: MatchSummary, rows: seq<Candidate>) {
    && rows == SortedBy(Curve(cfg, f), ByYaw) && Picks(rows, m) && m.attempted
    && m.margin == m.best.score - m.second.score
    && m.flatness == Flatness(rows, m.best.score) && m.flat == (m.flatness > cfg.maxFlatness)
    && m.peaks == PeaksUpTo(rows, |rows|)
    && (m.multimodal <==> cfg.multimodalCheck && HasRival(rows, m.best, cfg.peakSeparation, cfg.maxPeakRatio))
    && m.reason == Verdict(cfg, m) && m.usable == (m.reason == Ok)
  }

  /** What a matched scan's summary tells: the best yaw was tried and carries its own fit, no yaw that was
      tried fits better, the margin is not negative and there is a peak. */
  lemma {:induction false} JudgedMeans(cfg: Config, f: real -> Fit, m: MatchSummary, rows: seq<Candidate>)
    requires cfg.Valid() && Judged(cfg, f, m, rows)
    ensures Tried(cfg, f, m.best.yaw) && m.best == CandidateAt(f, m.best.yaw)
    ensures forall yaw :: Tried(cfg, f, yaw) ==> InRange(yaw, cfg.maxSearch) && f(yaw).score <= m.best.score
    ensures m.margin >= 0.0 && m.peaks >= 1
    ensures m.usable <==> && m.best.score >= cfg.minBestScore && m.margin >= cfg.minMargin
                          && m.best.inlierRatio >= cfg.minInlierRatio && !m.flat && !m.multimodal
  {
    hide Coarse, Curve, SortedBy, TopScore, Flatness, HasRival, InRange, CandidateAt, PeaksUpTo, Picks, Genuine, Tried;
    CoarseFindsCandidates(cfg, f);
    CurveIsGenuine(cfg, f);
    PickIsTop(Curve(cfg, f), rows, f, cfg.maxSearch, m);
    CurveIsTried(cfg, f);
  }

  lemma {:induction false} PickIsTop(curve: seq<Candidate>, rows: seq<Candidate>, f: real -> Fit, max: real,
                                     m: MatchSummary)
    requires curve != [] && Genuine(curve, f, max) && rows == SortedBy(curve, ByYaw) && Picks(rows, m)
    ensures m.best in curve && m.best == CandidateAt(f, m.best.yaw) && m.best.score == TopScore(curve)
    ensures m.second.score <= m.best.score && PeaksUpTo(rows, |rows|) >= 1
  {
    hide SortedBy, TopScore, InRange, CandidateAt, IsSecond, IsBest, PeaksUpTo, PickOf, BestOf, SecondOf;
    PickMeans(rows);
    var b: nat :| b < |rows| && IsBest(rows, b) && m.best == rows[b] && IsSecond(rows, b, m.second);
    BestOfSorted(curve, rows, b);
    SecondIsLower(rows, b, m.second);
    PeaksOfACurve(rows, b, 0.0, 0.0);
  }

  lemma {:induction false} BestOfSorted(curve: seq<Candidate>, rows: seq<Candidate>, b: nat)
    requires multiset(rows) == multiset(curve) && curve != [] && IsBest(rows, b)
    ensures rows[b] in curve && rows[b].score == TopScore(curve)
  {
    SameElements(rows, curve);
    SameElements(curve, rows);
    hide TopScore;
    var k :| 0 <= k < |curve| && curve[k].score == TopScore(curve);
    assert curve[k] in rows;
  }

  lemma {:induction false} SecondIsLower(rows: seq<Candidate>, b: nat, second: Candidate)
    requires b < |rows| && IsSecond(rows, b, second)
    ensures second.score <= rows[b].score
  {}

  method MaxElement(curve: seq<Candidate>) returns (b: nat)
    requires curve != []
    ensures b == FirstTop(curve)
  {
    b := 0;
    for i := 1 to |curve|
      invariant b < i && IsBest(curve[..i], b)
    {
      if curve[b].score < curve[i].score { b := i; }
    }
    assert curve[..|curve|] == curve;
    BestIsUnique(curve, b, FirstTop(curve));
  }

  method BuildCurve(cfg: Config, f: real -> Fit) returns (curve: seq<Candidate>)
    requires cfg.Valid()
    ensures Coarse(cfg, f) != [] && curve == Curve(cfg, f)
  {
    CoarseFindsCandidates(cfg, f);
    hide RangeSwept, FirstTop, IsBest;
    curve := EvaluateRange([], f, -cfg.maxSearch, cfg.maxSearch, cfg.coarseStep, cfg.maxSearch);
    var b := MaxElement(curve);
    var centre := curve[b].yaw;
    if cfg.refine {
      curve := EvaluateRange(curve, f, centre - cfg.refineWindow, centre + cfg.refineWindow, cfg.refineStep,
                             cfg.maxSearch);
    }
  }

  /** Reads the summary off the finished curve. */
  method Judge(cfg: Config, f: real -> Fit, scanId: nat, rows: seq<Candidate>) returns (m: MatchSummary)
    requires cfg.Valid() && rows == SortedBy(Curve(cfg, f), ByYaw) && rows != []
    requires Genuine(Curve(cfg, f), f, cfg.maxSearch)
    ensures m.scanId == scanId && Judged(cfg, f, m, rows)
  {
    hide Coarse, Curve, SortedBy, Flatness, HasRival, PeaksUpTo, CandidateAt, PickOf;
    var best, second := SelectBestAndSecond(rows);
    var flatness := Flatness(rows, best.score);
    var peaks := CountPeaks(rows);
    var multimodal := IsMultimodal(rows, best, cfg.multimodalCheck, cfg.peakSeparation, cfg.maxPeakRatio);
    m := MatchSummary(scanId, true, false, Ok, best, second, best.score - second.score, flatness,
                      flatness > cfg.maxFlatness, multimodal, peaks);
    SameElements(rows, Curve(cfg, f));
    assert best in rows;
    assert best in Curve(cfg, f);
    if best.score < cfg.minBestScore { m := m.(reason := LowBestScore); }
    else if m.margin < cfg.minMargin { m := m.(reason := LowScoreMargin); }
    else if best.inlierRatio < cfg.minInlierRatio { m := m.(reason := LowInlierRatio); }
    else if m.flat { m := m.(reason := CurveFlat); }
    else if m.multimodal { m := m.(reason := Multimodal); }
    else if Abs(best.yaw) > cfg.maxSearch + TINY {
      assert false; // the search range is never left
    } else {
      m := m.(usable := true);
    }
  }

  /** The curve that matching a scan reports. */
  function RowsOf(cfg: Config, scan: C.Record, occupied: nat, known: nat,
                  fit: seq<C.Sample> -> (real -> Fit)): seq<Candidate>
    requires cfg.maxSamples > 0
  {
    if Refusal(cfg, scan, occupied, known) != Ok then []
    else SortedBy(Curve(cfg, fit(SelectedSamples(scan.samples, cfg.maxSamples))), ByYaw)
  }

  /** m is the summary of matching the scan. */
  ghost predicate Matched(cfg: Config, scan: C.Record, occupied: nat, known: nat, fit: seq<C.Sample> -> (real -> Fit),
                          m: MatchSummary)
    requires cfg.maxSamples > 0
  {
    var why := Refusal(cfg, scan, occupied, known);
    if why != Ok then m == Rejected(scan.summary.scanId, why)
    else
      && m.scanId == scan.summary.scanId
      && Judged(cfg, fit(SelectedSamples(scan.samples, cfg.maxSamples)), m, RowsOf(cfg, scan, occupied, known, fit))
  }

  /** The curves of all scans, one after the other. */
  function AllRows(cfg: Config, scans: seq<C.Record>, occupied: nat, known: nat,
                   fit: seq<C.Sample> -> (real -> Fit)): seq<Candidate>
    requires cfg.maxSamples > 0
  {
    if scans == [] then []
    else
      var last := |scans| - 1;
      AllRows(cfg, scans[..last], occupied, known, fit) + RowsOf(cfg, scans[last], occupied, known, fit)
  }

  /** `fit` tells how the selected samples fit the map at each yaw. */
  method MatchOne(cfg: Config, scan: C.Record, occupied: nat, known: nat, fit: seq<C.Sample> -> (real -> Fit))
    returns (m: MatchSummary, rows: seq<Candidate>)
    requires cfg.Valid()
    ensures rows == RowsOf(cfg, scan, occupied, known, fit) && Matched(cfg, scan, occupied, known, fit, m)
  {
    var x := scan.summary;
    rows := [];
    if cfg.requireComplete && !x.complete { return Rejected(x.scanId, RequireCompleteSession), []; }
    if x.complete && !cfg.onCompleted { return Rejected(x.scanId, CompletedScanDisabled), []; }
    if !x.complete && x.useful && !cfg.onUseful { return Rejected(x.scanId, UsefulScanDisabled), []; }
    if !x.complete && !x.useful { return Rejected(x.scanId, ScanNotUseful), []; }
    if x.valid < cfg.minValidSamples { return Rejected(x.scanId, InsufficientSamples), []; }
    if x.validBins < cfg.minValidBins { return Rejected(x.scanId, InsufficientBins), []; }
    if x.observed < cfg.minObserved { return Rejected(x.scanId, InsufficientYawCoverage), []; }
    if BinRatio(x) < cfg.minBinRatio { return Rejected(x.scanId, LowValidBinRatio), []; }
    if occupied == 0 || known == 0 { return Rejected(x.scanId, NoMapSupport), []; }
    var samples := SelectValidSamples(scan.samples, cfg.maxSamples);
    if |samples| < cfg.minValidSamples { return Rejected(x.scanId, InsufficientSamples), []; }
    hide BinRatio, SelectedSamples, Judged, SortedBy, Coarse, Curve, Genuine;
    var f := fit(samples);
    var curve := BuildCurve(cfg, f);
    CurveIsGenuine(cfg, f);
    rows := SortedBy(curve, ByYaw);
    m := Judge(cfg, f, x.scanId, rows);
  }

  // ----- the object -----

  datatype Stats = Stats(attempts: nat, usable: nat, rejected: nat)

  function CountOne(t: Stats, m: MatchSummary): Stats {
    if m.usable then Stats(t.attempts + 1, t.usable + 1, t.rejected)
    else Stats(t.attempts + 1, t.usable, t.rejected + 1)
  }

  function Counted(t: Stats, made: seq<MatchSummary>): Stats {
    if made == [] then t else CountOne(Counted(t, made[..|made| - 1]), made[|made| - 1])
  }

  ghost predicate AllMatched(cfg: Config, scans: seq<C.Record>, occupied: nat, known: nat,
                             fit: seq<C.Sample> -> (real -> Fit),
                             made: seq<MatchSummary>)
    requires cfg.maxSamples > 0
  {
    |made| == |scans| && forall k :: 0 <= k < |scans| ==> Matched(cfg, scans[k], occupied, known, fit, made[k])
  }

  lemma {:induction false} MatchedSnoc(cfg: Config, scans: seq<C.Record>, i: nat, occupied: nat, known: nat,
                                       fit: seq<C.Sample> -> (real -> Fit), made: seq<MatchSummary>, m: MatchSummary)
    requires cfg.maxSamples > 0 && i < |scans| && AllMatched(cfg, scans[..i], occupied, known, fit, made)
    requires Matched(cfg, scans[i], occupied, known, fit, m)
    ensures AllMatched(cfg, scans[..i + 1], occupied, known, fit, made + [m])
    ensures AllRows(cfg, scans[..i + 1], occupied, known, fit)
            == AllRows(cfg, scans[..i], occupied, known, fit) + RowsOf(cfg, scans[i], occupied, known, fit)
  {
    hide Matched, RowsOf;
    assert scans[..i + 1][..i] == scans[..i];
  }

  /** Every summary is one attempt, and either usable or rejected. */
  lemma {:induction false} AttemptsAreAccounted(t: Stats, made: seq<MatchSummary>)
    ensures var u := Counted(t, made);
            && u.attempts == t.attempts + |made|
            && (t.attempts == t.usable + t.rejected ==> u.attempts == u.usable + u.rejected)
  {
    if made != [] {
      AttemptsAreAccounted(t, made[..|made| - 1]);
    }
  }

  method MatchAll(cfg: Config, scans: seq<C.Record>, occupied: nat, known: nat, fit: seq<C.Sample> -> (real -> Fit))
    returns (ms: seq<MatchSummary>, rows: seq<Candidate>)
    requires cfg.Valid()
    ensures AllMatched(cfg, scans, occupied, known, fit, ms) && rows == AllRows(cfg, scans, occupied, known, fit)
  {
    ms, rows := [], [];
    for i := 0 to |scans|
      invariant AllMatched(cfg, scans[..i], occupied, known, fit, ms)
      invariant rows == AllRows(cfg, scans[..i], occupied, known, fit)
    {
      hide AllMatched, AllRows, Counted, Matched, RowsOf, CountOne;
      var m, r := MatchOne(cfg, scans[i], occupied, known, fit);
      MatchedSnoc(cfg, scans, i, occupied, known, fit, ms, m);
      ms, rows := ms + [m], rows + r;
    }
    assert scans[..|scans|] == scans;
  }

  class SparseScanYawMatcher {
    const cfg: Config
    var curveRows: seq<Candidate>
    var summaries: seq<MatchSummary>
    var stats: Stats

    constructor (cfg: Config)
      ensures this.cfg == cfg && curveRows == [] && summaries == [] && stats == Stats(0, 0, 0)
    {
      this.cfg := cfg;
      curveRows, summaries, stats := [], [], Stats(0, 0, 0);
    }

    method UpdateStats(m: MatchSummary)
      modifies this`stats
      ensures stats == CountOne(old(stats), m)
    {
      stats := stats.(attempts := stats.attempts + 1);
      if m.usable { stats := stats.(usable := stats.usable + 1); }
      else { stats := stats.(rejected := stats.rejected + 1); }
    }

    /** One summary and one curve per scan, in order; counted once each. */
    method Update(scans: seq<C.Record>, occupied: nat, known: nat, fit: seq<C.Sample> -> (real -> Fit))
      returns (ghost made: seq<MatchSummary>)
      requires cfg.Valid()
      modifies this
      ensures if cfg.enabled then AllMatched(cfg, scans, occupied, known, fit, made) else made == []
      ensures curveRows == old(curveRows) + (if cfg.enabled then AllRows(cfg, scans, occupied, known, fit) else [])
      ensures summaries == old(summaries) + made && stats == Counted(old(stats), made)
    {
      hide AllMatched, AllRows;
      made := [];
      if !cfg.enabled { return; }
      var ms, rows := MatchAll(cfg, scans, occupied, known, fit);
      made := ms;
      curveRows := curveRows + rows;
      summaries := summaries + ms;
      for i := 0 to |ms|
        invariant stats == Counted(old(stats), ms[..i])
        invariant curveRows == old(curveRows) + rows && summaries == old(summaries) + ms
      {
        assert ms[..i + 1][..i] == ms[..i];
        UpdateStats(ms[i]);
      }
      assert ms[..|ms|] == ms;
    }

    method DrainCurveRows() returns (out: seq<Candidate>)
      modifies this`curveRows
      ensures out == old(curveRows) && curveRows == []
    {
      out := curveRows;
      curveRows := [];
    }

    method DrainSummaries() returns (out: seq<MatchSummary>)
      modifies this`summaries
      ensures out == old(summaries) && summaries == []
    {
      out := summaries;
      summaries := [];
    }
  }
}
