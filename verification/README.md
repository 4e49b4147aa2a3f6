# Verified model of robot_slamd's mapping, yaw correction and supervision logic

A Dafny model of the parts of robot_slamd whose behaviour is hard to see from reading one function:

- **Occupancy grid** (`LineCells`, `ChunkAddress`, `FlatMap`, `NearestCell`, `ChunkedGrid`, `RayReadings`, `PreviewMap`).
  `ChunkedGrid.Grid` stores chunk arrays in a table and is proved to represent a flat map from cells to
  log-odds on the unbounded plane. Line walk, ray update, bounds, statistics and nearest-occupied search
  are all specified over that flat map; `RayReadings` says what any sequence of readings adds up to.
- **Yaw write-back** (`Angles`, `YawTypes`, `YawGate`, `Localizer`, `YawApply`, `PostApply`, `YawChain`,
  `YawTheorems`, `YawBacking`, `YawAcceptance`, `YawWriting`, `YawRecords`, `Odometry`, `YawSensing`). Four objects are
  composed as the application composes them, and `YawTheorems` speaks about every run of odometry steps and presented
  summaries. `YawAcceptance` says which summaries the gate accepts, `YawBacking` which writes its candidates stand
  behind, `YawWriting` exactly when a write is made, `YawRecords` what is counted and shown; `YawSensing` ties the runs
  to encoder and gyro readings, whose integration is the subject of `Odometry`.
- **Autonomous coordinator** (`Coordinator`, `CoordinatorTheorems`, `CoordinatorTransitions`). Ports are inputs of each
  step, so every theorem holds for whatever they answer; a ghost trace records what was sent.
- **Sparse-scan collector** (`Collector`, `CollectorTheorems`, `CollectorMeaning`, `CollectorTransitions`),
  **yaw matcher** (`YawCurve`, `YawMatcher`, `YawMatching`, `YawSeparation`, `YawCollisions`, `MatchMeaning`) and
  **spin matcher** (`SpinMatcher`, `SpinSummary`), with sequence ends and sorting in `Sequences`.
- **Timed machines** (`ScanPlanner`, `ScanManager`, `MapQuality`, `Supervisor`), with what their steps mean in
  `PlannerTransitions`, `ManagerTransitions`, `QualityMeaning` and `SupervisorTransitions`.

Each object that the program updates in place is a class here. Its methods follow the program's statements
and are proved equal to a step function on values; the theorems are lemmas about runs of that step
function, and the modules named for transitions, meaning, acceptance, writing and records state what each step does in
terms of its input, without naming the functions that decide it. Preconditions are what `validate_config` enforces, and
timestamps that are not negative and do not go back where a lemma says so (`Ordered`, `TimesAscend`, `TimesAreNonNegative`).

Doubles are reals. Log-odds to probability, ray end points, the fit of a yaw and the residual of an offset
are parameters. Truncating integer division is modelled as the program's, not as Dafny's.

`dafny verify dfyconfig.toml` checks the whole project.

## What turned out false or without effect

- The nearest-occupied search does not cover its radius for every configuration: the divisor is clamped at
  1e-9 while the cell size is not. `NearestCell.WindowIsCompleteIff` gives the exact condition,
  `SearchIsCompleteIff` carries it to maps, `NanometreReaches` shows that any resolution from 1e-9 up meets it, and
  `PicometreFails` gives a map on which the only hit is missed.
- Refinement can bring two yaws of the curve closer than 1e-9. `YawCurve.SeparatedIff` gives the exact condition of
  each insertion, `YawSeparation.SafeStepsIff` the exact step sizes that exclude it whatever the ranges (coarse from
  2e-9, fine from 1e-9), `YawCollisions.SeparatesIff` the exact condition for one configuration, and
  `YawSeparation.SeparationCanBreak` a valid configuration on which it happens.
- The second-best candidate is not always found. `YawMatcher.SecondIsRunnerUpIff` gives the exact condition,
  `YawSeparation.RunnerUpCanBeSkipped` a valid configuration on which it is skipped.
- The policy's command limit cannot act under the default options (`CoordinatorTheorems.LimitReachableIff`).
- The spin matcher's minimum reliability has no effect (`SpinSummary.ReliabilityIsRedundant`).
- Not every write is backed by a suggestion. When no `would_apply` is required, a write of zero degrees goes through
  while the gate is still collecting candidates: it uses up a write of the session and empties the gate's window
  (`YawBacking.UnbackedWriteEffect`). `YawBacking.UnbackedWritesIff` gives the exact switches,
  `YawBacking.UnbackedWriteHappens` a valid configuration and run; `YawBacking.EveryWriteIsBacked` is what holds
  under all others.
- A startup scan request that arms the manager is withdrawn by the next update unless something else asks by then
  (`ScanManager.StartupIsWithdrawn`), so with startup scans alone no scan is ever announced
  (`ScanManager.StartupAloneNeverScans`). A startup request can lead to a scan in runs where other requests arise too;
  `ScanManager.StartupScansIff` gives the configurations that have such runs, `ScanManager.StartupScanHappens` one.

## Model

| member | source | states |
|---|---|---|
| `LineCells.OffsetIsNearest` | include/robot_slamd/core/grid.hpp:214-225 | after k moves along the major axis the walk's other coordinate is the ideal offset rounded to the nearest cell, halves up; no other integer is |
| `LineCells.LineEnds` | include/robot_slamd/core/grid.hpp:214-225 | the walk starts at the first end point and after max(\|dx\|,\|dy\|) moves stands at the second, in every octant |
| `LineCells.LineInBox` | include/robot_slamd/core/grid.hpp:214-225 | the walk never leaves the bounding box of its end points |
| `LineCells.LineIsConnected` | include/robot_slamd/core/grid.hpp:214-225 | consecutive cells are distinct 8-neighbours |
| `LineCells.LineIsInjective` | include/robot_slamd/core/grid.hpp:214-225 | no cell is visited twice |
| `LineCells.LineIsClose` | include/robot_slamd/core/grid.hpp:214-225 | every cell lies within half a cell of the ideal line along both axes |
| `LineCells.WalkStep` | include/robot_slamd/core/grid.hpp:216-224 | the error-term branches move from the k-th cell of the line to the next and keep the error equal to its closed form |
| `LineCells.AddLineCells` | include/robot_slamd/core/grid.hpp:214-225 | the loop ends from any end points and any set and leaves exactly the budgeted line: set and remaining budget |
| `LineCells.InsertIsSegment` | include/robot_slamd/core/grid.hpp:214-225 | what a budgeted walk adds is a prefix of the line; it is the whole line unless the budget ran out |
| `LineCells.InsertSpends` | include/robot_slamd/core/grid.hpp:220-221 | each new cell costs one unit of budget, cells already present cost nothing, and the budget never goes below zero |
| `LineCells.VisitsWhileBudget` | include/robot_slamd/core/grid.hpp:218-221 | the walk stops no earlier than it must: at every cell it visits there was budget left |
| `LineCells.EnoughBudget` | include/robot_slamd/core/grid.hpp:214-225 | with budget for every cell of the line the whole line is inserted |
| `PreviewMap.SetPx` | tools/preview_map.py:63-67 | the stamp colours exactly the pixels within the radius that lie inside the image |
| `PreviewMap.DrawLine` | tools/preview_map.py:70-86 | the same walk without a budget ends and colours exactly the pixels near some cell of the line, from any end points |
| `ChunkAddress.FloorDivMeaning` | include/robot_slamd/core/grid.hpp:207-208 | truncating division with the sign correction is floor division: quotient and remainder are the only pair with a == b*q + r and 0 <= r < b, negatives included |
| `ChunkAddress.AddressOfCell` | include/robot_slamd/core/grid.hpp:228-232 | rebuilding a cell from its chunk and index gives the cell back |
| `ChunkAddress.CellOfAddress` | include/robot_slamd/core/grid.hpp:228-232 | every chunk and index below cc*cc is the address of exactly the cell rebuilt from it |
| `ChunkAddress.AddressIsInjective` | include/robot_slamd/core/grid.hpp:228-232 | two cells with one address are the same cell |
| `ChunkedGrid.Grid.AddLogOddsCell` | include/robot_slamd/core/grid.hpp:227-246 | one cell of the represented map gets the point of [min, max] nearest to its old value plus the delta, no other changes, and the bounds stay the exact bounding box of the touched cells |
| `ChunkedGrid.Grid.Allocate` | include/robot_slamd/core/grid.hpp:233-234 | creating a chunk changes no cell of the represented map |
| `ChunkedGrid.Grid.LogOddsCell` | include/robot_slamd/core/grid.hpp:73-81 | a read returns the map's value, zero where nothing was written |
| `ChunkedGrid.Grid.IsOccupiedCell` | include/robot_slamd/core/grid.hpp:88-95 | occupied exactly when the cell was written and its probability reaches the threshold |
| `ChunkedGrid.Grid.QueryCell` | include/robot_slamd/core/grid.hpp:114-126 | out of map exactly when no cell of the same chunk was ever written; free and occupied as the map says |
| `ChunkedGrid.Grid.UpdateTofRay` | include/robot_slamd/core/grid.hpp:46-71 | a range reading changes the map exactly as the set-based specification says |
| `ChunkedGrid.Grid.GatherCells` | include/robot_slamd/core/grid.hpp:49-66 | the budgeted collection of free and hit cells equals its specification |
| `ChunkedGrid.Grid.AddToAll` | include/robot_slamd/core/grid.hpp:67-70 | adding a delta to each cell of an unordered set gives the same map for every order |
| `FlatMap.OrderIsIrrelevant` | include/robot_slamd/core/grid.hpp:67-70 | writing the cells of a set one by one in any order equals writing them at once |
| `FlatMap.RayUpdateMeaning` | include/robot_slamd/core/grid.hpp:49-70 | each hit cell moves by the occupied delta and each free cell by the free delta, as far as the limits allow; no other cell changes; occupied wins over free; at most max(1, max_cells) free cells are written; a written cell is a hit or lies on a ray |
| `FlatMap.AddIsNearest` | include/robot_slamd/core/grid.hpp:236-236 | adding a delta gives the point of [min, max] nearest to the sum: the sum itself inside, the bound it passes otherwise |
| `FlatMap.TwoWrites` | include/robot_slamd/core/grid.hpp:67-70 | after the free cells and then the occupied ones are written, each cell has moved by its own delta as far as the limits allow, and no other cell has changed |
| `RayReadings.ReadingReaches` | include/robot_slamd/core/grid.hpp:49-66 | a reading's free cells lie on the lines of its rays and its occupied cells are hits; unless exactly max(1, max_cells) free cells used up the budget, they are all of these |
| `RayReadings.ReadingsAddUp` | include/robot_slamd/core/grid.hpp:46-71 | over any sequence of readings whose deltas at a cell have one sign, the cell ends at the saturated sum of its deltas |
| `RayReadings.HitsAddUp` | include/robot_slamd/core/grid.hpp:46-71 | a cell that k readings hit with one delta and no other reading reaches ends at its old value plus k times the delta, saturated at the limits |
| `RayReadings.HitsFromNothing` | include/robot_slamd/core/grid.hpp:46-81 | in an empty map such a cell holds k times the delta, or the limit that this lies beyond |
| `FlatMap.GatherSpends` | include/robot_slamd/core/grid.hpp:54-66 | free cells gathered are exactly the budget spent; hit cells number at most one per ray |
| `FlatMap.EnoughForAllRays` | include/robot_slamd/core/grid.hpp:54-66 | with budget for all rays nothing is dropped: every line is free and every hit is recorded |
| `FlatMap.BoxGrows` | include/robot_slamd/core/grid.hpp:237-244 | including a cell keeps the bounds the exact bounding box |
| `FlatMap.BoundingBoxIsUnique` | include/robot_slamd/core/grid.hpp:237-244 | a set has one bounding box, so the bounds do not depend on write order |
| `FlatMap.CountsGrow` | include/robot_slamd/core/grid.hpp:180-199 | counting one more cell keeps the counters equal to the cardinalities of touched, occupied and free cells |
| `ChunkedGrid.Grid.Stats` | include/robot_slamd/core/grid.hpp:176-204 | counters are the cardinalities of the map's occupied and free cells; occupied + free + unknown = chunks * cc * cc; the box is the bounding box |
| `NearestCell.WindowIsCompleteIff` | include/robot_slamd/core/grid.hpp:128-148 | the searched window contains every cell within the radius, from every query point, exactly when floor(radius/resolution + 1/2) does not exceed the window's half side |
| `NearestCell.WindowHitsAreAll` | include/robot_slamd/core/grid.hpp:128-148 | under that test the hits of the window are all hits of the unbounded map |
| `NearestCell.NanometreReaches` | include/robot_slamd/core/grid.hpp:128-148 | the test holds for every resolution of at least 1e-9 |
| `NearestCell.SearchIsCompleteIff` | include/robot_slamd/core/grid.hpp:128-148 | for a map in which some log-odds count as occupied: the hits the search sees are all hits, on every map and from every point, iff the window reaches |
| `NearestCell.PicometreFails` | include/robot_slamd/core/grid.hpp:128-148 | a concrete valid configuration and a map whose only occupied cell lies within the radius and outside the window, so the search reports nothing |
| `ChunkedGrid.Grid.NearestOccupiedDistance` | include/robot_slamd/core/grid.hpp:128-148 | found iff an occupied cell of the window lies within the radius, with the least distance; over the whole map when the window reaches |
| `Angles.WrapPiLoop` | include/robot_slamd/core/common.hpp:113-117 | the two loops end at the representative in [-pi, pi] that differs from the argument by whole turns |
| `Angles.WrapIsShortest` | include/robot_slamd/core/common.hpp:113-117 | no congruent angle is closer to zero |
| `Angles.WrapTriangle` | include/robot_slamd/core/common.hpp:113-117 | triangle inequality on the circle |
| `Angles.WrapUnique` | include/robot_slamd/core/common.hpp:113-117 | the wrapped form is unique up to the choice between pi and -pi |
| `Angles.DegreesMean` | include/robot_slamd/core/common.hpp:111-111 | 180 degrees are pi, conversion adds, and each direction undoes the other |
| `YawGate.YawCorrectionGate.Update` | include/robot_slamd/active_scan/yaw_correction_gate.hpp:95-225 | one update equals the gate's step on values: window, cooldown, identities, snapshot and counters |
| `YawGate.YawCorrectionGate.NotifyApplied` | include/robot_slamd/active_scan/yaw_correction_gate.hpp:191-225 | feedback empties the window, remembers the identity and extends the cooldown |
| `YawGate.GateEffect` | include/robot_slamd/active_scan/yaw_correction_gate.hpp:95-189 | only an unseen summary is reported and is then seen; only an accepted one joins the window; only a decision moves the cooldown |
| `YawGate.JudgeEffect` | include/robot_slamd/active_scan/yaw_correction_gate.hpp:131-189 | a suggestion needs a full, one-signed window with spread within the limit, whose last element is the candidate |
| `YawGate.SuggestBounds` | include/robot_slamd/active_scan/yaw_correction_gate.hpp:158-170 | the suggestion has the candidate's sign and is no larger than it or the step limit |
| `YawAcceptance.PrecheckPassesSound` | include/robot_slamd/active_scan/yaw_correction_gate.hpp:301-345 | a summary passes the prechecks iff it is usable as required, its reason is ok, score, margin and inlier ratio reach their minima, flatness does not exceed its maximum, the curve is neither flat nor multimodal, the candidate lies within its bounds, the robot is slow, the pose finite, the supervisor not lost, and the required scan evidence is there |
| `YawAcceptance.PrecheckNamesFirst` | include/robot_slamd/active_scan/yaw_correction_gate.hpp:301-345 | a reason is reported iff its limit is broken and no limit before it is |
| `YawAcceptance.WindowMeans` | include/robot_slamd/active_scan/yaw_correction_gate.hpp:368-371 | a candidate that joins leaves the last N of the candidates so far, the new one last |
| `Angles.ClampIsNearest` | include/robot_slamd/active_scan/yaw_correction_gate.hpp:166-168 | cutting at limits gives the point between them that is nearest |
| `YawAcceptance.GateReports` | include/robot_slamd/active_scan/yaw_correction_gate.hpp:95-189 | what each update reports: nothing for a summary that is not examined; the first broken limit for one that is not sound; for a sound one, would_apply iff the window is full, of one sign and narrow and the step large enough, and otherwise why not; the step is the gained candidate cut at the limit |
| `YawAcceptance.AcceptsSound` | include/robot_slamd/active_scan/yaw_correction_gate.hpp:95-189 | over every run: an event joins the window iff its summary is examined and sound |
| `YawAcceptance.SuggestionRestsOnSound` | include/robot_slamd/active_scan/yaw_correction_gate.hpp:131-189 | over every run in which summaries come in order and are only repeated: each of the N different candidates behind a suggestion was examined and sound |
| `YawAcceptance.SuggestsIff` | include/robot_slamd/active_scan/yaw_correction_gate.hpp:95-189 | over every run: a suggestion is made iff the summary is examined and sound, the window with it is full, of one sign and narrow, and the step is not below the minimum |
| `YawAcceptance.NewSummaryIsExamined` | include/robot_slamd/active_scan/yaw_correction_gate.hpp:95-129 | over every run: a summary not presented before is examined when the cooldowns of all decisions and writes have passed |
| `YawRecords.UpdateIsRecorded` | include/robot_slamd/active_scan/yaw_correction_gate.hpp:95-189 | each update counts new summaries, suggestions, rejections and inconsistent windows, shows size and spread of the window, and ends in the state that its report calls for |
| `YawRecords.SpreadMeans` | include/robot_slamd/active_scan/yaw_correction_gate.hpp:373-377 | the spread is the largest difference between two candidates of the window |
| `Localizer.LocalizerObject.Update` | include/robot_slamd/mapping/localizer.hpp:9-77 | one odometry update equals its step on values |
| `Localizer.LocalizerObject.ApplyYawCorrectionOnly` | include/robot_slamd/mapping/localizer.hpp:79-89 | a correction is refused exactly when uninitialized or too large; otherwise heading and offset turn by it |
| `Localizer.MoveKeepsHeading` | include/robot_slamd/mapping/localizer.hpp:59-65 | an odometry step leaves heading congruent to fused yaw plus offset and within [-pi, pi] |
| `Localizer.CorrectionKeepsHeading` | include/robot_slamd/mapping/localizer.hpp:79-89 | so does a correction; the offset grows by at most its size |
| `Odometry.WheelStep` | include/robot_slamd/mapping/localizer.hpp:26-60 | one reading: unless a wheel jumps, the encoder heading turns by the difference of the wheels' ways over the wheel base, right minus left, and the speed is the mean way over the time; a jump adds no rotation and is counted |
| `Odometry.EncoderHeading` | include/robot_slamd/mapping/localizer.hpp:26-60 | over every run of readings without a jump: the encoder heading has turned by the ways of right minus left wheel between first and last ticks over the wheel base; the sum telescopes |
| `Odometry.GyroStep` | include/robot_slamd/mapping/localizer.hpp:40-62 | one reading: the filtered gyro lies between its old value and the reading, moves the set share of the way and ignores spikes; the gyro heading turns by (filtered gyro - bias) * dt; the bias moves towards the gyro only at rest |
| `Odometry.GyroHeading` | include/robot_slamd/mapping/localizer.hpp:40-62 | over every run of readings the gyro heading is congruent to its start plus the sum of (filtered gyro - bias) * dt |
| `Odometry.FusedOnArc` | include/robot_slamd/mapping/localizer.hpp:63-63 | the fused heading lies on the shorter arc between both headings, at the weighted distances from its ends, and is the encoder's at alpha 1 and the gyro's at alpha 0, up to whole turns |
| `Odometry.DeadReckoning` | include/robot_slamd/mapping/localizer.hpp:9-77 | from the first reading on, over every run without a jump: encoder heading by ticks, gyro heading by the sum, and the fused heading is their fusion |
| `YawApply.YawCorrectionApply.Update` | include/robot_slamd/active_scan/yaw_correction_apply.hpp:100-281 | one apply attempt equals its step on values, localizer included |
| `YawApply.ApplyEffect` | include/robot_slamd/active_scan/yaw_correction_apply.hpp:153-280 | attempts = successes + rejections and rejections = gate + safety + cooldown; a write happened under all its conditions or nothing moved |
| `YawApply.LocalizerRefusesIff` | include/robot_slamd/active_scan/yaw_correction_apply.hpp:206-265 | the localizer's own refusal, after all checks passed, happens exactly when it is uninitialized |
| `YawWriting.TrustedIff` | include/robot_slamd/active_scan/yaw_correction_apply.hpp:77-95 | the localization is valid iff the localizer has started, the supervisor is neither lost nor degraded, the quality is known and neither bad nor invalid, pose and velocity are finite, and both evidence flags are set |
| `YawWriting.VerdictNamesFirst` | include/robot_slamd/active_scan/yaw_correction_apply.hpp:158-244 | the outcome of an attempt is the first ground that forbids it, and a write iff none does |
| `YawWriting.AttemptMeans` | include/robot_slamd/active_scan/yaw_correction_apply.hpp:100-281 | what an attempt does to snapshot, state, session, localizer and counters: a refusal moves exactly the bucket of its ground |
| `YawRecords.AttemptShows` | include/robot_slamd/active_scan/yaw_correction_apply.hpp:100-281 | what the snapshot of an attempt shows: summary, session, headings before and after, and the state for every outcome |
| `YawRecords.WriteClears` | include/robot_slamd/active_scan/yaw_correction_gate.hpp:191-225 | a write empties the gate's window and snapshot and prolongs its cooldown; nothing else feeds back |
| `YawRecords.RunIsTallied` | include/robot_slamd/active_scan/yaw_correction_gate.hpp:191-225 | over every run the gate has counted exactly the suggestions and the writes |
| `PostApply.YawCorrectionPostApplyValidator.Update` | include/robot_slamd/active_scan/yaw_correction_post_apply_validator.hpp:73-153 | one validator update equals its step on values |
| `PostApply.ValidatedMeansImproved` | include/robot_slamd/active_scan/yaw_correction_post_apply_validator.hpp:80-153 | one update enters VALIDATED iff it was waiting, in time, and shows a fresh, usable, unambiguous match smaller than the remembered candidate by the required amount |
| `PostApply.VerdictMeans` | include/robot_slamd/active_scan/yaw_correction_post_apply_validator.hpp:80-153 | the verdict on a write for every case: when it keeps waiting, times out, is validated, suspect or failed, in terms of the match and the candidates before and after |
| `YawChain.YawCorrectionPipeline.PresentSummary` | include/robot_slamd/app/app.hpp:360-381 | one presented summary runs gate, apply, feedback and validator in that order |
| `YawChain.YawCorrectionPipeline.UpdateApplyFromGate` | include/robot_slamd/app/app.hpp:338-358 | apply, feedback on success, then the validator |
| `YawChain.YawCorrectionPipeline.UpdatePostApply` | include/robot_slamd/app/app.hpp:322-336 | the validator sees the apply snapshot only when a write happened |
| `YawTheorems.RunHasInv` | include/robot_slamd/app/app.hpp:322-381 | over every run: accounts balance, localizer and session agree on count and total, both within their limits, window never longer than N |
| `YawTheorems.HeadingStaysNearOdometry` | include/robot_slamd/active_scan/yaw_correction_apply.hpp:206-265 | over every run the published heading is odometry plus offset, the offset is the sum of all writes, and its size never exceeds the configured session total |
| `YawTheorems.OffsetIsSum` | include/robot_slamd/mapping/localizer.hpp:79-89 | the offset is congruent to the signed sum of all writes |
| `YawTheorems.LocalizerNeverRefuses` | include/robot_slamd/active_scan/yaw_correction_apply.hpp:250-262 | the localizer_rejected outcome never occurs in the application |
| `YawTheorems.WindowIsRecent` | include/robot_slamd/active_scan/yaw_correction_gate.hpp:368-372 | the window is the last N candidates that passed the prechecks since the last write; rejections do not clear it |
| `YawTheorems.EverySuggestionIsBacked` | include/robot_slamd/active_scan/yaw_correction_gate.hpp:131-189 | over every run, in dry-run mode too: behind every would_apply stand exactly the last N accepted candidates, of one sign and with spread within the limit; the suggestion has their sign and is bounded by candidate and step |
| `YawTheorems.EveryTurnIsBacked` | include/robot_slamd/active_scan/yaw_correction_gate.hpp:131-189 | the special case of writes that turn the heading, for every configuration: each repeats a suggestion made in the same event, and so is backed in the same way |
| `YawBacking.WriteIsBackedIff` | include/robot_slamd/active_scan/yaw_correction_apply.hpp:153-190 | over every run and for every write, those of zero degrees included: it is made on a suggestion exactly when the gate's window is full |
| `YawBacking.UnbackedWritesIff` | include/robot_slamd/active_scan/yaw_correction_apply.hpp:179-190 | some run makes a write without a suggestion iff write-back is on and acknowledged, match evidence is allowed, no would_apply is required, the required reason is empty or "not enough candidates", and the window is two or more |
| `YawBacking.EveryWriteIsBacked` | include/robot_slamd/active_scan/yaw_correction_apply.hpp:153-190 | under all other configurations every write, zero or not, repeats a suggestion and is backed by exactly the last N accepted candidates |
| `YawBacking.UnbackedWriteEffect` | include/robot_slamd/active_scan/yaw_correction_apply.hpp:206-280 | a write without a suggestion leaves the heading, uses up one write of the session, stamps the write time, empties the gate's window and starts post-apply validation |
| `YawBacking.UnbackedWriteHappens` | include/robot_slamd/active_scan/yaw_correction_apply.hpp:153-190 | a concrete valid configuration and run in which the first candidate, one of two needed, is written |
| `YawBacking.SuggestionHasSupport` | include/robot_slamd/active_scan/yaw_correction_gate.hpp:131-189 | over every run in which summaries come in order and are only repeated: behind every suggestion stand N different summaries, presented one after the other since the last write, with strictly increasing scan ids |
| `YawTheorems.DecisionsAreSpaced` | include/robot_slamd/active_scan/yaw_correction_gate.hpp:104-119 | any two gate decisions are at least one cooldown apart |
| `YawTheorems.WritesAreSpaced` | include/robot_slamd/active_scan/yaw_correction_apply.hpp:153-280 | any two writes are at least min_seconds_between_writebacks apart |
| `YawTheorems.EachSummaryOnce` | include/robot_slamd/active_scan/yaw_correction_gate.hpp:256-265 | however often a summary is presented again, it is reported at most once and written at most once |
| `YawWriting.SessionRemembers` | include/robot_slamd/active_scan/yaw_correction_apply.hpp:206-265 | over every run the session's count is the number of writes, its total the sum of their sizes, and its memory that of the last write |
| `YawWriting.WritesIff` | include/robot_slamd/active_scan/yaw_correction_apply.hpp:77-281 | over every run: an event makes a write iff it presents a summary and the switches, the gate's report, the started and trusted localizer, the speeds, the correction's size, the writes made so far and the last write all allow it |
| `YawTheorems.WaitingRemembers` | include/robot_slamd/active_scan/yaw_correction_post_apply_validator.hpp:80-98 | over every run: a validator that waits holds identity, time, candidate and size of the last write, and no write has come since |
| `YawTheorems.ValidatedWritesImproved` | include/robot_slamd/active_scan/yaw_correction_post_apply_validator.hpp:80-153 | over every run: an event validates exactly when the last write still awaits its verdict, the event writes nothing, and its match is fresh against that write's match, within the timeout, usable, and smaller by the improvement that write requires |
| `YawTheorems.WritesAndVerdicts` | include/robot_slamd/active_scan/yaw_correction_post_apply_validator.hpp:80-153 | every write is judged once, overtaken by a later write, or still waiting |
| `YawChain.YawCorrectionPipeline.Move` | include/robot_slamd/mapping/localizer.hpp:9-77 | an odometry update of the pipeline's localizer equals the step on values of chain and localizer together |
| `YawSensing.FullRunIsRun` | include/robot_slamd/app/app.hpp:322-381 | every run of sensor readings and summaries is a run of the chain, so every theorem about chain runs holds of it |
| `YawSensing.SameOdometry` | include/robot_slamd/mapping/localizer.hpp:9-77 | corrections change heading, offset and counters and nothing else odometry works with: the rest equals a localizer that was never corrected |
| `YawSensing.HeadingIsDeadReckoned` | include/robot_slamd/mapping/localizer.hpp:9-89 | over every run of readings and summaries without a jump: encoder heading by first and last ticks, and the published heading is the fusion plus the offset, which is the sum of all writes |
| `YawSensing.HeadingStaysNearPureOdometry` | include/robot_slamd/active_scan/yaw_correction_apply.hpp:206-265 | over every run of readings and summaries the published heading stays within the session total of the heading the same readings give without corrections |
| `Coordinator.AutonomousSlamPolicy.Decide` | include/robot_slamd/autonomy/autonomous_slam_policy.hpp:30-58 | complete on a good map, stop at the limit, else one more turn, counted |
| `Coordinator.AutonomousSlamCoordinator.StepOnce` | include/robot_slamd/autonomy/autonomous_slam_coordinator.hpp:38-118 | one step equals its specification for every answer of the ports, and the trace grows by its actions |
| `CoordinatorTransitions.StateIff` | include/robot_slamd/autonomy/autonomous_slam_coordinator.hpp:162-334 | from every state satisfying the invariant: each state is entered or kept iff its trigger in terms of the input holds; scan integration iff the effective feedback is settled without fault |
| `CoordinatorTransitions.FaultIff` | include/robot_slamd/autonomy/autonomous_slam_coordinator.hpp:162-334 | each kind of fault is raised iff its trigger holds: safety gate iff the feedback is in fault or unsettled past the timeout, and so for sensors, initialization, transport, rejection and map quality |
| `CoordinatorTransitions.StepMeans` | include/robot_slamd/autonomy/autonomous_slam_coordinator.hpp:38-118 | when a turn is sent, when a scan is integrated, when a stop is attempted and what is counted |
| `CoordinatorTransitions.FaultHolds` | include/robot_slamd/autonomy/autonomous_slam_coordinator.hpp:50-57 | over every run: a fault is held and nothing is sent until a stop request and, after it, a fresh start |
| `CoordinatorTransitions.FaultyFeedbackStops` | include/robot_slamd/autonomy/autonomous_slam_coordinator.hpp:290-308 | over every run: a faulty feedback while waiting attempts a stop in the same step, and no turn is sent before a stop request and a fresh start |
| `CoordinatorTheorems.RunHasInv` | include/robot_slamd/autonomy/autonomous_slam_coordinator.hpp:38-118 | over every run: five iterations pay for each accepted turn, iterations stay within the limit, the fault is set exactly in the fault state |
| `CoordinatorTheorems.TurnsAreBounded` | include/robot_slamd/autonomy/autonomous_slam_coordinator.hpp:222-308 | accepted turns are at most (max_iterations - 1) / 5 |
| `CoordinatorTheorems.LimitReachableIff` | include/robot_slamd/autonomy/autonomous_slam_policy.hpp:42-47 | the policy limit can act in some run iff max_iterations > 5 * max_commands + 4 |
| `CoordinatorTheorems.WorkEnds` | include/robot_slamd/autonomy/autonomous_slam_coordinator.hpp:59-112 | without stop requests a working coordinator is Completed or in Fault within its remaining iterations plus one |
| `CoordinatorTheorems.StartedRunEnds` | include/robot_slamd/autonomy/autonomous_slam_coordinator.hpp:38-112 | after a start, max_iterations + 1 steps suffice, from every reachable state |
| `CoordinatorTheorems.TurnsAreSeparated` | include/robot_slamd/autonomy/autonomous_slam_coordinator.hpp:196-308 | between any two motion commands of a run the map was integrated |
| `CoordinatorTheorems.TerminalEntry` | include/robot_slamd/autonomy/autonomous_slam_coordinator.hpp:196-334 | Completed is entered only on a good map; entering Completed or Fault attempts a stop in the same step |
| `CoordinatorTheorems.TerminalExit` | include/robot_slamd/autonomy/autonomous_slam_coordinator.hpp:50-57 | Completed and Fault are left only by a stop request, which clears the fault |
| `Collector.BinIndex` | include/robot_slamd/active_scan/sparse_scan_collector.hpp:401-405 | the index computed for a bearing is always in range, so the clamp behind it never acts |
| `Collector.Norm360Loop` | include/robot_slamd/active_scan/sparse_scan_collector.hpp:252-256 | the two loops end at the representative in [0, 360) |
| `Collector.SparseScanCollector.CollectSamples` | include/robot_slamd/active_scan/sparse_scan_collector.hpp:423-451 | the loop over the readings equals its specification, early stop included |
| `Collector.SparseScanCollector.FinalizeSession` | include/robot_slamd/active_scan/sparse_scan_collector.hpp:469-512 | one summary, one record and the session's bins are appended and counted |
| `Collector.SparseScanCollector.Update` | include/robot_slamd/active_scan/sparse_scan_collector.hpp:126-206 | one update equals its step on values |
| `CollectorTheorems.WinnerIsBest` | include/robot_slamd/active_scan/sparse_scan_collector.hpp:401-421 | a bin shows the valid sample of highest confidence, then shortest range, and is valid iff it has a valid sample |
| `CollectorTheorems.TakeKeepsTally` | include/robot_slamd/active_scan/sparse_scan_collector.hpp:423-451 | taking a sample keeps bins and counters equal to what the samples say |
| `CollectorTheorems.RunIsConserved` | include/robot_slamd/active_scan/sparse_scan_collector.hpp:126-241 | over every run with drains: started = completed + aborted + running; scan ids 1,2,3,...; one summary and one record per session; no sample or bin lost; every tally exact; completed implies useful |
| `CollectorTheorems.SessionsAreSpaced` | include/robot_slamd/active_scan/sparse_scan_collector.hpp:293-303 | a session starts no earlier than the cooldown after the end of the one before |
| `CollectorTheorems.RotationIsCovered` | include/robot_slamd/active_scan/sparse_scan_collector.hpp:360-366 | reported rotation is at least the wrapped angle between a session's first and last yaw |
| `CollectorMeaning.BearingMeans` | include/robot_slamd/active_scan/sparse_scan_collector.hpp:380-386 | a sample's bearing lies in [0, 360) and is the robot's yaw plus the sensor's mounting angle up to whole turns |
| `CollectorMeaning.BinMeans` | include/robot_slamd/active_scan/sparse_scan_collector.hpp:317-325 | the sector of a bearing's bin holds the bearing, and the sectors of all bins just cover the circle |
| `CollectorMeaning.SampleMeans` | include/robot_slamd/active_scan/sparse_scan_collector.hpp:265-268 | a sample is valid iff its reading went into the map, hit, and lies within the limits on confidence and range; the rest is what the reading said |
| `CollectorMeaning.CollectMeans` | include/robot_slamd/active_scan/sparse_scan_collector.hpp:423-451 | the samples added are, in order, those of the readings worth keeping, up to the budget |
| `CollectorMeaning.CollectCounts` | include/robot_slamd/active_scan/sparse_scan_collector.hpp:423-451 | every counter grows by the number of added samples it counts, per sensor and in all |
| `CollectorMeaning.OpensIff` | include/robot_slamd/active_scan/sparse_scan_collector.hpp:277-315 | a session opens iff the collector is idle, a scan is asked for and nothing blocks it |
| `CollectorMeaning.StopMeans` | include/robot_slamd/active_scan/sparse_scan_collector.hpp:171-201 | a running session is aborted on the first ground that ends it at once; else it goes on while it is wanted and nothing blocks it; else it ends, completed iff enough rotation has been seen |
| `CollectorTransitions.UpdateDoes` | include/robot_slamd/active_scan/sparse_scan_collector.hpp:126-206 | what an update does: when a session begins, goes on, ends completed or aborted and for which reason, and what its summary says |
| `CollectorTransitions.StateIff` | include/robot_slamd/active_scan/sparse_scan_collector.hpp:126-206 | each state is entered iff its trigger in terms of the input holds |
| `YawMatcher.ThinnedSize` | include/robot_slamd/active_scan/sparse_scan_yaw_matcher.hpp:114-126 | a downsample keeps at most the allowed number and more than half of it |
| `MatchMeaning.ValidHitsMean` | include/robot_slamd/active_scan/sparse_scan_yaw_matcher.hpp:114-118 | the samples matched are all valid hits of the scan, in order |
| `YawMatcher.StridedAt` | include/robot_slamd/active_scan/sparse_scan_yaw_matcher.hpp:121-124 | the k-th kept sample is the (k * step)-th valid one |
| `YawMatcher.SelectValidSamples` | include/robot_slamd/active_scan/sparse_scan_yaw_matcher.hpp:114-126 | the loops compute the strided selection; the size test in the loop never stops it early |
| `YawCurve.AddCandidate` | include/robot_slamd/active_scan/sparse_scan_yaw_matcher.hpp:158-166 | the loop replaces the first near candidate if the new one is better, keeps it otherwise, appends if none is near |
| `YawCurve.AddedTops` | include/robot_slamd/active_scan/sparse_scan_yaw_matcher.hpp:158-166 | adding never lowers the best score and raises it exactly to a better candidate's |
| `YawCurve.SeparatedIff` | include/robot_slamd/active_scan/sparse_scan_yaw_matcher.hpp:158-166 | the curve stays 1e-9 separated exactly when the candidate does not replace the first of several near elements |
| `YawSeparation.SafeStepsIff` | include/robot_slamd/active_scan/sparse_scan_yaw_matcher.hpp:168-179 | every curve of every valid refining configuration with these steps, for every range, window and scoring, is separated iff the coarse step is at least 2e-9 and the fine step at least 1e-9 |
| `YawCurve.SeparatedOrCollision` | include/robot_slamd/active_scan/sparse_scan_yaw_matcher.hpp:158-179 | a sweep over a separated curve leaves it separated unless a tried yaw is near an element and near another element or an earlier yaw that is not near the first |
| `YawCollisions.SeparatesIff` | include/robot_slamd/active_scan/sparse_scan_yaw_matcher.hpp:251-269 | for one valid configuration with a coarse step of at least 1e-9: every scoring gives a separated curve iff there is no refinement, or no refining sweep around a coarse yaw has a yaw near a coarse one and near another coarse or earlier fine one that is not near the first |
| `YawSeparation.SeparationCanBreak` | include/robot_slamd/active_scan/sparse_scan_yaw_matcher.hpp:251-269 | a concrete valid configuration and scoring whose finished curve is not separated |
| `YawCurve.EvaluateRange` | include/robot_slamd/active_scan/sparse_scan_yaw_matcher.hpp:168-179 | the sweep loop equals its specification |
| `MatchMeaning.SweepSpans` | include/robot_slamd/active_scan/sparse_scan_yaw_matcher.hpp:168-179 | a sweep starts at its lower end and stops within half a step of its upper one |
| `YawCurve.SweepTops` | include/robot_slamd/active_scan/sparse_scan_yaw_matcher.hpp:168-179 | after a sweep no tried yaw in range beats the best of the curve, and the best never falls |
| `YawCurve.FirstSweepSeparated` | include/robot_slamd/active_scan/sparse_scan_yaw_matcher.hpp:168-179 | a first sweep is separated for every step and every scoring |
| `YawCurve.RefiningSweepSeparated` | include/robot_slamd/active_scan/sparse_scan_yaw_matcher.hpp:168-179 | a refining sweep of step >= 1e-9 over a curve with gaps >= 2e-9 is separated |
| `YawMatching.CurveIsSeparated` | include/robot_slamd/active_scan/sparse_scan_yaw_matcher.hpp:251-269 | the finished curve is separated: always without refinement, with it for coarse step >= 2e-9 and fine step >= 1e-9 |
| `YawMatching.CurveIsGenuine` | include/robot_slamd/active_scan/sparse_scan_yaw_matcher.hpp:251-269 | every curve element lies in the search range with its own fit; refinement never lowers the best; no tried yaw beats it |
| `YawMatching.CoarseFindsCandidates` | include/robot_slamd/active_scan/sparse_scan_yaw_matcher.hpp:251-255 | the coarse sweep is never empty, so no_candidates is never reported |
| `YawMatcher.SelectBestAndSecond` | include/robot_slamd/active_scan/sparse_scan_yaw_matcher.hpp:271-286 | the selection loop equals its specification |
| `YawMatcher.PickMeans` | include/robot_slamd/active_scan/sparse_scan_yaw_matcher.hpp:271-286 | best is the first maximum; second is the first of the best among the elements that come before it or lie more than 1e-9 away, and best itself if there is none |
| `YawMatcher.SecondIsRunnerUpIff` | include/robot_slamd/active_scan/sparse_scan_yaw_matcher.hpp:271-286 | second is a true runner-up iff some true runner-up comes before the best or lies more than 1e-9 away from it |
| `YawMatcher.SecondIsRunnerUp` | include/robot_slamd/active_scan/sparse_scan_yaw_matcher.hpp:271-286 | in particular when all yaws are more than 1e-9 apart |
| `YawSeparation.RunnerUpCanBeSkipped` | include/robot_slamd/active_scan/sparse_scan_yaw_matcher.hpp:251-286 | a concrete valid configuration and scoring for which the runner-up, exactly 1e-9 from the best, is skipped and the margin reads twice its size |
| `YawMatcher.CountPeaks` | include/robot_slamd/active_scan/sparse_scan_yaw_matcher.hpp:189-200 | the number of elements not below either neighbour |
| `MatchMeaning.PeaksMean` | include/robot_slamd/active_scan/sparse_scan_yaw_matcher.hpp:189-200 | the count is the size of the set of elements not below either neighbour |
| `YawMatcher.IsMultimodal` | include/robot_slamd/active_scan/sparse_scan_yaw_matcher.hpp:202-214 | true iff enabled, best positive, and a peak far enough from best reaches the ratio |
| `YawMatcher.PeaksOfACurve` | include/robot_slamd/active_scan/sparse_scan_yaw_matcher.hpp:189-214 | a non-empty curve has a peak; multimodal means two; with separation zero every positive curve is multimodal |
| `YawMatcher.MedianBelowBest` | include/robot_slamd/active_scan/sparse_scan_yaw_matcher.hpp:181-187 | the median never exceeds the best score, so sharpness is not negative |
| `YawMatching.MatchOne` | include/robot_slamd/active_scan/sparse_scan_yaw_matcher.hpp:216-342 | refusals in order, then the summary of the finished curve; the outside_search_range branch is dead |
| `YawMatching.JudgedMeans` | include/robot_slamd/active_scan/sparse_scan_yaw_matcher.hpp:288-341 | the best yaw was tried by one of the two sweeps, is in range, and no tried yaw fits better; margin >= 0, at least one peak, usable iff all thresholds hold |
| `MatchMeaning.RefusalMeans` | include/robot_slamd/active_scan/sparse_scan_yaw_matcher.hpp:233-267 | a scan is matched iff nothing speaks against it; else it is refused for the first ground there is |
| `MatchMeaning.MedianMeans` | include/robot_slamd/active_scan/sparse_scan_yaw_matcher.hpp:181-187 | the median is the middle score, or the mean of the two in the middle |
| `MatchMeaning.FlatnessMeans` | include/robot_slamd/active_scan/sparse_scan_yaw_matcher.hpp:302-305 | flatness is the share of the best score that the median reaches, as far as that lies between 0 and 1 |
| `MatchMeaning.VerdictMeans` | include/robot_slamd/active_scan/sparse_scan_yaw_matcher.hpp:302-342 | the reason of a matched scan names the first shortcoming of its curve, and it is usable iff there is none |
| `MatchMeaning.MatchedMeans` | include/robot_slamd/active_scan/sparse_scan_yaw_matcher.hpp:216-342 | a scan that something speaks against is reported as not attempted, for the first such ground, without a curve; any other as attempted, with the finished curve in order of yaw |
| `MatchMeaning.UsableAreCounted` | include/robot_slamd/active_scan/sparse_scan_yaw_matcher.hpp:345-355 | the counter of usable matches grows by the number of usable summaries |
| `YawMatching.SparseScanYawMatcher.Update` | include/robot_slamd/active_scan/sparse_scan_yaw_matcher.hpp:51-66 | one summary and one curve per scan, in order, each counted once |
| `YawMatching.AttemptsAreAccounted` | include/robot_slamd/active_scan/sparse_scan_yaw_matcher.hpp:345-355 | attempts = usable + rejected |
| `SpinMatcher.TopIsSmallest` | include/robot_slamd/mapping/spin_scan_localization.hpp:371-393 | best <= second <= third, together with the rest they are exactly curve and sentinels, and nothing in the rest is smaller |
| `SpinMatcher.ThreeRealResiduals` | include/robot_slamd/mapping/spin_scan_localization.hpp:371-393 | with three residuals below the sentinel all three are points of the curve |
| `SpinMatcher.MatchScan` | include/robot_slamd/mapping/spin_scan_localization.hpp:371-412 | the sweep over offsets keeps the three smallest and counts the minima |
| `SpinMatcher.CurveAscends` | include/robot_slamd/mapping/spin_scan_localization.hpp:374-378 | the curve's offsets ascend and each residual belongs to its offset |
| `SpinMatcher.CurveIsGrid` | include/robot_slamd/mapping/spin_scan_localization.hpp:374-378 | the curve's offsets lie one step apart and the middle one is zero |
| `SpinMatcher.SummarizeCurve` | include/robot_slamd/mapping/spin_scan_localization.hpp:461-474 | the double loop collects the separated windowed minima |
| `SpinMatcher.MinimaAreMost` | include/robot_slamd/mapping/spin_scan_localization.hpp:461-473 | the number of minima reported is the largest number of windowed minima pairwise more than the gap apart |
| `SpinMatcher.GreedyStaysAhead` | include/robot_slamd/mapping/spin_scan_localization.hpp:461-473 | no choice is longer than the collected one, on every prefix of the curve |
| `SpinMatcher.MultimodalIff` | include/robot_slamd/mapping/spin_scan_localization.hpp:473-474 | multimodal iff two windowed minima are more than the gap apart |
| `SpinMatcher.SomeMinimum` | include/robot_slamd/mapping/spin_scan_localization.hpp:461-473 | a curve with a residual below the sentinel has a windowed minimum |
| `SpinSummary.PercentilesAreOrdered` | include/robot_slamd/mapping/spin_scan_localization.hpp:202-210 | percentiles lie between least and greatest residual, and a higher percentile is never smaller |
| `SpinSummary.PercentileSorted` | include/robot_slamd/mapping/spin_scan_localization.hpp:202-210 | interpolates at position q * (size - 1), zero for no values |
| `SpinSummary.FirstIsLeast` | include/robot_slamd/mapping/spin_scan_localization.hpp:449-456 | sorting keeps exactly the curve's residuals; the first is the least and the last the greatest |
| `SpinSummary.ReliabilityIsRedundant` | include/robot_slamd/mapping/spin_scan_localization.hpp:413-440 | reliability lies in [0, 1]; the minimum-reliability test never changes which matches are usable, since one that passes the other tests has reliability 1 |
| `SpinSummary.PercentileMeans` | include/robot_slamd/mapping/spin_scan_localization.hpp:202-210 | a percentile lies between the two neighbours of its position in the sorted values, the weighted share of the way |
| `SpinSummary.VerdictMeans` | include/robot_slamd/mapping/spin_scan_localization.hpp:413-440 | flatness and edge in terms of the curve, what the reliability deducts for each shortcoming, and that the reason names the first of them |
| `SpinSummary.BinIsNearest` | include/robot_slamd/mapping/spin_scan_localization.hpp:282-283 | a bearing goes to the bin whose centre is nearest on the circle |
| `ScanPlanner.ActiveScanCommandPlanner.Update` | include/robot_slamd/active_scan/active_scan_command_planner.hpp:95-247 | one update equals its step on values |
| `PlannerTransitions.StateIff` | include/robot_slamd/active_scan/active_scan_command_planner.hpp:95-247 | each state is entered iff its trigger in terms of the input holds |
| `PlannerTransitions.StepRemembers` | include/robot_slamd/active_scan/active_scan_command_planner.hpp:95-247 | which times, angles and counters an update sets, and to what |
| `ScanPlanner.StartsAreAccounted` | include/robot_slamd/active_scan/active_scan_command_planner.hpp:123-242 | starts = completions + aborts + the one running |
| `ScanPlanner.StartIsHeld` | include/robot_slamd/active_scan/active_scan_command_planner.hpp:147-166 | a rotation starts only after a whole hold period in which every update was ready |
| `ScanPlanner.StartsAreSpaced` | include/robot_slamd/active_scan/active_scan_command_planner.hpp:187-204 | a rotation starts no earlier than cooldown plus hold after an earlier one ended |
| `MapQuality.MapQuality.TakeSnapshot` | include/robot_slamd/mapping/map_quality.hpp:49-103 | the loops count exactly the events left in the pruned deques |
| `MapQuality.WindowIsRecent` | include/robot_slamd/mapping/map_quality.hpp:141-145 | after every call both deques are the full history filtered to the last window_s |
| `MapQuality.SnapshotTellsHistory` | include/robot_slamd/mapping/map_quality.hpp:49-103 | a snapshot counts exactly the recorded events of the last window |
| `MapQuality.SnapshotIsSound` | include/robot_slamd/mapping/map_quality.hpp:65-103 | ratios and score lie in [0, 1], every hit belongs to one route, no data means NO_DATA and a recommended scan |
| `QualityMeaning.CountsMean` | include/robot_slamd/mapping/map_quality.hpp:49-80 | each count is the number of events of the window of its kind |
| `QualityMeaning.ScoreIsProduct` | include/robot_slamd/mapping/map_quality.hpp:153-166 | the score is the product of the share reached of each target and the factor of each shortcoming |
| `QualityMeaning.JudgementMeans` | include/robot_slamd/mapping/map_quality.hpp:65-103 | ratios, level, route count and the recommendation to scan, in terms of counts, score and thresholds |
| `MapQuality.ScoreBounds` | include/robot_slamd/mapping/map_quality.hpp:153-166 | each shortcoming caps the score: 0.5 for few occupied cells or failed allocations, 0.6 for fewer than two routes |
| `Supervisor.MappingSupervisor.Update` | include/robot_slamd/mapping/mapping_supervisor.hpp:72-204 | one update equals its step on values |
| `SupervisorTransitions.StateIff` | include/robot_slamd/mapping/mapping_supervisor.hpp:72-204 | over every run with ascending times: each state is entered iff its trigger holds, with timeouts stated as how long the updates so far report the condition |
| `SupervisorTransitions.StateIsDated` | include/robot_slamd/mapping/mapping_supervisor.hpp:72-204 | the time of entry is that of the update since which the state has been held |
| `SupervisorTransitions.ChangesAreCounted` | include/robot_slamd/mapping/mapping_supervisor.hpp:72-204 | the counter of changes is the number of updates that changed the state |
| `Supervisor.TimerIsRunStart` | include/robot_slamd/mapping/mapping_supervisor.hpp:249-255 | a condition timer is set exactly while its condition holds, and then holds the start of the current unbroken run |
| `Supervisor.NoDataTimeoutMeans` | include/robot_slamd/mapping/mapping_supervisor.hpp:98-98 | the no-data timeout fires iff the current run without data began at least the limit ago |
| `Supervisor.DegradedNeverMaps` | include/robot_slamd/mapping/mapping_supervisor.hpp:114-192 | an update that finds the sensors degraded never leaves the supervisor mapping or scanning |
| `Supervisor.ErrorsEndMapping` | include/robot_slamd/mapping/mapping_supervisor.hpp:93-97 | once cumulative encoder errors reach a positive threshold, MAPPING is never held again |
| `Supervisor.TimeIsAccounted` | include/robot_slamd/mapping/mapping_supervisor.hpp:237-247 | the four state clocks show the time spent in their states, and with the unclocked states add up to the whole run |
| `ScanManager.ActiveScanManager.Update` | include/robot_slamd/active_scan/active_scan_manager.hpp:99-299 | one update equals its step on values |
| `ManagerTransitions.RequestIsFirst` | include/robot_slamd/active_scan/active_scan_manager.hpp:349-362 | the request is the first kind, in order, whose grounds hold |
| `ManagerTransitions.StateIff` | include/robot_slamd/active_scan/active_scan_manager.hpp:99-299 | each state is entered iff its trigger in terms of the input holds, the end of an observed turn included |
| `ManagerTransitions.StepRemembers` | include/robot_slamd/active_scan/active_scan_manager.hpp:99-299 | which times, angles and counters an update sets, and to what |
| `ScanManager.StartupIsWithdrawn` | include/robot_slamd/active_scan/active_scan_manager.hpp:129-157 | in every run: after a raised startup request there is never another, and the manager is idle again after the next update iff nothing else then asks for a scan that is allowed |
| `ScanManager.StartupAloneNeverScans` | include/robot_slamd/active_scan/active_scan_manager.hpp:349-362 | when only startup requests can arise, at most one is raised, the next update withdraws it, and no scan is ever announced |
| `ScanManager.StartupScansIff` | include/robot_slamd/active_scan/active_scan_manager.hpp:129-189 | a startup request leads to an announced scan in some run iff startup scans are enabled together with lost, degraded or low-quality scans |
| `ScanManager.StartupScanHappens` | include/robot_slamd/active_scan/active_scan_manager.hpp:129-189 | the run: another request arms the manager, then calm mapping makes it a startup request that is announced |
| `ScanManager.AnnouncementsAreSpaced` | include/robot_slamd/active_scan/active_scan_manager.hpp:175-189 | announced scans are allowed and able to start, and at least cooldown and minimum interval apart |

## Left out

- Floating point: rounding, NaN and infinities. The isfinite tests of the gate and apply stage are inputs.
- Trigonometry, exp and hypot: ray end points and fits are parameters, distances are compared squared.
- Integer width: counters, cell coordinates and timestamps are unbounded.
- x and y of the pose, hit points and sensor positions: only the heading is modelled.
- `set_gyro_bias` and the warning list of the localizer.
- CSV rows, log throttling, return values that only say "changed", and snapshot fields that are copied and never read.
- Texts of reasons where nothing depends on them; elsewhere they are enumerations.
- `ray_cast_expected_range` and `score_candidate`: their results are the parameters of the matchers.
- `ChunkedGrid.Grid.NearestOccupiedDistance`: finds the least distance over the whole map only under `WindowReaches`, because the code's window is too small otherwise; the condition is exact.
- `YawCollisions.SeparatesIff`: coarse steps below 1e-9 are covered by `YawSeparation.SafeStepsIff` only, per pair of steps.
- `YawMatching.MatchOne`: the order in which std::sort leaves equal keys is the one of a stable insertion sort.
- `SpinMatcher.MatchScan`: called after the test for enough bins; percentiles and verdict are functions in `SpinSummary`; the state machine that collects the bins is not modelled.
- `Collector.SparseScanCollector.Update`: the session_* fields are one record field, sensor bit masks, run totals over all sessions and maxima are left out.
- `Localizer.LocalizerObject.Update`: heading, offset, fused yaw and correction counters are one record field.
- `ScanManager.ActiveScanManager.Update`: the request type kept for reports, and the time spent per state.
- `ScanPlanner.ActiveScanCommandPlanner.Update`: the request type kept for reports, the count of zero commands, and the time spent per state.
- `MapQuality.MapQuality.TakeSnapshot`: confidence means, per-route sample counts and cell ratios.
- `PreviewMap.DrawLine`: the image is an array of pixels, not of bytes, and its width is positive.
- `load_config`, resolved-config writing, drivers, motion writers, transports, recovery, and the other Python tools.
