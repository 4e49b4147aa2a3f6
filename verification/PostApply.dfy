/** Judging a heading write by the next match
    (include/robot_slamd/active_scan/yaw_correction_post_apply_validator.hpp). */
module PostApply {
  import opened Angles
  import opened YawTypes

  datatype PostState = Disabled | Idle | Waiting | Validated | Suspect | Failed | Timeout

  datatype PostStats = PostStats(validated: nat, suspect: nat, failed: nat, timeout: nat)
  {
    function Verdicts(): nat { validated + suspect + failed + timeout }
  }

  datatype Post = Post(state: PostState, since: real, scanId: nat, matchT: real, delta: real, oldAbs: real,
                       stats: PostStats)

  /** One call of update. `candidate` is the gate's candidate, `m` the latest match. */
  datatype PostInput = PostInput(now: real, applied: bool, scanId: nat, matchT: real, delta: real, m: Match,
                                 candidate: real)

  function InitPost(cfg: YawConfig): Post {
    Post(if cfg.postEnabled then Idle else Disabled, -1.0, 0, 0.0, 0.0, 0.0, PostStats(0, 0, 0, 0))
  }

  /** The reduction of |candidate| that a write of this size must bring. */
  function RequiredImprovement(cfg: YawConfig, delta: real): real {
    Max(cfg.minImprovement, Abs(delta) * cfg.minFraction)
  }

  /** The match is one that was made after the write. */
  predicate IsFresh(cfg: YawConfig, p: Post, m: Match) {
    && m.attempted
    && !(cfg.requireNewScanId && m.scanId == p.scanId)
    && !(cfg.requireNewerMatch && m.t <= p.matchT)
  }

  function Judge(cfg: YawConfig, p: Post, m: Match): PostState {
    if m.curveFlat || m.multimodal then Failed
    else if !m.usable then Suspect
    else if Abs(m.delta) > cfg.maxPostCandidate then Failed
    else if p.oldAbs - Abs(m.delta) >= RequiredImprovement(cfg, p.delta) then Validated
    else Suspect
  }

  function Count(s: PostStats, v: PostState): PostStats {
    match v
    case Validated => s.(validated := s.validated + 1)
    case Suspect => s.(suspect := s.suspect + 1)
    case Failed => s.(failed := s.failed + 1)
    case Timeout => s.(timeout := s.timeout + 1)
    case _ => s
  }

  function PostStep(cfg: YawConfig, p: Post, inp: PostInput): Post {
    if !cfg.postEnabled then p.(state := Disabled)
    else if inp.applied then
      p.(state := Waiting, since := inp.now, scanId := inp.scanId, matchT := inp.matchT, delta := inp.delta,
         oldAbs := Abs(inp.candidate))
    else if !p.state.Waiting? then p
    else if inp.now - p.since > cfg.timeout then p.(state := Timeout, stats := Count(p.stats, Timeout))
    else if !IsFresh(cfg, p, inp.m) then p
    else p.(state := Judge(cfg, p, inp.m), stats := Count(p.stats, Judge(cfg, p, inp.m)))
  }

  /** What a positive verdict certifies: the next fresh match is usable, and its candidate is smaller
      than the one that caused the write by at least the required improvement. */
  lemma {:induction false} ValidatedMeansImproved(cfg: YawConfig, p: Post, inp: PostInput)
    requires cfg.postEnabled && !inp.applied && p.state != Validated
    ensures PostStep(cfg, p, inp).state == Validated <==>
            && p.state == Waiting && inp.now - p.since <= cfg.timeout && IsFresh(cfg, p, inp.m)
            && inp.m.usable && !inp.m.curveFlat && !inp.m.multimodal && Abs(inp.m.delta) <= cfg.maxPostCandidate
            && Abs(inp.m.delta) + RequiredImprovement(cfg, p.delta) <= p.oldAbs
  {
    var judged := Judge(cfg, p, inp.m);
  }

  /** A fresh match, within the time allowed, comes to a validator that waits. */
  ghost predicate IsShown(cfg: YawConfig, p: Post, inp: PostInput) {
    && cfg.postEnabled && !inp.applied && p.state == Waiting && inp.now <= p.since + cfg.timeout
    && inp.m.attempted && (cfg.requireNewScanId ==> inp.m.scanId != p.scanId)
    && (cfg.requireNewerMatch ==> inp.m.t > p.matchT)
  }

  ghost predicate IsClear(m: Match) { !m.curveFlat && !m.multimodal }

  /** The candidate has shrunk by both amounts that the configuration asks for. */
  ghost predicate HasShrunk(cfg: YawConfig, p: Post, m: Match) {
    var gained := p.oldAbs - Abs(m.delta);
    gained >= cfg.minImprovement && gained >= cfg.minFraction * Abs(p.delta)
  }

  ghost predicate IsNear(cfg: YawConfig, m: Match) { -cfg.maxPostCandidate <= m.delta <= cfg.maxPostCandidate }

  /** One call, verdict by verdict: a write is remembered and waited on; a verdict is given at most once, on the first
      fresh match in time or when time is over, and counted; and nothing else changes anything. */
  ghost predicate Judges(cfg: YawConfig, p: Post, inp: PostInput, n: Post) {
    var shown, clear, near := IsShown(cfg, p, inp), IsClear(inp.m), IsNear(cfg, inp.m);
    var late := cfg.postEnabled && !inp.applied && p.state == Waiting && inp.now > p.since + cfg.timeout;
    if !cfg.postEnabled then n == p.(state := Disabled)
    else if inp.applied then
      n == Post(Waiting, inp.now, inp.scanId, inp.matchT, inp.delta, Abs(inp.candidate), p.stats)
    else
      && n.since == p.since && n.scanId == p.scanId && n.matchT == p.matchT && n.delta == p.delta
      && n.oldAbs == p.oldAbs
      && (!shown && !late ==> n == p)
      && (late ==> n.state == Timeout && n.stats == p.stats.(timeout := p.stats.timeout + 1))
      && (shown && clear && inp.m.usable && near && HasShrunk(cfg, p, inp.m) ==>
            n.state == Validated && n.stats == p.stats.(validated := p.stats.validated + 1))
      && (shown && (!clear || (inp.m.usable && !near)) ==>
            n.state == Failed && n.stats == p.stats.(failed := p.stats.failed + 1))
      && (shown && clear && (!inp.m.usable || (near && !HasShrunk(cfg, p, inp.m))) ==>
            n.state == Suspect && n.stats == p.stats.(suspect := p.stats.suspect + 1))
  }

  lemma {:induction false} ShrunkIff(cfg: YawConfig, p: Post, m: Match)
    ensures p.oldAbs - Abs(m.delta) >= RequiredImprovement(cfg, p.delta) <==> HasShrunk(cfg, p, m)
  {
    assert Abs(p.delta) * cfg.minFraction == cfg.minFraction * Abs(p.delta);
  }

  /** The verdict on a write, for every case. */
  lemma {:induction false} VerdictMeans(cfg: YawConfig, p: Post, inp: PostInput)
    ensures Judges(cfg, p, inp, PostStep(cfg, p, inp))
  {
    ShrunkIff(cfg, p, inp.m);
    hide RequiredImprovement, HasShrunk;
  }

  class YawCorrectionPostApplyValidator {
    const cfg: YawConfig
    var state: PostState
    var since: real
    var scanId: nat
    var matchT: real
    var delta: real
    var oldAbs: real
    var stats: PostStats

    ghost function View(): Post
      reads this
    {
      Post(state, since, scanId, matchT, delta, oldAbs, stats)
    }

    constructor (cfg: YawConfig)
      ensures this.cfg == cfg && View() == InitPost(cfg)
    {
      this.cfg := cfg;
      state := if cfg.postEnabled then Idle else Disabled;
      since, scanId, matchT, delta, oldAbs, stats := -1.0, 0, 0.0, 0.0, 0.0, PostStats(0, 0, 0, 0);
    }

    method Update(inp: PostInput)
      modifies this
      ensures View() == PostStep(cfg, old(View()), inp)
    {
      hide RequiredImprovement, Abs;
      if !cfg.postEnabled {
        state := Disabled;
        return;
      }
      if inp.applied {
        since, scanId, matchT, delta := inp.now, inp.scanId, inp.matchT, inp.delta;
        oldAbs := Abs(inp.candidate);
        state := Waiting;
        return;
      }
      if state != Waiting {
        return;
      }
      if inp.now - since > cfg.timeout {
        state := Timeout;
        stats := stats.(timeout := stats.timeout + 1);
        return;
      }
      var m := inp.m;
      if !m.attempted {
        return;
      }
      if cfg.requireNewScanId && m.scanId == scanId {
        return;
      }
      if cfg.requireNewerMatch && m.t <= matchT {
        return;
      }
      var improvement := oldAbs - Abs(m.delta);
      if m.curveFlat {
        state, stats := Failed, stats.(failed := stats.failed + 1);
      } else if m.multimodal {
        state, stats := Failed, stats.(failed := stats.failed + 1);
      } else if !m.usable {
        state, stats := Suspect, stats.(suspect := stats.suspect + 1);
      } else if Abs(m.delta) > cfg.maxPostCandidate {
        state, stats := Failed, stats.(failed := stats.failed + 1);
      } else if improvement >= RequiredImprovement(cfg, delta) {
        state, stats := Validated, stats.(validated := stats.validated + 1);
      } else if -improvement > cfg.maxWorse {
        state, stats := Suspect, stats.(suspect := stats.suspect + 1);
      } else {
        state, stats := Suspect, stats.(suspect := stats.suspect + 1);
      }
    }
  }
}
