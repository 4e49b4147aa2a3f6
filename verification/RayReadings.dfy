/** What a sequence of range readings leaves in a cell of the map. */
module RayReadings {
  import opened LineCells
  import opened FlatMap
  import opened Sequences

  /** One call of update_tof_ray. */
  datatype Reading = Reading(start: Cell, rays: seq<Ray>, hit: bool, freeDelta: real, occDelta: real)

  ghost function Bundled(cfg: GridConfig, r: Reading): Bundle { Gathered(cfg, r.start, r.rays, r.hit) }

  ghost function After(cfg: GridConfig, m: Flat, rs: seq<Reading>): Flat
    requires cfg.Valid()
  {
    if rs == [] then m
    else
      var r := Last(rs);
      RayUpdate(cfg, After(cfg, m, Init(rs)), r.start, r.rays, r.hit, r.freeDelta, r.occDelta)
  }

  // ----- which cells a reading reaches -----

  ghost predicate OnLine(r: Reading, c: Cell) {
    exists ray, k: nat :: ray in r.rays && k <= Length(r.start, ray.freeEnd) && c == LineCell(r.start, ray.freeEnd, k)
  }

  ghost predicate IsHit(r: Reading, c: Cell) { r.hit && exists ray :: ray in r.rays && c == ray.hit }

  /** What is left of the budget when no ray was cut short. */
  lemma {:induction false} InsertIsWhole(start: Cell, end: Cell, out: set<Cell>, budget: nat)
    requires Insert(start, end, 0, out, budget).1 > 0
    ensures Segment(start, end, 0, Length(start, end) + 1) <= Insert(start, end, 0, out, budget).0
  {
    hide LineCell, Length, Insert;
    InsertIsSegment(start, end, 0, out, budget);
  }

  lemma {:induction false} GatherIsWhole(start: Cell, rays: seq<Ray>, hit: bool, b: Bundle, i: nat)
    requires i < |rays| && b.budget >= 0 && Gather(start, rays, hit, b).budget > 0
    ensures var g := Gather(start, rays, hit, b);
            && Segment(start, rays[i].freeEnd, 0, Length(start, rays[i].freeEnd) + 1) <= g.free
            && (hit ==> rays[i].hit in g.occ)
    decreases |rays|
  {
    hide Insert, Segment, Length;
    if b.budget > 0 {
      var (free, left) := Insert(start, rays[0].freeEnd, 0, b.free, b.budget);
      var b' := Bundle(free, if hit then b.occ + {rays[0].hit} else b.occ, left);
      InsertSpends(start, rays[0].freeEnd, 0, b.free, b.budget);
      GatherSpends(start, rays[1..], hit, b');
      if i == 0 {
        InsertIsWhole(start, rays[0].freeEnd, b.free, b.budget);
      } else {
        assert rays[1..][i - 1] == rays[i];
        GatherIsWhole(start, rays[1..], hit, b', i - 1);
      }
    }
  }

  /** Either the budget ran out, and then exactly max(1, max_cells) free cells were recorded, or the free cells
      are exactly those on the lines and the occupied ones exactly the hits. */
  lemma {:induction false} ReadingReaches(cfg: GridConfig, r: Reading, c: Cell)
    ensures var g := Bundled(cfg, r);
            && (c in g.free ==> OnLine(r, c)) && (c in g.occ ==> IsHit(r, c))
            && (if g.budget == 0 then |g.free| == Max(1, cfg.maxCellsPerTofUpdate)
                else (OnLine(r, c) ==> c in g.free) && (IsHit(r, c) ==> c in g.occ))
  {
    hide Gather, LineCell, Length;
    var b := Bundle({}, {}, Max(1, cfg.maxCellsPerTofUpdate));
    var g := Bundled(cfg, r);
    GatherStays(r.start, r.rays, r.hit, b, c);
    GatherSpends(r.start, r.rays, r.hit, b);
    if g.budget > 0 {
      forall i: nat | i < |r.rays|
        ensures Segment(r.start, r.rays[i].freeEnd, 0, Length(r.start, r.rays[i].freeEnd) + 1) <= g.free
        ensures r.hit ==> r.rays[i].hit in g.occ
      {
        GatherIsWhole(r.start, r.rays, r.hit, b, i);
      }
      if OnLine(r, c) {
        var ray, k: nat :| ray in r.rays && k <= Length(r.start, ray.freeEnd) && c == LineCell(r.start, ray.freeEnd, k);
        assert c in Segment(r.start, ray.freeEnd, 0, Length(r.start, ray.freeEnd) + 1);
      }
    }
  }

  // ----- what readings add up to -----

  /** What a reading adds to a cell: occupied wins over free. */
  ghost function DeltaOf(cfg: GridConfig, r: Reading, c: Cell): real {
    if c in Bundled(cfg, r).occ then r.occDelta else if c in Bundled(cfg, r).free then r.freeDelta else 0.0
  }

  ghost function SumOf(cfg: GridConfig, rs: seq<Reading>, c: Cell): real {
    if rs == [] then 0.0 else SumOf(cfg, Init(rs), c) + DeltaOf(cfg, Last(rs), c)
  }

  lemma {:induction false} ReadingAdds(cfg: GridConfig, m: Flat, r: Reading, c: Cell)
    requires cfg.Valid() && cfg.logOddsMin <= Lookup(m, c) <= cfg.logOddsMax
    ensures var n := RayUpdate(cfg, m, r.start, r.rays, r.hit, r.freeDelta, r.occDelta);
            Saturates(cfg, Lookup(n, c), Lookup(m, c) + DeltaOf(cfg, r, c))
  {
    hide RayUpdate, Gathered, Lookup;
    RayUpdateMeaning(cfg, m, r.start, r.rays, r.hit, r.freeDelta, r.occDelta, c);
  }

  lemma {:induction false} SaturatesTwice(cfg: GridConfig, v: real, w: real, s: real, d: real)
    requires cfg.Valid() && Saturates(cfg, v, s) && Saturates(cfg, w, v + d)
    requires (s >= cfg.logOddsMin && d >= 0.0) || (s <= cfg.logOddsMax && d <= 0.0)
    ensures Saturates(cfg, w, s + d)
  {}

  /** Readings that all raise a cell, or all lower it, add up: the cell holds its old value plus their sum, or the
      limit that this sum lies beyond. */
  lemma {:induction false} ReadingsAddUp(cfg: GridConfig, m: Flat, rs: seq<Reading>, c: Cell)
    requires cfg.Valid() && cfg.logOddsMin <= Lookup(m, c) <= cfg.logOddsMax
    requires (forall r :: r in rs ==> DeltaOf(cfg, r, c) >= 0.0) || (forall r :: r in rs ==> DeltaOf(cfg, r, c) <= 0.0)
    ensures Saturates(cfg, Lookup(After(cfg, m, rs), c), Lookup(m, c) + SumOf(cfg, rs, c))
    ensures (forall r :: r in rs ==> DeltaOf(cfg, r, c) >= 0.0) ==> SumOf(cfg, rs, c) >= 0.0
    ensures (forall r :: r in rs ==> DeltaOf(cfg, r, c) <= 0.0) ==> SumOf(cfg, rs, c) <= 0.0
  {
    hide Lookup, DeltaOf, RayUpdate;
    if rs != [] {
      ReadingsAddUp(cfg, m, Init(rs), c);
      ReadingAdds(cfg, After(cfg, m, Init(rs)), Last(rs), c);
      SaturatesTwice(cfg, Lookup(After(cfg, m, Init(rs)), c), Lookup(After(cfg, m, rs), c),
                     Lookup(m, c) + SumOf(cfg, Init(rs), c), DeltaOf(cfg, Last(rs), c));
    }
  }

  /** Every reading hits the cell, with this delta, or leaves it alone. */
  ghost predicate OnlyHits(cfg: GridConfig, rs: seq<Reading>, c: Cell, delta: real) {
    forall r :: r in rs ==>
      if c in Bundled(cfg, r).occ then r.occDelta == delta else c !in Bundled(cfg, r).free
  }

  ghost function NumHits(cfg: GridConfig, rs: seq<Reading>, c: Cell): nat {
    if rs == [] then 0 else NumHits(cfg, Init(rs), c) + if c in Bundled(cfg, Last(rs)).occ then 1 else 0
  }

  /** A cell that k readings hit and no other reading reaches holds k times the occupied delta more than before,
      until it saturates. */
  lemma {:induction false} HitsAddUp(cfg: GridConfig, m: Flat, rs: seq<Reading>, c: Cell, delta: real)
    requires cfg.Valid() && cfg.logOddsMin <= Lookup(m, c) <= cfg.logOddsMax && OnlyHits(cfg, rs, c, delta)
    ensures Saturates(cfg, Lookup(After(cfg, m, rs), c), Lookup(m, c) + NumHits(cfg, rs, c) as real * delta)
  {
    SumOfHits(cfg, rs, c, delta);
    hide Lookup, Bundled, After, SumOf, NumHits, Saturates;
    assert delta >= 0.0 || delta <= 0.0;
    ReadingsAddUp(cfg, m, rs, c);
  }

  lemma {:induction false} SumOfHits(cfg: GridConfig, rs: seq<Reading>, c: Cell, delta: real)
    requires OnlyHits(cfg, rs, c, delta)
    ensures SumOf(cfg, rs, c) == NumHits(cfg, rs, c) as real * delta
  {
    hide Bundled;
    if rs != [] {
      SumOfHits(cfg, Init(rs), c, delta);
    }
  }

  /** Such a cell of an empty map holds k times the delta, or the limit that this lies beyond. */
  lemma {:induction false} HitsFromNothing(cfg: GridConfig, rs: seq<Reading>, c: Cell, delta: real)
    requires cfg.Valid() && cfg.logOddsMin <= 0.0 <= cfg.logOddsMax && OnlyHits(cfg, rs, c, delta)
    ensures Saturates(cfg, Lookup(After(cfg, map[], rs), c), NumHits(cfg, rs, c) as real * delta)
  {
    assert Lookup(map[], c) == 0.0;
    hide *;
    HitsAddUp(cfg, map[], rs, c, delta);
  }
}
