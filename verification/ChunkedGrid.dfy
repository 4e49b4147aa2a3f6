/** The chunk store behind the occupancy map (include/robot_slamd/core/grid.hpp): a table of chunk
    arrays that refines a flat map from cells to log-odds. */
module ChunkedGrid {
  import opened LineCells
  import opened ChunkAddress
  import opened FlatMap
  import opened NearestCell

  class Chunk {
    const cells: array<real>
    const touched: array<bool>

    constructor (n: nat)
      ensures fresh(cells) && fresh(touched)
      ensures cells.Length == Area(n) && touched.Length == Area(n)
      ensures forall i :: 0 <= i < Area(n) ==> cells[i] == 0.0 && !touched[i]
    {
      cells := new real[Area(n)](_ => 0.0);
      touched := new bool[Area(n)](_ => false);
    }
  }

  datatype QueryState = Unknown | Free | Occupied | OutOfMap

  class Grid {
    const cfg: GridConfig
    var chunks: map<Key, Chunk>
    var bounds: Bounds
    ghost var flat: Flat // the map this store represents

    ghost var buffers: set<object> // the arrays of all chunks

    /** Chunks have their own arrays of the right size. */
    ghost predicate Separate()
      reads this`chunks, this`buffers
    {
      && this !in buffers
      && (forall k :: k in chunks ==> && chunks[k].cells in buffers && chunks[k].touched in buffers
                                      && chunks[k].cells.Length == Area(cfg.chunkCells)
                                      && chunks[k].touched.Length == Area(cfg.chunkCells))
      && (forall j, k :: j in chunks && k in chunks && j != k ==>
            chunks[j].cells != chunks[k].cells && chunks[j].touched != chunks[k].touched)
    }

    ghost predicate Touched(c: Cell)
      requires cfg.Valid() && Separate()
      reads this`chunks, this`buffers, buffers
    {
      KeyOf(c, cfg.chunkCells) in chunks
      && chunks[KeyOf(c, cfg.chunkCells)].touched[IndexOf(c, cfg.chunkCells)]
    }

    /** The value stored for a cell whose chunk exists. */
    ghost function Stored(c: Cell): real
      requires cfg.Valid() && Separate() && KeyOf(c, cfg.chunkCells) in chunks
      reads this`chunks, this`buffers, buffers
    {
      chunks[KeyOf(c, cfg.chunkCells)].cells[IndexOf(c, cfg.chunkCells)]
    }

    /** The store agrees with `flat`: the touched cells are its keys, and every stored value is the
        one the map gives, zero at untouched positions. */
    ghost predicate Agrees()
      requires cfg.Valid() && Separate()
      reads this`chunks, this`flat, this`buffers, buffers
    {
      && (forall c {:trigger Touched(c)} :: c in flat <==> Touched(c))
      && (forall c {:trigger Stored(c)} :: KeyOf(c, cfg.chunkCells) in chunks ==> Stored(c) == Lookup(flat, c))
    }

    /** A chunk exists exactly where some cell was touched. */
    ghost predicate NoIdleChunk()
      requires cfg.Valid()
      reads this`chunks, this`flat
    {
      forall k {:trigger HasTouched(flat.Keys, k, cfg.chunkCells)} ::
        k in chunks <==> HasTouched(flat.Keys, k, cfg.chunkCells)
    }

    ghost predicate Valid()
      reads this, buffers
    {
      && cfg.Valid() && Separate() && Agrees() && NoIdleChunk() && IsBoundingBox(bounds, flat.Keys)
      && InRange(cfg, flat)
    }

    constructor (cfg: GridConfig)
      requires cfg.Valid()
      ensures Valid() && this.cfg == cfg && flat == map[] && fresh(buffers)
    {
      this.cfg := cfg;
      chunks := map[];
      bounds := NoBounds;
      flat, buffers := map[], {};
    }

    /** log_odds_cell: zero outside every chunk and at untouched positions. */
    method LogOddsCell(c: Cell) returns (l: real)
      requires Valid()
      ensures l == Lookup(flat, c) && (c !in flat ==> l == 0.0)
    {
      assert c in flat <==> Touched(c);
      var key := KeyOf(c, cfg.chunkCells);
      if key !in chunks {
        return 0.0;
      }
      var idx := IndexOf(c, cfg.chunkCells);
      if !chunks[key].touched[idx] {
        return 0.0;
      }
      assert Stored(c) == Lookup(flat, c);
      l := chunks[key].cells[idx];
    }

    method IsOccupiedCell(c: Cell) returns (b: bool)
      requires Valid()
      ensures b <==> c in flat && cfg.probability(flat[c]) >= cfg.occupiedThresh
    {
      assert c in flat <==> Touched(c);
      var key := KeyOf(c, cfg.chunkCells);
      if key !in chunks {
        return false;
      }
      var l := LogOddsCell(c);
      b := chunks[key].touched[IndexOf(c, cfg.chunkCells)] && cfg.probability(l) >= cfg.occupiedThresh;
    }

    /** query_world at a cell. A cell is out of the map exactly when no cell of its chunk was ever
        written; otherwise its state is read off its probability. */
    method QueryCell(c: Cell) returns (q: QueryState)
      requires Valid()
      ensures q == OutOfMap <==> forall d :: d in flat ==> KeyOf(d, cfg.chunkCells) != KeyOf(c, cfg.chunkCells)
      ensures q == Occupied <==> c in flat && cfg.probability(flat[c]) >= cfg.occupiedThresh
      ensures q == Free <==> c in flat && cfg.probability(flat[c]) <= cfg.freeThresh
    {
      assert c in flat <==> Touched(c);
      var key := KeyOf(c, cfg.chunkCells);
      if key !in chunks {
        assert !HasTouched(flat.Keys, key, cfg.chunkCells);
        return OutOfMap;
      }
      assert HasTouched(flat.Keys, key, cfg.chunkCells);
      if !chunks[key].touched[IndexOf(c, cfg.chunkCells)] {
        return Unknown;
      }
      var l := LogOddsCell(c);
      if cfg.probability(l) >= cfg.occupiedThresh {
        return Occupied;
      }
      if cfg.probability(l) <= cfg.freeThresh {
        return Free;
      }
      q := Unknown;
    }

    /** The loops of nearest_occupied_distance. */
    method SearchWindow(x: real, y: real, radius: real) returns (found: bool, distSq: real)
      requires Valid() && radius >= 0.0
      ensures IsNearest(WindowHits(cfg, flat, x, y, radius), x, y, cfg.resolution, found, distSq)
    {
      hide WindowHits, Hits, IsNearest, CellOf, WindowCells, DistSq, Square;
      found, distSq := false, 0.0;
      var centre, r := CellOf(x, y, cfg.resolution), WindowCells(radius, cfg.resolution);
      var best := Square(radius + cfg.resolution);
      var gy := centre.y - r;
      SearchStart(cfg, flat, x, y, radius);
      while gy <= centre.y + r
        invariant centre.y - r <= gy <= centre.y + r + 1
        invariant SearchedTo(cfg, flat, x, y, radius, centre.x - r, gy, found, distSq, best)
      {
        var gx := centre.x - r;
        while gx <= centre.x + r
          invariant centre.x - r <= gx <= centre.x + r + 1
          invariant SearchedTo(cfg, flat, x, y, radius, gx, gy, found, distSq, best)
        {
          var c := Cell(gx, gy);
          SearchStep(cfg, flat, x, y, radius, c, found, distSq, best);
          var occupied := IsOccupiedCell(c);
          var d := DistSq(c, x, y, cfg.resolution);
          if occupied && d <= Square(radius) && d < best {
            best, found, distSq := d, true, d;
          }
          gx := gx + 1;
        }
        NextRow(cfg, flat, x, y, radius, gy);
        gy := gy + 1;
      }
      SearchDone(cfg, flat, x, y, radius, centre.x - r);
    }

    /** nearest_occupied_distance: the nearest of the occupied cells of the window that lie within the
        radius, and of all occupied cells of the map if the window reaches. */
    method NearestOccupiedDistance(x: real, y: real, radius: real) returns (found: bool, distSq: real)
      requires Valid()
      ensures IsNearest(WindowHits(cfg, flat, x, y, radius), x, y, cfg.resolution, found, distSq)
      ensures WindowReaches(radius, cfg.resolution) ==>
                IsNearest(Hits(cfg, flat, x, y, radius), x, y, cfg.resolution, found, distSq)
    {
      if WindowReaches(radius, cfg.resolution) {
        WindowHitsAreAll(cfg, flat, x, y, radius);
      }
      if radius < 0.0 {
        return false, 0.0;
      }
      found, distSq := SearchWindow(x, y, radius);
    }

    /** Gives a chunk to a key that has none. The represented map does not change. */
    method Allocate(key: Key)
      requires cfg.Valid() && Separate() && Agrees() && key !in chunks
      modifies this`chunks, this`buffers
      ensures Separate() && Agrees() && chunks.Keys == old(chunks.Keys) + {key}
      ensures fresh(buffers - old(buffers))
    {
      hide KeyOf, IndexOf, Area;
      var chunk := new Chunk(cfg.chunkCells);
      chunks, buffers := chunks[key := chunk], buffers + {chunk.cells, chunk.touched};
      forall c
        ensures c in flat <==> Touched(c)
        ensures KeyOf(c, cfg.chunkCells) in chunks ==> Stored(c) == Lookup(flat, c)
      {
        assert c in flat <==> old(Touched(c));
        assert old(KeyOf(c, cfg.chunkCells) in chunks ==> Stored(c) == Lookup(flat, c));
      }
    }

    /** The write itself: one position of one existing chunk. */
    method Store(c: Cell, v: real)
      requires cfg.Valid() && Separate() && Agrees() && KeyOf(c, cfg.chunkCells) in chunks
      modifies this`flat, buffers
      ensures Separate() && Agrees() && flat == old(flat)[c := v]
    {
      var key, idx := KeyOf(c, cfg.chunkCells), IndexOf(c, cfg.chunkCells);
      var chunk := chunks[key];
      chunk.cells[idx] := v;
      chunk.touched[idx] := true;
      flat := flat[c := v];
      forall d
        ensures d in flat <==> Touched(d)
        ensures KeyOf(d, cfg.chunkCells) in chunks ==> Stored(d) == Lookup(flat, d)
      {
        assert d in old(flat) <==> old(Touched(d));
        assert old(KeyOf(d, cfg.chunkCells) in chunks ==> Stored(d) == Lookup(flat, d));
        if d != c && KeyOf(d, cfg.chunkCells) == key && IndexOf(d, cfg.chunkCells) == idx {
          AddressIsInjective(c, d, cfg.chunkCells);
        }
      }
    }

    /** The store part of add_log_odds_cell: allocate the chunk if needed, then write. */
    method Put(c: Cell, delta: real)
      requires cfg.Valid() && Separate() && Agrees()
      modifies this`chunks, this`flat, this`buffers, buffers
      ensures Separate() && Agrees() && fresh(buffers - old(buffers))
      ensures flat == Write(cfg, old(flat), c, delta)
      ensures chunks.Keys == old(chunks.Keys) + {KeyOf(c, cfg.chunkCells)}
    {
      var key, idx := KeyOf(c, cfg.chunkCells), IndexOf(c, cfg.chunkCells);
      if key !in chunks {
        Allocate(key);
      }
      assert Stored(c) == Lookup(flat, c);
      Store(c, cfg.Add(chunks[key].cells[idx], delta));
    }

    /** add_log_odds_cell: exactly one cell of the represented map changes. */
    method AddLogOddsCell(c: Cell, delta: real)
      requires Valid()
      modifies this, buffers
      ensures Valid() && fresh(buffers - old(buffers))
      ensures flat == Write(cfg, old(flat), c, delta)
      ensures c in flat && Saturates(cfg, flat[c], Lookup(old(flat), c) + delta)
      ensures forall d :: d != c ==> (d in flat <==> d in old(flat)) && Lookup(flat, d) == Lookup(old(flat), d)
    {
      hide KeyOf, IndexOf, Area, Write, IsBoundingBox, Saturates, Lookup;
      hide HasTouched;
      WriteMeans(cfg, flat, c, delta);
      KeysGrow(chunks.Keys, flat.Keys, c, cfg.chunkCells);
      WriteKeeps(cfg, flat, c, delta);
      BoxGrows(bounds, flat.Keys, c);
      Put(c, delta);
      assert bounds == old(bounds) && flat.Keys == old(flat.Keys) + {c};
      bounds := bounds.Include(c);
      assert Separate() && Agrees() && NoIdleChunk();
      assert IsBoundingBox(bounds, old(flat.Keys) + {c});
    }

    /** Adds delta to every cell of a set, in whatever order the set is walked. */
    method AddToAll(cells: set<Cell>, delta: real)
      requires Valid()
      modifies this, buffers
      ensures Valid() && fresh(buffers - old(buffers))
      ensures flat == WriteAll(cfg, old(flat), cells, delta)
    {
      var todo := cells;
      assert WriteAll(cfg, flat, cells - todo, delta) == flat;
      while todo != {}
        invariant todo <= cells && Valid() && fresh(buffers - old(buffers))
        invariant flat == WriteAll(cfg, old(flat), cells - todo, delta)
        decreases todo
      {
        var c :| c in todo;
        WriteAllStep(cfg, old(flat), cells - todo, c, delta);
        assert cells - (todo - {c}) == cells - todo + {c};
        AddLogOddsCell(c, delta);
        todo := todo - {c};
      }
      assert cells - todo == cells;
    }

    /** The set phase of update_tof_ray: collects free and hit cells, ray by ray, under the budget. */
    method GatherCells(start: Cell, rays: seq<Ray>, hit: bool) returns (free: set<Cell>, occ: set<Cell>)
      ensures free == Gathered(cfg, start, rays, hit).free && occ == Gathered(cfg, start, rays, hit).occ
    {
      free, occ := {}, {};
      var budget := Max(1, cfg.maxCellsPerTofUpdate);
      var i := 0;
      assert rays[0..] == rays;
      while i < |rays| && budget > 0
        invariant i <= |rays|
        invariant Gather(start, rays[i..], hit, Bundle(free, occ, budget)) == Gathered(cfg, start, rays, hit)
      {
        assert rays[i..][0] == rays[i] && rays[i..][1..] == rays[i + 1..];
        free, budget := AddLineCells(start, rays[i].freeEnd, free, budget);
        if hit {
          occ := occ + {rays[i].hit};
        }
        i := i + 1;
      }
    }

    /** update_tof_ray, given the cells its rays run to. */
    method UpdateTofRay(start: Cell, rays: seq<Ray>, hit: bool, freeDelta: real, occDelta: real)
      requires Valid()
      modifies this, buffers
      ensures Valid() && fresh(buffers - old(buffers))
      ensures flat == RayUpdate(cfg, old(flat), start, rays, hit, freeDelta, occDelta)
    {
      var free, occ := GatherCells(start, rays, hit);
      AddToAll(free - occ, freeDelta);
      AddToAll(occ, occDelta);
    }

    /** One position of the stats loops. */
    method TallyCell(key: Key, i: nat, ghost done: set<Key>, start: Tally) returns (t: Tally)
      requires Valid() && key in chunks && key !in done && i < Area(cfg.chunkCells)
      requires Counts(cfg, flat, Seen(flat.Keys, done, key, i, cfg.chunkCells), start)
      ensures Counts(cfg, flat, Seen(flat.Keys, done, key, i + 1, cfg.chunkCells), t)
      ensures t.Total() == start.Total() + 1
    {
      ghost var c := CellAt(key, i, cfg.chunkCells);
      CellOfAddress(key, i, cfg.chunkCells);
      SeenStep(flat.Keys, done, key, i, cfg.chunkCells);
      assert c in flat <==> Touched(c);
      if !chunks[key].touched[i] {
        t := start.(unknown := start.unknown + 1);
      } else {
        assert Stored(c) == Lookup(flat, c);
        CountsGrow(cfg, flat, Seen(flat.Keys, done, key, i, cfg.chunkCells), start, c);
        t := CountCell(cfg, start, chunks[key].cells[i]);
      }
    }

    /** One chunk's share of the stats loops. `done` holds the chunks counted before. */
    method TallyChunk(key: Key, ghost done: set<Key>, start: Tally) returns (t: Tally)
      requires Valid() && key in chunks && key !in done
      requires Counts(cfg, flat, SeenBefore(flat.Keys, done, cfg.chunkCells), start)
      ensures Counts(cfg, flat, SeenBefore(flat.Keys, done + {key}, cfg.chunkCells), t)
      ensures Valid() && t.Total() == start.Total() + Area(cfg.chunkCells)
    {
      hide Counts;
      t := start;
      SeenChunk(flat.Keys, done, key, cfg.chunkCells);
      var i := 0;
      while i < Area(cfg.chunkCells)
        invariant 0 <= i <= Area(cfg.chunkCells)
        invariant Counts(cfg, flat, Seen(flat.Keys, done, key, i, cfg.chunkCells), t)
        invariant t.Total() == start.Total() + i
      {
        t := TallyCell(key, i, done, t);
        i := i + 1;
      }
    }

    /** stats(): the counters are the cardinalities of the touched, occupied and free cells of the map.
        Everything else in an allocated chunk is unknown, so the three classes partition the total. */
    method Stats() returns (t: Tally, total: nat, box: Bounds)
      requires Valid()
      ensures Counts(cfg, flat, flat.Keys, t)
      ensures t.Total() == total == Times(|chunks|, Area(cfg.chunkCells))
      ensures IsBoundingBox(box, flat.Keys)
    {
      CountsNothing(cfg, flat);
      hide Counts;
      t, box := Tally(0, 0, 0, 0), bounds;
      var todo := chunks.Keys;
      ghost var done: set<Key>, n := {}, 0;
      SeenEnds(flat.Keys, chunks.Keys, cfg.chunkCells);
      while todo != {}
        invariant Valid() && flat == old(flat) && chunks == old(chunks)
        invariant todo + done == chunks.Keys && todo !! done
        invariant 0 <= n == |chunks| - |todo|
        invariant Counts(cfg, flat, SeenBefore(flat.Keys, done, cfg.chunkCells), t)
        invariant t.Total() == Times(n, Area(cfg.chunkCells))
        decreases todo
      {
        var key :| key in todo;
        MoveOne(todo, done, key);
        t := TallyChunk(key, done, t);
        todo, done, n := todo - {key}, done + {key}, n + 1;
      }
      total := Times(|chunks|, Area(cfg.chunkCells));
    }
  }

  lemma MoveOne<T>(todo: set<T>, done: set<T>, x: T)
    requires x in todo && todo !! done
    ensures (todo - {x}) + (done + {x}) == todo + done && (todo - {x}) !! (done + {x})
    ensures x !in done && x in todo + done && |todo - {x}| == |todo| - 1
  {}

  lemma CountsNothing(cfg: GridConfig, m: Flat)
    ensures Counts(cfg, m, {}, Tally(0, 0, 0, 0))
  {
    assert OccupiedCells(cfg, m, {}) == {} && FreeCells(cfg, m, {}) == {};
  }

  lemma SeenEnds(s: set<Cell>, keys: set<Key>, cc: nat)
    requires cc > 0 && forall k {:trigger HasTouched(s, k, cc)} :: k in keys <==> HasTouched(s, k, cc)
    ensures SeenBefore(s, {}, cc) == {} && SeenBefore(s, keys, cc) == s
  {
    forall c | c in s ensures KeyOf(c, cc) in keys {
      assert HasTouched(s, KeyOf(c, cc), cc);
    }
  }

  /** Touched cells in the chunks of `done`. */
  ghost function SeenBefore(s: set<Cell>, done: set<Key>, cc: nat): set<Cell>
    requires cc > 0
  {
    set c | c in s && KeyOf(c, cc) in done
  }

  lemma {:induction false} SeenChunk(s: set<Cell>, done: set<Key>, key: Key, cc: nat)
    requires cc > 0 && key !in done
    ensures Seen(s, done, key, 0, cc) == SeenBefore(s, done, cc)
    ensures Seen(s, done, key, Area(cc), cc) == SeenBefore(s, done + {key}, cc)
  {}

  /** Touched cells in the chunks of `done`, and in the first i positions of chunk `key`. */
  ghost function Seen(s: set<Cell>, done: set<Key>, key: Key, i: nat, cc: nat): set<Cell>
    requires cc > 0
  {
    set c | c in s && (KeyOf(c, cc) in done || (KeyOf(c, cc) == key && IndexOf(c, cc) < i))
  }

  lemma {:induction false} SeenStep(s: set<Cell>, done: set<Key>, key: Key, i: nat, cc: nat)
    requires cc > 0 && i < Area(cc) && key !in done
    ensures var c := CellAt(key, i, cc);
            && c !in Seen(s, done, key, i, cc)
            && Seen(s, done, key, i + 1, cc) == Seen(s, done, key, i, cc) + (if c in s then {c} else {})
  {
    var c := CellAt(key, i, cc);
    CellOfAddress(key, i, cc);
    forall d ensures d in Seen(s, done, key, i + 1, cc) <==> d in Seen(s, done, key, i, cc) || (d == c && c in s) {
      if KeyOf(d, cc) == key && IndexOf(d, cc) == i {
        AddressIsInjective(c, d, cc);
      }
    }
  }

  ghost predicate HasTouched(s: set<Cell>, k: Key, cc: nat)
    requires cc > 0
  {
    exists c :: c in s && KeyOf(c, cc) == k
  }

  lemma TouchedGrow(s: set<Cell>, c: Cell, k: Key, cc: nat)
    requires cc > 0
    ensures HasTouched(s + {c}, k, cc) <==> HasTouched(s, k, cc) || k == KeyOf(c, cc)
  {
    if HasTouched(s, k, cc) {
      var d :| d in s && KeyOf(d, cc) == k;
      assert d in s + {c};
    }
    assert c in s + {c};
  }

  /** A write keeps the chunks those that hold a touched cell. */
  lemma {:induction false} KeysGrow(keys: set<Key>, s: set<Cell>, c: Cell, cc: nat)
    requires cc > 0 && forall k {:trigger HasTouched(s, k, cc)} :: k in keys <==> HasTouched(s, k, cc)
    ensures forall k {:trigger HasTouched(s + {c}, k, cc)} :: k in keys + {KeyOf(c, cc)} <==> HasTouched(s + {c}, k, cc)
  {
    hide KeyOf;
    forall k ensures k in keys + {KeyOf(c, cc)} <==> HasTouched(s + {c}, k, cc) {
      TouchedGrow(s, c, k, cc);
    }
  }
}
