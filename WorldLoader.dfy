/**
 * WorldLoader (game/world/WorldLoader.java): deciding, each time the view
 * moves, which sectors to load and which to unload. The sectors in the
 * rectangle between two sector keys become the loaded set; those that were
 * not loaded before have their batch taken from the sector cache, or
 * generated and cached, and handed to core memory; the sectors that fell
 * out of the rectangle are queued for unloading; and the batches waiting in
 * the load queue are handed to core memory too.
 *
 * The two sector keys (the uniform grid's sectors of the outer corners),
 * the world's sector generator, and core memory's loading of a batch are
 * parameters or a log here: the uniform grid, the world generator and the
 * GPU are not part of this model.
 */
module WorldLoading {
  import opened WorldSectors

  /** Whether a sector lies in the rectangle between sector keys k0 and k2, both included. */
  predicate InRect(s: Sector, k0: Sector, k2: Sector)
  {
    k0.x <= s.x <= k2.x && k0.y <= s.y <= k2.y
  }

  /** Whether sector a comes before sector b in the loops' order: by column, then by row. */
  predicate Before(a: Sector, b: Sector)
  {
    a.x < b.x || (a.x == b.x && a.y < b.y)
  }

  /** The sectors (sx, y) for y0 <= y < y1. */
  function ColumnSpan(sx: int, y0: int, y1: int): set<Sector>
    decreases y1 - y0
  {
    if y1 <= y0 then {} else ColumnSpan(sx, y0, y1 - 1) + {Sector(sx, y1 - 1)}
  }

  /** The sectors (x, y) for x0 <= x < x1 and y0 <= y < y1. */
  function Span(x0: int, x1: int, y0: int, y1: int): set<Sector>
    decreases x1 - x0
  {
    if x1 <= x0 then {} else Span(x0, x1 - 1, y0, y1) + ColumnSpan(x1 - 1, y0, y1)
  }

  /** The rectangle between sector keys k0 and k2, both included. */
  function Rect(k0: Sector, k2: Sector): set<Sector>
  {
    Span(k0.x, k2.x + 1, k0.y, k2.y + 1)
  }

  lemma {:induction false} ColumnSpanHolds(sx: int, y0: int, y1: int)
    ensures forall s :: s in ColumnSpan(sx, y0, y1) <==> s.x == sx && y0 <= s.y < y1
    decreases y1 - y0
  {
    if y1 > y0 {
      ColumnSpanHolds(sx, y0, y1 - 1);
    }
  }

  lemma {:induction false} SpanHolds(x0: int, x1: int, y0: int, y1: int)
    ensures forall s :: s in Span(x0, x1, y0, y1) <==> x0 <= s.x < x1 && y0 <= s.y < y1
    decreases x1 - x0
  {
    if x1 > x0 {
      SpanHolds(x0, x1 - 1, y0, y1);
      ColumnSpanHolds(x1 - 1, y0, y1);
    }
  }

  /** The rectangle set holds exactly the sectors between the two keys. */
  lemma RectHolds(k0: Sector, k2: Sector)
    ensures forall s :: s in Rect(k0, k2) <==> InRect(s, k0, k2)
  {
    SpanHolds(k0.x, k2.x + 1, k0.y, k2.y + 1);
  }

  /** The sectors of column sx, rows sy to k2y, that were not loaded before: the inner loop's loads, in order. */
  function NewInColumn(sx: int, sy: int, k2y: int, loaded: set<Sector>): seq<Sector>
    decreases k2y - sy
  {
    if sy > k2y then []
    else (if Sector(sx, sy) in loaded then [] else [Sector(sx, sy)]) + NewInColumn(sx, sy + 1, k2y, loaded)
  }

  /** The sectors of columns sx to k2.x that were not loaded before: the outer loop's loads, in order. */
  function NewInColumns(sx: int, k0: Sector, k2: Sector, loaded: set<Sector>): seq<Sector>
    decreases k2.x - sx
  {
    if sx > k2.x then []
    else NewInColumn(sx, k0.y, k2.y, loaded) + NewInColumns(sx + 1, k0, k2, loaded)
  }

  /** The sectors a move to the rectangle k0..k2 loads, in the order it loads them. */
  function NewlyInRange(k0: Sector, k2: Sector, loaded: set<Sector>): seq<Sector>
  {
    NewInColumns(k0.x, k0, k2, loaded)
  }

  /** The batch cache.get gives a sector: the cached one, or the generated one. */
  function Fetch(s: Sector, cache: map<Sector, Batch>, generate: Sector -> Batch): Batch
  {
    if s in cache then cache[s] else generate(s)
  }

  /** The batches of the given sectors, in order. */
  function Fetched(sectors: seq<Sector>, cache: map<Sector, Batch>, generate: Sector -> Batch): (r: seq<Batch>)
    ensures |r| == |sectors|
  {
    if sectors == [] then []
    else Fetched(sectors[..|sectors| - 1], cache, generate) + [Fetch(sectors[|sectors| - 1], cache, generate)]
  }

  /** The i-th batch fetched is the i-th sector's. */
  lemma {:induction false} FetchedAt(sectors: seq<Sector>, cache: map<Sector, Batch>, generate: Sector -> Batch)
    ensures forall i :: 0 <= i < |sectors| ==> Fetched(sectors, cache, generate)[i] == Fetch(sectors[i], cache, generate)
  {
    if sectors != [] {
      FetchedAt(sectors[..|sectors| - 1], cache, generate);
    }
  }

  lemma {:induction false} FetchedAppend(a: seq<Sector>, b: seq<Sector>, cache: map<Sector, Batch>, generate: Sector -> Batch)
    ensures Fetched(a + b, cache, generate) == Fetched(a, cache, generate) + Fetched(b, cache, generate)
    decreases |b|
  {
    if b == [] {
      assert a + b == a;
    } else {
      var front := b[..|b| - 1];
      assert (a + b)[..|a + b| - 1] == a + front;
      FetchedAppend(a, front, cache, generate);
    }
  }

  /**
   * The sector cache after cache.get of each of the given sectors in turn.
   */
  function Cached(cache: map<Sector, Batch>, sectors: seq<Sector>, generate: Sector -> Batch): (r: map<Sector, Batch>)
    ensures |sectors| == 0 ==> r == cache
  {
    if sectors == [] then cache
    else
      var before := Cached(cache, sectors[..|sectors| - 1], generate);
      var last := sectors[|sectors| - 1];
      before[last := Fetch(last, before, generate)]
  }

  /**
   * cache.get of a sequence of sectors keeps what the cache held and adds
   * the fetched sectors, each holding the batch a fetch from the first
   * cache gives it: a cached batch is never replaced.
   */
  lemma {:induction false} CacheHoldsFetched(cache: map<Sector, Batch>, sectors: seq<Sector>, generate: Sector -> Batch)
    ensures forall s :: s in Cached(cache, sectors, generate) <==> s in cache || s in sectors
    ensures forall s :: s in Cached(cache, sectors, generate) ==>
              Cached(cache, sectors, generate)[s] == Fetch(s, cache, generate)
  {
    if sectors != [] {
      var front := sectors[..|sectors| - 1];
      CacheHoldsFetched(cache, front, generate);
      assert sectors == front + [sectors[|sectors| - 1]];
    }
  }

  /** Whether every sector in a list comes before every later one. */
  predicate Ascending(sectors: seq<Sector>)
  {
    forall i, j :: 0 <= i < j < |sectors| ==> Before(sectors[i], sectors[j])
  }

  lemma {:induction false} ColumnAscends(sx: int, sy: int, k2y: int, loaded: set<Sector>)
    ensures Ascending(NewInColumn(sx, sy, k2y, loaded))
    ensures forall s :: s in NewInColumn(sx, sy, k2y, loaded) <==> s.x == sx && sy <= s.y <= k2y && s !in loaded
    decreases k2y - sy
  {
    if sy <= k2y {
      ColumnAscends(sx, sy + 1, k2y, loaded);
      var head := if Sector(sx, sy) in loaded then [] else [Sector(sx, sy)];
      var rest := NewInColumn(sx, sy + 1, k2y, loaded);
      assert NewInColumn(sx, sy, k2y, loaded) == head + rest;
      forall s: Sector | s.x == sx && sy <= s.y <= k2y && s !in loaded
        ensures s in NewInColumn(sx, sy, k2y, loaded)
      {
        if s.y == sy {
          assert s == Sector(sx, sy);
          assert s in head;
        } else {
          assert s in rest;
        }
      }
    }
  }

  lemma {:induction false} ColumnsAscend(sx: int, k0: Sector, k2: Sector, loaded: set<Sector>)
    ensures Ascending(NewInColumns(sx, k0, k2, loaded))
    ensures forall s :: s in NewInColumns(sx, k0, k2, loaded) <==> InRect(s, Sector(sx, k0.y), k2) && s !in loaded
    decreases k2.x - sx
  {
    if sx <= k2.x {
      ColumnsAscend(sx + 1, k0, k2, loaded);
      ColumnAscends(sx, k0.y, k2.y, loaded);
      var column := NewInColumn(sx, k0.y, k2.y, loaded);
      var rest := NewInColumns(sx + 1, k0, k2, loaded);
      var all := column + rest;
      assert NewInColumns(sx, k0, k2, loaded) == all;
      forall i, j | 0 <= i < j < |all|
        ensures Before(all[i], all[j])
      {
        if j < |column| {
          assert all[i] == column[i] && all[j] == column[j];
        } else if i >= |column| {
          assert all[i] == rest[i - |column|] && all[j] == rest[j - |column|];
        } else {
          assert all[i] == column[i] && all[j] == rest[j - |column|];
          assert column[i] in column && rest[j - |column|] in rest;
        }
      }
    }
  }

  /**
   * A move loads each sector of the new rectangle that was not loaded
   * before, and no other: the ones kept loaded are not reloaded, and each
   * newly in range is loaded exactly once.
   */
  lemma LoadsEachNewSectorOnce(k0: Sector, k2: Sector, loaded: set<Sector>)
    ensures forall s :: s in NewlyInRange(k0, k2, loaded) <==> InRect(s, k0, k2) && s !in loaded
    ensures forall i, j :: 0 <= i < j < |NewlyInRange(k0, k2, loaded)| ==>
              NewlyInRange(k0, k2, loaded)[i] != NewlyInRange(k0, k2, loaded)[j]
  {
    ColumnsAscend(k0.x, k0, k2, loaded);
  }

  /**
   * The outer loop's progress on reaching column sx: the columns before it
   * have loaded `done`, in order, the cache has fetched them, and the loaded
   * set holds the columns before sx.
   */
  ghost predicate ColumnsProgress(k0: Sector, k2: Sector, sx: int, loaded: set<Sector>,
                                  cache0: map<Sector, Batch>, generate: Sector -> Batch, done: seq<Sector>,
                                  current: set<Sector>, log0: seq<Batch>, log: seq<Batch>, cache: map<Sector, Batch>)
  {
    && done + NewInColumns(sx, k0, k2, loaded) == NewlyInRange(k0, k2, loaded)
    && log == log0 + Fetched(done, cache0, generate)
    && cache == Cached(cache0, done, generate)
    && current == Span(k0.x, sx, k0.y, k2.y + 1)
  }

  /** The inner loop's progress on reaching row sy of column sx: `column` is what the column has loaded so far. */
  ghost predicate ColumnProgress(k0: Sector, k2: Sector, sx: int, sy: int, loaded: set<Sector>,
                                 cache0: map<Sector, Batch>, generate: Sector -> Batch, done: seq<Sector>, column: seq<Sector>,
                                 current: set<Sector>, log0: seq<Batch>, log: seq<Batch>, cache: map<Sector, Batch>)
  {
    && done + NewInColumns(sx, k0, k2, loaded) == NewlyInRange(k0, k2, loaded)
    && column + NewInColumn(sx, sy, k2.y, loaded) == NewInColumn(sx, k0.y, k2.y, loaded)
    && log == log0 + Fetched(done + column, cache0, generate)
    && cache == Cached(cache0, done + column, generate)
    && current == Span(k0.x, sx, k0.y, k2.y + 1) + ColumnSpan(sx, k0.y, sy)
  }

  lemma RectangleStart(k0: Sector, k2: Sector, loaded: set<Sector>, cache0: map<Sector, Batch>,
                       generate: Sector -> Batch, log0: seq<Batch>)
    ensures ColumnsProgress(k0, k2, k0.x, loaded, cache0, generate, [], {}, log0, log0, cache0)
  {
    assert [] + NewInColumns(k0.x, k0, k2, loaded) == NewlyInRange(k0, k2, loaded);
    assert log0 + [] == log0;
  }

  lemma ColumnStart(k0: Sector, k2: Sector, sx: int, loaded: set<Sector>, cache0: map<Sector, Batch>,
                    generate: Sector -> Batch, done: seq<Sector>,
                    current: set<Sector>, log0: seq<Batch>, log: seq<Batch>, cache: map<Sector, Batch>)
    requires ColumnsProgress(k0, k2, sx, loaded, cache0, generate, done, current, log0, log, cache)
    ensures ColumnProgress(k0, k2, sx, k0.y, loaded, cache0, generate, done, [], current, log0, log, cache)
  {
    assert done + [] == done;
    assert [] + NewInColumn(sx, k0.y, k2.y, loaded) == NewInColumn(sx, k0.y, k2.y, loaded);
    assert ColumnSpan(sx, k0.y, k0.y) == {};
  }

  /** A row of the column that was loaded before: it joins the loaded set and nothing is fetched. */
  lemma RowKept(k0: Sector, k2: Sector, sx: int, sy: int, loaded: set<Sector>, cache0: map<Sector, Batch>,
                generate: Sector -> Batch, done: seq<Sector>, column: seq<Sector>,
                current: set<Sector>, log0: seq<Batch>, log: seq<Batch>, cache: map<Sector, Batch>)
    requires k0.y <= sy <= k2.y && Sector(sx, sy) in loaded
    requires ColumnProgress(k0, k2, sx, sy, loaded, cache0, generate, done, column, current, log0, log, cache)
    ensures ColumnProgress(k0, k2, sx, sy + 1, loaded, cache0, generate, done, column,
                           current + {Sector(sx, sy)}, log0, log, cache)
  {
    assert ColumnSpan(sx, k0.y, sy + 1) == ColumnSpan(sx, k0.y, sy) + {Sector(sx, sy)};
    assert NewInColumn(sx, sy, k2.y, loaded) == NewInColumn(sx, sy + 1, k2.y, loaded);
  }

  /** A row of the column that was not loaded before: it joins the loaded set and is fetched through the cache. */
  lemma RowLoaded(k0: Sector, k2: Sector, sx: int, sy: int, loaded: set<Sector>, cache0: map<Sector, Batch>,
                  generate: Sector -> Batch, done: seq<Sector>, column: seq<Sector>,
                  current: set<Sector>, log0: seq<Batch>, log: seq<Batch>, cache: map<Sector, Batch>)
    requires k0.y <= sy <= k2.y && Sector(sx, sy) !in loaded
    requires ColumnProgress(k0, k2, sx, sy, loaded, cache0, generate, done, column, current, log0, log, cache)
    ensures ColumnProgress(k0, k2, sx, sy + 1, loaded, cache0, generate, done, column + [Sector(sx, sy)],
                           current + {Sector(sx, sy)}, log0,
                           log + [Fetch(Sector(sx, sy), cache, generate)],
                           cache[Sector(sx, sy) := Fetch(Sector(sx, sy), cache, generate)])
  {
    var s := Sector(sx, sy);
    SpanGrows(k0, k2, sx, sy, current);
    ColumnGrows(sx, sy, k2.y, loaded, column);
    FetchedStep(cache0, generate, done + column, s, log0, log, cache);
    assert done + (column + [s]) == done + column + [s];
  }

  lemma SpanGrows(k0: Sector, k2: Sector, sx: int, sy: int, current: set<Sector>)
    requires k0.y <= sy
    requires current == Span(k0.x, sx, k0.y, k2.y + 1) + ColumnSpan(sx, k0.y, sy)
    ensures current + {Sector(sx, sy)} == Span(k0.x, sx, k0.y, k2.y + 1) + ColumnSpan(sx, k0.y, sy + 1)
  {
    assert ColumnSpan(sx, k0.y, sy + 1) == ColumnSpan(sx, k0.y, sy) + {Sector(sx, sy)};
  }

  lemma ColumnGrows(sx: int, sy: int, k2y: int, loaded: set<Sector>, column: seq<Sector>)
    requires sy <= k2y && Sector(sx, sy) !in loaded
    ensures column + [Sector(sx, sy)] + NewInColumn(sx, sy + 1, k2y, loaded) == column + NewInColumn(sx, sy, k2y, loaded)
  {
    assert NewInColumn(sx, sy, k2y, loaded) == [Sector(sx, sy)] + NewInColumn(sx, sy + 1, k2y, loaded);
  }

  /** Fetching one more sector through the cache built so far gives what a fetch from the first cache gives. */
  lemma FetchedStep(cache0: map<Sector, Batch>, generate: Sector -> Batch, got: seq<Sector>, s: Sector,
                    log0: seq<Batch>, log: seq<Batch>, cache: map<Sector, Batch>)
    requires log == log0 + Fetched(got, cache0, generate)
    requires cache == Cached(cache0, got, generate)
    ensures log + [Fetch(s, cache, generate)] == log0 + Fetched(got + [s], cache0, generate)
    ensures cache[s := Fetch(s, cache, generate)] == Cached(cache0, got + [s], generate)
  {
    var all := got + [s];
    assert all[..|all| - 1] == got;
    CacheHoldsFetched(cache0, got, generate);
    assert Fetch(s, cache, generate) == Fetch(s, cache0, generate);
  }

  lemma ColumnEnd(k0: Sector, k2: Sector, sx: int, sy: int, loaded: set<Sector>, cache0: map<Sector, Batch>,
                  generate: Sector -> Batch, done: seq<Sector>, column: seq<Sector>,
                  current: set<Sector>, log0: seq<Batch>, log: seq<Batch>, cache: map<Sector, Batch>)
    requires k0.x <= sx <= k2.x
    requires sy == k2.y + 1 || (sy == k0.y && k0.y > k2.y)
    requires ColumnProgress(k0, k2, sx, sy, loaded, cache0, generate, done, column, current, log0, log, cache)
    ensures ColumnsProgress(k0, k2, sx + 1, loaded, cache0, generate, done + column, current, log0, log, cache)
  {
    assert NewInColumn(sx, sy, k2.y, loaded) == [];
    assert column + [] == column;
    assert NewInColumns(sx, k0, k2, loaded) == column + NewInColumns(sx + 1, k0, k2, loaded);
    assert done + column + NewInColumns(sx + 1, k0, k2, loaded) == done + NewInColumns(sx, k0, k2, loaded);
    assert ColumnSpan(sx, k0.y, sy) == ColumnSpan(sx, k0.y, k2.y + 1);
  }

  lemma RectangleEnd(k0: Sector, k2: Sector, sx: int, loaded: set<Sector>, cache0: map<Sector, Batch>,
                     generate: Sector -> Batch, done: seq<Sector>,
                     current: set<Sector>, log0: seq<Batch>, log: seq<Batch>, cache: map<Sector, Batch>)
    requires sx == k2.x + 1 || (sx == k0.x && k0.x > k2.x)
    requires ColumnsProgress(k0, k2, sx, loaded, cache0, generate, done, current, log0, log, cache)
    ensures current == Rect(k0, k2)
    ensures log == log0 + Fetched(NewlyInRange(k0, k2, loaded), cache0, generate)
    ensures cache == Cached(cache0, NewlyInRange(k0, k2, loaded), generate)
  {
    assert NewInColumns(sx, k0, k2, loaded) == [];
    assert done + [] == done;
    assert Span(k0.x, sx, k0.y, k2.y + 1) == Span(k0.x, k2.x + 1, k0.y, k2.y + 1);
  }

  /** The loader's own state, with the batches core memory has been handed, in order. */
  class WorldLoader {
    const channels: Channels
    var old_loaded_sectors: set<Sector>
    var new_loaded_sectors: set<Sector>
    /** The batches handed to core memory's load_entity_batch, in order. */
    var loaded_batches: seq<Batch>

    constructor(channels: Channels)
      ensures this.channels == channels
      ensures old_loaded_sectors == {} && new_loaded_sectors == {} && loaded_batches == []
    {
      this.channels := channels;
      old_loaded_sectors := {};
      new_loaded_sectors := {};
      loaded_batches := [];
    }

    /**
     * load_sectors: the previous loaded set becomes the old set; the
     * rectangle between the sector keys k0 and k2 becomes the loaded set,
     * each sector that was not loaded before having its batch fetched from
     * the cache (generated and cached when missing) and loaded; each old
     * sector outside the rectangle is queued for unloading once; and the
     * batches waiting in the load queue are loaded.
     */
    method LoadSectors(k0: Sector, k2: Sector, generate: Sector -> Batch)
      modifies this`old_loaded_sectors, this`new_loaded_sectors, this`loaded_batches
      modifies channels`sector_cache, channels`unload_queue, channels`load_queue
      ensures old_loaded_sectors == old(new_loaded_sectors)
      ensures new_loaded_sectors == Rect(k0, k2)
      ensures forall s :: s in new_loaded_sectors <==> InRect(s, k0, k2)
      ensures loaded_batches
              == old(loaded_batches)
                 + Fetched(NewlyInRange(k0, k2, old(new_loaded_sectors)), old(channels.sector_cache), generate)
                 + old(channels.load_queue)
      ensures channels.load_queue == []
      ensures channels.sector_cache
              == Cached(old(channels.sector_cache), NewlyInRange(k0, k2, old(new_loaded_sectors)), generate)
      ensures |channels.unload_queue| >= |old(channels.unload_queue)|
      ensures channels.unload_queue[..|old(channels.unload_queue)|] == old(channels.unload_queue)
      ensures multiset(channels.unload_queue[|old(channels.unload_queue)|..])
              == multiset(old_loaded_sectors - new_loaded_sectors)
    {
      old_loaded_sectors := new_loaded_sectors;
      new_loaded_sectors := {};
      LoadRectangle(k0, k2, generate);
      RectHolds(k0, k2);
      QueueUnloads();
      DrainLoadQueue();
    }

    /** The nested loops of load_sectors, over the rectangle's columns and then its rows. */
    method LoadRectangle(k0: Sector, k2: Sector, generate: Sector -> Batch)
      requires new_loaded_sectors == {}
      modifies this`new_loaded_sectors, this`loaded_batches, channels`sector_cache
      ensures new_loaded_sectors == Rect(k0, k2)
      ensures loaded_batches
              == old(loaded_batches) + Fetched(NewlyInRange(k0, k2, old_loaded_sectors), old(channels.sector_cache), generate)
      ensures channels.sector_cache == Cached(old(channels.sector_cache), NewlyInRange(k0, k2, old_loaded_sectors), generate)
    {
      ghost var cache0 := channels.sector_cache;
      ghost var loaded0 := loaded_batches;
      ghost var done: seq<Sector> := [];
      RectangleStart(k0, k2, old_loaded_sectors, cache0, generate, loaded0);
      var sx := k0.x;
      while sx <= k2.x
        invariant k0.x <= sx <= k2.x + 1 || sx == k0.x
        invariant ColumnsProgress(k0, k2, sx, old_loaded_sectors, cache0, generate, done,
                                  new_loaded_sectors, loaded0, loaded_batches, channels.sector_cache)
        decreases k2.x - sx
      {
        ghost var column: seq<Sector> := [];
        ColumnStart(k0, k2, sx, old_loaded_sectors, cache0, generate, done,
                    new_loaded_sectors, loaded0, loaded_batches, channels.sector_cache);
        var sy := k0.y;
        while sy <= k2.y
          invariant k0.y <= sy <= k2.y + 1 || sy == k0.y
          invariant ColumnProgress(k0, k2, sx, sy, old_loaded_sectors, cache0, generate, done, column,
                                   new_loaded_sectors, loaded0, loaded_batches, channels.sector_cache)
          decreases k2.y - sy
        {
          var sector := Sector(sx, sy);
          if sector in old_loaded_sectors {
            RowKept(k0, k2, sx, sy, old_loaded_sectors, cache0, generate, done, column,
                    new_loaded_sectors, loaded0, loaded_batches, channels.sector_cache);
            new_loaded_sectors := new_loaded_sectors + {sector};
          } else {
            RowLoaded(k0, k2, sx, sy, old_loaded_sectors, cache0, generate, done, column,
                      new_loaded_sectors, loaded0, loaded_batches, channels.sector_cache);
            new_loaded_sectors := new_loaded_sectors + {sector};
            var sector_batch := CacheGet(sector, generate);
            loaded_batches := loaded_batches + [sector_batch];
            column := column + [sector];
          }
          sy := sy + 1;
        }
        ColumnEnd(k0, k2, sx, sy, old_loaded_sectors, cache0, generate, done, column,
                  new_loaded_sectors, loaded0, loaded_batches, channels.sector_cache);
        done := done + column;
        sx := sx + 1;
      }
      RectangleEnd(k0, k2, sx, old_loaded_sectors, cache0, generate, done,
                   new_loaded_sectors, loaded0, loaded_batches, channels.sector_cache);
    }

    /** Caffeine's get: the cached batch, or a generated one that is cached first. */
    method CacheGet(sector: Sector, generate: Sector -> Batch) returns (b: Batch)
      modifies channels`sector_cache
      ensures b == Fetch(sector, old(channels.sector_cache), generate)
      ensures channels.sector_cache == old(channels.sector_cache)[sector := b]
    {
      if sector in channels.sector_cache {
        b := channels.sector_cache[sector];
      } else {
        b := generate(sector);
      }
      channels.sector_cache := channels.sector_cache[sector := b];
    }

    /** The loop over the old set: each old sector the rectangle left is queued for unloading. */
    method QueueUnloads()
      modifies channels`unload_queue
      ensures |channels.unload_queue| >= |old(channels.unload_queue)|
      ensures channels.unload_queue[..|old(channels.unload_queue)|] == old(channels.unload_queue)
      ensures multiset(channels.unload_queue[|old(channels.unload_queue)|..])
              == multiset(old_loaded_sectors - new_loaded_sectors)
    {
      var remaining := old_loaded_sectors;
      ghost var queued: seq<Sector> := [];
      while remaining != {}
        invariant remaining <= old_loaded_sectors
        invariant channels.unload_queue == old(channels.unload_queue) + queued
        invariant multiset(queued) == multiset((old_loaded_sectors - remaining) - new_loaded_sectors)
        decreases |remaining|
      {
        var sector :| sector in remaining;
        if sector !in new_loaded_sectors {
          channels.unload_queue := channels.unload_queue + [sector];
          queued := queued + [sector];
        }
        remaining := remaining - {sector};
      }
      assert channels.unload_queue[|old(channels.unload_queue)|..] == queued;
    }

    /** The last loop of load_sectors: every batch waiting in the load queue is loaded, in order. */
    method DrainLoadQueue()
      modifies this`loaded_batches, channels`load_queue
      ensures loaded_batches == old(loaded_batches) + old(channels.load_queue)
      ensures channels.load_queue == []
    {
      while channels.load_queue != []
        invariant old(loaded_batches) + old(channels.load_queue) == loaded_batches + channels.load_queue
        decreases |channels.load_queue|
      {
        var batch := channels.load_queue[0];
        channels.load_queue := channels.load_queue[1..];
        loaded_batches := loaded_batches + [batch];
      }
    }
  }
}
