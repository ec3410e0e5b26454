/**
 * The CPU spatial map used for broad-phase collision: the screen is cut into
 * a grid of x_subdivisions by y_subdivisions cells; every body covers a
 * rectangle of cells (its spatial-index bounds), and the map is built in
 * four passes over flat int arrays: each body's slice of the key bank,
 * per-cell key counts, per-cell offsets into the key map, and the key map
 * itself, holding the bodies found in each cell. Candidate matches for a
 * body are the higher-numbered bodies sharing a cell whose boxes overlap.
 * The body store is a parameter: bodies are values indexed by position.
 */
module SpatialMap {
  import JavaNumbers
  import opened Wrappers

  /** Each key occupies two ints of the key bank: its cell column and row. */
  const KeyWidth: int := 2

  /** The grid is always 200 by 200 cells; nothing reassigns the subdivisions. */
  const XSubdivisions: int := 200
  const YSubdivisions: int := 200

  /** An axis-aligned box: corner (x, y), width w, height h. */
  datatype Box = Box(x: real, y: real, w: real, h: real)

  /** A body as the spatial map sees it: its rectangle of grid cells, its key bank size and its box. */
  datatype Body = Body(siMinX: int, siMaxX: int, siMinY: int, siMaxY: int, siBankSize: int, bounds: Box)

  /** doBoxesIntersect: strict overlap on both axes; boxes that only touch do not intersect. */
  predicate BoxesIntersect(a: Box, b: Box)
  {
    a.x < b.x + b.w && a.x + a.w > b.x && a.y < b.y + b.h && a.y + a.h > b.y
  }

  /** The key-map index of cell (x, y): row-major over the grid's columns. */
  function KeyIndex(xs: int, x: int, y: int): int
  {
    xs * y + x
  }

  /** Whether cell (x, y) lands inside a directory of `len` cells. */
  predicate InDirectory(xs: int, len: int, x: int, y: int)
  {
    0 <= KeyIndex(xs, x, y) < len
  }

  /** The cells (x, y) with minY <= y < yEnd that land in the directory, by ascending y. */
  function Column(xs: int, len: int, x: int, minY: int, yEnd: int): seq<(int, int)>
    decreases yEnd - minY
  {
    if yEnd <= minY then []
    else Column(xs, len, x, minY, yEnd - 1) + (if InDirectory(xs, len, x, yEnd - 1) then [(x, yEnd - 1)] else [])
  }

  /** The cells of columns minX <= x < xEnd and rows minY..maxY that land in the directory, column by column. */
  function Cells(xs: int, len: int, minX: int, xEnd: int, minY: int, maxY: int): seq<(int, int)>
    decreases xEnd - minX
  {
    if xEnd <= minX then []
    else Cells(xs, len, minX, xEnd - 1, minY, maxY) + Column(xs, len, xEnd - 1, minY, maxY + 1)
  }

  /** The cells a body's keys name, in the order both the key bank and the key map visit them. */
  function BodyCells(xs: int, len: int, b: Body): seq<(int, int)>
  {
    Cells(xs, len, b.siMinX, b.siMaxX + 1, b.siMinY, b.siMaxY)
  }

  /** Every listed cell lies in the body's rectangle and in the directory. */
  lemma {:induction false} CellsInRange(xs: int, len: int, minX: int, xEnd: int, minY: int, maxY: int)
    ensures forall c :: c in Cells(xs, len, minX, xEnd, minY, maxY) ==>
      minX <= c.0 < xEnd && minY <= c.1 <= maxY && InDirectory(xs, len, c.0, c.1)
    decreases xEnd - minX
  {
    if xEnd > minX {
      CellsInRange(xs, len, minX, xEnd - 1, minY, maxY);
      ColumnInRange(xs, len, xEnd - 1, minY, maxY + 1);
    }
  }

  lemma {:induction false} ColumnInRange(xs: int, len: int, x: int, minY: int, yEnd: int)
    ensures forall c :: c in Column(xs, len, x, minY, yEnd) ==> c.0 == x && minY <= c.1 < yEnd && InDirectory(xs, len, c.0, c.1)
    decreases yEnd - minY
  {
    if yEnd > minY {
      ColumnInRange(xs, len, x, minY, yEnd - 1);
    }
  }

  /** How many listed cells fall on key-map index k. */
  function CountKey(xs: int, cells: seq<(int, int)>, k: int): nat
  {
    if cells == [] then 0
    else CountKey(xs, cells[..|cells| - 1], k) + (if KeyIndex(xs, cells[|cells| - 1].0, cells[|cells| - 1].1) == k then 1 else 0)
  }

  lemma CountKeyAppend(xs: int, cells: seq<(int, int)>, c: (int, int), k: int)
    ensures CountKey(xs, cells + [c], k) == CountKey(xs, cells, k) + (if KeyIndex(xs, c.0, c.1) == k then 1 else 0)
  {
    assert (cells + [c])[..|cells|] == cells;
  }

  lemma {:induction false} ColumnLengthMono(xs: int, len: int, x: int, minY: int, y1: int, y2: int)
    requires y1 <= y2
    ensures |Column(xs, len, x, minY, y1)| <= |Column(xs, len, x, minY, y2)|
    decreases y2 - y1
  {
    if y1 < y2 {
      ColumnLengthMono(xs, len, x, minY, y1, y2 - 1);
      if y2 > minY {
        assert |Column(xs, len, x, minY, y2 - 1)| <= |Column(xs, len, x, minY, y2)|;
      }
    }
  }

  lemma {:induction false} CellsLengthMono(xs: int, len: int, minX: int, x1: int, x2: int, minY: int, maxY: int)
    requires x1 <= x2
    ensures |Cells(xs, len, minX, x1, minY, maxY)| <= |Cells(xs, len, minX, x2, minY, maxY)|
    decreases x2 - x1
  {
    if x1 < x2 {
      CellsLengthMono(xs, len, minX, x1, x2 - 1, minY, maxY);
      if x2 > minX {
        assert |Cells(xs, len, minX, x2 - 1, minY, maxY)| <= |Cells(xs, len, minX, x2, minY, maxY)|;
      }
    }
  }

  /** The key bank holds the listed cells as consecutive (column, row) pairs from `base`. */
  ghost predicate KeysWritten(key_bank: seq<int>, base: int, cells: seq<(int, int)>)
  {
    forall j :: 0 <= j < |cells| ==> (0 <= base + 2 * j && base + 2 * j + 1 < |key_bank|
      && key_bank[base + 2 * j] == cells[j].0 && key_bank[base + 2 * j + 1] == cells[j].1)
  }

  /** Outside [lo, hi) `after` still holds `before`. */
  ghost predicate SameOutside(after: seq<int>, before: seq<int>, lo: int, hi: int)
  {
    |before| == |after| && forall i :: 0 <= i < |after| && !(lo <= i < hi) ==> after[i] == before[i]
  }

  /** Keys written below `lo` survive writes confined to [lo, hi). */
  lemma KeysKept(after: seq<int>, before: seq<int>, base: int, cells: seq<(int, int)>, lo: int, hi: int)
    requires KeysWritten(before, base, cells) && base + 2 * |cells| <= lo
    requires SameOutside(after, before, lo, hi)
    ensures KeysWritten(after, base, cells)
  {
    forall j | 0 <= j < |cells|
      ensures after[base + 2 * j] == before[base + 2 * j] && after[base + 2 * j + 1] == before[base + 2 * j + 1]
    {
    }
  }

  lemma SameOutsideTrans(a: seq<int>, b: seq<int>, c: seq<int>, lo: int, mid: int, hi: int)
    requires lo <= mid <= hi
    requires SameOutside(b, a, lo, mid) && SameOutside(c, b, mid, hi)
    ensures SameOutside(c, a, lo, hi)
  {
  }

  lemma KeysWrittenConcat(key_bank: seq<int>, base: int, a: seq<(int, int)>, b: seq<(int, int)>)
    requires KeysWritten(key_bank, base, a) && KeysWritten(key_bank, base + 2 * |a|, b)
    ensures KeysWritten(key_bank, base, a + b)
  {
    forall j | 0 <= j < |a + b|
      ensures 0 <= base + 2 * j && base + 2 * j + 1 < |key_bank|
      ensures key_bank[base + 2 * j] == (a + b)[j].0 && key_bank[base + 2 * j + 1] == (a + b)[j].1
    {
      if j >= |a| {
        var t := j - |a|;
        assert base + 2 * j == base + 2 * |a| + 2 * t;
      }
    }
  }

  lemma {:induction false} CountKeyConcat(xs: int, a: seq<(int, int)>, b: seq<(int, int)>, k: int)
    ensures CountKey(xs, a + b, k) == CountKey(xs, a, k) + CountKey(xs, b, k)
    decreases |b|
  {
    if b == [] {
      assert a + b == a;
    } else {
      var b' := b[..|b| - 1];
      CountKeyConcat(xs, a, b', k);
      assert (a + b)[..|a + b| - 1] == a + b';
    }
  }

  /** `after` is `before` with every listed cell counted once more at its key index. */
  ghost predicate CountsAdded(xs: int, after: seq<int>, before: seq<int>, cells: seq<(int, int)>)
  {
    |after| == |before| && forall k :: 0 <= k < |after| ==> after[k] == before[k] + CountKey(xs, cells, k)
  }

  lemma CountsAddedTrans(xs: int, a: seq<int>, b: seq<int>, c: seq<int>, d1: seq<(int, int)>, d2: seq<(int, int)>)
    requires CountsAdded(xs, b, a, d1) && CountsAdded(xs, c, b, d2)
    ensures CountsAdded(xs, c, a, d1 + d2)
  {
    forall k | 0 <= k < |c| ensures c[k] == a[k] + CountKey(xs, d1 + d2, k) {
      CountKeyConcat(xs, d1, d2, k);
    }
  }

  /** One key appended to the bank at the cursor. */
  lemma KeyStep(before: seq<int>, after: seq<int>, orig: seq<int>, base: int, cur: int, done: seq<(int, int)>, x: int, y: int)
    requires cur == base + 2 * |done| && 0 <= base && cur + 1 < |before|
    requires after == before[cur := x][cur + 1 := y]
    requires KeysWritten(before, base, done) && SameOutside(before, orig, base, cur)
    ensures KeysWritten(after, base, done + [(x, y)]) && SameOutside(after, orig, base, cur + 2)
  {
    var d := done + [(x, y)];
    forall j | 0 <= j < |d|
      ensures 0 <= base + 2 * j && base + 2 * j + 1 < |after|
      ensures after[base + 2 * j] == d[j].0 && after[base + 2 * j + 1] == d[j].1
    {
      if j < |done| {
        assert base + 2 * j + 1 < cur;
      }
    }
  }

  /** One cell counted at its key index. */
  lemma CountStep(xs: int, before: seq<int>, after: seq<int>, orig: seq<int>, done: seq<(int, int)>, x: int, y: int)
    requires 0 <= KeyIndex(xs, x, y) < |before|
    requires after == before[KeyIndex(xs, x, y) := before[KeyIndex(xs, x, y)] + 1]
    requires CountsAdded(xs, before, orig, done)
    ensures CountsAdded(xs, after, orig, done + [(x, y)])
  {
    forall k | 0 <= k < |after| ensures after[k] == orig[k] + CountKey(xs, done + [(x, y)], k) {
      CountKeyAppend(xs, done, (x, y), k);
    }
  }

  /** One column's keys written after the columns before it: the bank and counts now cover both. */
  lemma ColumnStep(xs: int, bank0: seq<int>, bank1: seq<int>, bankOrig: seq<int>, counts0: seq<int>, counts1: seq<int>, countsOrig: seq<int>,
                   base: int, cur: int, next: int, done: seq<(int, int)>, col: seq<(int, int)>)
    requires cur == base + 2 * |done| && next == cur + 2 * |col|
    requires KeysWritten(bank0, base, done) && SameOutside(bank0, bankOrig, base, cur)
    requires KeysWritten(bank1, cur, col) && SameOutside(bank1, bank0, cur, next)
    requires CountsAdded(xs, counts0, countsOrig, done) && CountsAdded(xs, counts1, counts0, col)
    ensures KeysWritten(bank1, base, done + col) && SameOutside(bank1, bankOrig, base, next)
    ensures CountsAdded(xs, counts1, countsOrig, done + col)
  {
    KeysKept(bank1, bank0, base, done, cur, next);
    KeysWrittenConcat(bank1, base, done, col);
    SameOutsideTrans(bankOrig, bank0, bank1, base, cur, next);
    CountsAddedTrans(xs, countsOrig, counts0, counts1, done, col);
  }

  /** Progress over a body's columns: the keys of columns minX..x-1 are stored from `base` and counted. */
  ghost predicate CellsProgress(xs: int, len: int, minX: int, x: int, minY: int, maxY: int, base: int, cur: int,
                                done: seq<(int, int)>, bank: seq<int>, bankOrig: seq<int>, counts: seq<int>, countsOrig: seq<int>)
  {
    && done == Cells(xs, len, minX, x, minY, maxY)
    && cur == base + 2 * |done|
    && KeysWritten(bank, base, done)
    && SameOutside(bank, bankOrig, base, cur)
    && CountsAdded(xs, counts, countsOrig, done)
  }

  /**
   * After generateBodyKeys: the body's keys are stored, KeyWidth ints each, from
   * `base` on, nothing else in the bank changed, and every key's count grew by
   * the number of times the body names it.
   */
  ghost predicate BodyKeysStored(xs: int, len: int, body: Body, base: int,
                                 bank: seq<int>, bankOrig: seq<int>, counts: seq<int>, countsOrig: seq<int>)
  {
    CellsProgress(xs, len, body.siMinX, body.siMaxX + 1, body.siMinY, body.siMaxY, base,
                  base + KeyWidth * |BodyCells(xs, len, body)|, BodyCells(xs, len, body), bank, bankOrig, counts, countsOrig)
  }

  /** One more column written keeps the progress over the body's columns. */
  lemma CellsAdvance(xs: int, len: int, minX: int, x: int, minY: int, maxY: int, base: int, cur: int, next: int,
                     done: seq<(int, int)>, bank0: seq<int>, bank1: seq<int>, bankOrig: seq<int>,
                     counts0: seq<int>, counts1: seq<int>, countsOrig: seq<int>)
    requires minX <= x
    requires CellsProgress(xs, len, minX, x, minY, maxY, base, cur, done, bank0, bankOrig, counts0, countsOrig)
    requires next == cur + 2 * |Column(xs, len, x, minY, maxY + 1)|
    requires KeysWritten(bank1, cur, Column(xs, len, x, minY, maxY + 1)) && SameOutside(bank1, bank0, cur, next)
    requires CountsAdded(xs, counts1, counts0, Column(xs, len, x, minY, maxY + 1))
    ensures CellsProgress(xs, len, minX, x + 1, minY, maxY, base, next, done + Column(xs, len, x, minY, maxY + 1),
                          bank1, bankOrig, counts1, countsOrig)
  {
    var col := Column(xs, len, x, minY, maxY + 1);
    assert done + col == Cells(xs, len, minX, x + 1, minY, maxY);
    ColumnStep(xs, bank0, bank1, bankOrig, counts0, counts1, countsOrig, base, cur, next, done, col);
  }

  /** The total key bank size of a run of bodies. */
  function BankTotal(bodies: seq<Body>): int
  {
    if bodies == [] then 0 else BankTotal(bodies[..|bodies| - 1]) + bodies[|bodies| - 1].siBankSize
  }

  /** A body whose bank size is exactly KeyWidth ints per key it will write. */
  predicate BankSized(xs: int, len: int, b: Body)
  {
    b.siBankSize == KeyWidth * |BodyCells(xs, len, b)|
  }

  /**
   * With every body's bank size equal to the room its keys need, the slices
   * calculateKeyBankSize assigns are back to back: body i's slice
   * [offset_i * KeyWidth, offset_i * KeyWidth + size_i) ends where the next
   * one starts and the last ends at the total, so each body's keys fit and no
   * two bodies' keys overlap.
   */
  lemma {:induction false} BankSlicesTile(xs: int, len: int, bodies: seq<Body>, i: int)
    requires forall b :: b in bodies ==> BankSized(xs, len, b)
    requires 0 <= i < |bodies|
    ensures 0 <= JavaNumbers.Quot(BankTotal(bodies[..i]), KeyWidth) * KeyWidth == BankTotal(bodies[..i])
    ensures BankTotal(bodies[..i]) + bodies[i].siBankSize == BankTotal(bodies[..i + 1]) <= BankTotal(bodies)
  {
    BankTotalEven(xs, len, bodies[..i]);
    assert bodies[..i + 1][..i] == bodies[..i];
    BankTotalMono(xs, len, bodies, i + 1);
  }

  lemma {:induction false} BankTotalEven(xs: int, len: int, bodies: seq<Body>)
    requires forall b :: b in bodies ==> BankSized(xs, len, b)
    ensures BankTotal(bodies) >= 0 && BankTotal(bodies) % KeyWidth == 0
  {
    if bodies != [] {
      assert forall b :: b in bodies[..|bodies| - 1] ==> b in bodies;
      BankTotalEven(xs, len, bodies[..|bodies| - 1]);
      assert bodies[|bodies| - 1] in bodies;
    }
  }

  lemma {:induction false} BankTotalMono(xs: int, len: int, bodies: seq<Body>, n: int)
    requires forall b :: b in bodies ==> BankSized(xs, len, b)
    requires 0 <= n <= |bodies|
    ensures BankTotal(bodies[..n]) <= BankTotal(bodies)
    decreases |bodies| - n
  {
    if n < |bodies| {
      var shorter := bodies[..|bodies| - 1];
      assert forall b :: b in shorter ==> b in bodies;
      assert bodies[..n] == shorter[..n];
      BankTotalMono(xs, len, shorter, n);
      assert bodies[|bodies| - 1] in bodies;
    } else {
      assert bodies[..n] == bodies;
    }
  }

  /** The sum of a run of counts. */
  function Sum(s: seq<int>): int
  {
    if s == [] then 0 else Sum(s[..|s| - 1]) + s[|s| - 1]
  }

  lemma SumAppend(s: seq<int>, x: int)
    ensures Sum(s + [x]) == Sum(s) + x
  {
    assert (s + [x])[..|s|] == s;
  }

  lemma {:induction false} SumMono(s: seq<int>, i: int, j: int)
    requires forall k :: 0 <= k < |s| ==> s[k] >= 0
    requires 0 <= i <= j <= |s|
    ensures Sum(s[..i]) <= Sum(s[..j])
    decreases j - i
  {
    if i < j {
      SumMono(s, i, j - 1);
      assert s[..j] == s[..j - 1] + [s[j - 1]];
      SumAppend(s[..j - 1], s[j - 1]);
    }
  }

  /**
   * With non-negative counts, the offsets calculateMapOffsets assigns give
   * every occupied cell its own range of the key map: cell i's range
   * [offset_i, offset_i + count_i) ends no later than any later occupied
   * cell's range starts, and all of them end within the total count.
   */
  lemma {:induction false} MapRangesDisjoint(counts: seq<int>, i: int, j: int)
    requires forall k :: 0 <= k < |counts| ==> counts[k] >= 0
    requires 0 <= i < j <= |counts|
    ensures 0 <= Sum(counts[..i])
    ensures Sum(counts[..i]) + counts[i] <= Sum(counts[..j]) <= Sum(counts)
  {
    SumMono(counts, 0, i);
    assert counts[..0] == [];
    assert counts[..i + 1] == counts[..i] + [counts[i]];
    SumAppend(counts[..i], counts[i]);
    SumMono(counts, i + 1, j);
    SumMono(counts, j, |counts|);
    assert counts[..|counts|] == counts;
  }

  /** Progress of one column: the keys of rows minY..y-1 are stored from `start` and counted. */
  ghost predicate ColumnProgress(xs: int, len: int, x: int, minY: int, y: int, start: int, cur: int, done: seq<(int, int)>,
                                 bank: seq<int>, bankOrig: seq<int>, counts: seq<int>, countsOrig: seq<int>)
  {
    && done == Column(xs, len, x, minY, y)
    && cur == start + 2 * |done|
    && KeysWritten(bank, start, done)
    && SameOutside(bank, bankOrig, start, cur)
    && CountsAdded(xs, counts, countsOrig, done)
  }

  /** A row outside the directory adds nothing. */
  lemma ColumnSkip(xs: int, len: int, x: int, minY: int, y: int, start: int, cur: int, done: seq<(int, int)>,
                   bank: seq<int>, bankOrig: seq<int>, counts: seq<int>, countsOrig: seq<int>)
    requires minY <= y && !InDirectory(xs, len, x, y)
    requires ColumnProgress(xs, len, x, minY, y, start, cur, done, bank, bankOrig, counts, countsOrig)
    ensures ColumnProgress(xs, len, x, minY, y + 1, start, cur, done, bank, bankOrig, counts, countsOrig)
  {
    assert Column(xs, len, x, minY, y + 1) == Column(xs, len, x, minY, y) + [];
  }

  /** A row inside the directory is stored at the cursor and counted. */
  lemma ColumnRecord(xs: int, len: int, x: int, minY: int, y: int, start: int, cur: int, done: seq<(int, int)>,
                     bank0: seq<int>, bank: seq<int>, bankOrig: seq<int>, counts0: seq<int>, counts: seq<int>, countsOrig: seq<int>)
    requires minY <= y && InDirectory(xs, len, x, y) && |counts0| == len
    requires 0 <= start && cur + 1 < |bank0|
    requires ColumnProgress(xs, len, x, minY, y, start, cur, done, bank0, bankOrig, counts0, countsOrig)
    requires bank == bank0[cur := x][cur + 1 := y]
    requires counts == counts0[KeyIndex(xs, x, y) := counts0[KeyIndex(xs, x, y)] + 1]
    ensures ColumnProgress(xs, len, x, minY, y + 1, start, cur + 2, done + [(x, y)], bank, bankOrig, counts, countsOrig)
  {
    KeyStep(bank0, bank, bankOrig, start, cur, done, x, y);
    CountStep(xs, counts0, counts, countsOrig, done, x, y);
  }

  /**
   * The first free slot (-1) of m in [lo, hi), if any: where the search in
   * rebuildLocationEX stops. Every slot before it is taken.
   */
  function FirstFree(m: seq<int>, lo: int, hi: int): (r: Option<int>)
    requires 0 <= lo && hi <= |m|
    ensures r.Some? ==> lo <= r.value < hi && m[r.value] == -1
    ensures r.Some? ==> forall j :: lo <= j < r.value ==> m[j] != -1
    ensures r.None? <==> forall j :: lo <= j < hi ==> m[j] != -1
    decreases hi - lo
  {
    if lo >= hi then None
    else if m[lo] == -1 then Some(lo)
    else FirstFree(m, lo + 1, hi)
  }

  /** The key map after body v is entered in the range [lo, hi): the first free slot takes it, if there is one. */
  function Place(m: seq<int>, lo: int, hi: int, v: int): seq<int>
    requires 0 <= lo && hi <= |m|
  {
    match FirstFree(m, lo, hi)
    case None => m
    case Some(i) => m[i := v]
  }

  /**
   * Entering a body fills at most one slot: a slot that was free, inside the
   * range, and only when the range has one. A taken slot is never
   * overwritten, and with a free slot the body ends up in the range.
   */
  lemma PlaceFillsOneFreeSlot(m: seq<int>, lo: int, hi: int, v: int)
    requires 0 <= lo && hi <= |m|
    ensures |Place(m, lo, hi, v)| == |m|
    ensures forall i :: 0 <= i < |m| && Place(m, lo, hi, v)[i] != m[i] ==> lo <= i < hi && m[i] == -1 && Place(m, lo, hi, v)[i] == v
    ensures (forall j :: lo <= j < hi ==> m[j] != -1) ==> Place(m, lo, hi, v) == m
    ensures (exists j :: lo <= j < hi && m[j] == -1) ==>
      multiset(Place(m, lo, hi, v)) == multiset(m) - multiset{-1} + multiset{v}
      && exists j :: lo <= j < hi && Place(m, lo, hi, v)[j] == v
  {
    match FirstFree(m, lo, hi)
    case None =>
    case Some(i) =>
      assert m == m[..i] + [m[i]] + m[i + 1..];
      assert m[i := v] == m[..i] + [v] + m[i + 1..];
  }

  /** A cell's key-map range fits the map: the cell is in the directory and has an offset. */
  predicate RangeFits(counts: seq<int>, offsets: seq<int>, mapLen: int, k: int)
  {
    0 <= k < |counts| && k < |offsets| && 0 <= offsets[k] && offsets[k] + counts[k] <= mapLen
  }

  /** The key map after body v is entered for cell c: in the cell's range, when it has one. */
  function PlaceCell(xs: int, m: seq<int>, counts: seq<int>, offsets: seq<int>, c: (int, int), v: int): seq<int>
  {
    var k := KeyIndex(xs, c.0, c.1);
    if RangeFits(counts, offsets, |m|, k) then Place(m, offsets[k], offsets[k] + counts[k], v) else m
  }

  /** The key map after body v is entered for each cell in turn. */
  function PlaceCells(xs: int, m: seq<int>, counts: seq<int>, offsets: seq<int>, cells: seq<(int, int)>, v: int): seq<int>
  {
    if cells == [] then m
    else PlaceCell(xs, PlaceCells(xs, m, counts, offsets, cells[..|cells| - 1], v), counts, offsets, cells[|cells| - 1], v)
  }

  /** rebuildLocationEX never overwrites a taken slot: every slot it changes was free and now holds the body. */
  lemma {:induction false} PlaceCellsOnlyFills(xs: int, m: seq<int>, counts: seq<int>, offsets: seq<int>, cells: seq<(int, int)>, v: int)
    ensures |PlaceCells(xs, m, counts, offsets, cells, v)| == |m|
    ensures forall i :: 0 <= i < |m| && PlaceCells(xs, m, counts, offsets, cells, v)[i] != m[i] ==>
      m[i] == -1 && PlaceCells(xs, m, counts, offsets, cells, v)[i] == v
  {
    if cells != [] {
      var prev := PlaceCells(xs, m, counts, offsets, cells[..|cells| - 1], v);
      PlaceCellsOnlyFills(xs, m, counts, offsets, cells[..|cells| - 1], v);
      var c := cells[|cells| - 1];
      var k := KeyIndex(xs, c.0, c.1);
      if RangeFits(counts, offsets, |prev|, k) {
        PlaceFillsOneFreeSlot(prev, offsets[k], offsets[k] + counts[k], v);
      }
    }
  }

  /** One more cell entered after the ones before it. */
  lemma PlaceCellsStep(xs: int, m: seq<int>, counts: seq<int>, offsets: seq<int>, done: seq<(int, int)>, c: (int, int), v: int)
    ensures PlaceCells(xs, m, counts, offsets, done + [c], v) == PlaceCell(xs, PlaceCells(xs, m, counts, offsets, done, v), counts, offsets, c, v)
  {
    assert (done + [c])[..|done|] == done;
  }

  /** One more cell entered after a column's worth of cells. */
  lemma PlaceCellsNext(xs: int, m: seq<int>, counts: seq<int>, offsets: seq<int>, done: seq<(int, int)>,
                       col: seq<(int, int)>, c: (int, int), v: int)
    ensures PlaceCells(xs, m, counts, offsets, done + (col + [c]), v)
         == PlaceCell(xs, PlaceCells(xs, m, counts, offsets, done + col, v), counts, offsets, c, v)
  {
    assert done + (col + [c]) == (done + col) + [c];
    PlaceCellsStep(xs, m, counts, offsets, done + col, c, v);
  }

  /**
   * Where the ranges fit, entering the body for an in-directory cell is what
   * rebuildLocationEX's search does: fill the range when the cell has keys,
   * change nothing otherwise.
   */
  lemma PlaceCellInRange(xs: int, m: seq<int>, counts: seq<int>, offsets: seq<int>, c: (int, int), v: int)
    requires MapFits(counts, offsets, |m|) && 0 <= KeyIndex(xs, c.0, c.1) < |counts|
    ensures counts[KeyIndex(xs, c.0, c.1)] > 0 ==>
      PlaceCell(xs, m, counts, offsets, c, v)
        == Place(m, offsets[KeyIndex(xs, c.0, c.1)], offsets[KeyIndex(xs, c.0, c.1)] + counts[KeyIndex(xs, c.0, c.1)], v)
    ensures counts[KeyIndex(xs, c.0, c.1)] <= 0 ==> PlaceCell(xs, m, counts, offsets, c, v) == m
  {
    var k := KeyIndex(xs, c.0, c.1);
    if counts[k] <= 0 && RangeFits(counts, offsets, |m|, k) {
      assert FirstFree(m, offsets[k], offsets[k] + counts[k]).None?;
    }
  }

  /** The key map's ranges fit wherever rebuildLocationEX scans one: every cell with keys has a range inside the map. */
  ghost predicate MapFits(counts: seq<int>, offsets: seq<int>, mapLen: int)
  {
    |counts| <= |offsets| && forall k :: 0 <= k < |counts| && counts[k] > 0 ==> 0 <= offsets[k] && offsets[k] + counts[k] <= mapLen
  }

  /** The key-map index of the p-th key of a body's key slice. */
  function KeyAt(xs: int, keys: seq<int>, p: int): int
    requires 0 <= p && KeyWidth * p + 1 < |keys|
  {
    KeyIndex(xs, keys[KeyWidth * p], keys[KeyWidth * p + 1])
  }

  /** Every key of the slice names a cell of the directory. */
  ghost predicate KeysInDirectory(xs: int, keys: seq<int>, len: int)
  {
    |keys| % KeyWidth == 0 && forall p :: 0 <= p < |keys| / KeyWidth ==> 0 <= KeyAt(xs, keys, p) < len
  }

  /** Every cell findMatchesEX reads has a range inside the key map, and every entry names a body. */
  ghost predicate HitRangesFit(counts: seq<int>, offsets: seq<int>, key_map: seq<int>, bodyCount: int)
  {
    && |counts| <= |offsets|
    && (forall k :: 0 <= k < |counts| && counts[k] != 0 && offsets[k] != -1 ==>
          0 <= offsets[k] && 0 <= counts[k] && offsets[k] + counts[k] <= |key_map|)
    && (forall i :: 0 <= i < |key_map| ==> key_map[i] < bodyCount)
  }

  /** The bodies above `target` whose boxes meet its box, among the first n entries from `offset`. */
  function RangeMatches(target: int, boxes: seq<Box>, key_map: seq<int>, offset: int, n: int): set<int>
    requires 0 <= target < |boxes| && 0 <= offset && offset + n <= |key_map|
    requires forall i :: 0 <= i < |key_map| ==> key_map[i] < |boxes|
    decreases n
  {
    if n <= 0 then {}
    else
      var next := key_map[offset + n - 1];
      RangeMatches(target, boxes, key_map, offset, n - 1)
        + (if target < next && BoxesIntersect(boxes[target], boxes[next]) then {next} else {})
  }

  /** What findMatchesEX takes from the p-th key's cell: nothing for an empty cell, else its range's matches. */
  function CellMatches(xs: int, target: int, boxes: seq<Box>, keys: seq<int>, key_map: seq<int>,
                       counts: seq<int>, offsets: seq<int>, p: int): set<int>
    requires 0 <= target < |boxes| && 0 <= p < |keys| / KeyWidth
    requires KeysInDirectory(xs, keys, |counts|) && HitRangesFit(counts, offsets, key_map, |boxes|)
  {
    var k := KeyAt(xs, keys, p);
    if counts[k] == 0 || offsets[k] == -1 then {}
    else RangeMatches(target, boxes, key_map, offsets[k], counts[k])
  }

  /** The matches of the first n keys of the slice. */
  function KeyMatches(xs: int, target: int, boxes: seq<Box>, keys: seq<int>, key_map: seq<int>,
                      counts: seq<int>, offsets: seq<int>, n: int): set<int>
    requires 0 <= target < |boxes| && 0 <= n <= |keys| / KeyWidth
    requires KeysInDirectory(xs, keys, |counts|) && HitRangesFit(counts, offsets, key_map, |boxes|)
  {
    if n == 0 then {}
    else (KeyMatches(xs, target, boxes, keys, key_map, counts, offsets, n - 1)
          + CellMatches(xs, target, boxes, keys, key_map, counts, offsets, n - 1))
  }

  /** A body is in a range's matches exactly when some entry of the range names it, it is above the target, and the boxes meet. */
  lemma {:induction false} RangeMatchesMembers(target: int, boxes: seq<Box>, key_map: seq<int>, offset: int, n: int, b: int)
    requires 0 <= target < |boxes| && 0 <= offset && 0 <= n && offset + n <= |key_map|
    requires forall i :: 0 <= i < |key_map| ==> key_map[i] < |boxes|
    ensures b in RangeMatches(target, boxes, key_map, offset, n) <==>
      target < b < |boxes| && BoxesIntersect(boxes[target], boxes[b]) && exists j :: offset <= j < offset + n && key_map[j] == b
  {
    if n > 0 {
      RangeMatchesMembers(target, boxes, key_map, offset, n - 1, b);
    }
  }

  /** A body is among the first n keys' matches exactly when one of those keys' cells yields it. */
  lemma {:induction false} KeyMatchesMembers(xs: int, target: int, boxes: seq<Box>, keys: seq<int>, key_map: seq<int>,
                                             counts: seq<int>, offsets: seq<int>, n: int, b: int)
    requires 0 <= target < |boxes| && 0 <= n <= |keys| / KeyWidth
    requires KeysInDirectory(xs, keys, |counts|) && HitRangesFit(counts, offsets, key_map, |boxes|)
    ensures b in KeyMatches(xs, target, boxes, keys, key_map, counts, offsets, n) <==>
      exists p :: 0 <= p < n && b in CellMatches(xs, target, boxes, keys, key_map, counts, offsets, p)
  {
    if n > 0 {
      KeyMatchesMembers(xs, target, boxes, keys, key_map, counts, offsets, n - 1, b);
    }
  }

  /**
   * Each overlapping pair is reported once, by its lower-numbered body: if
   * body b > a sits in the range of a cell that a's keys name, and the boxes
   * meet, b is among a's matches; a is never among b's matches, whatever
   * b's keys are.
   */
  lemma PairReportedOnce(xs: int, a: int, b: int, boxes: seq<Box>, keysA: seq<int>, keysB: seq<int>, key_map: seq<int>,
                         counts: seq<int>, offsets: seq<int>, p: int, j: int)
    requires 0 <= a < b < |boxes| && BoxesIntersect(boxes[a], boxes[b])
    requires KeysInDirectory(xs, keysA, |counts|) && KeysInDirectory(xs, keysB, |counts|)
    requires HitRangesFit(counts, offsets, key_map, |boxes|)
    requires 0 <= p < |keysA| / KeyWidth
    requires counts[KeyAt(xs, keysA, p)] != 0 && offsets[KeyAt(xs, keysA, p)] != -1
    requires offsets[KeyAt(xs, keysA, p)] <= j < offsets[KeyAt(xs, keysA, p)] + counts[KeyAt(xs, keysA, p)] && key_map[j] == b
    ensures b in KeyMatches(xs, a, boxes, keysA, key_map, counts, offsets, |keysA| / KeyWidth)
    ensures a !in KeyMatches(xs, b, boxes, keysB, key_map, counts, offsets, |keysB| / KeyWidth)
  {
    var k := KeyAt(xs, keysA, p);
    RangeMatchesMembers(a, boxes, key_map, offsets[k], counts[k], b);
    assert b in CellMatches(xs, a, boxes, keysA, key_map, counts, offsets, p);
    KeyMatchesMembers(xs, a, boxes, keysA, key_map, counts, offsets, |keysA| / KeyWidth, b);
    KeyMatchesAbove(xs, b, boxes, keysB, key_map, counts, offsets, |keysB| / KeyWidth);
  }

  /** Every match lies above the target: findMatchesEX skips bodies numbered at or below it. */
  lemma KeyMatchesAbove(xs: int, target: int, boxes: seq<Box>, keys: seq<int>, key_map: seq<int>,
                        counts: seq<int>, offsets: seq<int>, n: int)
    requires 0 <= target < |boxes| && 0 <= n <= |keys| / KeyWidth
    requires KeysInDirectory(xs, keys, |counts|) && HitRangesFit(counts, offsets, key_map, |boxes|)
    ensures forall b :: b in KeyMatches(xs, target, boxes, keys, key_map, counts, offsets, n) ==>
      target < b < |boxes| && BoxesIntersect(boxes[target], boxes[b])
  {
    forall b | b in KeyMatches(xs, target, boxes, keys, key_map, counts, offsets, n)
      ensures target < b < |boxes| && BoxesIntersect(boxes[target], boxes[b])
    {
      KeyMatchesMembers(xs, target, boxes, keys, key_map, counts, offsets, n, b);
      var q :| 0 <= q < n && b in CellMatches(xs, target, boxes, keys, key_map, counts, offsets, q);
      var k := KeyAt(xs, keys, q);
      RangeMatchesMembers(target, boxes, key_map, offsets[k], counts[k], b);
    }
  }

  class SpatialMap {
    var width: real
    var height: real
    const x_subdivisions: int := XSubdivisions
    const y_subdivisions: int := YSubdivisions
    var directoryLength: int
    var x_spacing: real
    var y_spacing: real

    /** A 1920 by 1080 screen cut into 200 by 200 cells. */
    constructor ()
      ensures width == 1920.0 && height == 1080.0
      ensures directoryLength == x_subdivisions * y_subdivisions
      ensures x_spacing * x_subdivisions as real == width && y_spacing * y_subdivisions as real == height
    {
      width := 1920.0;
      height := 1080.0;
      new;
      Init();
    }

    /** init: cell size from the screen size; the directory has one slot per cell. */
    method Init()
      modifies this`x_spacing, this`y_spacing, this`directoryLength
      ensures directoryLength == x_subdivisions * y_subdivisions
      ensures x_spacing * x_subdivisions as real == width && y_spacing * y_subdivisions as real == height
    {
      x_spacing := width / x_subdivisions as real;
      y_spacing := height / y_subdivisions as real;
      directoryLength := x_subdivisions * y_subdivisions;
    }

    /** resize: the new screen is again cut into the same number of cells, which now tile it exactly. */
    method Resize(width: real, height: real)
      modifies this
      ensures this.width == width && this.height == height
      ensures directoryLength == x_subdivisions * y_subdivisions
      ensures x_spacing * x_subdivisions as real == width && y_spacing * y_subdivisions as real == height
    {
      this.width := width;
      this.height := height;
      Init();
    }

    /**
     * generateBodyKeys: writes the (column, row) key of every in-directory
     * cell of the body, column by column, into the body's slice of the key
     * bank starting at bank_offset * KeyWidth, and counts each such cell in
     * key_counts. Nothing outside that slice of the bank changes.
     */
    method GenerateBodyKeys(body: Body, bank_offset: int, key_bank: array<int>, key_counts: array<int>)
      requires key_bank != key_counts
      requires 0 <= bank_offset * KeyWidth
      requires bank_offset * KeyWidth + KeyWidth * |BodyCells(x_subdivisions, key_counts.Length, body)| <= key_bank.Length
      modifies key_bank, key_counts
      ensures BodyKeysStored(x_subdivisions, key_counts.Length, body, bank_offset * KeyWidth,
                             key_bank[..], old(key_bank[..]), key_counts[..], old(key_counts[..]))
    {
      var xs, len := x_subdivisions, key_counts.Length;
      var base := bank_offset * KeyWidth;
      var current_index := base;
      ghost var done: seq<(int, int)> := [];
      var current_x := body.siMinX;
      while current_x <= body.siMaxX
        invariant current_x == body.siMinX || body.siMinX < current_x <= body.siMaxX + 1
        invariant CellsProgress(xs, len, body.siMinX, current_x, body.siMinY, body.siMaxY, base, current_index, done,
                                key_bank[..], old(key_bank[..]), key_counts[..], old(key_counts[..]))
        decreases body.siMaxX + 1 - current_x
      {
        current_index := BodyColumn(body.siMinX, body.siMaxX, current_x, body.siMinY, body.siMaxY, base, current_index,
                                    done, old(key_bank[..]), old(key_counts[..]), key_bank, key_counts);
        done := done + Column(xs, len, current_x, body.siMinY, body.siMaxY + 1);
        current_x := current_x + 1;
      }
      assert done == BodyCells(xs, len, body);
    }

    /** One pass of generateBodyKeys' outer loop: the next column's keys extend the body's progress. */
    method BodyColumn(min_x: int, max_x: int, current_x: int, min_y: int, max_y: int, base: int, current_index: int,
                      ghost done: seq<(int, int)>, ghost bankOrig: seq<int>, ghost countsOrig: seq<int>, key_bank: array<int>, key_counts: array<int>)
      returns (next_index: int)
      requires key_bank != key_counts && 0 <= base && min_x <= current_x <= max_x
      requires base + 2 * |Cells(x_subdivisions, key_counts.Length, min_x, max_x + 1, min_y, max_y)| <= key_bank.Length
      requires CellsProgress(x_subdivisions, key_counts.Length, min_x, current_x, min_y, max_y, base, current_index, done,
                             key_bank[..], bankOrig, key_counts[..], countsOrig)
      modifies key_bank, key_counts
      ensures CellsProgress(x_subdivisions, key_counts.Length, min_x, current_x + 1, min_y, max_y, base, next_index,
                            done + Column(x_subdivisions, key_counts.Length, current_x, min_y, max_y + 1), key_bank[..], bankOrig, key_counts[..], countsOrig)
    {
      var xs, len := x_subdivisions, key_counts.Length;
      assert done + Column(xs, len, current_x, min_y, max_y + 1) == Cells(xs, len, min_x, current_x + 1, min_y, max_y);
      CellsLengthMono(xs, len, min_x, current_x + 1, max_x + 1, min_y, max_y);
      next_index := ColumnKeys(current_x, min_y, max_y, current_index, key_bank, key_counts);
      CellsAdvance(xs, len, min_x, current_x, min_y, max_y, base, current_index, next_index, done,
                   old(key_bank[..]), key_bank[..], bankOrig, old(key_counts[..]), key_counts[..], countsOrig);
    }

    /** The inner loop of generateBodyKeys: the keys of one column of the body's rectangle, by ascending row. */
    method ColumnKeys(current_x: int, min_y: int, max_y: int, start_index: int, key_bank: array<int>, key_counts: array<int>)
      returns (current_index: int)
      requires key_bank != key_counts
      requires 0 <= start_index
      requires start_index + 2 * |Column(x_subdivisions, key_counts.Length, current_x, min_y, max_y + 1)| <= key_bank.Length
      modifies key_bank, key_counts
      ensures current_index == start_index + 2 * |Column(x_subdivisions, key_counts.Length, current_x, min_y, max_y + 1)|
      ensures KeysWritten(key_bank[..], start_index, Column(x_subdivisions, key_counts.Length, current_x, min_y, max_y + 1))
      ensures SameOutside(key_bank[..], old(key_bank[..]), start_index, current_index)
      ensures CountsAdded(x_subdivisions, key_counts[..], old(key_counts[..]), Column(x_subdivisions, key_counts.Length, current_x, min_y, max_y + 1))
    {
      var xs, len := x_subdivisions, key_counts.Length;
      ghost var done: seq<(int, int)> := [];
      current_index := start_index;
      var current_y := min_y;
      while current_y <= max_y
        invariant current_y == min_y || min_y < current_y <= max_y + 1
        invariant ColumnProgress(xs, len, current_x, min_y, current_y, start_index, current_index, done,
                                 key_bank[..], old(key_bank[..]), key_counts[..], old(key_counts[..]))
        decreases max_y + 1 - current_y
      {
        current_index := RowKey(current_x, min_y, max_y, current_y, start_index, current_index, done,
                                old(key_bank[..]), old(key_counts[..]), key_bank, key_counts);
        done := Column(xs, len, current_x, min_y, current_y + 1);
        current_y := current_y + 1;
      }
    }

    /** One pass of generateBodyKeys' inner loop: an in-directory cell's key is stored at the cursor and counted. */
    method RowKey(current_x: int, min_y: int, max_y: int, current_y: int, start_index: int, current_index: int,
                  ghost done: seq<(int, int)>, ghost bankOrig: seq<int>, ghost countsOrig: seq<int>,
                  key_bank: array<int>, key_counts: array<int>)
      returns (next_index: int)
      requires key_bank != key_counts && 0 <= start_index && min_y <= current_y <= max_y
      requires start_index + 2 * |Column(x_subdivisions, key_counts.Length, current_x, min_y, max_y + 1)| <= key_bank.Length
      requires ColumnProgress(x_subdivisions, key_counts.Length, current_x, min_y, current_y, start_index, current_index, done,
                              key_bank[..], bankOrig, key_counts[..], countsOrig)
      modifies key_bank, key_counts
      ensures ColumnProgress(x_subdivisions, key_counts.Length, current_x, min_y, current_y + 1, start_index, next_index,
                             Column(x_subdivisions, key_counts.Length, current_x, min_y, current_y + 1),
                             key_bank[..], bankOrig, key_counts[..], countsOrig)
    {
      var xs, len := x_subdivisions, key_counts.Length;
      ColumnLengthMono(xs, len, current_x, min_y, current_y + 1, max_y + 1);
      var key_index := xs * current_y + current_x;
      if key_index < 0 || key_index >= len {
        ColumnSkip(xs, len, current_x, min_y, current_y, start_index, current_index, done,
                   key_bank[..], bankOrig, key_counts[..], countsOrig);
        return current_index;
      }
      RecordKey(current_x, current_y, key_index, current_index, key_bank, key_counts);
      ColumnRecord(xs, len, current_x, min_y, current_y, start_index, current_index, done,
                   old(key_bank[..]), key_bank[..], bankOrig, old(key_counts[..]), key_counts[..], countsOrig);
      next_index := current_index + 2;
    }

    /** The body of generateBodyKeys' inner loop for an in-directory cell: store its key at the cursor and count it. */
    static method RecordKey(x: int, y: int, key_index: int, current_index: int, key_bank: array<int>, key_counts: array<int>)
      requires key_bank != key_counts
      requires 0 <= current_index && current_index + 1 < key_bank.Length && 0 <= key_index < key_counts.Length
      modifies key_bank, key_counts
      ensures key_bank[..] == old(key_bank[..])[current_index := x][current_index + 1 := y]
      ensures key_counts[..] == old(key_counts[..])[key_index := old(key_counts[key_index]) + 1]
    {
      key_bank[current_index] := x;
      key_bank[current_index + 1] := y;
      key_counts[key_index] := key_counts[key_index] + 1;
    }

    /**
     * calculateKeyBankSize: lays the bodies' key slices end to end. Each
     * body's bank offset (counted in keys) is the total bank size of the
     * bodies before it, divided by KeyWidth; the result is the total size.
     */
    method CalculateKeyBankSize(bodies: seq<Body>, bank_offsets: array<int>) returns (size: int)
      requires bank_offsets.Length == |bodies|
      modifies bank_offsets
      ensures size == BankTotal(bodies)
      ensures forall i :: 0 <= i < |bodies| ==> bank_offsets[i] == JavaNumbers.Quot(BankTotal(bodies[..i]), KeyWidth)
    {
      size := 0;
      var body_index := 0;
      while body_index < |bodies|
        invariant 0 <= body_index <= |bodies|
        invariant size == BankTotal(bodies[..body_index])
        invariant forall i :: 0 <= i < body_index ==> bank_offsets[i] == JavaNumbers.Quot(BankTotal(bodies[..i]), KeyWidth)
      {
        bank_offsets[body_index] := JavaNumbers.Quot(size, KeyWidth);
        assert bodies[..body_index + 1][..body_index] == bodies[..body_index];
        size := size + bodies[body_index].siBankSize;
        body_index := body_index + 1;
      }
      assert bodies[..|bodies|] == bodies;
    }

    /**
     * calculateMapOffsets: an exclusive prefix sum of the key counts, with
     * -1 marking cells that hold no keys. Entries of key_offsets past the
     * directory keep their values.
     */
    method CalculateMapOffsets(key_offsets: array<int>, key_counts: array<int>)
      requires key_offsets != key_counts
      requires key_offsets.Length >= key_counts.Length
      modifies key_offsets
      ensures forall i :: 0 <= i < key_counts.Length ==>
        key_offsets[i] == if key_counts[i] == 0 then -1 else Sum(key_counts[..i])
      ensures forall i :: key_counts.Length <= i < key_offsets.Length ==> key_offsets[i] == old(key_offsets[i])
    {
      var current_offset := 0;
      var i := 0;
      while i < key_counts.Length
        invariant 0 <= i <= key_counts.Length
        invariant current_offset == Sum(key_counts[..i])
        invariant forall k :: 0 <= k < i ==> key_offsets[k] == if key_counts[k] == 0 then -1 else Sum(key_counts[..k])
        invariant forall k :: key_counts.Length <= k < key_offsets.Length ==> key_offsets[k] == old(key_offsets[k])
      {
        var next := key_counts[i];
        assert key_counts[..i + 1] == key_counts[..i] + [next];
        SumAppend(key_counts[..i], next);
        if next == 0 {
          key_offsets[i] := -1;
          i := i + 1;
          continue;
        }
        key_offsets[i] := current_offset;
        current_offset := current_offset + next;
        i := i + 1;
      }
    }

    /**
     * rebuildLocationEX: the body is entered into the key map once for every
     * cell its rectangle covers inside the directory, column by column, each
     * time in the first free slot of that cell's range.
     */
    method RebuildLocation(body: Body, body_index: int, key_map: array<int>, key_counts: array<int>, key_offsets: array<int>)
      requires key_map != key_counts && key_map != key_offsets
      requires MapFits(key_counts[..], key_offsets[..], key_map.Length)
      modifies key_map
      ensures key_map[..] == PlaceCells(x_subdivisions, old(key_map[..]), key_counts[..], key_offsets[..],
                                        BodyCells(x_subdivisions, key_counts.Length, body), body_index)
    {
      var xs, len := x_subdivisions, key_counts.Length;
      var current_x := body.siMinX;
      while current_x <= body.siMaxX
        invariant current_x == body.siMinX || body.siMinX < current_x <= body.siMaxX + 1
        invariant key_map[..] == PlaceCells(xs, old(key_map[..]), key_counts[..], key_offsets[..],
                                            Cells(xs, len, body.siMinX, current_x, body.siMinY, body.siMaxY), body_index)
        decreases body.siMaxX + 1 - current_x
      {
        RebuildColumn(current_x, body.siMinY, body.siMaxY, body_index,
                      Cells(xs, len, body.siMinX, current_x, body.siMinY, body.siMaxY), old(key_map[..]),
                      key_map, key_counts, key_offsets);
        current_x := current_x + 1;
      }
    }

    /** The inner loop of rebuildLocationEX: one column of the body's rectangle, by ascending row. */
    method RebuildColumn(current_x: int, min_y: int, max_y: int, body_index: int,
                         ghost done: seq<(int, int)>, ghost mapOrig: seq<int>,
                         key_map: array<int>, key_counts: array<int>, key_offsets: array<int>)
      requires key_map != key_counts && key_map != key_offsets
      requires MapFits(key_counts[..], key_offsets[..], key_map.Length)
      requires key_map[..] == PlaceCells(x_subdivisions, mapOrig, key_counts[..], key_offsets[..], done, body_index)
      modifies key_map
      ensures key_map[..] == PlaceCells(x_subdivisions, mapOrig, key_counts[..], key_offsets[..],
                                        done + Column(x_subdivisions, key_counts.Length, current_x, min_y, max_y + 1), body_index)
    {
      var xs, len := x_subdivisions, key_counts.Length;
      var current_y := min_y;
      assert done + Column(xs, len, current_x, min_y, current_y) == done;
      while current_y <= max_y
        invariant current_y == min_y || min_y < current_y <= max_y + 1
        invariant key_map[..] == PlaceCells(xs, mapOrig, key_counts[..], key_offsets[..],
                                            done + Column(xs, len, current_x, min_y, current_y), body_index)
        decreases max_y + 1 - current_y
      {
        RebuildCell(current_x, min_y, current_y, body_index, done, mapOrig, key_map, key_counts, key_offsets);
        current_y := current_y + 1;
      }
    }

    /** One pass of rebuildLocationEX's row loop: an in-directory cell gets the body in its range. */
    method RebuildCell(current_x: int, min_y: int, current_y: int, body_index: int,
                       ghost done: seq<(int, int)>, ghost mapOrig: seq<int>,
                       key_map: array<int>, key_counts: array<int>, key_offsets: array<int>)
      requires key_map != key_counts && key_map != key_offsets && min_y <= current_y
      requires MapFits(key_counts[..], key_offsets[..], key_map.Length)
      requires key_map[..] == PlaceCells(x_subdivisions, mapOrig, key_counts[..], key_offsets[..],
                                         done + Column(x_subdivisions, key_counts.Length, current_x, min_y, current_y), body_index)
      modifies key_map
      ensures key_map[..] == PlaceCells(x_subdivisions, mapOrig, key_counts[..], key_offsets[..],
                                        done + Column(x_subdivisions, key_counts.Length, current_x, min_y, current_y + 1), body_index)
    {
      var xs, len := x_subdivisions, key_counts.Length;
      ghost var col := Column(xs, len, current_x, min_y, current_y);
      var key_index := xs * current_y + current_x;
      if key_index < 0 || key_index >= len {
        assert Column(xs, len, current_x, min_y, current_y + 1) == col + [];
        assert col + [] == col;
        return;
      }
      var count := key_counts[key_index];
      var offset := key_offsets[key_index];
      ghost var before := key_map[..];
      FillFirst(key_map, offset, count, body_index);
      PlaceCellInRange(xs, before, key_counts[..], key_offsets[..], (current_x, current_y), body_index);
      assert key_map[..] == PlaceCell(xs, before, key_counts[..], key_offsets[..], (current_x, current_y), body_index);
      PlaceCellsNext(xs, mapOrig, key_counts[..], key_offsets[..], done, col, (current_x, current_y), body_index);
      assert Column(xs, len, current_x, min_y, current_y + 1) == col + [(current_x, current_y)];
    }

    /** rebuildLocationEX's search of one cell's range: the body takes the first free slot of [offset, offset + count). */
    static method FillFirst(key_map: array<int>, offset: int, count: int, body_index: int)
      requires count > 0 ==> 0 <= offset && offset + count <= key_map.Length
      modifies key_map
      ensures count > 0 ==> key_map[..] == Place(old(key_map[..]), offset, offset + count, body_index)
      ensures count <= 0 ==> key_map[..] == old(key_map[..])
    {
      var i := offset;
      while i < offset + count
        invariant offset <= i && (count > 0 ==> i <= offset + count)
        invariant key_map[..] == old(key_map[..])
        invariant count > 0 ==> forall j :: offset <= j < i ==> key_map[j] != -1
        decreases offset + count - i
      {
        if key_map[i] == -1 {
          key_map[i] := body_index;
          return;
        }
        i := i + 1;
      }
    }

    /**
     * findMatchesEX: the bodies numbered above target_index, found in the
     * key-map ranges of the cells its keys name, whose boxes meet its box.
     * Cells with no keys (count 0 or offset -1) are skipped.
     */
    method FindMatches(target_index: int, boxes: seq<Box>, keys: seq<int>,
                       key_map: array<int>, key_counts: array<int>, key_offsets: array<int>)
      returns (matches: set<int>)
      requires 0 <= target_index < |boxes|
      requires KeysInDirectory(x_subdivisions, keys, key_counts.Length)
      requires HitRangesFit(key_counts[..], key_offsets[..], key_map[..], |boxes|)
      ensures matches == KeyMatches(x_subdivisions, target_index, boxes, keys, key_map[..], key_counts[..], key_offsets[..],
                                    |keys| / KeyWidth)
      ensures forall b :: b in matches ==> target_index < b < |boxes| && BoxesIntersect(boxes[target_index], boxes[b])
    {
      var xs := x_subdivisions;
      matches := {};
      var i := 0;
      while i < |keys|
        invariant 0 <= i <= |keys| && i % KeyWidth == 0
        invariant matches == KeyMatches(xs, target_index, boxes, keys, key_map[..], key_counts[..], key_offsets[..], i / KeyWidth)
      {
        var x := keys[i];
        var y := keys[i + 1];
        var key_index := xs * y + x;
        assert key_index == KeyAt(xs, keys, i / KeyWidth);
        var count := key_counts[key_index];
        var offset := key_offsets[key_index];
        if count == 0 || offset == -1 {
          i := i + KeyWidth;
          continue;
        }
        var hits := RangeHits(target_index, boxes, key_map, offset, count);
        matches := matches + hits;
        i := i + KeyWidth;
      }
      KeyMatchesAbove(xs, target_index, boxes, keys, key_map[..], key_counts[..], key_offsets[..], |keys| / KeyWidth);
    }

    /** findMatchesEX's scan of one cell's range [offset, offset + count). */
    static method RangeHits(target_index: int, boxes: seq<Box>, key_map: array<int>, offset: int, count: int)
      returns (hits: set<int>)
      requires 0 <= target_index < |boxes| && 0 <= offset && 0 <= count && offset + count <= key_map.Length
      requires forall i :: 0 <= i < key_map.Length ==> key_map[i] < |boxes|
      ensures hits == RangeMatches(target_index, boxes, key_map[..], offset, count)
    {
      hits := {};
      var j := 0;
      while j < count
        invariant 0 <= j <= count
        invariant hits == RangeMatches(target_index, boxes, key_map[..], offset, j)
      {
        var next := key_map[offset + j];
        if target_index < next && BoxesIntersect(boxes[target_index], boxes[next]) {
          hits := hits + {next};
        }
        j := j + 1;
      }
    }
  }
}
