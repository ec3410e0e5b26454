/**
 * The two scheduling decisions both compactors make on the CPU before they
 * launch their kernels: how linearize_kernel slices a compaction kernel into
 * single-work-group launches at ascending offsets, and which variant of the
 * delete scan (one block or several) scan_deletes runs.
 */
module Compaction {
  /**
   * One kernel launch of linearize_kernel: global size, local size and global
   * offset. The local size always equals the global size (the full group size
   * when a whole group is left, the leftover count otherwise), so one number
   * stands for both.
   */
  datatype Launch = Launch(size: nat, offset: nat)

  function Min(a: int, b: int): int
  {
    if a <= b then a else b
  }

  /** The launches issued for `remaining` objects from `offset` on, with at most `group` objects per launch. */
  function Plan(remaining: int, group: nat, offset: nat): seq<Launch>
    requires group > 0
    decreases remaining
  {
    if remaining <= 0 then []
    else
      var count := Min(group, remaining);
      [Launch(count, offset)] + Plan(remaining - group, group, offset + count)
  }

  /** Every launch is a non-empty range of at most one work group. */
  ghost predicate GroupSized(p: seq<Launch>, group: nat)
  {
    forall i :: 0 <= i < |p| ==> 0 < p[i].size <= group
  }

  /** The launches tile [from, to) in ascending order, each one starting where the previous one ended. */
  ghost predicate Tiles(p: seq<Launch>, from: int, to: int)
  {
    if p == [] then from == to
    else p[0].offset == from && Tiles(p[1..], p[0].offset + p[0].size, to)
  }

  /** The i-th launch starts at i whole groups past the first offset. */
  lemma {:induction false} PlanOffsets(n: int, group: nat, offset: nat)
    requires group > 0
    ensures forall i :: 0 <= i < |Plan(n, group, offset)| ==> Plan(n, group, offset)[i].offset == offset + i * group
    decreases n
  {
    if n > 0 {
      var count := Min(group, n);
      PlanOffsets(n - group, group, offset + count);
      var p := Plan(n, group, offset);
      var rest := Plan(n - group, group, offset + count);
      assert p == [Launch(count, offset)] + rest;
      forall i | 0 <= i < |p| ensures p[i].offset == offset + i * group {
        if i > 0 {
          assert p[i] == rest[i - 1];
          assert n - group > 0;
          assert count == group;
        }
      }
    }
  }

  /** The launches of a plan are group-sized and tile exactly [offset, offset + n). */
  lemma {:induction false} PlanCovers(n: int, group: nat, offset: nat)
    requires group > 0
    requires n >= 0
    ensures GroupSized(Plan(n, group, offset), group)
    ensures Tiles(Plan(n, group, offset), offset, offset + n)
    decreases n
  {
    if n > 0 {
      var count := Min(group, n);
      var p := Plan(n, group, offset);
      var rest := Plan(n - group, group, offset + count);
      assert p == [Launch(count, offset)] + rest;
      assert p[1..] == rest;
      if n - group > 0 {
        PlanCovers(n - group, group, offset + count);
        assert offset + count + (n - group) == offset + n;
      } else {
        assert rest == [];
      }
    }
  }

  /** A plan has one launch per started work group: ceil(n / group) launches. */
  lemma {:induction false} PlanLength(n: int, group: nat, offset: nat)
    requires group > 0
    requires n >= 0
    ensures |Plan(n, group, offset)| == (n + group - 1) / group
    decreases n
  {
    if n > 0 {
      var count := Min(group, n);
      if n - group > 0 {
        PlanLength(n - group, group, offset + count);
        var q := (n - 1) / group;
        DivUnique(n - 1, group, q, (n - 1) % group);
        DivUnique(n + group - 1, group, q + 1, (n - 1) % group);
      } else {
        DivUnique(n + group - 1, group, 1, n - 1);
      }
    }
  }

  /** linearize_kernel: slice `object_count` objects into launches of at most one work group each, at ascending offsets. */
  method LinearizeKernel(object_count: int, max_work_group_size: nat) returns (launches: seq<Launch>)
    requires max_work_group_size > 0
    ensures launches == Plan(object_count, max_work_group_size, 0)
  {
    var offset: nat := 0;
    var remaining := object_count;
    launches := [];
    while remaining > 0
      invariant launches + Plan(remaining, max_work_group_size, offset) == Plan(object_count, max_work_group_size, 0)
      decreases remaining
    {
      var count := Min(max_work_group_size, remaining);
      ghost var rest := Plan(remaining - max_work_group_size, max_work_group_size, offset + count);
      assert Plan(remaining, max_work_group_size, offset) == [Launch(count, offset)] + rest;
      assert launches + ([Launch(count, offset)] + rest) == (launches + [Launch(count, offset)]) + rest;
      launches := launches + [Launch(count, offset)];
      offset := offset + count;
      remaining := remaining - max_work_group_size;
    }
  }

  /** work_group_count: the number of scan blocks needed for n items, ceil(n / block). */
  function WorkGroupCount(n: int, max_scan_block_size: nat): (k: int)
    requires max_scan_block_size > 0
    ensures n >= 0 ==> k >= 0
    ensures n <= 0 ==> k <= 0
  {
    if n >= 0 then (n + max_scan_block_size - 1) / max_scan_block_size
    else -((-n) / max_scan_block_size)
  }

  /**
   * The block count is the ceiling of n / block, negative counts included:
   * the one k with (k - 1) * block < n <= k * block, as Math.ceil gives.
   */
  lemma WorkGroupCountIsCeiling(n: int, b: nat)
    requires b > 0
    ensures var k := WorkGroupCount(n, b); (k - 1) * b < n <= k * b
  {
    var k := WorkGroupCount(n, b);
    if n >= 0 {
      var r := (n + b - 1) % b;
      assert n + b - 1 == k * b + r;
      assert (k - 1) * b == k * b - b;
    } else {
      var q, s := (-n) / b, (-n) % b;
      assert -n == q * b + s;
      assert k == -q;
      assert k * b == -(q * b);
      assert (k - 1) * b == k * b - b;
    }
  }

  /** Euclidean division has a unique quotient. */
  lemma DivUnique(x: int, g: int, a: int, r: int)
    requires g > 0 && 0 <= r < g && x == a * g + r
    ensures x / g == a && x % g == r
  {
    var q, s := x / g, x % g;
    assert x == q * g + s;
    if q > a {
      assert (a + 1) * g == a * g + g;
      MulMonotone(a + 1, q, g);
    } else if q < a {
      assert (q + 1) * g == q * g + g;
      MulMonotone(q + 1, a, g);
    }
  }

  lemma MulMonotone(u: int, v: int, g: int)
    requires u <= v && g >= 0
    ensures u * g <= v * g
  {
    assert v * g - u * g == (v - u) * g;
  }

  /** The two variants of the delete scan. */
  datatype ScanPath =
    | SingleBlock
    | MultiBlock(groups: int, globalSize: int, partSize: int)

  /** scan_deletes: one block when the items fit one scan block, otherwise k blocks with partial buffers of 2k entries. */
  function ScanPathFor(n: int, max_scan_block_size: nat): (p: ScanPath)
    requires max_scan_block_size > 0
  {
    var k := WorkGroupCount(n, max_scan_block_size);
    if k == 1 then SingleBlock else MultiBlock(k, k * max_scan_block_size, k * 2)
  }

  /** The single-block path is taken exactly when 0 < n <= block size; the multi-block path sizes its partial buffers to twice the block count. */
  lemma ScanPathChoice(n: int, b: nat)
    requires b > 0
    ensures ScanPathFor(n, b).SingleBlock? <==> 0 < n <= b
    ensures ScanPathFor(n, b).MultiBlock? ==> ScanPathFor(n, b).partSize == 2 * ScanPathFor(n, b).groups
  {
    if n >= 0 {
      WorkGroupCountIsCeiling(n, b);
      if 0 < n <= b {
        DivUnique(n + b - 1, b, 1, n - 1);
      }
    } else {
      assert (-n) / b >= 0;
    }
  }
}
