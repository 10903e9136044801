/**
 * The right-to-left raster order of a grid of `cols` x `rows` cells numbered row-major
 * from 0: rows from top to bottom, and within each row the columns from last to first.
 * Both the tile sequencer (assets/js/frontend.js) and the server-side media order
 * (includes/Render.php) walk the grid this way with two nested loops; this module is
 * the specification both loops are proved against.
 */
module Raster {
  import opened Common

  /** `[top - 1, top - 2, ..., lo]`, built by appending as the inner loops do. */
  function Descending(top: int, lo: int): seq<int>
    decreases top - lo
  {
    if top <= lo then [] else Descending(top, lo + 1) + [lo]
  }

  /** The cells of one row, from its last column to its first. */
  function MirroredRow(cols: int, row: int): seq<int>
  {
    Descending(row * cols + cols, row * cols)
  }

  /** The cell numbers of the first `rows` rows in right-to-left raster order. */
  function RtlIndices(cols: int, rows: int): seq<int>
    decreases rows
  {
    if rows <= 0 then [] else RtlIndices(cols, rows - 1) + MirroredRow(cols, rows - 1)
  }

  /** The elements of `s` below `n`, in order (the `index < length` guard of the loops). */
  function KeepBelow(s: seq<int>, n: int): (r: seq<int>)
    ensures |r| <= |s|
    ensures forall x :: x in r <==> x in s && x < n
  {
    if s == [] then []
    else KeepBelow(s[..|s| - 1], n) + (if s[|s| - 1] < n then [s[|s| - 1]] else [])
  }

  /** A sequence of length `n` whose elements are `0..n-1`, each exactly once. */
  ghost predicate IsPermutationOfRange(s: seq<int>, n: int)
  {
    && |s| == n
    && (forall p :: 0 <= p < |s| ==> 0 <= s[p] < n)
    && (forall p, q :: 0 <= p < q < |s| ==> s[p] != s[q])
    && (forall k :: 0 <= k < n ==> k in s)
  }

  lemma {:induction false} DescendingAt(top: int, lo: int)
    ensures |Descending(top, lo)| == Max(0, top - lo)
    ensures forall k :: 0 <= k < |Descending(top, lo)| ==> Descending(top, lo)[k] == top - 1 - k
    decreases top - lo
  {
    if top > lo {
      DescendingAt(top, lo + 1);
    }
  }

  lemma {:induction false} KeepBelowConcat(a: seq<int>, b: seq<int>, n: int)
    ensures KeepBelow(a + b, n) == KeepBelow(a, n) + KeepBelow(b, n)
    decreases |b|
  {
    if b == [] {
      assert a + b == a;
    } else {
      var b' := b[..|b| - 1];
      assert (a + b)[..|a + b| - 1] == a + b';
      KeepBelowConcat(a, b', n);
    }
  }

  /** Keeping the elements below a bound that every element is below keeps everything. */
  lemma {:induction false} KeepBelowAll(s: seq<int>, n: int)
    requires forall p :: 0 <= p < |s| ==> s[p] < n
    ensures KeepBelow(s, n) == s
    decreases |s|
  {
    if s != [] {
      KeepBelowAll(s[..|s| - 1], n);
    }
  }

  /** How many cells of a descending run lie below `n`. */
  lemma {:induction false} KeepBelowDescendingLength(top: int, lo: int, n: int)
    ensures |KeepBelow(Descending(top, lo), n)| == Max(0, Min(top, n) - lo)
    decreases top - lo
  {
    if top > lo {
      KeepBelowDescendingLength(top, lo + 1, n);
      KeepBelowConcat(Descending(top, lo + 1), [lo], n);
      assert KeepBelow([lo], n) == (if lo < n then [lo] else []) by {
        assert [lo][..0] == [];
      }
    }
  }

  /** With no column or no row the walk is empty. */
  lemma {:induction false} RtlDegenerate(cols: int, rows: int)
    requires cols <= 0 || rows <= 0
    ensures RtlIndices(cols, rows) == []
    decreases rows
  {
    if rows > 0 {
      RtlDegenerate(cols, rows - 1);
      assert (rows - 1) * cols + cols <= (rows - 1) * cols;
    }
  }

  /** The walk lists `cols * rows` cells. */
  lemma {:induction false} RtlLength(cols: int, rows: int)
    requires cols > 0 && rows >= 0
    ensures |RtlIndices(cols, rows)| == cols * rows
    decreases rows
  {
    if rows > 0 {
      RtlLength(cols, rows - 1);
      DescendingAt((rows - 1) * cols + cols, (rows - 1) * cols);
      LastRow(cols, rows);
    }
  }

  /** The first `rows - 1` rows and one more row of `cols` cells make `cols * rows` cells. */
  lemma LastRow(cols: int, rows: int)
    ensures (rows - 1) * cols + cols == cols * rows
    ensures cols * (rows - 1) == (rows - 1) * cols
  {
  }

  /** Where cell `j` of row `r` falls: inside the grid, and before the last row unless in it. */
  lemma CellPlace(cols: int, rows: int, r: int, j: int)
    requires cols > 0 && 0 <= r < rows && 0 <= j < cols
    ensures 0 <= r * cols + j < cols * rows
    ensures r < rows - 1 ==> r * cols + j < (rows - 1) * cols
    ensures (rows - 1) * cols + cols == cols * rows
  {
    assert r * cols <= (rows - 1) * cols;
    if r < rows - 1 {
      assert (r + 1) * cols <= (rows - 1) * cols;
    }
  }

  /** Cell `j` of row `r` of the walk is the cell in column `cols - 1 - j` of that row. */
  lemma {:induction false} RtlAt(cols: int, rows: int, r: int, j: int)
    requires cols > 0 && 0 <= r < rows && 0 <= j < cols
    ensures 0 <= r * cols + j < |RtlIndices(cols, rows)|
    ensures RtlIndices(cols, rows)[r * cols + j] == r * cols + (cols - 1 - j)
    decreases rows
  {
    var base := (rows - 1) * cols;
    RtlLength(cols, rows - 1);
    CellPlace(cols, rows, r, j);
    DescendingAt(base + cols, base);
    var prefix := RtlIndices(cols, rows - 1);
    assert RtlIndices(cols, rows) == prefix + MirroredRow(cols, rows - 1);
    if r < rows - 1 {
      RtlAt(cols, rows - 1, r, j);
    }
  }

  /** Every cell number below `cols * rows` is row `p / cols`, column `p % cols`. */
  lemma Decompose(p: int, cols: int, rows: int) returns (r: int, j: int)
    requires cols > 0 && 0 <= p < cols * rows
    ensures p == r * cols + j && 0 <= r < rows && 0 <= j < cols
  {
    r, j := p / cols, p % cols;
  }

  /**
   * The walk is a permutation of the cells that mirrors each row: reading it at the
   * position it gives back returns the original position.
   */
  lemma RtlMirror(cols: int, rows: int)
    requires cols > 0 && rows >= 0
    ensures |RtlIndices(cols, rows)| == cols * rows
    ensures forall p :: 0 <= p < |RtlIndices(cols, rows)| ==>
      0 <= RtlIndices(cols, rows)[p] < cols * rows &&
      RtlIndices(cols, rows)[RtlIndices(cols, rows)[p]] == p
    ensures IsPermutationOfRange(RtlIndices(cols, rows), cols * rows)
  {
    var s := RtlIndices(cols, rows);
    RtlLength(cols, rows);
    forall p | 0 <= p < |s|
      ensures 0 <= s[p] < cols * rows && s[s[p]] == p
    {
      var r, j := Decompose(p, cols, rows);
      RtlAt(cols, rows, r, j);
      RtlAt(cols, rows, r, cols - 1 - j);
      assert r * cols + (cols - 1 - j) < cols * rows;
    }
    forall p, q | 0 <= p < q < |s|
      ensures s[p] != s[q]
    {
      assert s[s[p]] == p;
      assert s[s[q]] == q;
    }
    forall k | 0 <= k < cols * rows
      ensures k in s
    {
      assert s[s[k]] == k;
    }
  }

  /**
   * The `index < total_cells` guard of the server-side walk never drops anything:
   * every cell number is below `cols * rows`, and without columns or rows there are none.
   */
  lemma RtlGuardRedundant(cols: int, rows: int)
    ensures KeepBelow(RtlIndices(cols, rows), cols * rows) == RtlIndices(cols, rows)
  {
    if cols <= 0 || rows <= 0 {
      RtlDegenerate(cols, rows);
    } else {
      RtlMirror(cols, rows);
      KeepBelowAll(RtlIndices(cols, rows), cols * rows);
    }
  }

  /** The walk never lists a negative cell number. */
  lemma RtlNonNegative(cols: int, rows: int)
    ensures forall p :: 0 <= p < |RtlIndices(cols, rows)| ==> RtlIndices(cols, rows)[p] >= 0
  {
    if cols <= 0 || rows <= 0 {
      RtlDegenerate(cols, rows);
    } else {
      RtlMirror(cols, rows);
    }
  }

  /**
   * Keeping only the cells below `n` (the number of tiles present) leaves
   * `min(n, cols * rows)` of them.
   */
  lemma {:induction false} RtlKeptLength(cols: int, rows: int, n: int)
    requires cols > 0 && rows >= 0 && n >= 0
    ensures |KeepBelow(RtlIndices(cols, rows), n)| == Min(n, cols * rows)
    decreases rows
  {
    if rows > 0 {
      var base := (rows - 1) * cols;
      var total := cols * rows;
      LastRow(cols, rows);
      var prefix := RtlIndices(cols, rows - 1);
      var row := MirroredRow(cols, rows - 1);
      assert RtlIndices(cols, rows) == prefix + row;
      RtlKeptLength(cols, rows - 1, n);
      KeepBelowDescendingLength(base + cols, base, n);
      KeptSplit(prefix, row, n, base, total);
    }
  }

  /**
   * Keeping up to `n` of `base` cells and then of the rest of `total` keeps `Min(n, total)`
   * cells in all.
   */
  lemma KeptSplit(prefix: seq<int>, row: seq<int>, n: int, base: int, total: int)
    requires 0 <= base <= total
    requires |KeepBelow(prefix, n)| == Min(n, base)
    requires |KeepBelow(row, n)| == Max(0, Min(total, n) - base)
    ensures |KeepBelow(prefix + row, n)| == Min(n, total)
  {
    KeepBelowConcat(prefix, row, n);
  }

  /** One more cell of a descending run is kept exactly when it is below the bound. */
  lemma KeepBelowNext(top: int, index: int, total: int)
    requires index < top
    ensures KeepBelow(Descending(top, index), total)
      == KeepBelow(Descending(top, index + 1), total) + (if index < total then [index] else [])
  {
    KeepBelowConcat(Descending(top, index + 1), [index], total);
    assert KeepBelow([index], total) == (if index < total then [index] else []) by {
      assert [index][..0] == [];
    }
  }

  /** The 3 x 2 grid walked right to left. */
  lemma RtlThreeByTwo()
    ensures RtlIndices(3, 2) == [2, 1, 0, 5, 4, 3]
  {
    DescendingAt(3, 0);
    DescendingAt(6, 3);
    assert RtlIndices(3, 1) == [] + MirroredRow(3, 0);
  }

  /** With four tiles on a 3 x 2 grid, the last row keeps only its first cell. */
  lemma RtlThreeByTwoPartial()
    ensures KeepBelow(RtlIndices(3, 2), 4) == [2, 1, 0, 3]
  {
    RtlThreeByTwo();
    KeepBelowSixFour();
  }

  lemma KeepBelowSixFour()
    ensures KeepBelow([2, 1, 0, 5, 4, 3], 4) == [2, 1, 0, 3]
  {
    var s4, s5, s6 := [2, 1, 0, 5], [2, 1, 0, 5, 4], [2, 1, 0, 5, 4, 3];
    assert s4[..3] == [2, 1, 0] && s5[..4] == s4 && s6[..5] == s5;
    KeepBelowAll([2, 1, 0], 4);
    assert KeepBelow(s4, 4) == [2, 1, 0];
    assert KeepBelow(s5, 4) == [2, 1, 0];
  }
}
