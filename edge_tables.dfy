/**
 * Coupling (edge) tables.  The learning library hands over a flat list of
 * [weight, phase] entries; the controllers walk the cells of a table in a
 * fixed order (slice by slice, row by row, column by column, upper triangle
 * only) and give each visited cell the next entry, taken from the END of the
 * list.  When the list runs out, the remaining cells keep their zero value;
 * when entries are left over, the fill is rejected.
 */
module EdgeTables {
  import opened Common
  import opened Scaling

  /** Coupling weight and phase offset between two CPG nodes. */
  datatype EdgeParam = EdgeParam(weight: real, phase: real)

  /** The value of a cell the fill never reached. */
  const Unset := EdgeParam(0.0, 0.0)

  /**
   * A learned entry [weight, phase]: the weight is used as is, the phase is
   * mapped from [0, 1] onto [lowPhase, highPhase].  Entries of any other
   * length abort the fill before their value is used.
   */
  function EdgeOf(e: seq<real>, lowPhase: real, highPhase: real): EdgeParam
  {
    EdgeParam(EntryOr(e, 0), Denormalize(EntryOr(e, 1), lowPhase, highPhase))
  }

  /** The entries at positions lo .. hi-1 all hold exactly a weight and a phase. */
  predicate Shaped(entries: seq<seq<real>>, lo: int, hi: int)
  {
    forall x | lo <= x < hi && 0 <= x < |entries| :: |entries[x]| == 2
  }

  lemma ShapedWiden(entries: seq<seq<real>>, lo: int, hi: int, lo': int, hi': int)
    requires lo <= lo' && hi' <= hi && Shaped(entries, lo, hi)
    ensures Shaped(entries, lo', hi')
  {
  }

  function Min(a: int, b: int): int { if a <= b then a else b }

  /** Cell (j, k) is visited by the walk of row j over columns j .. kEnd-1. */
  predicate Visited(j: nat, k: nat, kEnd: nat, skipDiagonal: bool)
  {
    j <= k < kEnd && !(skipDiagonal && k == j)
  }

  /** Number of cells the walk of row j visits before column kEnd. */
  function RowCount(j: nat, kEnd: nat, skipDiagonal: bool): nat
  {
    if kEnd <= j then 0 else if skipDiagonal then kEnd - j - 1 else kEnd - j
  }

  /** Position of visited cell (j, k) in the walk of its row. */
  function InRowRank(j: nat, k: nat, skipDiagonal: bool): int
  {
    if skipDiagonal then k - j - 1 else k - j
  }

  /** Number of cells visited by rows jFrom .. jTo-1, each walked up to column kEnd. */
  function RowsCount(jFrom: nat, jTo: nat, kEnd: nat, skipDiagonal: bool): nat
    decreases jTo - jFrom
  {
    if jTo <= jFrom then 0 else RowsCount(jFrom, jTo - 1, kEnd, skipDiagonal) + RowCount(jTo - 1, kEnd, skipDiagonal)
  }

  lemma {:induction false} RowsCountMonotone(jFrom: nat, j1: nat, j2: nat, kEnd: nat, skipDiagonal: bool)
    requires j1 <= j2
    ensures RowsCount(jFrom, j1, kEnd, skipDiagonal) <= RowsCount(jFrom, j2, kEnd, skipDiagonal)
    decreases j2 - j1
  {
    if j1 < j2 {
      RowsCountMonotone(jFrom, j1, j2 - 1, kEnd, skipDiagonal);
    }
  }

  /** Position of visited cell (j, k) in the walk of rows jFrom .. */
  function SliceRank(jFrom: nat, j: nat, k: nat, kEnd: nat, skipDiagonal: bool): int
  {
    RowsCount(jFrom, j, kEnd, skipDiagonal) + InRowRank(j, k, skipDiagonal)
  }

  /** Whole-table cell predicate: in bounds of a three-dimensional table. */
  predicate InTable(t: array3<EdgeParam>, a: int, b: int, c: int)
  {
    0 <= a < t.Length0 && 0 <= b < t.Length1 && 0 <= c < t.Length2
  }

  /**
   * Walks row j of slice i from column j up to kEnd, giving each visited cell
   * the entry just before position `it` and moving `it` down.  Stops consuming
   * at position 0.  `ok` is false when a consumed entry is not a pair.
   */
  method FillRow(t: array3<EdgeParam>, i: nat, j: nat, kEnd: nat, skipDiagonal: bool,
                 entries: seq<seq<real>>, lowPhase: real, highPhase: real, it: nat)
    returns (next: nat, ok: bool)
    requires i < t.Length0 && j < t.Length1 && kEnd <= t.Length2 && it <= |entries|
    modifies t
    ensures ok <==> Shaped(entries, it - Min(it, RowCount(j, kEnd, skipDiagonal)), it)
    ensures ok ==> next == it - Min(it, RowCount(j, kEnd, skipDiagonal))
    ensures ok ==> forall a, b, c | InTable(t, a, b, c) ::
      t[a, b, c] == if a == i && b == j && Visited(j, c, kEnd, skipDiagonal) && InRowRank(j, c, skipDiagonal) < it
                    then EdgeOf(entries[it - 1 - InRowRank(j, c, skipDiagonal)], lowPhase, highPhase)
                    else old(t[a, b, c])
  {
    next := it;
    var k := j;
    while k < kEnd
      invariant j <= k && (k <= kEnd || k == j)
      invariant next == it - Min(it, RowCount(j, k, skipDiagonal))
      invariant Shaped(entries, next, it)
      invariant forall a, b, c | InTable(t, a, b, c) ::
        t[a, b, c] == if a == i && b == j && Visited(j, c, k, skipDiagonal) && InRowRank(j, c, skipDiagonal) < it
                      then EdgeOf(entries[it - 1 - InRowRank(j, c, skipDiagonal)], lowPhase, highPhase)
                      else old(t[a, b, c])
    {
      if next == 0 {
        // the entries ran out before the table was populated
        break;
      }
      if !(skipDiagonal && k == j) {
        if |entries[next - 1]| != 2 {
          return next, false;
        }
        next := next - 1;
        t[i, j, k] := EdgeOf(entries[next], lowPhase, highPhase);
      }
      k := k + 1;
    }
    ok := true;
  }

  /**
   * Walks rows jFrom .. jTo-1 of slice i, each from its diagonal up to column
   * kEnd, consuming entries from position `it` downwards.
   */
  method FillSlice(t: array3<EdgeParam>, i: nat, jFrom: nat, jTo: nat, kEnd: nat, skipDiagonal: bool,
                   entries: seq<seq<real>>, lowPhase: real, highPhase: real, it: nat)
    returns (next: nat, ok: bool)
    requires i < t.Length0 && jFrom <= jTo <= t.Length1 && kEnd <= t.Length2 && it <= |entries|
    modifies t
    ensures ok <==> Shaped(entries, it - Min(it, RowsCount(jFrom, jTo, kEnd, skipDiagonal)), it)
    ensures ok ==> next == it - Min(it, RowsCount(jFrom, jTo, kEnd, skipDiagonal))
    ensures ok ==> forall a, b, c | InTable(t, a, b, c) ::
      t[a, b, c] == if a == i && jFrom <= b < jTo && Visited(b, c, kEnd, skipDiagonal)
                       && SliceRank(jFrom, b, c, kEnd, skipDiagonal) < it
                    then EdgeOf(entries[it - 1 - SliceRank(jFrom, b, c, kEnd, skipDiagonal)], lowPhase, highPhase)
                    else old(t[a, b, c])
  {
    next := it;
    var j := jFrom;
    while j < jTo
      invariant jFrom <= j <= jTo
      invariant next == it - Min(it, RowsCount(jFrom, j, kEnd, skipDiagonal))
      invariant Shaped(entries, next, it)
      invariant forall a, b, c | InTable(t, a, b, c) ::
        t[a, b, c] == if a == i && jFrom <= b < j && Visited(b, c, kEnd, skipDiagonal)
                         && SliceRank(jFrom, b, c, kEnd, skipDiagonal) < it
                      then EdgeOf(entries[it - 1 - SliceRank(jFrom, b, c, kEnd, skipDiagonal)], lowPhase, highPhase)
                      else old(t[a, b, c])
    {
      var rowOk;
      ghost var before := next;
      next, rowOk := FillRow(t, i, j, kEnd, skipDiagonal, entries, lowPhase, highPhase, next);
      RowsCountMonotone(jFrom, j + 1, jTo, kEnd, skipDiagonal);
      if !rowOk {
        ShapedNarrowFails(entries, before - Min(before, RowCount(j, kEnd, skipDiagonal)), before,
                          it - Min(it, RowsCount(jFrom, jTo, kEnd, skipDiagonal)), it);
        return next, false;
      }
      j := j + 1;
    }
    ok := true;
  }

  /** A misshapen entry inside a sub-range is one inside the whole range. */
  lemma ShapedNarrowFails(entries: seq<seq<real>>, lo': int, hi': int, lo: int, hi: int)
    requires lo <= lo' && hi' <= hi && !Shaped(entries, lo', hi')
    ensures !Shaped(entries, lo, hi)
  {
    if Shaped(entries, lo, hi) {
      ShapedWiden(entries, lo, hi, lo', hi');
    }
  }

  // ---------------------------------------------------------------------
  // Triangular tables [segmentSpan][theirMuscles][ourMuscles]: every slice
  // walks the upper triangle including its diagonal, except slice 1 (the
  // segment's own muscles), which skips the diagonal.

  /** Cells visited in slice i. */
  function SliceCount(i: nat, their: nat, our: nat): nat
  {
    RowsCount(0, their, our, i == 1)
  }

  /** Cells visited in slices 0 .. i-1. */
  function SlicesBefore(i: nat, their: nat, our: nat): nat
  {
    if i == 0 then 0 else SlicesBefore(i - 1, their, our) + SliceCount(i - 1, their, our)
  }

  predicate TriangularVisited(i: nat, j: nat, k: nat, their: nat, our: nat)
  {
    j < their && Visited(j, k, our, i == 1)
  }

  /** Position of a visited cell in the walk of the whole table. */
  function TriangularRank(i: nat, j: nat, k: nat, their: nat, our: nat): int
  {
    SlicesBefore(i, their, our) + SliceRank(0, j, k, our, i == 1)
  }

  /** Value a cell holds after the fill: the entry `rank` places from the end, or Unset. */
  function TriangularCell(entries: seq<seq<real>>, lowPhase: real, highPhase: real,
                          i: nat, j: nat, k: nat, their: nat, our: nat): EdgeParam
  {
    if TriangularVisited(i, j, k, their, our) && TriangularRank(i, j, k, their, our) < |entries|
    then EdgeOf(entries[|entries| - 1 - TriangularRank(i, j, k, their, our)], lowPhase, highPhase)
    else Unset
  }

  /**
   * The triangular edge scaling of the hierarchy and Achilles controllers.
   * Accepted exactly when there is at least one entry, every entry is a pair,
   * and there are no more entries than visited cells.
   */
  method ScaleTriangularEdges(entries: seq<seq<real>>, span: nat, their: nat, our: nat,
                              lowPhase: real, highPhase: real)
    returns (r: Result<array3<EdgeParam>>)
    ensures r.Ok? <==> 0 < |entries| <= SlicesBefore(span, their, our) && Shaped(entries, 0, |entries|)
    ensures r.Ok? ==> r.value.Length0 == span && r.value.Length1 == their && r.value.Length2 == our
    ensures r.Ok? ==> forall i, j, k | InTable(r.value, i, j, k) ::
      r.value[i, j, k] == TriangularCell(entries, lowPhase, highPhase, i, j, k, their, our)
  {
    var n := |entries|;
    if n == 0 || |entries[0]| != 2 {
      return Err(AssertionFailure("edgeParam size"));
    }
    var t := new EdgeParam[span, their, our]((_, _, _) => Unset);
    var it := n;
    var i := 0;
    while i < span
      invariant 0 <= i <= span
      invariant it == n - Min(n, SlicesBefore(i, their, our))
      invariant Shaped(entries, it, n)
      invariant forall a, b, c | InTable(t, a, b, c) ::
        t[a, b, c] == if a < i then TriangularCell(entries, lowPhase, highPhase, a, b, c, their, our) else Unset
    {
      var sliceOk;
      ghost var before := it;
      it, sliceOk := FillSlice(t, i, 0, their, our, i == 1, entries, lowPhase, highPhase, it);
      SlicesBeforeMonotone(i + 1, span, their, our);
      if !sliceOk {
        ShapedNarrowFails(entries, before - Min(before, SliceCount(i, their, our)), before, 0, n);
        return Err(AssertionFailure("param size"));
      }
      forall j: nat, k: nat
        ensures (if j < their && Visited(j, k, our, i == 1) && SliceRank(0, j, k, our, i == 1) < before
                 then EdgeOf(entries[before - 1 - SliceRank(0, j, k, our, i == 1)], lowPhase, highPhase)
                 else Unset)
                == TriangularCell(entries, lowPhase, highPhase, i, j, k, their, our)
      {
        SliceCellInWalk(entries, lowPhase, highPhase, i, j, k, their, our, before);
      }
      i := i + 1;
    }
    if it != 0 {
      return Err(AssertionFailure("edgeParam not exhausted"));
    }
    return Ok(t);
  }

  /** A cell that slice i's fill reaches, consuming from `it`, sits at its rank in the walk of the whole table. */
  lemma SliceCellInWalk(entries: seq<seq<real>>, lowPhase: real, highPhase: real,
                        i: nat, j: nat, k: nat, their: nat, our: nat, it: nat)
    requires it == |entries| - Min(|entries|, SlicesBefore(i, their, our))
    ensures (if j < their && Visited(j, k, our, i == 1) && SliceRank(0, j, k, our, i == 1) < it
             then EdgeOf(entries[it - 1 - SliceRank(0, j, k, our, i == 1)], lowPhase, highPhase)
             else Unset)
            == TriangularCell(entries, lowPhase, highPhase, i, j, k, their, our)
  {
  }

  lemma {:induction false} SlicesBeforeMonotone(i1: nat, i2: nat, their: nat, our: nat)
    requires i1 <= i2
    ensures SlicesBefore(i1, their, our) <= SlicesBefore(i2, their, our)
    decreases i2 - i1
  {
    if i1 < i2 {
      SlicesBeforeMonotone(i1, i2 - 1, their, our);
    }
  }

  /** Rows 0 .. t-1 walked up to column m visit t(2m - t + 1)/2 cells, t fewer without diagonals. */
  lemma {:induction false} RowsCountClosedForm(t: nat, m: nat, skipDiagonal: bool)
    requires t <= m
    ensures 2 * RowsCount(0, t, m, skipDiagonal) == t * (2 * m - t + 1) - (if skipDiagonal then 2 * t else 0)
  {
    if t > 0 {
      RowsCountClosedForm(t - 1, m, skipDiagonal);
      assert t * (2 * m - t + 1) == (t - 1) * (2 * m - (t - 1) + 1) + 2 * (m - (t - 1));
    }
  }

  /**
   * A square table of m muscles with at least two slices has
   * span * m(m+1)/2 - m cells to fill: slice 1 gives up its m diagonal cells.
   */
  lemma {:induction false} TriangularTotalSquare(span: nat, m: nat)
    requires span >= 2
    ensures 2 * SlicesBefore(span, m, m) == span * (m * (m + 1)) - 2 * m
  {
    var p := m * (m + 1);
    RowsCountClosedForm(m, m, false);
    RowsCountClosedForm(m, m, true);
    assert 2 * SliceCount(0, m, m) == p;
    assert 2 * SliceCount(1, m, m) == p - 2 * m;
    if span == 2 {
      assert SlicesBefore(1, m, m) == SliceCount(0, m, m);
      assert SlicesBefore(2, m, m) == SlicesBefore(1, m, m) + SliceCount(1, m, m);
    } else {
      TriangularTotalSquare(span - 1, m);
      assert 2 * SliceCount(span - 1, m, m) == p;
      assert span * p == (span - 1) * p + p;
    }
  }

  // ---------------------------------------------------------------------
  // Walks made of runs.  A run is a block of rows jFrom .. jTo-1 of one
  // slice, each row walked from its diagonal up to column kEnd; a walk is a
  // sequence of runs, consuming entries from the end of the list in run
  // order.  A later run overwrites what an earlier one wrote.

  datatype Run = Run(slice: nat, jFrom: nat, jTo: nat, kEnd: nat, skipDiagonal: bool)

  /** Cells a run visits. */
  function RunCount(r: Run): nat
  {
    RowsCount(r.jFrom, r.jTo, r.kEnd, r.skipDiagonal)
  }

  /** Cells visited by a whole walk. */
  function RunsTotal(runs: seq<Run>): nat
  {
    if runs == [] then 0 else RunsTotal(runs[..|runs| - 1]) + RunCount(runs[|runs| - 1])
  }

  /** Cell (i, j, k) is visited by run r. */
  predicate InRun(r: Run, i: nat, j: nat, k: nat)
  {
    i == r.slice && r.jFrom <= j < r.jTo && Visited(j, k, r.kEnd, r.skipDiagonal)
  }

  /** The run fits a table of the given dimensions. */
  predicate RunFits(r: Run, span: nat, their: nat, our: nat)
  {
    r.slice < span && r.jFrom <= r.jTo <= their && r.kEnd <= our
  }

  /**
   * Value a cell holds after a walk: the entry of the last run that visited
   * it while entries were left, or Unset.
   */
  function RunsCell(entries: seq<seq<real>>, lowPhase: real, highPhase: real, runs: seq<Run>,
                    i: nat, j: nat, k: nat): EdgeParam
  {
    if runs == [] then Unset
    else
      var n := |runs| - 1;
      var r := runs[n];
      var rank := RunsTotal(runs[..n]) + SliceRank(r.jFrom, j, k, r.kEnd, r.skipDiagonal);
      if InRun(r, i, j, k) && rank < |entries| then EdgeOf(entries[|entries| - 1 - rank], lowPhase, highPhase)
      else RunsCell(entries, lowPhase, highPhase, runs[..n], i, j, k)
  }

  /**
   * Fills a fresh [span][their][our] table along a walk.  Accepted exactly
   * when there is at least one entry, every entry is a pair, and there are
   * no more entries than visited cells.
   */
  method ScaleRunEdges(entries: seq<seq<real>>, runs: seq<Run>, span: nat, their: nat, our: nat,
                       lowPhase: real, highPhase: real)
    returns (r: Result<array3<EdgeParam>>)
    requires forall x <- runs :: RunFits(x, span, their, our)
    ensures r.Ok? <==> 0 < |entries| <= RunsTotal(runs) && Shaped(entries, 0, |entries|)
    ensures r.Ok? ==> r.value.Length0 == span && r.value.Length1 == their && r.value.Length2 == our
    ensures r.Ok? ==> forall i, j, k | InTable(r.value, i, j, k) ::
      r.value[i, j, k] == RunsCell(entries, lowPhase, highPhase, runs, i, j, k)
  {
    var n := |entries|;
    if n == 0 || |entries[0]| != 2 {
      return Err(AssertionFailure("edgeParam size"));
    }
    var t := new EdgeParam[span, their, our]((_, _, _) => Unset);
    var it := n;
    var x := 0;
    while x < |runs|
      invariant 0 <= x <= |runs|
      invariant it == n - Min(n, RunsTotal(runs[..x]))
      invariant Shaped(entries, it, n)
      invariant forall a, b, c | InTable(t, a, b, c) ::
        t[a, b, c] == RunsCell(entries, lowPhase, highPhase, runs[..x], a, b, c)
    {
      assert runs[x] in runs;
      var runOk;
      it, runOk := FillRun(t, entries, runs, x, lowPhase, highPhase, it);
      if !runOk {
        return Err(AssertionFailure("param size"));
      }
      x := x + 1;
    }
    assert runs[..|runs|] == runs;
    if it != 0 {
      return Err(AssertionFailure("edgeParam not exhausted"));
    }
    return Ok(t);
  }

  /** One round of the walk: run x continues the fill where the runs before it stopped. */
  method FillRun(t: array3<EdgeParam>, entries: seq<seq<real>>, runs: seq<Run>, x: nat,
                 lowPhase: real, highPhase: real, it: nat)
    returns (next: nat, ok: bool)
    requires x < |runs| && RunFits(runs[x], t.Length0, t.Length1, t.Length2)
    requires it == |entries| - Min(|entries|, RunsTotal(runs[..x])) && Shaped(entries, it, |entries|)
    requires forall a, b, c | InTable(t, a, b, c) ::
      t[a, b, c] == RunsCell(entries, lowPhase, highPhase, runs[..x], a, b, c)
    modifies t
    ensures !ok ==> !Shaped(entries, 0, |entries|)
    ensures ok ==> next == |entries| - Min(|entries|, RunsTotal(runs[..x + 1])) && Shaped(entries, next, |entries|)
    ensures ok ==> forall a, b, c | InTable(t, a, b, c) ::
      t[a, b, c] == RunsCell(entries, lowPhase, highPhase, runs[..x + 1], a, b, c)
  {
    var run := runs[x];
    next, ok := FillSlice(t, run.slice, run.jFrom, run.jTo, run.kEnd, run.skipDiagonal,
                          entries, lowPhase, highPhase, it);
    assert runs[..x + 1][..x] == runs[..x];
    if !ok {
      ShapedNarrowFails(entries, it - Min(it, RunCount(run)), it, 0, |entries|);
    }
  }

  /** Run x is the only run of the walk that visits cell (i, j, k). */
  predicate OnlyRun(runs: seq<Run>, x: nat, i: nat, j: nat, k: nat)
  {
    x < |runs| && InRun(runs[x], i, j, k)
    && forall y | 0 <= y < |runs| && y != x :: !InRun(runs[y], i, j, k)
  }

  /** A walk that visits a cell once, within the entries, gives it that entry. */
  lemma {:induction false} RunsCellSingle(entries: seq<seq<real>>, lowPhase: real, highPhase: real,
                                          runs: seq<Run>, x: nat, i: nat, j: nat, k: nat)
    requires OnlyRun(runs, x, i, j, k)
    requires RunsTotal(runs[..x]) + SliceRank(runs[x].jFrom, j, k, runs[x].kEnd, runs[x].skipDiagonal) < |entries|
    ensures RunsCell(entries, lowPhase, highPhase, runs, i, j, k)
      == EdgeOf(entries[|entries| - 1 - (RunsTotal(runs[..x])
                   + SliceRank(runs[x].jFrom, j, k, runs[x].kEnd, runs[x].skipDiagonal))], lowPhase, highPhase)
  {
    var n := |runs| - 1;
    if x < n {
      assert !InRun(runs[n], i, j, k);
      assert runs[..n][..x] == runs[..x];
      RunsCellSingle(entries, lowPhase, highPhase, runs[..n], x, i, j, k);
    } else {
      assert x == n;
    }
  }

  /** A cell no run visits keeps its zero value. */
  lemma {:induction false} RunsCellUnvisited(entries: seq<seq<real>>, lowPhase: real, highPhase: real,
                                             runs: seq<Run>, i: nat, j: nat, k: nat)
    requires forall x | 0 <= x < |runs| :: !InRun(runs[x], i, j, k)
    ensures RunsCell(entries, lowPhase, highPhase, runs, i, j, k) == Unset
  {
    if runs != [] {
      RunsCellUnvisited(entries, lowPhase, highPhase, runs[..|runs| - 1], i, j, k);
    }
  }
}
