/**
 * The quadruped feedback controller: nine body parts (spine, two shoulders,
 * two front legs, two hips, two hind legs) each with its own block of
 * low-level CPG couplings, and five higher-level CPGs driving them.
 */
module QuadControl {
  import opened Common
  import opened Scaling
  import opened EdgeTables
  import opened Feedback
  import opened Scoring
  import opened Oscillator
  import opened TrialControl

  /** Spine, left shoulder, left front leg, right shoulder, right front leg, left hip, left hind leg, right hip, right hind leg. */
  const BodyParts: nat := 9
  /** The size of the spine block in the coupling table, fixed in the source rather than counted. */
  const SpineBlock: nat := 16
  /** Number of higher-level CPGs, one per spine and one per shoulder/leg or hip/leg pair. */
  const HighCPGs: nat := 5

  /** How many cables each kind of body part has, as counted at setup. */
  datatype Musculature = Musculature(spine: nat, hip: nat, leg: nat)
  {
    /** Muscles of body part b: odd parts are shoulders and hips, even parts after the spine are legs. */
    function PartMuscles(b: nat): nat
    {
      if b == 0 then spine else if b % 2 == 1 then hip else leg
    }

    /** Number of low-level CPG nodes; they are added before the higher-level ones. */
    function LowNodes(): nat
    {
      spine + 4 * hip + 4 * leg
    }

    /** Node number of higher-level CPG b. */
    function HighNode(b: nat): nat
    {
      b + LowNodes()
    }

    /**
     * Where part b's couplings start in the coupling table as setupCPGs reads
     * it: the spine block is 16 wide, every other part as wide as its muscles.
     */
    function ActionsStart(b: nat): nat
    {
      if b == 0 then 0
      else ActionsStart(b - 1) + (if b - 1 == 0 then SpineBlock else PartMuscles(b - 1))
    }

    /** First low-level node driven by higher-level CPG b: after the spine, one hip/leg pair per CPG. */
    function HighLowRunStart(b: nat): nat
    {
      if b == 0 then 0
      else if b == 1 then spine
      else HighLowRunStart(b - 1) + hip + leg
    }

    /** Number of low-level nodes driven by higher-level CPG b: the spine, or a hip/shoulder with its leg. */
    function HighLowRunLength(b: nat): nat
    {
      if b == 0 then spine else hip + leg
    }
  }

  /** The node-parameter row of low-level body part b: pairs of parts share a row among rows 5 .. 9. */
  function NodeRow(b: nat): nat
  {
    (b + 1) / 2 + 5
  }

  /** The nine parts use rows 5 .. 9; a shoulder or hip shares its row with the leg that follows it. */
  lemma NodeRowsPaired(b: nat)
    requires b < BodyParts
    ensures 5 <= NodeRow(b) <= 9
    ensures b % 2 == 1 ==> NodeRow(b + 1) == NodeRow(b)
    ensures b == 0 <==> NodeRow(b) == 5
  {
  }

  /** Higher-level CPG b (b = 5 .. 9) takes node-parameter row b: the same rows the low-level parts use. */
  lemma HighRowsShared(b: nat)
    requires 5 <= b < 10
    ensures exists p | 0 <= p < BodyParts :: NodeRow(p) == b
  {
    var p := 2 * (b - 5);
    assert NodeRow(p) == b;
  }

  // ---------------------------------------------------------------------
  // Block-diagonal coupling table.

  /** Sum of the first b block sizes: where block b starts. */
  function BlockStart(sizes: seq<nat>, b: nat): nat
    requires b <= |sizes|
  {
    if b == 0 then 0 else BlockStart(sizes, b - 1) + sizes[b - 1]
  }

  /**
   * Block sizes the table fill uses as written: after part b it widens the
   * table by the hip count when b is odd and by the leg count otherwise, so
   * part 1 gets the leg count and each later part b+1 gets the size of part b.
   */
  function AsWrittenBlockSizes(m: Musculature): (sizes: seq<nat>)
    ensures |sizes| == BodyParts
  {
    [SpineBlock] + seq(8, p => if p % 2 == 0 then m.leg else m.hip)
  }

  /** Block sizes matching the body parts: part b is as wide as its muscles. */
  function BlockSizes(m: Musculature): (sizes: seq<nat>)
    ensures |sizes| == BodyParts
    ensures forall b | 1 <= b < BodyParts :: sizes[b] == m.PartMuscles(b)
  {
    [SpineBlock] + seq(8, p => if p % 2 == 0 then m.hip else m.leg)
  }

  /** Run of part b >= 1: slice 1 only, rows and columns within the block, diagonal skipped. */
  function PartRun(sizes: seq<nat>, b: nat): Run
    requires b < |sizes|
  {
    Run(1, BlockStart(sizes, b), BlockStart(sizes, b) + sizes[b], BlockStart(sizes, b) + sizes[b], true)
  }

  /**
   * The walk of the block-diagonal fill: the spine block in every slice
   * (slice 1 without its diagonal), then each other part's block in slice 1
   * only.
   */
  function BlockRuns(sizes: seq<nat>, span: nat): (runs: seq<Run>)
    requires |sizes| == BodyParts
    ensures |runs| == span + (if span > 1 then 8 else 0)
    ensures forall i | 0 <= i < span :: runs[i] == Run(i, 0, sizes[0], sizes[0], i == 1)
    ensures span > 1 ==> forall b | 1 <= b < BodyParts :: runs[span + b - 1] == PartRun(sizes, b)
  {
    seq(span, i requires 0 <= i < span => Run(i, 0, sizes[0], sizes[0], i == 1))
      + (if span > 1 then seq(8, p requires 0 <= p < 8 => PartRun(sizes, p + 1)) else [])
  }

  lemma {:induction false} BlockStartMonotone(sizes: seq<nat>, b1: nat, b2: nat)
    requires b1 <= b2 <= |sizes|
    ensures BlockStart(sizes, b1) <= BlockStart(sizes, b2)
    decreases b2 - b1
  {
    if b1 < b2 {
      BlockStartMonotone(sizes, b1, b2 - 1);
    }
  }

  /** Both layouts end where the table's muscles end: 16 + 4 hip + 4 leg. */
  lemma BlockEnd(m: Musculature)
    ensures BlockStart(BlockSizes(m), BodyParts) == SpineBlock + 4 * m.hip + 4 * m.leg
    ensures BlockStart(AsWrittenBlockSizes(m), BodyParts) == SpineBlock + 4 * m.hip + 4 * m.leg
  {
    BlockPairs(m, 4);
  }

  /** After the spine, every shoulder/leg or hip/leg pair adds one hip and one leg, in either layout. */
  lemma {:induction false} BlockPairs(m: Musculature, c: nat)
    requires c <= 4
    ensures BlockStart(BlockSizes(m), 2 * c + 1) == SpineBlock + c * (m.hip + m.leg)
    ensures BlockStart(AsWrittenBlockSizes(m), 2 * c + 1) == SpineBlock + c * (m.hip + m.leg)
  {
    if c > 0 {
      BlockPairs(m, c - 1);
      var s, w := BlockSizes(m), AsWrittenBlockSizes(m);
      assert s[2 * c - 1] + s[2 * c] == m.hip + m.leg;
      assert w[2 * c - 1] + w[2 * c] == m.hip + m.leg;
      assert c * (m.hip + m.leg) == (c - 1) * (m.hip + m.leg) + (m.hip + m.leg);
    }
  }

  /** Every run of the walk lies inside a table wide enough for all blocks. */
  lemma BlockRunsFit(sizes: seq<nat>, span: nat, their: nat, our: nat)
    requires |sizes| == BodyParts && sizes[0] <= BlockStart(sizes, BodyParts)
    requires BlockStart(sizes, BodyParts) <= their && BlockStart(sizes, BodyParts) <= our
    ensures forall x <- BlockRuns(sizes, span) :: RunFits(x, span, their, our)
  {
    var runs := BlockRuns(sizes, span);
    forall x | 0 <= x < |runs|
      ensures RunFits(runs[x], span, their, our)
    {
      if x >= span {
        var b := x - span + 1;
        BlockStartMonotone(sizes, b + 1, BodyParts);
      }
    }
  }

  /** The two layouts agree exactly when hips and legs have the same number of muscles. */
  lemma AsWrittenAgreesIffUniform(m: Musculature)
    ensures AsWrittenBlockSizes(m) == BlockSizes(m) <==> m.hip == m.leg
  {
    if AsWrittenBlockSizes(m) == BlockSizes(m) {
      assert AsWrittenBlockSizes(m)[1] == BlockSizes(m)[1];
    }
  }

  /**
   * With one muscle per hip and two per leg, the as-written fill gives the
   * left shoulder rows 16 .. 17 and the left front leg row 18, while
   * setupCPGs reads the front leg's coupling at [1][17][18]: no run visits
   * that cell, so it keeps its zero value whatever the learned entries.
   */
  lemma AsWrittenBlocksMisaligned(entries: seq<seq<real>>, lowPhase: real, highPhase: real)
    ensures Musculature(16, 1, 2).ActionsStart(2) == 17
    ensures BlockStart(AsWrittenBlockSizes(Musculature(16, 1, 2)), 2) == 18
    ensures RunsCell(entries, lowPhase, highPhase, BlockRuns(AsWrittenBlockSizes(Musculature(16, 1, 2)), 2), 1, 17, 18)
            == Unset
  {
    var m := Musculature(16, 1, 2);
    var w := AsWrittenBlockSizes(m);
    var runs := BlockRuns(w, 2);
    assert m.ActionsStart(1) == 16;
    assert BlockStart(w, 1) == 16 && w[1] == 2 && w[2] == 1;
    forall x | 0 <= x < |runs|
      ensures !InRun(runs[x], 1, 17, 18)
    {
      if x >= 2 {
        var c := x - 1;
        assert runs[x] == PartRun(w, c);
        if c > 2 {
          BlockStartMonotone(w, 3, c);
        }
      }
    }
    RunsCellUnvisited(entries, lowPhase, highPhase, runs, 1, 17, 18);
  }

  /** With the corrected sizes, every block starts where setupCPGs reads it. */
  lemma {:induction false} BlocksMatchSetup(m: Musculature, b: nat)
    requires b <= BodyParts
    ensures BlockStart(BlockSizes(m), b) == m.ActionsStart(b)
  {
    if b > 0 {
      BlocksMatchSetup(m, b - 1);
    }
  }

  /**
   * With the corrected sizes, every coupling (y, z), y < z, that setupCPGs
   * copies out of slice 1 for body part b >= 1 is visited by that part's run
   * and by no other run.
   */
  lemma SetupReadsOwnBlock(m: Musculature, span: nat, b: nat, y: nat, z: nat)
    requires span > 1 && 1 <= b < BodyParts && y < z < m.PartMuscles(b)
    ensures OnlyRun(BlockRuns(BlockSizes(m), span), span + b - 1, 1, m.ActionsStart(b) + y, m.ActionsStart(b) + z)
  {
    OwnBlockBounds(m, b);
    OnlyOwnRun(BlockSizes(m), span, b, m.ActionsStart(b) + y, m.ActionsStart(b) + z);
  }

  /** With the corrected sizes, block b >= 1 starts after the spine block, where setupCPGs reads it, and is as wide as the part. */
  lemma OwnBlockBounds(m: Musculature, b: nat)
    requires 1 <= b < BodyParts
    ensures BlockStart(BlockSizes(m), b) == m.ActionsStart(b)
    ensures BlockSizes(m)[b] == m.PartMuscles(b)
    ensures BlockSizes(m)[0] <= m.ActionsStart(b)
  {
    BlocksMatchSetup(m, b);
    BlockStartMonotone(BlockSizes(m), 1, b);
  }

  /** A cell of slice 1 strictly above the diagonal of block b >= 1 is visited by b's run alone. */
  lemma OnlyOwnRun(sizes: seq<nat>, span: nat, b: nat, j: nat, k: nat)
    requires |sizes| == BodyParts && span > 1 && 1 <= b < BodyParts
    requires sizes[0] <= BlockStart(sizes, b) <= j < k < BlockStart(sizes, b) + sizes[b]
    ensures OnlyRun(BlockRuns(sizes, span), span + b - 1, 1, j, k)
  {
    var runs := BlockRuns(sizes, span);
    assert runs[span + b - 1] == PartRun(sizes, b);
    forall x | 0 <= x < |runs| && x != span + b - 1
      ensures !InRun(runs[x], 1, j, k)
    {
      if x >= span {
        var c := x - span + 1;
        assert runs[x] == PartRun(sizes, c);
        OtherBlockMisses(sizes, b, c, j);
      } else {
        assert runs[x].jTo == sizes[0];
      }
    }
  }

  /** A row inside block b lies in no other block. */
  lemma OtherBlockMisses(sizes: seq<nat>, b: nat, c: nat, j: nat)
    requires b < |sizes| && c < |sizes| && b != c
    requires BlockStart(sizes, b) <= j < BlockStart(sizes, b) + sizes[b]
    ensures !(BlockStart(sizes, c) <= j < BlockStart(sizes, c) + sizes[c])
  {
    if c < b {
      BlockStartMonotone(sizes, c + 1, b);
    } else {
      BlockStartMonotone(sizes, b + 1, c);
    }
  }

  // ---------------------------------------------------------------------
  // Coupling table among the five higher-level CPGs.

  /** Position of pair (j, k), j < k < 5, in the walk of the strict upper triangle. */
  function HighRank(j: nat, k: nat): int
  {
    SliceRank(0, j, k, HighCPGs, true)
  }

  /** Value of cell [i][j][k] after the fill: the same in every slice. */
  function HighCell(entries: seq<seq<real>>, lowPhase: real, highPhase: real, j: nat, k: nat): EdgeParam
  {
    if j < k < HighCPGs && HighRank(j, k) < |entries|
    then EdgeOf(entries[|entries| - 1 - HighRank(j, k)], lowPhase, highPhase)
    else Unset
  }

  /** The five higher-level CPGs have ten couplings. */
  lemma HighPairs()
    ensures RowsCount(0, HighCPGs, HighCPGs, true) == 10
  {
  }

  /** Cells later in a row come later in the walk. */
  lemma HighRankInRow(j: nat, k: nat)
    requires j < k < HighCPGs
    ensures RowsCount(0, j, HighCPGs, true) + RowCount(j, k, true) == HighRank(j, k)
    ensures RowsCount(0, j + 1, HighCPGs, true) >= HighRank(j, k) + 1
  {
  }

  // ---------------------------------------------------------------------
  // Couplings from the higher-level CPGs down to the low-level nodes.

  /**
   * Couplings of higher-level CPG b: one to each node of its run, all with
   * the entry's weight and its phase mapped onto [lowPhase, highPhase].
   */
  function HighLowCoupling(m: Musculature, b: nat, e: seq<real>, lowPhase: real, highPhase: real): (c: Connections)
    ensures c.Parallel() && |c.neighbours| == m.HighLowRunLength(b)
    ensures forall x | 0 <= x < |c.neighbours| :: c.neighbours[x] == m.HighLowRunStart(b) + x
  {
    var n := m.HighLowRunLength(b);
    Connections(seq(n, x => m.HighLowRunStart(b) + x),
                seq(n, _ => EntryOr(e, 0)),
                seq(n, _ => Denormalize(EntryOr(e, 1), lowPhase, highPhase)))
  }

  /** The coupling map after higher-level CPGs 0 .. d-1 have been connected. */
  function CouplingsUpTo(before: map<int, Connections>, m: Musculature, entries: seq<seq<real>>, d: nat,
                         lowPhase: real, highPhase: real): map<int, Connections>
    requires d <= |entries|
  {
    if d == 0 then before
    else WithCouplings(CouplingsUpTo(before, m, entries, d - 1, lowPhase, highPhase),
                       m.HighNode(d - 1), HighLowCoupling(m, d - 1, entries[|entries| - d], lowPhase, highPhase))
  }

  /**
   * Higher-level CPG b keeps the couplings it had before (those the coupling
   * among the higher-level CPGs declared) and gains its run after them.
   */
  lemma {:induction false} HighLowCouplingsAt(before: map<int, Connections>, m: Musculature, entries: seq<seq<real>>,
                                              d: nat, b: nat, lowPhase: real, highPhase: real)
    requires b < d <= |entries| && d <= HighCPGs
    ensures m.HighNode(b) in CouplingsUpTo(before, m, entries, d, lowPhase, highPhase)
    ensures CouplingsUpTo(before, m, entries, d, lowPhase, highPhase)[m.HighNode(b)]
            == Declared(before, m.HighNode(b)).Plus(HighLowCoupling(m, b, entries[|entries| - 1 - b], lowPhase, highPhase))
  {
    if b < d - 1 {
      HighLowCouplingsAt(before, m, entries, d - 1, b, lowPhase, highPhase);
    } else {
      HighLowCouplingsBefore(before, m, entries, d - 1, m.HighNode(b), lowPhase, highPhase);
    }
  }

  /** A node none of the first d higher-level CPGs is numbered by keeps its couplings. */
  lemma {:induction false} HighLowCouplingsBefore(before: map<int, Connections>, m: Musculature, entries: seq<seq<real>>,
                                                  d: nat, n: int, lowPhase: real, highPhase: real)
    requires d <= |entries| && !(m.LowNodes() <= n < m.LowNodes() + d)
    ensures Declared(CouplingsUpTo(before, m, entries, d, lowPhase, highPhase), n) == Declared(before, n)
  {
    if d > 0 {
      HighLowCouplingsBefore(before, m, entries, d - 1, n, lowPhase, highPhase);
    }
  }

  /** The five runs lie end to end and cover exactly the low-level nodes. */
  lemma HighLowRunsTile(m: Musculature, b: nat)
    requires b < HighCPGs
    ensures m.HighLowRunStart(b) + m.HighLowRunLength(b) == (if b == 4 then m.LowNodes() else m.HighLowRunStart(b + 1))
  {
    if b == 4 {
      assert m.HighLowRunStart(2) == m.spine + m.hip + m.leg;
      assert m.HighLowRunStart(4) == m.spine + 3 * (m.hip + m.leg);
    }
  }

  class QuadController {
    const config: Config
    /** Frequency-feedback limits of the higher-level CPGs' node rows. */
    const highFreqFeedbackMin: real
    const highFreqFeedbackMax: real
    const muscles: Musculature
    /** Number of higher-level controllers feeding back (m_highControllers.size()). */
    const highControllers: nat
    const network: CPGNetwork

    var updateTime: real
    var bogus: bool
    var scores: seq<real>
    var initConditions: Vec3
    var notified: seq<real>
    var trialLog: TrialLog

    constructor (config: Config, highFreqFeedbackMin: real, highFreqFeedbackMax: real,
                 muscles: Musculature, highControllers: nat, network: CPGNetwork)
      ensures this.config == config && this.muscles == muscles && this.network == network
      ensures this.highFreqFeedbackMin == highFreqFeedbackMin && this.highFreqFeedbackMax == highFreqFeedbackMax
      ensures this.highControllers == highControllers
      ensures updateTime == 0.0 && !bogus && scores == [] && notified == [] && trialLog == TrialLog([], [])
    {
      this.config := config;
      this.highFreqFeedbackMin := highFreqFeedbackMin;
      this.highFreqFeedbackMax := highFreqFeedbackMax;
      this.muscles := muscles;
      this.highControllers := highControllers;
      this.network := network;
      updateTime := 0.0;
      bogus := false;
      scores := [];
      initConditions := Origin;
      notified := [];
      trialLog := TrialLog([], []);
    }

    /**
     * Limits applied to node row i: the five configured columns, with the
     * frequency-feedback column switched to the higher-level bounds for every
     * row past the low-level nodes.
     */
    function RowLimits(i: nat): (l: Limits)
      ensures l.HasWidth(NodeActions)
      ensures forall j | 0 <= j < NodeActions && j != 2 ::
        l.low[j] == FiveLimits(config.limits, config.highFreq, config.freqFeedbackMax).low[j]
        && l.high[j] == FiveLimits(config.limits, config.highFreq, config.freqFeedbackMax).high[j]
      ensures l.low[2] == (if i > muscles.LowNodes() then highFreqFeedbackMin else config.limits.freqFeedbackMin)
      ensures l.high[2] == (if i > muscles.LowNodes() then highFreqFeedbackMax else config.freqFeedbackMax)
    {
      var base := FiveLimits(config.limits, config.highFreq, config.freqFeedbackMax);
      if i > muscles.LowNodes() then Limits(base.low[2 := highFreqFeedbackMin], base.high[2 := highFreqFeedbackMax])
      else base
    }

    /**
     * scaleNodeActions: five affine columns; the frequency-feedback limits
     * are overwritten once the row index passes the low-level nodes and stay
     * overwritten for the remaining rows.
     */
    method ScaleNodeActions(actions: seq<seq<real>>) returns (r: Result<array2<real>>)
      ensures r.Ok? <==> |actions| > 0 && |actions[0]| == NodeActions
      ensures r.Ok? ==> r.value.Length0 == |actions| && r.value.Length1 == NodeActions
      ensures r.Ok? ==> forall i, j | 0 <= i < |actions| && 0 <= j < NodeActions ::
        r.value[i, j] == NodeCell(actions, RowLimits(i), i, j)
    {
      if |actions| == 0 || |actions[0]| != NodeActions {
        return Err(AssertionFailure("numActions"));
      }
      var t := new real[|actions|, NodeActions];
      var lim := FiveLimits(config.limits, config.highFreq, config.freqFeedbackMax);
      var i := 0;
      while i < |actions|
        invariant 0 <= i <= |actions|
        invariant lim == if i > muscles.LowNodes() + 1 then RowLimits(i - 1) else RowLimits(0)
        invariant forall a, b | 0 <= a < i && 0 <= b < NodeActions :: t[a, b] == NodeCell(actions, RowLimits(a), a, b)
      {
        if i > muscles.LowNodes() {
          lim := Limits(lim.low[2 := highFreqFeedbackMin], lim.high[2 := highFreqFeedbackMax]);
        }
        assert lim == RowLimits(i);
        var j := 0;
        while j < NodeActions
          invariant 0 <= j <= NodeActions
          invariant forall a, b | 0 <= a < i && 0 <= b < NodeActions :: t[a, b] == NodeCell(actions, RowLimits(a), a, b)
          invariant forall b | 0 <= b < j :: t[i, b] == NodeCell(actions, lim, i, b)
        {
          t[i, j] := Denormalize(EntryOr(actions[i], j), lim.low[j], lim.high[j]);
          j := j + 1;
        }
        i := i + 1;
      }
      return Ok(t);
    }

    /**
     * scaleEdgeActions: the block-diagonal fill, with each body part's block
     * as wide as that part's muscles.
     */
    method ScaleEdgeActions(entries: seq<seq<real>>, span: nat, their: nat, our: nat)
      returns (r: Result<array3<EdgeParam>>)
      requires SpineBlock + 4 * muscles.hip + 4 * muscles.leg <= their
      requires SpineBlock + 4 * muscles.hip + 4 * muscles.leg <= our
      ensures r.Ok? <==> 0 < |entries| <= RunsTotal(BlockRuns(BlockSizes(muscles), span))
                         && Shaped(entries, 0, |entries|)
      ensures r.Ok? ==> r.value.Length0 == span && r.value.Length1 == their && r.value.Length2 == our
      ensures r.Ok? ==> forall i, j, k | InTable(r.value, i, j, k) ::
        r.value[i, j, k] == RunsCell(entries, config.lowPhase, config.highPhase,
                                     BlockRuns(BlockSizes(muscles), span), i, j, k)
    {
      var sizes := BlockSizes(muscles);
      BlockEnd(muscles);
      BlockStartMonotone(sizes, 1, BodyParts);
      BlockRunsFit(sizes, span, their, our);
      r := ScaleRunEdges(entries, BlockRuns(sizes, span), span, their, our, config.lowPhase, config.highPhase);
    }

    /**
     * scaleHighEdgeActions: the strict upper triangle of a 5 x 5 table,
     * walked row by row; each entry, taken from the end of the list, is
     * written into every slice.
     */
    method ScaleHighEdgeActions(entries: seq<seq<real>>, span: nat) returns (r: Result<array3<EdgeParam>>)
      ensures r.Ok? <==> 0 < |entries| <= 10 && Shaped(entries, 0, |entries|)
      ensures r.Ok? ==> r.value.Length0 == span && r.value.Length1 == HighCPGs && r.value.Length2 == HighCPGs
      ensures r.Ok? ==> forall i, j, k | InTable(r.value, i, j, k) ::
        r.value[i, j, k] == HighCell(entries, config.lowPhase, config.highPhase, j, k)
    {
      var n := |entries|;
      if n == 0 || |entries[0]| != 2 {
        return Err(AssertionFailure("highEdgeParam size"));
      }
      var t := new EdgeParam[span, HighCPGs, HighCPGs]((_, _, _) => Unset);
      var it := n;
      var j := 0;
      while j < HighCPGs
        invariant 0 <= j <= HighCPGs
        invariant it == n - Min(n, RowsCount(0, j, HighCPGs, true))
        invariant Shaped(entries, it, n)
        invariant forall a, b, c | InTable(t, a, b, c) ::
          t[a, b, c] == if b < j then HighCell(entries, config.lowPhase, config.highPhase, b, c) else Unset
      {
        var k := j;
        while k < HighCPGs
          invariant j <= k <= HighCPGs
          invariant it == n - Min(n, RowsCount(0, j, HighCPGs, true) + RowCount(j, k, true))
          invariant Shaped(entries, it, n)
          invariant forall a, b, c | InTable(t, a, b, c) ::
            t[a, b, c] == if b < j || (b == j && c < k) then HighCell(entries, config.lowPhase, config.highPhase, b, c)
                          else Unset
        {
          if j != k {
            HighRankInRow(j, k);
            if it == 0 {
              // the entries ran out before the table was populated
              break;
            }
            if |entries[it - 1]| != 2 {
              return Err(AssertionFailure("param size"));
            }
            it := it - 1;
            var e := EdgeOf(entries[it], config.lowPhase, config.highPhase);
            var i := 0;
            while i < span
              invariant 0 <= i <= span
              invariant forall a, b, c | InTable(t, a, b, c) ::
                t[a, b, c] == if b < j || (b == j && c < k) then HighCell(entries, config.lowPhase, config.highPhase, b, c)
                              else if b == j && c == k && a < i then e
                              else Unset
            {
              t[i, j, k] := e;
              i := i + 1;
            }
          }
          k := k + 1;
        }
        j := j + 1;
      }
      HighPairs();
      if it != 0 {
        return Err(AssertionFailure("highEdgeParam not exhausted"));
      }
      return Ok(t);
    }

    /**
     * The coupling part of setupHighCPGs: higher-level CPG b takes the
     * (b+1)-th entry from the end and is coupled to its run of low-level
     * nodes.  The list must hold at least five entries; a malformed entry
     * stops the setup with the earlier CPGs already coupled, and a list
     * longer than five is rejected after all five are coupled.
     */
    method SetupHighLowCouplings(entries: seq<seq<real>>) returns (r: Result<()>)
      requires |entries| >= HighCPGs
      modifies network`connections
      ensures r.Ok? <==> |entries| == HighCPGs && Shaped(entries, |entries| - HighCPGs, |entries|)
      ensures Shaped(entries, |entries| - HighCPGs, |entries|) ==>
        network.connections == CouplingsUpTo(old(network.connections), muscles, entries, HighCPGs,
                                             config.lowPhase, config.highPhase)
      ensures forall d | 0 <= d < HighCPGs ::
        Shaped(entries, |entries| - d, |entries|) && |entries[|entries| - 1 - d]| != 2 ==>
        network.connections == CouplingsUpTo(old(network.connections), muscles, entries, d,
                                             config.lowPhase, config.highPhase)
    {
      var n := |entries|;
      var it := n;
      var nodeStart := 0;
      var b := 0;
      while b < HighCPGs
        invariant 0 <= b <= HighCPGs && it == n - b
        invariant Shaped(entries, it, n)
        invariant nodeStart == if b < HighCPGs then muscles.HighLowRunStart(b) else muscles.LowNodes()
        invariant network.connections == CouplingsUpTo(old(network.connections), muscles, entries, b,
                                                       config.lowPhase, config.highPhase)
      {
        it := it - 1;
        var param := entries[it];
        if |param| != 2 {
          return Err(AssertionFailure("param size"));
        }
        HighLowRunsTile(muscles, b);
        nodeStart := CoupleHigh(b, param, nodeStart, entries, old(network.connections));
        b := b + 1;
      }
      if it != 0 {
        return Err(AssertionFailure("highLowEdgeActions not exhausted"));
      }
      return Ok(());
    }

    /**
     * One round of the coupling loop of setupHighCPGs: higher-level CPG b,
     * whose entry is `param`, is coupled to the run of nodes starting at
     * `nodeStart`; the next run starts where this one ends.
     */
    method CoupleHigh(b: nat, param: seq<real>, nodeStart: nat, ghost entries: seq<seq<real>>,
                      ghost before: map<int, Connections>) returns (next: nat)
      requires b < HighCPGs && b < |entries| && param == entries[|entries| - 1 - b] && |param| == 2
      requires nodeStart == muscles.HighLowRunStart(b)
      requires network.connections == CouplingsUpTo(before, muscles, entries, b, config.lowPhase, config.highPhase)
      modifies network`connections
      ensures next == nodeStart + muscles.HighLowRunLength(b)
      ensures network.connections == CouplingsUpTo(before, muscles, entries, b + 1, config.lowPhase, config.highPhase)
    {
      var len := muscles.HighLowRunLength(b);
      var neighbours := seq(len, x => nodeStart + x);
      var weights := seq(len, _ => param[0]);
      var phases := seq(len, _ => Denormalize(param[1], config.lowPhase, config.highPhase));
      assert Connections(neighbours, weights, phases) == HighLowCoupling(muscles, b, param, config.lowPhase, config.highPhase);
      network.DefineConnections(muscles.HighNode(b), Connections(neighbours, weights, phases));
      next := nodeStart + len;
    }

    /** getFeedback: the cables of the nine body parts in order, then one block per higher-level controller. */
    method GetFeedback(parts: seq<seq<CableSensor>>, nn: seq<real> -> seq<real>, buffer: seq<real>)
      returns (feedback: seq<real>)
      requires forall c <- Flatten(parts) :: Readable(c)
      requires ProducesActions(nn, config.numActions)
      requires |buffer| == config.numStates && (Flatten(parts) != [] ==> config.numStates >= 2)
      ensures feedback == CablesFeedback(Flatten(parts), buffer, config.numActions, nn)
                          + HighsFeedback(highControllers, config.numStates, config.numActions, nn)
      ensures |feedback| == config.numActions * (|Flatten(parts)| + highControllers)
    {
      feedback := CollectFeedback(Flatten(parts), highControllers, config.numStates, config.numActions, nn, buffer);
    }

    /** The trial-state part of onSetup: the update clock and the abort flag reset, the start position recorded. */
    method ResetTrial(initCOM: Vec3)
      modifies this`updateTime, this`bogus, this`initConditions
      ensures updateTime == 0.0 && !bogus && initConditions == initCOM
    {
      initConditions := initCOM;
      updateTime := 0.0;
      bogus := false;
    }

    /** onStep: the hierarchy controller's timer gate and height bound, without a running total. */
    method OnStep(dt: real, parts: seq<seq<CableSensor>>, nn: seq<real> -> seq<real>, buffer: seq<real>,
                  diverges: bool, height: real)
      returns (outcome: StepOutcome)
      requires forall c <- Flatten(parts) :: Readable(c)
      requires ProducesActions(nn, config.numActions)
      requires |buffer| == config.numStates && (Flatten(parts) != [] ==> config.numStates >= 2)
      modifies this`updateTime, this`bogus, this`notified, network`steps
      ensures old(updateTime) + dt < config.controlTime ==>
        updateTime == old(updateTime) + dt && network.steps == old(network.steps) && notified == old(notified)
      ensures old(updateTime) + dt >= config.controlTime && diverges ==>
        outcome == Abort(IntegrationFailed) && updateTime == old(updateTime) + dt
        && network.steps == old(network.steps) && notified == old(notified)
      ensures old(updateTime) + dt >= config.controlTime && !diverges ==>
        updateTime == 0.0 && notified == old(notified) + [old(updateTime) + dt]
        && network.steps == old(network.steps) + [Integration(
             CablesFeedback(Flatten(parts), buffer, config.numActions, nn)
               + HighsFeedback(highControllers, config.numStates, config.numActions, nn),
             old(updateTime) + dt)]
      ensures outcome != Abort(IntegrationFailed) ==>
        (outcome == Continue <==> HeightInBand(height, config.minHeight, config.maxHeight))
      ensures outcome.Abort? ==> outcome.error in {IntegrationFailed, HeightOutOfRange}
      ensures bogus == (old(bogus) || outcome.Abort?)
    {
      updateTime := updateTime + dt;
      if updateTime >= config.controlTime {
        var desComs := GetFeedback(parts, nn, buffer);
        var ok := network.Update(desComs, updateTime, diverges);
        if !ok {
          bogus := true;
          return Abort(IntegrationFailed);
        }
        notified := notified + [updateTime];
        updateTime := 0.0;
      }
      if height > config.maxHeight || height < config.minHeight {
        bogus := true;
        return Abort(HeightOutOfRange);
      }
      return Continue;
    }

    /** onTeardown: distance (or -1) and the energy of the spine cables; only the scores are appended. */
    method OnTeardown(finalCOM: Vec3, distance: real, spineHistories: seq<CableHistory>)
      requires PlanarDistance(distance, initConditions, finalCOM)
      requires forall h <- spineHistories :: h.Recorded()
      modifies this`scores, this`trialLog
      ensures scores == [DistanceScore(bogus, distance), Energy(spineHistories)]
      ensures trialLog == TrialLog(old(trialLog.scores) + [ScoreRecord(scores[0], scores[1])], old(trialLog.metrics))
    {
      scores := [];
      if bogus {
        scores := scores + [-1.0];
      } else {
        scores := scores + [distance];
      }
      var totalEnergySpent := TotalEnergy(spineHistories);
      scores := scores + [totalEnergySpent];
      trialLog := TrialLog(trialLog.scores + [ScoreRecord(scores[0], scores[1])], trialLog.metrics);
    }
  }

  /** The cables of all body parts, part after part. */
  function Flatten(parts: seq<seq<CableSensor>>): seq<CableSensor>
  {
    if parts == [] then [] else Flatten(parts[..|parts| - 1]) + parts[|parts| - 1]
  }
}
