/**
 * De-normalisation of learned parameters.  The learning library hands the
 * controllers numbers in [0, 1]; every controller maps them affinely onto a
 * configured interval and lays them out in a table with one row per CPG node.
 */
module Scaling {
  import opened Common

  /** Affine map taking 0 to `low` and 1 to `high`. */
  function Denormalize(v: real, low: real, high: real): real
  {
    v * (high - low) + low
  }

  lemma DenormalizeEndpoints(low: real, high: real)
    ensures Denormalize(0.0, low, high) == low
    ensures Denormalize(1.0, low, high) == high
  {
  }

  /** A learned value in [0, 1] lands inside the configured interval. */
  lemma DenormalizeInRange(v: real, low: real, high: real)
    requires 0.0 <= v <= 1.0 && low <= high
    ensures low <= Denormalize(v, low, high) <= high
  {
    ProductNonNegative(v, high - low);
    ProductNonNegative(1.0 - v, high - low);
  }

  lemma ProductNonNegative(a: real, b: real)
    requires 0.0 <= a && 0.0 <= b
    ensures 0.0 <= a * b
  {
  }

  /** The map is undone by normalising against the same interval. */
  lemma DenormalizeRoundTrip(v: real, low: real, high: real)
    requires low != high
    ensures (Denormalize(v, low, high) - low) / (high - low) == v
  {
  }

  /** `row.get(j, 0.0)`: an entry the row does not have reads as 0.0. */
  function EntryOr(row: seq<real>, j: nat): real
  {
    if j < |row| then row[j] else 0.0
  }

  /** Lower and upper bounds per action column (the 2 x numActions `limits`). */
  datatype Limits = Limits(low: seq<real>, high: seq<real>)
  {
    predicate HasWidth(width: nat) { |low| == width && |high| == width }
  }

  /** The limit fields every scaleNodeActions reads from the configuration. */
  datatype NodeLimitConfig = NodeLimitConfig(
    lowFreq: real,
    lowAmp: real, highAmp: real,
    freqFeedbackMin: real,
    ampFeedbackMin: real, ampFeedbackMax: real,
    phaseFeedbackMin: real, phaseFeedbackMax: real)

  /** Number of actions per node row that the five-column controllers insist on. */
  const NodeActions: nat := 5

  /**
   * The five columns: frequency, amplitude, frequency feedback, amplitude
   * feedback, phase feedback.  The upper frequency bound and the upper
   * frequency-feedback bound are chosen by the caller.
   */
  function FiveLimits(c: NodeLimitConfig, highFreq: real, freqFeedbackMax: real): (l: Limits)
    ensures l.HasWidth(NodeActions)
  {
    Limits([c.lowFreq, c.lowAmp, c.freqFeedbackMin, c.ampFeedbackMin, c.phaseFeedbackMin],
           [highFreq, c.highAmp, freqFeedbackMax, c.ampFeedbackMax, c.phaseFeedbackMax])
  }

  /** Value of node table cell (i, j): column j's interval applied to row i's entry j. */
  function NodeCell(actions: seq<seq<real>>, lim: Limits, i: nat, j: nat): real
    requires i < |actions| && j < |lim.low| && j < |lim.high|
  {
    Denormalize(EntryOr(actions[i], j), lim.low[j], lim.high[j])
  }

  /**
   * Scales a table of learned node actions.  The width of the table is the
   * length of the first row, which must equal `width`; shorter rows read
   * missing entries as 0.0 and longer rows have their extra entries ignored.
   */
  method ScaleNodeTable(actions: seq<seq<real>>, lim: Limits, width: nat)
    returns (r: Result<array2<real>>)
    requires lim.HasWidth(width)
    ensures r.Ok? <==> |actions| > 0 && |actions[0]| == width
    ensures r.Ok? ==> r.value.Length0 == |actions| && r.value.Length1 == width
    ensures r.Ok? ==> forall i, j | 0 <= i < |actions| && 0 <= j < width ::
      r.value[i, j] == NodeCell(actions, lim, i, j)
  {
    if |actions| == 0 || |actions[0]| != width {
      return Err(AssertionFailure("numActions"));
    }
    var t := new real[|actions|, width];
    var i := 0;
    while i < |actions|
      invariant 0 <= i <= |actions|
      invariant forall a, b | 0 <= a < i && 0 <= b < width :: t[a, b] == NodeCell(actions, lim, a, b)
    {
      var j := 0;
      while j < width
        invariant 0 <= j <= width
        invariant forall a, b | 0 <= a < i && 0 <= b < width :: t[a, b] == NodeCell(actions, lim, a, b)
        invariant forall b | 0 <= b < j :: t[i, b] == NodeCell(actions, lim, i, b)
      {
        t[i, j] := Denormalize(EntryOr(actions[i], j), lim.low[j], lim.high[j]);
        j := j + 1;
      }
      i := i + 1;
    }
    return Ok(t);
  }

  /**
   * The five-column node scaling shared by the hierarchy, Achilles and
   * statistics controllers; a table of well-formed learned values stays
   * inside the configured intervals.
   */
  method ScaleFiveColumnNodes(actions: seq<seq<real>>, c: NodeLimitConfig, highFreq: real, freqFeedbackMax: real)
    returns (r: Result<array2<real>>)
    ensures r.Ok? <==> |actions| > 0 && |actions[0]| == NodeActions
    ensures r.Ok? ==> r.value.Length0 == |actions| && r.value.Length1 == NodeActions
    ensures r.Ok? ==> forall i, j | 0 <= i < |actions| && 0 <= j < NodeActions ::
      r.value[i, j] == NodeCell(actions, FiveLimits(c, highFreq, freqFeedbackMax), i, j)
  {
    r := ScaleNodeTable(actions, FiveLimits(c, highFreq, freqFeedbackMax), NodeActions);
  }

  /** Every cell of a scaled table whose learned entry lies in [0, 1] is within its column's limits. */
  lemma NodeCellInLimits(actions: seq<seq<real>>, lim: Limits, i: nat, j: nat)
    requires i < |actions| && j < |lim.low| && j < |lim.high|
    requires 0.0 <= EntryOr(actions[i], j) <= 1.0 && lim.low[j] <= lim.high[j]
    ensures lim.low[j] <= NodeCell(actions, lim, i, j) <= lim.high[j]
  {
    DenormalizeInRange(EntryOr(actions[i], j), lim.low[j], lim.high[j]);
  }
}
