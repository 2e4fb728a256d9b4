/**
 * The passive controller of the vertical spine: it drives no cable and only
 * tells its observers, every so often, how much simulated time has passed,
 * so that they log the model's state at a fixed interval.
 */
module PassiveControl {
  import opened Common

  /** m_updateTime: the logging interval, in seconds. */
  const LogInterval: real := 0.01

  /** The sum of a sequence of durations. */
  function Total(ts: seq<real>): real
  {
    if ts == [] then 0.0 else Total(ts[..|ts| - 1]) + ts[|ts| - 1]
  }

  lemma TotalSnoc(ts: seq<real>, t: real)
    ensures Total(ts + [t]) == Total(ts) + t
  {
    assert (ts + [t])[..|ts|] == ts;
  }

  class PassiveController {
    /** The logging interval. */
    const interval: real := LogInterval
    /** Time accumulated since the last notification. */
    var updateTime: real
    /**
     * The time argument of every notification so far, in order: each one is
     * passed both to the controller's own observers and to its data logger.
     */
    var notified: seq<real>

    /** The accumulator stays below the interval, and every notification reports at least one interval. */
    predicate Valid()
      reads this`updateTime, this`notified
    {
      0.0 <= updateTime < interval && forall t <- notified :: t >= interval
    }

    constructor()
      ensures updateTime == 0.0 && notified == []
      ensures Valid()
    {
      updateTime := 0.0;
      notified := [];
    }

    /** onSetup: the accumulator restarts from zero; past notifications stay logged. */
    method OnSetup()
      modifies this`updateTime
      ensures updateTime == 0.0
      ensures old(forall t <- notified :: t >= interval) ==> Valid()
    {
      updateTime := 0.0;
    }

    /**
     * onStep: a step that is not positive is refused and changes nothing.
     * Otherwise the step is added to the accumulator; once the accumulator
     * reaches the interval the observers are told the accumulated time and
     * it restarts from zero.
     */
    method OnStep(dt: real) returns (r: Result<()>)
      modifies this`updateTime, this`notified
      ensures r.Err? <==> dt <= 0.0
      ensures r.Err? ==> r.error == InvalidArgument("dt is not positive")
                         && updateTime == old(updateTime) && notified == old(notified)
      ensures r.Ok? && old(updateTime) + dt < interval ==>
        updateTime == old(updateTime) + dt && notified == old(notified)
      ensures r.Ok? && old(updateTime) + dt >= interval ==>
        updateTime == 0.0 && notified == old(notified) + [old(updateTime) + dt]
      ensures r.Ok? ==> Total(notified) + updateTime == old(Total(notified) + updateTime) + dt
      ensures r.Ok? ==> updateTime == Run(old(updateTime), interval, [dt]).0
                        && notified == old(notified) + Run(old(updateTime), interval, [dt]).1
      ensures old(Valid()) ==> Valid()
    {
      if dt <= 0.0 {
        return Err(InvalidArgument("dt is not positive"));
      }
      TotalSnoc(notified, updateTime + dt);
      updateTime := updateTime + dt;
      assert [dt][..0] == [];
      if updateTime >= interval {
        notified := notified + [updateTime];
        updateTime := 0.0;
      }
      return Ok(());
    }
  }

  /**
   * The controller's behaviour over a run of positive steps: the pending time
   * and the notifications that steps `dts` produce from pending time `pending`.
   */
  function Run(pending: real, interval: real, dts: seq<real>): (r: (real, seq<real>))
  {
    if dts == [] then (pending, [])
    else
      var (p, ns) := Run(pending, interval, dts[..|dts| - 1]);
      var t := p + dts[|dts| - 1];
      if t >= interval then (0.0, ns + [t]) else (t, ns)
  }

  /**
   * Over any run of positive steps from a valid state, no time is lost and
   * the pending time stays below the interval: the notifications and the
   * pending time add up to the starting pending time plus every step.
   */
  lemma {:induction false} RunConservesTime(pending: real, interval: real, dts: seq<real>)
    requires 0.0 <= pending < interval
    requires forall x | 0 <= x < |dts| :: dts[x] > 0.0
    ensures 0.0 <= Run(pending, interval, dts).0 < interval
    ensures Total(Run(pending, interval, dts).1) + Run(pending, interval, dts).0 == pending + Total(dts)
    ensures forall t <- Run(pending, interval, dts).1 :: t >= interval
  {
    if dts != [] {
      var n := |dts| - 1;
      RunConservesTime(pending, interval, dts[..n]);
      var (p, ns) := Run(pending, interval, dts[..n]);
      assert dts[..n] + [dts[n]] == dts;
      TotalSnoc(dts[..n], dts[n]);
      TotalSnoc(ns, p + dts[n]);
    }
  }

  /**
   * A notification is sent at the latest on the step that brings the
   * pending time to the interval: a run of steps whose total reaches the
   * interval notifies at least once.
   */
  lemma {:induction false} RunNotifiesByInterval(pending: real, interval: real, dts: seq<real>)
    requires 0.0 <= pending < interval
    requires forall x | 0 <= x < |dts| :: dts[x] > 0.0
    requires pending + Total(dts) >= interval
    ensures Run(pending, interval, dts).1 != []
  {
    RunConservesTime(pending, interval, dts);
  }
}
