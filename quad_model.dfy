/**
 * The quadruped model base class of the learning experiments: it keeps the
 * structure's muscles, its segments and a muscle map by tag, and answers the
 * controllers' questions about centres of mass.  Rods, their masses and
 * their centres of mass come from the physics engine and are plain inputs.
 */
module QuadModel {
  import opened Common

  /** std::size_t is 64 bits wide: a negative int converts modulo 2^64. */
  const SizeModulus: int := 0x1_0000_0000_0000_0000

  function ToSize(x: int): (s: nat)
    ensures s < SizeModulus
    ensures 0 <= x < SizeModulus ==> s == x
  {
    x % SizeModulus
  }

  /** Decimal digits of n, as a stream insertion writes them. */
  function Decimal(n: nat): (s: string)
    ensures |s| > 0 && forall c <- s :: '0' <= c <= '9'
  {
    var d := ['0' + (n % 10) as char];
    if n < 10 then d else Decimal(n / 10) + d
  }

  /** A rigid descendant of a segment; only rods count towards its centre of mass. */
  datatype Rigid = Rigid(isRod: bool, mass: real, com: Vec3)

  /** A segment, by its rigid descendants in order. */
  datatype Segment = Segment(rigids: seq<Rigid>)

  /** A cable of the structure, by identity. */
  datatype Muscle = Muscle(id: nat)

  /** The rods among the rigids, in order (the tgRod filter). */
  function Rods(rigids: seq<Rigid>): (rods: seq<Rigid>)
    ensures |rods| <= |rigids| && forall r <- rods :: r.isRod && r in rigids
  {
    if rigids == [] then []
    else Rods(rigids[..|rigids| - 1]) + (if rigids[|rigids| - 1].isRod then [rigids[|rigids| - 1]] else [])
  }

  /** Total mass of rods. */
  function RodsMass(rods: seq<Rigid>): real
  {
    if rods == [] then 0.0 else RodsMass(rods[..|rods| - 1]) + rods[|rods| - 1].mass
  }

  /** Sum of mass times centre of mass over rods. */
  function RodsMoment(rods: seq<Rigid>): Vec3
  {
    if rods == [] then Origin else RodsMoment(rods[..|rods| - 1]).Plus(rods[|rods| - 1].com.Scale(rods[|rods| - 1].mass))
  }

  /**
   * A segment's centre of mass and mass, or the assertion the computation
   * trips: a segment without rods, or rods without mass.
   */
  function SegmentCOM(s: Segment): (r: Result<(Vec3, real)>)
    ensures r.Ok? <==> Rods(s.rigids) != [] && RodsMass(Rods(s.rigids)) > 0.0
    ensures r.Ok? ==> r.value.1 == RodsMass(Rods(s.rigids)) > 0.0
  {
    var rods := Rods(s.rigids);
    if rods == [] then Err(AssertionFailure("!p_rods.empty()"))
    else
      var mass := RodsMass(rods);
      if mass <= 0.0 then Err(AssertionFailure("segmentMass > 0.0"))
      else
        var m := RodsMoment(rods);
        Ok((m.Scale(1.0 / mass), mass))
  }

  /** The centre of mass times the mass is the rods' moment. */
  lemma SegmentCOMMoment(s: Segment)
    requires SegmentCOM(s).Ok?
    ensures SegmentCOM(s).value.0.Scale(SegmentCOM(s).value.1) == RodsMoment(Rods(s.rigids))
  {
    var m := RodsMoment(Rods(s.rigids));
    ScaleBack(m, RodsMass(Rods(s.rigids)));
  }

  /** A segment whose rods all sit at c has its centre of mass at c. */
  lemma SegmentCOMUniform(s: Segment, c: Vec3)
    requires forall r <- Rods(s.rigids) :: r.com == c
    requires SegmentCOM(s).Ok?
    ensures SegmentCOM(s).value.0 == c
  {
    var rods := Rods(s.rigids);
    RodsMomentUniform(rods, c);
    var mass := RodsMass(rods);
    ScaleBack(c, mass);
  }

  lemma {:induction false} RodsMomentUniform(rods: seq<Rigid>, c: Vec3)
    requires forall r <- rods :: r.com == c
    ensures RodsMoment(rods) == c.Scale(RodsMass(rods))
  {
    if rods != [] {
      var n := |rods| - 1;
      RodsMomentUniform(rods[..n], c);
      assert rods[n] in rods;
    }
  }

  /**
   * What the centre-of-mass loop over segments n .. end learns: each
   * segment's centre of mass and mass, in order, up to the first segment
   * that trips an assertion.
   */
  datatype Survey = Survey(coms: seq<Vec3>, masses: seq<real>, failure: Option<Error>)

  function SurveyOf(segs: seq<Segment>): (s: Survey)
    ensures |s.coms| == |s.masses| <= |segs|
    ensures s.failure.None? ==> |s.masses| == |segs|
    ensures forall x | 0 <= x < |s.masses| :: s.masses[x] > 0.0
    ensures s.failure.Some? ==> |s.masses| < |segs| && SegmentCOM(segs[|s.masses|]) == Err(s.failure.value)
  {
    if segs == [] then Survey([], [], None)
    else
      var prev := SurveyOf(segs[..|segs| - 1]);
      if prev.failure.Some? then prev
      else
        var r := SegmentCOM(segs[|segs| - 1]);
        if r.Err? then Survey(prev.coms, prev.masses, Some(r.error))
        else Survey(prev.coms + [r.value.0], prev.masses + [r.value.1], None)
  }

  /** Sum of weights[from .. from + count]. */
  function WeightSum(weights: seq<real>, from: nat, count: nat): real
    requires from + count <= |weights|
  {
    if count == 0 then 0.0 else WeightSum(weights, from, count - 1) + weights[from + count - 1]
  }

  /** Sum of coms[x] weighted by weights[from + x]. */
  function Weighted(coms: seq<Vec3>, weights: seq<real>, from: nat): Vec3
    requires from + |coms| <= |weights|
  {
    if coms == [] then Origin
    else Weighted(coms[..|coms| - 1], weights, from).Plus(coms[|coms| - 1].Scale(weights[from + |coms| - 1]))
  }

  /** The mass-weighted average: total moment over total mass. */
  function Average(coms: seq<Vec3>, weights: seq<real>, from: nat): Vec3
    requires from + |coms| <= |weights| && WeightSum(weights, from, |coms|) > 0.0
  {
    Weighted(coms, weights, from).Scale(1.0 / WeightSum(weights, from, |coms|))
  }

  /** Positive weights sum to a positive total. */
  lemma {:induction false} WeightSumPositive(weights: seq<real>, from: nat, count: nat)
    requires from + count <= |weights| && count > 0
    requires forall x | from <= x < from + count :: weights[x] > 0.0
    ensures WeightSum(weights, from, count) > 0.0
  {
    if count > 1 {
      WeightSumPositive(weights, from, count - 1);
    }
  }

  lemma {:induction false} WeightedUniform(coms: seq<Vec3>, weights: seq<real>, from: nat, c: Vec3)
    requires from + |coms| <= |weights|
    requires forall x | 0 <= x < |coms| :: coms[x] == c
    ensures Weighted(coms, weights, from) == c.Scale(WeightSum(weights, from, |coms|))
  {
    if coms != [] {
      var k := |coms| - 1;
      WeightedUniform(coms[..k], weights, from, c);
      ScaleDistributes(c, WeightSum(weights, from, k), weights[from + k]);
    }
  }

  lemma ScaleDistributes(v: Vec3, a: real, b: real)
    ensures v.Scale(a).Plus(v.Scale(b)) == v.Scale(a + b)
  {
    assert v.x * a + v.x * b == v.x * (a + b);
    assert v.y * a + v.y * b == v.y * (a + b);
    assert v.z * a + v.z * b == v.z * (a + b);
  }

  /** When every segment's centre of mass is c and the weights are positive, the average is c. */
  lemma AverageUniform(coms: seq<Vec3>, weights: seq<real>, from: nat, c: Vec3)
    requires from + |coms| <= |weights| && WeightSum(weights, from, |coms|) > 0.0
    requires forall x | 0 <= x < |coms| :: coms[x] == c
    ensures Average(coms, weights, from) == c
  {
    WeightedUniform(coms, weights, from, c);
    ScaleBack(c, WeightSum(weights, from, |coms|));
  }

  /** Weights that agree on the range used give the same average. */
  lemma {:induction false} WeightedShift(coms: seq<Vec3>, w1: seq<real>, from1: nat, w2: seq<real>, from2: nat)
    requires from1 + |coms| <= |w1| && from2 + |coms| <= |w2|
    requires w1[from1..from1 + |coms|] == w2[from2..from2 + |coms|]
    ensures Weighted(coms, w1, from1) == Weighted(coms, w2, from2)
    ensures WeightSum(w1, from1, |coms|) == WeightSum(w2, from2, |coms|)
  {
    if coms != [] {
      var n := |coms| - 1;
      assert w1[from1..from1 + n] == w1[from1..from1 + |coms|][..n];
      assert w2[from2..from2 + n] == w2[from2..from2 + |coms|][..n];
      assert w1[from1 + n] == w1[from1..from1 + |coms|][n];
      assert w2[from2 + n] == w2[from2..from2 + |coms|][n];
      WeightedShift(coms[..n], w1, from1, w2, from2);
    }
  }

  class BaseQuadModel {
    const segments: nat
    const hips: nat
    /** Hips plus segments: the number of segments the structure must have. */
    const subStructures: nat
    var allMuscles: seq<Muscle>
    var allSegments: seq<Segment>
    var muscleMap: map<string, seq<Muscle>>
    /** Every segment mass ever computed, in the order computed. */
    var segmentMasses: seq<real>

    constructor (segments: int, hips: int)
      ensures this.segments == ToSize(segments) && this.hips == ToSize(hips)
      ensures subStructures == ToSize(this.hips + this.segments)
      ensures allMuscles == [] && allSegments == [] && muscleMap == map[] && segmentMasses == []
    {
      this.segments := ToSize(segments);
      this.hips := ToSize(hips);
      subStructures := ToSize(ToSize(hips) + ToSize(segments));
      allMuscles := [];
      allSegments := [];
      muscleMap := map[];
      segmentMasses := [];
    }

    /** What a concrete model's setup gathers from its descendants: the cables, the segments, the tagged cables. */
    method SetStructure(muscles: seq<Muscle>, segs: seq<Segment>, byTag: map<string, seq<Muscle>>)
      modifies this`allMuscles, this`allSegments, this`muscleMap
      ensures allMuscles == muscles && allSegments == segs && muscleMap == byTag
    {
      allMuscles := muscles;
      allSegments := segs;
      muscleMap := byTag;
    }

    /** teardown: the three containers are emptied; the logged masses are kept. */
    method Teardown()
      modifies this`allMuscles, this`allSegments, this`muscleMap
      ensures allMuscles == [] && allSegments == [] && muscleMap == map[]
    {
      allMuscles := [];
      allSegments := [];
      muscleMap := map[];
    }

    /** getMuscles: the cables under a tag; an unknown tag is an invalid argument. */
    function GetMuscles(key: string): (r: Result<seq<Muscle>>)
      reads this`muscleMap
      ensures r.Ok? <==> key in muscleMap
      ensures r.Ok? ==> r.value == muscleMap[key]
      ensures r.Err? ==> r.error == InvalidArgument("Key '" + key + "' not found in muscle map")
    {
      if key !in muscleMap then Err(InvalidArgument("Key '" + key + "' not found in muscle map"))
      else Ok(muscleMap[key])
    }

    /** The checks getCOM and getSegmentCOMVector make before touching segment n. */
    function CheckSegment(n: int): (r: Result<nat>)
      reads this`allSegments
      ensures r.Ok? <==> |allSegments| == subStructures && 0 <= n < subStructures
      ensures r.Ok? ==> r.value == n
      ensures |allSegments| != subStructures ==> r == Err(RuntimeError("Not initialized"))
      ensures |allSegments| == subStructures && n < 0 ==> r == Err(RangeError("Negative segment number"))
      ensures |allSegments| == subStructures && 0 <= subStructures <= n
              ==> r == Err(RangeError("Segment number > " + Decimal(segments)))
    {
      if |allSegments| != subStructures then Err(RuntimeError("Not initialized"))
      else if n < 0 then Err(RangeError("Negative segment number"))
      else if n >= subStructures then Err(RangeError("Segment number > " + Decimal(segments)))
      else Ok(n)
    }

    /**
     * getAllRigids: every rigid of every segment, segment by segment; the
     * structure must have all its segments.
     */
    method GetAllRigids() returns (r: Result<seq<Rigid>>)
      ensures r.Ok? <==> |allSegments| == subStructures
      ensures r.Err? ==> r.error == RuntimeError("Not initialized")
      ensures r.Ok? ==> r.value == AllRigids(allSegments)
    {
      if |allSegments| != subStructures {
        return Err(RuntimeError("Not initialized"));
      }
      var rods: seq<Rigid> := [];
      var i := 0;
      while i < |allSegments|
        invariant 0 <= i <= |allSegments|
        invariant rods == AllRigids(allSegments[..i])
      {
        assert allSegments[..i + 1][..i] == allSegments[..i];
        rods := rods + allSegments[i].rigids;
        i := i + 1;
      }
      assert allSegments[..i] == allSegments;
      return Ok(rods);
    }

    /**
     * getSegmentCOMVector: the mass-weighted average of segment n's rods.
     * A successful call logs the segment's mass; a failing one changes nothing.
     */
    method GetSegmentCOMVector(n: int) returns (r: Result<Vec3>)
      modifies this`segmentMasses
      ensures CheckSegment(n).Err? ==> r == Err(CheckSegment(n).error) && segmentMasses == old(segmentMasses)
      ensures CheckSegment(n).Ok? && SegmentCOM(allSegments[n]).Err? ==>
        r == Err(SegmentCOM(allSegments[n]).error) && segmentMasses == old(segmentMasses)
      ensures CheckSegment(n).Ok? && SegmentCOM(allSegments[n]).Ok? ==>
        r == Ok(SegmentCOM(allSegments[n]).value.0)
        && segmentMasses == old(segmentMasses) + [SegmentCOM(allSegments[n]).value.1]
    {
      var check := CheckSegment(n);
      if check.Err? {
        return Err(check.error);
      }
      var rods := Rods(allSegments[n].rigids);
      if rods == [] {
        return Err(AssertionFailure("!p_rods.empty()"));
      }
      var moment := Origin;
      var segmentMass := 0.0;
      var i := 0;
      while i < |rods|
        invariant 0 <= i <= |rods|
        invariant moment == RodsMoment(rods[..i]) && segmentMass == RodsMass(rods[..i])
      {
        assert rods[..i + 1][..i] == rods[..i];
        moment := moment.Plus(rods[i].com.Scale(rods[i].mass));
        segmentMass := segmentMass + rods[i].mass;
        i := i + 1;
      }
      assert rods[..i] == rods;
      if segmentMass <= 0.0 {
        return Err(AssertionFailure("segmentMass > 0.0"));
      }
      segmentMasses := segmentMasses + [segmentMass];
      return Ok(moment.Scale(1.0 / segmentMass));
    }

    /** getSegmentCOM: the same point as three numbers. */
    method GetSegmentCOM(n: int) returns (r: Result<seq<real>>)
      modifies this`segmentMasses
      ensures CheckSegment(n).Err? ==> r == Err(CheckSegment(n).error) && segmentMasses == old(segmentMasses)
      ensures CheckSegment(n).Ok? && SegmentCOM(allSegments[n]).Err? ==>
        r == Err(SegmentCOM(allSegments[n]).error) && segmentMasses == old(segmentMasses)
      ensures CheckSegment(n).Ok? && SegmentCOM(allSegments[n]).Ok? ==>
        r == Ok(SegmentCOM(allSegments[n]).value.0.Components())
        && segmentMasses == old(segmentMasses) + [SegmentCOM(allSegments[n]).value.1]
    {
      var v := GetSegmentCOMVector(n);
      if v.Err? {
        return Err(v.error);
      }
      return Ok(v.value.Components());
    }

    /** Every mass in the log is positive: each was checked before it was logged. */
    predicate LogPositive()
      reads this`segmentMasses
    {
      forall x | 0 <= x < |segmentMasses| :: segmentMasses[x] > 0.0
    }

    /**
     * getCOM, corrected: the centre of mass of segments n .. end, each
     * segment weighted by the mass computed with its own centre of mass.
     * Every segment visited logs its mass, also when a later one fails.
     */
    method GetCOM(n: int) returns (r: Result<Vec3>)
      modifies this`segmentMasses
      ensures CheckSegment(n).Err? ==> r == Err(CheckSegment(n).error) && segmentMasses == old(segmentMasses)
      ensures CheckSegment(n).Ok? ==>
        segmentMasses == old(segmentMasses) + SurveyOf(allSegments[n..]).masses && r == CenterOfMass(allSegments[n..])
    {
      var check := CheckSegment(n);
      if check.Err? {
        return Err(check.error);
      }
      ghost var segs := allSegments[n..];
      ghost var coms: seq<Vec3> := [];
      ghost var masses: seq<real> := [];
      var centerOfMass := Origin;
      var mass := 0.0;
      var i := n;
      while i < subStructures
        invariant n <= i <= subStructures && |masses| == i - n
        invariant SurveyOf(segs[..i - n]) == Survey(coms, masses, None)
        invariant segmentMasses == old(segmentMasses) + masses
        invariant centerOfMass == Weighted(coms, masses, 0) && mass == WeightSum(masses, 0, |masses|)
      {
        var v;
        v, centerOfMass, mass, coms, masses := Turn(i, n, segs, old(segmentMasses), coms, masses, centerOfMass, mass);
        if v.Err? {
          return Err(v.error);
        }
        i := i + 1;
      }
      assert segs[..i - n] == segs;
      CenterOfMassOfSums(segs, coms, masses, centerOfMass, mass);
      return Ok(centerOfMass.Scale(1.0 / mass));
    }

    /**
     * One turn of the corrected getCOM loop: the segment's centre of mass
     * joins the running sums weighted by its own mass, or the survey stops.
     */
    method Turn(i: nat, ghost n: nat, ghost segs: seq<Segment>, ghost log: seq<real>,
                ghost coms: seq<Vec3>, ghost masses: seq<real>, com: Vec3, mass: real)
      returns (v: Result<Vec3>, com': Vec3, mass': real, ghost coms': seq<Vec3>, ghost masses': seq<real>)
      requires |allSegments| == subStructures && n <= i < |allSegments| && segs == allSegments[n..]
      requires |masses| == i - n && SurveyOf(segs[..i - n]) == Survey(coms, masses, None)
      requires segmentMasses == log + masses
      requires com == Weighted(coms, masses, 0) && mass == WeightSum(masses, 0, |masses|)
      modifies this`segmentMasses
      ensures segmentMasses == log + masses'
      ensures v.Err? ==> masses' == SurveyOf(segs).masses && CenterOfMass(segs) == Err(v.error)
      ensures v.Ok? ==> |masses'| == i + 1 - n && SurveyOf(segs[..i + 1 - n]) == Survey(coms', masses', None)
      ensures v.Ok? ==> com' == Weighted(coms', masses', 0) && mass' == WeightSum(masses', 0, |masses'|)
    {
      var m;
      v, m := SurveyStep(i, n, segs, coms, masses);
      com', mass', coms', masses' := com, mass, coms, masses;
      if v.Err? {
        CenterOfMassFails(segs, coms, masses, v.error);
      } else {
        WeightedSnoc(coms, masses, v.value, m);
        com' := com.Plus(v.value.Scale(m));
        mass' := mass + m;
        coms', masses' := coms + [v.value], masses + [m];
      }
    }

    /** One segment of the getCOM loop: its centre of mass and mass, or the survey's failure. */
    method SurveyStep(i: nat, ghost n: nat, ghost segs: seq<Segment>, ghost coms: seq<Vec3>, ghost masses: seq<real>)
      returns (v: Result<Vec3>, m: real)
      requires |allSegments| == subStructures && n <= i < |allSegments| && segs == allSegments[n..]
      requires SurveyOf(segs[..i - n]) == Survey(coms, masses, None)
      modifies this`segmentMasses
      ensures v.Err? ==> segmentMasses == old(segmentMasses) && SurveyOf(segs) == Survey(coms, masses, Some(v.error))
      ensures v.Ok? ==> segmentMasses == old(segmentMasses) + [m] && m > 0.0
      ensures v.Ok? ==> SurveyOf(segs[..i + 1 - n]) == Survey(coms + [v.value], masses + [m], None)
    {
      assert allSegments[i] == segs[i - n];
      assert CheckSegment(i) == Ok(i);
      ghost var seg := SegmentCOM(segs[i - n]);
      v := GetSegmentCOMVector(i);
      m := 0.0;
      if v.Err? {
        assert seg.Err? && v.error == seg.error;
        SurveyStops(segs, i - n);
        return;
      }
      m := segmentMasses[|segmentMasses| - 1];
      assert seg.Ok? && v.value == seg.value.0 && m == seg.value.1;
      SurveyGrows(segs, i - n);
    }

    /**
     * getCOM as written: segment i is weighted by segmentMasses[i], the i-th
     * mass ever logged rather than the one just computed.  The log must
     * already hold n masses, or the first lookup reads past its end.
     */
    method GetCOMAsWritten(n: int) returns (r: Result<Vec3>)
      requires n <= |segmentMasses| && LogPositive()
      modifies this`segmentMasses
      ensures CheckSegment(n).Err? ==> r == Err(CheckSegment(n).error) && segmentMasses == old(segmentMasses)
      ensures CheckSegment(n).Ok? ==>
        segmentMasses == old(segmentMasses) + SurveyOf(allSegments[n..]).masses
        && r == CenterOfMassLogged(allSegments[n..], old(segmentMasses), n)
    {
      var check := CheckSegment(n);
      if check.Err? {
        return Err(check.error);
      }
      ghost var segs := allSegments[n..];
      ghost var coms: seq<Vec3> := [];
      ghost var masses: seq<real> := [];
      var centerOfMass := Origin;
      var mass := 0.0;
      var i := n;
      while i < subStructures
        invariant n <= i <= subStructures && |coms| == |masses| == i - n
        invariant SurveyOf(segs[..i - n]) == Survey(coms, masses, None)
        invariant segmentMasses == old(segmentMasses) + masses
        invariant centerOfMass == Weighted(coms, segmentMasses, n) && mass == WeightSum(segmentMasses, n, |coms|)
      {
        var v;
        v, centerOfMass, mass, coms, masses := LoggedTurn(i, n, segs, old(segmentMasses), coms, masses, centerOfMass, mass);
        if v.Err? {
          CenterOfMassLoggedFails(segs, coms, masses, old(segmentMasses), n, v.error);
          return Err(v.error);
        }
        i := i + 1;
      }
      assert segs[..i - n] == segs;
      CenterOfMassLoggedOfSums(segs, coms, masses, old(segmentMasses), n, centerOfMass, mass);
      return Ok(centerOfMass.Scale(1.0 / mass));
    }

    /** One turn of the getCOM loop as written: the weight is the log's entry at the segment's index. */
    method LoggedTurn(i: nat, ghost n: nat, ghost segs: seq<Segment>, ghost log: seq<real>,
                      ghost coms: seq<Vec3>, ghost masses: seq<real>, com: Vec3, mass: real)
      returns (v: Result<Vec3>, com': Vec3, mass': real, ghost coms': seq<Vec3>, ghost masses': seq<real>)
      requires |allSegments| == subStructures && n <= i < |allSegments| && segs == allSegments[n..]
      requires n <= |log| && |coms| == |masses| == i - n && SurveyOf(segs[..i - n]) == Survey(coms, masses, None)
      requires segmentMasses == log + masses
      requires com == Weighted(coms, segmentMasses, n) && mass == WeightSum(segmentMasses, n, |coms|)
      modifies this`segmentMasses
      ensures segmentMasses == log + masses'
      ensures v.Err? ==> SurveyOf(segs) == Survey(coms', masses', Some(v.error))
      ensures v.Ok? ==> |coms'| == |masses'| == i + 1 - n && SurveyOf(segs[..i + 1 - n]) == Survey(coms', masses', None)
      ensures v.Ok? ==> com' == Weighted(coms', segmentMasses, n) && mass' == WeightSum(segmentMasses, n, |coms'|)
    {
      var m;
      v, m := SurveyStep(i, n, segs, coms, masses);
      com', mass', coms', masses' := com, mass, coms, masses;
      if v.Ok? {
        LoggedWeightStep(coms, log + masses, m, segmentMasses, n, v.value, i);
        var w := segmentMasses[i];
        com' := com.Plus(v.value.Scale(w));
        mass' := mass + w;
        coms', masses' := coms + [v.value], masses + [m];
      }
    }
  }

  /** The corrected getCOM: the survey's failure, or the average weighted by each segment's own mass. */
  function CenterOfMass(segs: seq<Segment>): (r: Result<Vec3>)
    requires segs != []
    ensures r.Err? <==> SurveyOf(segs).failure.Some?
    ensures r.Err? ==> r.error == SurveyOf(segs).failure.value
  {
    var s := SurveyOf(segs);
    if s.failure.Some? then Err(s.failure.value)
    else
      WeightSumPositive(s.masses, 0, |s.masses|);
      Ok(Average(s.coms, s.masses, 0))
  }

  /**
   * getCOM as written: the survey's failure, or the average weighted by
   * the log, as it stands after the survey, from index n on.
   */
  function CenterOfMassLogged(segs: seq<Segment>, log: seq<real>, n: nat): (r: Result<Vec3>)
    requires segs != [] && n <= |log|
    requires forall x | 0 <= x < |log| :: log[x] > 0.0
    ensures r.Err? <==> SurveyOf(segs).failure.Some?
    ensures r.Err? ==> r.error == SurveyOf(segs).failure.value
  {
    var s := SurveyOf(segs);
    if s.failure.Some? then Err(s.failure.value)
    else
      LoggedPositive(log, s.masses, n, |s.coms|);
      WeightSumPositive(log + s.masses, n, |s.coms|);
      Ok(Average(s.coms, log + s.masses, n))
  }

  /** Positive logged masses followed by positive new ones. */
  lemma LoggedPositive(log: seq<real>, masses: seq<real>, n: nat, count: nat)
    requires n <= |log| && n + count <= |log| + |masses|
    requires forall x | 0 <= x < |log| :: log[x] > 0.0
    requires forall x | 0 <= x < |masses| :: masses[x] > 0.0
    ensures forall x | n <= x < n + count :: (log + masses)[x] > 0.0
  {
    forall x | n <= x < n + count
      ensures (log + masses)[x] > 0.0
    {
      if x >= |log| {
        assert (log + masses)[x] == masses[x - |log|];
      }
    }
  }

  /** All rigids of the segments, segment by segment. */
  function AllRigids(segs: seq<Segment>): (rs: seq<Rigid>)
  {
    if segs == [] then [] else AllRigids(segs[..|segs| - 1]) + segs[|segs| - 1].rigids
  }

  /** Every rigid of every segment is among all rigids, and nothing else is. */
  lemma {:induction false} AllRigidsMembers(segs: seq<Segment>, r: Rigid)
    ensures r in AllRigids(segs) <==> exists x | 0 <= x < |segs| :: r in segs[x].rigids
  {
    if segs != [] {
      var n := |segs| - 1;
      AllRigidsMembers(segs[..n], r);
      if r in segs[n].rigids {
        assert r in AllRigids(segs);
      }
      if exists x | 0 <= x < |segs| :: r in segs[x].rigids {
        var x :| 0 <= x < |segs| && r in segs[x].rigids;
        if x < n {
          assert segs[..n][x] == segs[x];
        }
      }
    }
  }

  /** The survey of one more segment, when the survey so far succeeded and the segment does too. */
  lemma SurveyGrows(segs: seq<Segment>, i: nat)
    requires i < |segs| && SurveyOf(segs[..i]).failure.None? && SegmentCOM(segs[i]).Ok?
    ensures SurveyOf(segs[..i + 1]) ==
      Survey(SurveyOf(segs[..i]).coms + [SegmentCOM(segs[i]).value.0],
             SurveyOf(segs[..i]).masses + [SegmentCOM(segs[i]).value.1], None)
  {
    assert segs[..i + 1][..i] == segs[..i];
  }

  /** A failing segment ends the survey with its failure. */
  lemma SurveyStops(segs: seq<Segment>, i: nat)
    requires i < |segs| && SurveyOf(segs[..i]).failure.None? && SegmentCOM(segs[i]).Err?
    ensures SurveyOf(segs) == Survey(SurveyOf(segs[..i]).coms, SurveyOf(segs[..i]).masses, Some(SegmentCOM(segs[i]).error))
  {
    var front := segs[..i + 1];
    assert front[..|front| - 1] == segs[..i] && front[|front| - 1] == segs[i];
    var prev := SurveyOf(segs[..i]);
    var r := SegmentCOM(segs[i]);
    assert SurveyOf(front) == Survey(prev.coms, prev.masses, Some(r.error));
    SurveyPrefix(segs, i + 1);
  }

  /** Once a survey has failed, further segments change nothing. */
  lemma {:induction false} SurveyPrefix(segs: seq<Segment>, k: nat)
    requires 0 < k <= |segs| && SurveyOf(segs[..k]).failure.Some?
    ensures SurveyOf(segs) == SurveyOf(segs[..k])
    decreases |segs| - k
  {
    if k < |segs| {
      var m := |segs| - 1;
      assert segs[..m][..k] == segs[..k];
      SurveyPrefix(segs[..m], k);
      assert segs[..m] == segs[..|segs| - 1];
    } else {
      assert segs[..k] == segs;
    }
  }

  lemma WeightedSnoc(coms: seq<Vec3>, weights: seq<real>, c: Vec3, w: real)
    requires |coms| == |weights|
    ensures Weighted(coms + [c], weights + [w], 0) == Weighted(coms, weights, 0).Plus(c.Scale(w))
    ensures WeightSum(weights + [w], 0, |weights| + 1) == WeightSum(weights, 0, |weights|) + w
  {
    assert (coms + [c])[..|coms|] == coms;
    WeightedShift(coms, weights + [w], 0, weights, 0);
  }

  /** One more segment weighted from the log, after one more mass was logged. */
  lemma LoggedWeightStep(coms: seq<Vec3>, log: seq<real>, m: real, newLog: seq<real>, from: nat, c: Vec3, at: nat)
    requires newLog == log + [m] && at == from + |coms| < |newLog|
    ensures Weighted(coms + [c], newLog, from) == Weighted(coms, log, from).Plus(c.Scale(newLog[at]))
    ensures WeightSum(newLog, from, |coms + [c]|) == WeightSum(log, from, |coms|) + newLog[at]
  {
    assert |coms + [c]| == |coms| + 1;
    WeightedExtend(coms, log, newLog, from);
    WeightedSnoc2(coms, newLog, from, c);
  }

  lemma WeightedSnoc2(coms: seq<Vec3>, weights: seq<real>, from: nat, c: Vec3)
    requires from + |coms| < |weights|
    ensures Weighted(coms + [c], weights, from) == Weighted(coms, weights, from).Plus(c.Scale(weights[from + |coms|]))
  {
    assert (coms + [c])[..|coms|] == coms;
  }

  lemma WeightedExtend(coms: seq<Vec3>, w1: seq<real>, w2: seq<real>, from: nat)
    requires from + |coms| <= |w1| <= |w2| && w2[..|w1|] == w1
    ensures Weighted(coms, w2, from) == Weighted(coms, w1, from)
    ensures WeightSum(w2, from, |coms|) == WeightSum(w1, from, |coms|)
  {
    forall x | from <= x < from + |coms|
      ensures w2[x] == w1[x]
    {
      assert w2[..|w1|][x] == w2[x];
    }
    assert w2[from..from + |coms|] == w1[from..from + |coms|];
    WeightedShift(coms, w2, from, w1, from);
  }

  /** When the log held exactly n masses, the as-written weights are the right ones. */
  lemma AsWrittenAgreesWhenFresh(segs: seq<Segment>, log: seq<real>)
    requires segs != []
    requires forall x | 0 <= x < |log| :: log[x] > 0.0
    ensures CenterOfMassLogged(segs, log, |log|) == CenterOfMass(segs)
  {
    var s := SurveyOf(segs);
    if s.failure.None? {
      assert (log + s.masses)[|log|..|log| + |s.coms|] == s.masses[0..|s.coms|];
      WeightedShift(s.coms, log + s.masses, |log|, s.masses, 0);
    }
  }

  lemma ScaleBack(v: Vec3, m: real)
    requires m != 0.0
    ensures v.Scale(m).Scale(1.0 / m) == v && v.Scale(1.0 / m).Scale(m) == v
  {
    var k := 1.0 / m;
    assert m * k == 1.0;
    assert v.x * m * k == v.x * (m * k);
    assert v.y * m * k == v.y * (m * k);
    assert v.z * m * k == v.z * (m * k);
    assert v.x * k * m == v.x * (m * k);
    assert v.y * k * m == v.y * (m * k);
    assert v.z * k * m == v.z * (m * k);
  }

  /** A segment made of one rod with mass has that rod's centre of mass and mass. */
  lemma OneRodSegment(r: Rigid)
    requires r.isRod && r.mass > 0.0
    ensures SegmentCOM(Segment([r])) == Ok((r.com, r.mass))
  {
    assert [r][..0] == [];
    assert Rods([r]) == [r];
    assert RodsMoment([r]) == Origin.Plus(r.com.Scale(r.mass));
    assert RodsMass([r]) == r.mass;
    ScaleBack(r.com, r.mass);
  }

  /**
   * After one earlier call logged the mass 1, getCOM(0) over two segments,
   * one of mass 1 at the origin and one of mass 3 at height 4 (a pair of
   * one-rod segments, by OneRodSegment and TwoSegmentSurvey): the centre of
   * mass is at height 3, but the loop as written weights the second segment
   * by the first one's mass and reports 2.
   */
  lemma AsWrittenStaleMass(segs: seq<Segment>)
    requires SurveyOf(segs) == Survey([Vec3(0.0, 0.0, 0.0), Vec3(0.0, 4.0, 0.0)], [1.0, 3.0], None)
    ensures CenterOfMass(segs) == Ok(Vec3(0.0, 3.0, 0.0))
    ensures CenterOfMassLogged(segs, [1.0], 0) == Ok(Vec3(0.0, 2.0, 0.0))
  {
    var coms := [Vec3(0.0, 0.0, 0.0), Vec3(0.0, 4.0, 0.0)];
    CenterOfMassIs(segs, coms, [1.0, 3.0]);
    CenterOfMassLoggedIs(segs, coms, [1.0, 3.0], [1.0], 0);
    assert [1.0] + [1.0, 3.0] == [1.0, 1.0, 3.0];
    TwoSegmentAverage();
    StaleTwoSegmentAverage();
  }

  /** The centre of mass of a survey that completed is the weighted average of its entries. */
  lemma CenterOfMassIs(segs: seq<Segment>, coms: seq<Vec3>, masses: seq<real>)
    requires segs != [] && SurveyOf(segs) == Survey(coms, masses, None)
    ensures WeightSum(masses, 0, |coms|) > 0.0
    ensures CenterOfMass(segs) == Ok(Average(coms, masses, 0))
  {
    WeightSumPositive(masses, 0, |masses|);
  }

  /** A survey that stops on a segment's error makes getCOM fail with that error. */
  lemma CenterOfMassFails(segs: seq<Segment>, coms: seq<Vec3>, masses: seq<real>, e: Error)
    requires segs != [] && SurveyOf(segs) == Survey(coms, masses, Some(e))
    ensures CenterOfMass(segs) == Err(e)
  {
  }

  /** The same for the loop as written. */
  lemma CenterOfMassLoggedFails(segs: seq<Segment>, coms: seq<Vec3>, masses: seq<real>, log: seq<real>, n: nat, e: Error)
    requires segs != [] && SurveyOf(segs) == Survey(coms, masses, Some(e))
    requires n <= |log| && forall x | 0 <= x < |log| :: log[x] > 0.0
    ensures CenterOfMassLogged(segs, log, n) == Err(e)
  {
  }

  /** The running sums of a completed survey give its centre of mass. */
  lemma CenterOfMassOfSums(segs: seq<Segment>, coms: seq<Vec3>, masses: seq<real>, com: Vec3, mass: real)
    requires segs != [] && SurveyOf(segs) == Survey(coms, masses, None)
    requires com == Weighted(coms, masses, 0) && mass == WeightSum(masses, 0, |masses|)
    ensures mass > 0.0 && CenterOfMass(segs) == Ok(com.Scale(1.0 / mass))
  {
    CenterOfMassIs(segs, coms, masses);
  }

  /** The running sums over the log of a completed survey give the as-written centre of mass. */
  lemma CenterOfMassLoggedOfSums(segs: seq<Segment>, coms: seq<Vec3>, masses: seq<real>, log: seq<real>, n: nat,
                                 com: Vec3, mass: real)
    requires segs != [] && SurveyOf(segs) == Survey(coms, masses, None)
    requires n <= |log| && forall x | 0 <= x < |log| :: log[x] > 0.0
    requires com == Weighted(coms, log + masses, n) && mass == WeightSum(log + masses, n, |coms|)
    ensures mass > 0.0 && CenterOfMassLogged(segs, log, n) == Ok(com.Scale(1.0 / mass))
  {
    CenterOfMassLoggedIs(segs, coms, masses, log, n);
  }

  /** The same for the loop as written, which weights by the log from entry `n` on. */
  lemma CenterOfMassLoggedIs(segs: seq<Segment>, coms: seq<Vec3>, masses: seq<real>, log: seq<real>, n: nat)
    requires segs != [] && SurveyOf(segs) == Survey(coms, masses, None)
    requires n <= |log| && forall x | 0 <= x < |log| :: log[x] > 0.0
    ensures WeightSum(log + masses, n, |coms|) > 0.0
    ensures CenterOfMassLogged(segs, log, n) == Ok(Average(coms, log + masses, n))
  {
    LoggedPositive(log, masses, n, |coms|);
    WeightSumPositive(log + masses, n, |coms|);
  }

  /** Masses 1 and 3 at heights 0 and 4 average to height 3. */
  lemma TwoSegmentAverage()
    ensures WeightSum([1.0, 3.0], 0, 2) == 4.0
    ensures Average([Vec3(0.0, 0.0, 0.0), Vec3(0.0, 4.0, 0.0)], [1.0, 3.0], 0) == Vec3(0.0, 3.0, 0.0)
  {
    var coms := [Vec3(0.0, 0.0, 0.0), Vec3(0.0, 4.0, 0.0)];
    assert coms[..1] == [Vec3(0.0, 0.0, 0.0)] && coms[..1][..0] == [];
    assert Weighted(coms, [1.0, 3.0], 0) == Vec3(0.0, 12.0, 0.0);
    AverageOf(coms, [1.0, 3.0], 0, Vec3(0.0, 12.0, 0.0), 4.0, 0.25);
  }

  /** Weighted instead by the stale log entries 1 and 1, the same two points average to height 2. */
  lemma StaleTwoSegmentAverage()
    ensures WeightSum([1.0, 1.0, 3.0], 0, 2) == 2.0
    ensures Average([Vec3(0.0, 0.0, 0.0), Vec3(0.0, 4.0, 0.0)], [1.0, 1.0, 3.0], 0) == Vec3(0.0, 2.0, 0.0)
  {
    var coms := [Vec3(0.0, 0.0, 0.0), Vec3(0.0, 4.0, 0.0)];
    assert coms[..1] == [Vec3(0.0, 0.0, 0.0)] && coms[..1][..0] == [];
    assert Weighted(coms, [1.0, 1.0, 3.0], 0) == Vec3(0.0, 4.0, 0.0);
    AverageOf(coms, [1.0, 1.0, 3.0], 0, Vec3(0.0, 4.0, 0.0), 2.0, 0.5);
  }

  /** An average whose moment and total weight are known, given the reciprocal of the total. */
  lemma AverageOf(coms: seq<Vec3>, weights: seq<real>, from: nat, moment: Vec3, total: real, inverse: real)
    requires from + |coms| <= |weights| && WeightSum(weights, from, |coms|) == total > 0.0
    requires Weighted(coms, weights, from) == moment && inverse * total == 1.0
    ensures Average(coms, weights, from) == moment.Scale(inverse)
  {
    assert 1.0 / total == inverse;
  }

  /** Two segments whose centres of mass exist survey to those centres and masses, in order. */
  lemma TwoSegmentSurvey(s0: Segment, c0: Vec3, m0: real, s1: Segment, c1: Vec3, m1: real)
    requires SegmentCOM(s0) == Ok((c0, m0)) && SegmentCOM(s1) == Ok((c1, m1))
    ensures SurveyOf([s0, s1]) == Survey([c0, c1], [m0, m1], None)
  {
    assert [s0, s1][..1][..0] == [];
    assert SurveyOf([s0, s1][..1]) == Survey([c0], [m0], None);
  }
}
