/** The six AQI bands and the threshold rule that all three classifiers of the application follow. */
module Bands {
  import opened Wire

  datatype Band = Good | Satisfactory | Moderate | Poor | VeryPoor | Severe

  /** Position of a band in the order of increasing pollution. */
  function Index(b: Band): (n: nat)
    ensures n < 6
  {
    match b
    case Good => 0
    case Satisfactory => 1
    case Moderate => 2
    case Poor => 3
    case VeryPoor => 4
    case Severe => 5
  }

  /** Distinct bands have distinct positions. */
  lemma BandIndexInjective(b1: Band, b2: Band)
    ensures Index(b1) == Index(b2) ==> b1 == b2
  {
  }

  function BandAt(i: nat): (b: Band)
    requires i < 6
    ensures Index(b) == i
  {
    if i == 0 then Good
    else if i == 1 then Satisfactory
    else if i == 2 then Moderate
    else if i == 3 then Poor
    else if i == 4 then VeryPoor
    else Severe
  }

  /** The inclusive upper bounds of the first five bands. */
  const Thresholds: seq<real> := [50.0, 100.0, 200.0, 300.0, 400.0]

  /** How many of the thresholds `aqi` lies strictly above. */
  function Exceeded(ts: seq<real>, aqi: real): (n: nat)
    ensures n <= |ts|
  {
    if ts == [] then 0 else (if aqi > ts[0] then 1 else 0) + Exceeded(ts[1..], aqi)
  }

  /** Reference classification: the band of `aqi` is the number of thresholds it exceeds. */
  function Classify(aqi: real): Band {
    BandAt(Exceeded(Thresholds, aqi))
  }

  /** The band of a number JavaScript may read as `undefined`: `undefined <= c` is false for every c,
      so an undefined reading exceeds every threshold. */
  function ClassifyField(aqi: Field<real>): Band {
    match aqi
    case Defined(v) => Classify(v)
    case Undefined => BandAt(|Thresholds|)
  }

  /** JavaScript's `x <= c` where x may be `undefined`. */
  predicate AtMost(x: Field<real>, c: real) {
    x.Defined? && x.value <= c
  }

  /** The status label the API sends and the result card shows for a band. */
  function Label(b: Band): string {
    match b
    case Good => "Good"
    case Satisfactory => "Satisfactory"
    case Moderate => "Moderate"
    case Poor => "Poor"
    case VeryPoor => "Very Poor"
    case Severe => "Severe"
  }

  /** Each band covers a right-closed interval: (-inf, 50], (50, 100], (100, 200], (200, 300], (300, 400], (400, +inf). */
  lemma ClassifyRanges(aqi: real)
    ensures Classify(aqi) == Good <==> aqi <= 50.0
    ensures Classify(aqi) == Satisfactory <==> 50.0 < aqi <= 100.0
    ensures Classify(aqi) == Moderate <==> 100.0 < aqi <= 200.0
    ensures Classify(aqi) == Poor <==> 200.0 < aqi <= 300.0
    ensures Classify(aqi) == VeryPoor <==> 300.0 < aqi <= 400.0
    ensures Classify(aqi) == Severe <==> 400.0 < aqi
  {
    var e4 := if aqi > 400.0 then 1 else 0;
    var e3 := (if aqi > 300.0 then 1 else 0) + e4;
    var e2 := (if aqi > 200.0 then 1 else 0) + e3;
    var e1 := (if aqi > 100.0 then 1 else 0) + e2;
    var t4: seq<real> := [400.0];
    var t3: seq<real> := [300.0] + t4;
    var t2: seq<real> := [200.0] + t3;
    var t1: seq<real> := [100.0] + t2;
    assert t4[1..] == [] && Exceeded(t4, aqi) == e4;
    assert t3[1..] == t4 && Exceeded(t3, aqi) == e3;
    assert t2[1..] == t3 && Exceeded(t2, aqi) == e2;
    assert t1[1..] == t2 && Exceeded(t1, aqi) == e1;
    assert Thresholds[1..] == t1;
    assert Exceeded(Thresholds, aqi) == (if aqi > 50.0 then 1 else 0) + e1;
  }

  /** The band of a possibly undefined reading, in terms of the `aqi <= c` tests a `<=` chain makes: the
      first test that passes names the band, and a reading that passes none (an undefined one included)
      is Severe. */
  lemma ClassifyFieldRanges(aqi: Field<real>)
    ensures ClassifyField(aqi) == Good <==> AtMost(aqi, 50.0)
    ensures ClassifyField(aqi) == Satisfactory <==> !AtMost(aqi, 50.0) && AtMost(aqi, 100.0)
    ensures ClassifyField(aqi) == Moderate <==> !AtMost(aqi, 100.0) && AtMost(aqi, 200.0)
    ensures ClassifyField(aqi) == Poor <==> !AtMost(aqi, 200.0) && AtMost(aqi, 300.0)
    ensures ClassifyField(aqi) == VeryPoor <==> !AtMost(aqi, 300.0) && AtMost(aqi, 400.0)
    ensures ClassifyField(aqi) == Severe <==> !AtMost(aqi, 400.0)
  {
    if aqi.Defined? {
      ClassifyRanges(aqi.value);
    }
  }

  /** The boundary values themselves belong to the lower band. */
  lemma BoundariesBelongBelow()
    ensures Classify(50.0) == Good && Classify(51.0) == Satisfactory
    ensures Classify(100.0) == Satisfactory && Classify(101.0) == Moderate
    ensures Classify(200.0) == Moderate && Classify(201.0) == Poor
    ensures Classify(300.0) == Poor && Classify(301.0) == VeryPoor
    ensures Classify(400.0) == VeryPoor && Classify(401.0) == Severe
  {
    ClassifyRanges(50.0); ClassifyRanges(51.0);
    ClassifyRanges(100.0); ClassifyRanges(101.0);
    ClassifyRanges(200.0); ClassifyRanges(201.0);
    ClassifyRanges(300.0); ClassifyRanges(301.0);
    ClassifyRanges(400.0); ClassifyRanges(401.0);
  }

  lemma {:induction false} ExceededMonotone(ts: seq<real>, a: real, b: real)
    requires a <= b
    ensures Exceeded(ts, a) <= Exceeded(ts, b)
  {
    if ts != [] {
      ExceededMonotone(ts[1..], a, b);
    }
  }

  /** A higher AQI never gets a cleaner band. */
  lemma ClassifyMonotone(a: real, b: real)
    requires a <= b
    ensures Index(Classify(a)) <= Index(Classify(b))
  {
    ExceededMonotone(Thresholds, a, b);
  }

  /** The six labels are pairwise distinct, so a label names exactly one band. */
  lemma LabelsDistinct(b1: Band, b2: Band)
    ensures Label(b1) == Label(b2) <==> b1 == b2
  {
  }
}
