/** The Vehicle page's per-parameter health scores and their truncated mean. */
module Health {
  import opened Telemetry
  import opened FailureRule

  /** The score of a reading inside its bounds and of one outside them. */
  const InRangeScore: int := 90
  const OutOfRangeScore: int := 50

  /** Two-tier score of value `v` against the inclusive bounds `lo`..`hi`. */
  function Score(v: real, lo: real, hi: real): (s: int)
    ensures s == InRangeScore || s == OutOfRangeScore
  {
    if lo <= v <= hi then InRangeScore else OutOfRangeScore
  }

  /** The score is 90 exactly inside the closed interval, both endpoints included, and 50 outside. */
  lemma ScoreInclusive(v: real, lo: real, hi: real)
    ensures Score(v, lo, hi) == 90 <==> lo <= v && v <= hi
    ensures Score(v, lo, hi) == 50 <==> v < lo || hi < v
    ensures lo <= hi ==> Score(lo, lo, hi) == 90 && Score(hi, lo, hi) == 90
  {
  }

  /** The six scored parameters, in the order of the page's score table. */
  datatype Parameter = EngineTemp | BatteryVoltage | BrakeWear | OilPressure | CoolantLevel | Rpm

  const ScoredParameters: seq<Parameter> :=
    [EngineTemp, BatteryVoltage, BrakeWear, OilPressure, CoolantLevel, Rpm]

  /** Row label of each parameter in the score table. */
  function DisplayName(p: Parameter): string {
    match p
    case EngineTemp => "Engine Temp"
    case BatteryVoltage => "Battery Voltage"
    case BrakeWear => "Brake Wear"
    case OilPressure => "Oil Pressure"
    case CoolantLevel => "Coolant Level"
    case Rpm => "RPM"
  }

  /** Lower healthy bound of each parameter. */
  function Low(p: Parameter): real {
    match p
    case EngineTemp => 70.0
    case BatteryVoltage => 11.8
    case BrakeWear => 0.0
    case OilPressure => 30.0
    case CoolantLevel => 65.0
    case Rpm => 700.0
  }

  /** Upper healthy bound of each parameter. */
  function High(p: Parameter): real {
    match p
    case EngineTemp => 95.0
    case BatteryVoltage => 13.2
    case BrakeWear => 70.0
    case OilPressure => 55.0
    case CoolantLevel => 100.0
    case Rpm => 4000.0
  }

  /** The reading of parameter `p` in `r`. */
  function Value(r: Reading, p: Parameter): real {
    match p
    case EngineTemp => r.engineTemp
    case BatteryVoltage => r.batteryVoltage
    case BrakeWear => r.brakeWear as real
    case OilPressure => r.oilPressure
    case CoolantLevel => r.coolantLevel
    case Rpm => r.rpm as real
  }

  predicate InRange(r: Reading, p: Parameter) {
    Low(p) <= Value(r, p) <= High(p)
  }

  function ParameterScore(r: Reading, p: Parameter): (s: int)
    ensures s == 90 <==> InRange(r, p)
    ensures s == 50 <==> !InRange(r, p)
  {
    Score(Value(r, p), Low(p), High(p))
  }

  /** The score table's column of values, one per scored parameter, in table order. */
  function Scores(r: Reading): (s: seq<int>)
    ensures |s| == |ScoredParameters| == 6
    ensures forall i :: 0 <= i < 6 ==> (s[i] == 90 <==> InRange(r, ScoredParameters[i]))
    ensures forall i :: 0 <= i < 6 ==> (s[i] == 50 <==> !InRange(r, ScoredParameters[i]))
  {
    [ ParameterScore(r, EngineTemp), ParameterScore(r, BatteryVoltage),
      ParameterScore(r, BrakeWear), ParameterScore(r, OilPressure),
      ParameterScore(r, CoolantLevel), ParameterScore(r, Rpm) ]
  }

  /** Sum of a sequence of scores, taken left to right. */
  function Sum(s: seq<int>): int
    decreases |s|
  {
    if s == [] then 0 else s[0] + Sum(s[1..])
  }

  /** How many entries of `s` are the in-range score. */
  function CountInRange(s: seq<int>): (n: nat)
    ensures n <= |s|
    decreases |s|
  {
    if s == [] then 0 else (if s[0] == InRangeScore then 1 else 0) + CountInRange(s[1..])
  }

  /** Overall health: the mean of the six scores, truncated to an integer. The sum is between
      300 and 540 and a multiple of 10, so the floating-point quotient is exact enough that
      truncating it equals integer division, and the sum is non-negative, so truncation toward
      zero and Dafny's division agree. */
  function OverallHealth(r: Reading): int {
    Sum(Scores(r)) / |Scores(r)|
  }

  /** A sum of two-tier scores is fixed by how many of them are 90. */
  lemma {:induction false} SumOfTwoTierScores(s: seq<int>)
    requires forall i :: 0 <= i < |s| ==> s[i] == InRangeScore || s[i] == OutOfRangeScore
    ensures Sum(s) == OutOfRangeScore * |s| + (InRangeScore - OutOfRangeScore) * CountInRange(s)
    decreases |s|
  {
    if s != [] {
      SumOfTwoTierScores(s[1..]);
    }
  }

  /** All entries are 90 exactly when the count of 90s is the length. */
  lemma {:induction false} CountInRangeFull(s: seq<int>)
    ensures CountInRange(s) == |s| <==> forall i :: 0 <= i < |s| ==> s[i] == InRangeScore
    decreases |s|
  {
    if s != [] {
      CountInRangeFull(s[1..]);
      if CountInRange(s) == |s| {
        forall i | 0 <= i < |s| ensures s[i] == InRangeScore {
          if i > 0 { assert s[i] == s[1..][i - 1]; }
        }
      }
      if forall i :: 0 <= i < |s| ==> s[i] == InRangeScore {
        assert forall i :: 0 <= i < |s[1..]| ==> s[1..][i] == InRangeScore by {
          forall i | 0 <= i < |s[1..]| ensures s[1..][i] == InRangeScore {
            assert s[1..][i] == s[i + 1];
          }
        }
      }
    }
  }

  /** No entry is 90 exactly when the count of 90s is zero. */
  lemma {:induction false} CountInRangeEmpty(s: seq<int>)
    ensures CountInRange(s) == 0 <==> forall i :: 0 <= i < |s| ==> s[i] != InRangeScore
    decreases |s|
  {
    if s != [] {
      CountInRangeEmpty(s[1..]);
      if CountInRange(s) == 0 {
        forall i | 0 <= i < |s| ensures s[i] != InRangeScore {
          if i > 0 { assert s[i] == s[1..][i - 1]; }
        }
      }
      if forall i :: 0 <= i < |s| ==> s[i] != InRangeScore {
        assert forall i :: 0 <= i < |s[1..]| ==> s[1..][i] != InRangeScore by {
          forall i | 0 <= i < |s[1..]| ensures s[1..][i] != InRangeScore {
            assert s[1..][i] == s[i + 1];
          }
        }
      }
    }
  }

  /** Number of the six parameters that are in range. */
  function InRangeCount(r: Reading): (k: nat)
    ensures k <= 6
  {
    CountInRange(Scores(r))
  }

  /** Overall health depends only on how many parameters are in range: 50, 56, 63, 70, 76, 83
      or 90 for 0 to 6 of them. */
  lemma HealthByInRangeCount(r: Reading)
    ensures OverallHealth(r) == (300 + 40 * InRangeCount(r)) / 6
    ensures InRangeCount(r) == 0 ==> OverallHealth(r) == 50
    ensures InRangeCount(r) == 1 ==> OverallHealth(r) == 56
    ensures InRangeCount(r) == 2 ==> OverallHealth(r) == 63
    ensures InRangeCount(r) == 3 ==> OverallHealth(r) == 70
    ensures InRangeCount(r) == 4 ==> OverallHealth(r) == 76
    ensures InRangeCount(r) == 5 ==> OverallHealth(r) == 83
    ensures InRangeCount(r) == 6 ==> OverallHealth(r) == 90
  {
    SumOfTwoTierScores(Scores(r));
  }

  /** Overall health always lies between the two tiers. */
  lemma HealthBounds(r: Reading)
    ensures 50 <= OverallHealth(r) <= 90
  {
    HealthByInRangeCount(r);
  }

  /** Health is 90 exactly when all six parameters are in range. */
  lemma HealthFullIffAllInRange(r: Reading)
    ensures OverallHealth(r) == 90 <==> forall p :: InRange(r, p)
  {
    HealthByInRangeCount(r);
    var s := Scores(r);
    CountInRangeFull(s);
    if forall p :: InRange(r, p) {
      assert forall i :: 0 <= i < 6 ==> InRange(r, ScoredParameters[i]);
    }
    if OverallHealth(r) == 90 {
      forall p ensures InRange(r, p) {
        match p
        case EngineTemp => assert s[0] == 90;
        case BatteryVoltage => assert s[1] == 90;
        case BrakeWear => assert s[2] == 90;
        case OilPressure => assert s[3] == 90;
        case CoolantLevel => assert s[4] == 90;
        case Rpm => assert s[5] == 90;
      }
    }
  }

  /** Health is 50 exactly when no parameter is in range. */
  lemma HealthLowestIffNoneInRange(r: Reading)
    ensures OverallHealth(r) == 50 <==> forall p :: !InRange(r, p)
  {
    HealthByInRangeCount(r);
    var s := Scores(r);
    CountInRangeEmpty(s);
    if forall p :: !InRange(r, p) {
      assert forall i :: 0 <= i < 6 ==> !InRange(r, ScoredParameters[i]);
    }
    if OverallHealth(r) == 50 {
      forall p ensures !InRange(r, p) {
        match p
        case EngineTemp => assert s[0] != 90;
        case BatteryVoltage => assert s[1] != 90;
        case BrakeWear => assert s[2] != 90;
        case OilPressure => assert s[3] != 90;
        case CoolantLevel => assert s[4] != 90;
        case Rpm => assert s[5] != 90;
      }
    }
  }

  /** One parameter out of range and five in gives 500 / 6, truncated to 83. */
  lemma OneOutOfRangeGives83(r: Reading, p: Parameter)
    requires !InRange(r, p)
    requires forall q :: q != p ==> InRange(r, q)
    ensures OverallHealth(r) == 83
  {
    var s := Scores(r);
    assert Sum(s) == 500 by {
      assert Sum(s[5..]) == s[5];
      assert Sum(s[4..]) == s[4] + s[5] by { assert s[4..][1..] == s[5..]; }
      assert Sum(s[3..]) == s[3] + s[4] + s[5] by { assert s[3..][1..] == s[4..]; }
      assert Sum(s[2..]) == s[2] + s[3] + s[4] + s[5] by { assert s[2..][1..] == s[3..]; }
      assert Sum(s[1..]) == s[1] + s[2] + s[3] + s[4] + s[5] by { assert s[1..][1..] == s[2..]; }
    }
  }

  /** Every failing test lies outside the matching health range, so a reading labelled as a
      failure has at least one score of 50 and overall health at most 83. */
  lemma FailureImpliesDegradedHealth(r: Reading)
    requires FailureLabel(r) == 1
    ensures exists p :: ParameterScore(r, p) == OutOfRangeScore
    ensures OverallHealth(r) <= 83
  {
    var p :=
      if r.engineTemp > 95.0 then EngineTemp
      else if r.batteryVoltage < 11.8 then BatteryVoltage
      else if r.brakeWear > 70 then BrakeWear
      else if r.oilPressure < 30.0 then OilPressure
      else CoolantLevel;
    assert !InRange(r, p);
    assert ParameterScore(r, p) == OutOfRangeScore;
    HealthFullIffAllInRange(r);
    HealthByInRangeCount(r);
  }

  /** The converse fails: a cold engine, or an RPM above 4000, scores 50 without any failure. */
  lemma DegradedHealthWithoutFailure()
    ensures var cold := Reading(65.0, 12.2, 55, 40.0, 75.0, 2500);
            FailureLabel(cold) == 0 && ParameterScore(cold, EngineTemp) == 50 && OverallHealth(cold) == 83
    ensures var revving := Reading(85.0, 12.2, 55, 40.0, 75.0, 4500);
            FailureLabel(revving) == 0 && ParameterScore(revving, Rpm) == 50 && OverallHealth(revving) == 83
  {
    var cold := Reading(65.0, 12.2, 55, 40.0, 75.0, 2500);
    OneOutOfRangeGives83(cold, EngineTemp);
    var revving := Reading(85.0, 12.2, 55, 40.0, 75.0, 4500);
    OneOutOfRangeGives83(revving, Rpm);
  }

  /** The sliders' starting reading is healthy on every parameter and not a failure. */
  lemma DefaultReadingIsHealthy()
    ensures forall p :: InRange(DefaultReading, p)
    ensures OverallHealth(DefaultReading) == 90
    ensures FailureLabel(DefaultReading) == 0
  {
    HealthFullIffAllInRange(DefaultReading);
  }
}
