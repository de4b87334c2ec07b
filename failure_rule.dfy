/** The hand-written rule that labels each synthetic fleet record as failing or not. */
module FailureRule {
  import opened Telemetry

  /** The five threshold tests; RPM has none. */
  datatype Condition = EngineOverheat | LowBattery | WornBrakes | LowOilPressure | LowCoolant

  /** Whether reading `r` fails test `c`. Every test is strict. */
  predicate Violates(r: Reading, c: Condition) {
    match c
    case EngineOverheat => r.engineTemp > 95.0
    case LowBattery => r.batteryVoltage < 11.8
    case WornBrakes => r.brakeWear > 70
    case LowOilPressure => r.oilPressure < 30.0
    case LowCoolant => r.coolantLevel < 65.0
  }

  /** The `failure` column: the OR of the five tests, cast to 0 or 1. */
  function FailureLabel(r: Reading): (failure: int)
    ensures failure == 0 || failure == 1
  {
    if r.engineTemp > 95.0 || r.batteryVoltage < 11.8 || r.brakeWear > 70
       || r.oilPressure < 30.0 || r.coolantLevel < 65.0
    then 1 else 0
  }

  /** The label is 1 exactly when at least one of the five tests fails. */
  lemma LabelIffSomeCondition(r: Reading)
    ensures FailureLabel(r) == 1 <==> exists c :: Violates(r, c)
  {
    if FailureLabel(r) == 1 {
      if r.engineTemp > 95.0 { assert Violates(r, EngineOverheat); }
      else if r.batteryVoltage < 11.8 { assert Violates(r, LowBattery); }
      else if r.brakeWear > 70 { assert Violates(r, WornBrakes); }
      else if r.oilPressure < 30.0 { assert Violates(r, LowOilPressure); }
      else { assert Violates(r, LowCoolant); }
    } else {
      forall c ensures !Violates(r, c) {
        match c
        case EngineOverheat =>
        case LowBattery =>
        case WornBrakes =>
        case LowOilPressure =>
        case LowCoolant =>
      }
    }
  }

  /** Any single failing test is enough, whatever the other fields hold. */
  lemma AnyConditionAloneTriggers(r: Reading, c: Condition)
    requires Violates(r, c)
    ensures FailureLabel(r) == 1
  {
    LabelIffSomeCondition(r);
  }

  /** Readings exactly on a threshold do not fail: every test is strict. */
  lemma ThresholdsAreStrict(rpm: int)
    ensures FailureLabel(Reading(95.0, 11.8, 70, 30.0, 65.0, rpm)) == 0
  {
  }

  /** Changing only the RPM never changes the label. */
  lemma RpmNeverAffectsLabel(r: Reading, rpm: int)
    ensures FailureLabel(r.(rpm := rpm)) == FailureLabel(r)
  {
  }

  /** The whole fleet table's `failure` column: the rule applied row by row. */
  function LabelFleet(fleet: seq<Reading>): (labels: seq<int>)
    ensures |labels| == |fleet|
    ensures forall i :: 0 <= i < |fleet| ==> (labels[i] == 1 <==> exists c :: Violates(fleet[i], c))
    ensures forall i :: 0 <= i < |fleet| ==> labels[i] == 0 || labels[i] == 1
    decreases |fleet|
  {
    if fleet == [] then []
    else
      LabelIffSomeCondition(fleet[0]);
      [FailureLabel(fleet[0])] + LabelFleet(fleet[1..])
  }
}
