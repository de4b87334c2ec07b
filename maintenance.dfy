/** The fixed risk threshold applied to the classifier's failure probability. */
module Maintenance {

  /** Probabilities strictly above this call for maintenance. */
  const RiskThreshold: real := 0.7

  /** What the Vehicle page reports for the probability it has just computed. */
  datatype VehicleAdvice = MaintenanceRequired | OperatingNormally

  /** What the Scheduling page reports for the stored probability. */
  datatype ScheduleAdvice = ServiceScheduled(hub: string, inDays: nat) | NoServiceRequired

  predicate AboveThreshold(prob: real) {
    prob > RiskThreshold
  }

  function Advice(prob: real): (a: VehicleAdvice)
    ensures a == MaintenanceRequired <==> prob > 0.7
    ensures a == OperatingNormally <==> prob <= 0.7
  {
    if AboveThreshold(prob) then MaintenanceRequired else OperatingNormally
  }

  function Schedule(storedProb: real): (s: ScheduleAdvice)
    ensures s.ServiceScheduled? <==> storedProb > 0.7
    ensures s.ServiceScheduled? ==> s == ServiceScheduled("Hyderabad Service Hub", 3)
  {
    if AboveThreshold(storedProb) then ServiceScheduled("Hyderabad Service Hub", 3) else NoServiceRequired
  }

  /** A probability of exactly 0.7 is normal on both pages. */
  lemma ThresholdIsStrict()
    ensures Advice(0.7) == OperatingNormally
    ensures Schedule(0.7) == NoServiceRequired
  {
  }

  /** For the same probability, the two pages take the same decision. */
  lemma PagesAgree(prob: real)
    ensures Advice(prob) == MaintenanceRequired <==> Schedule(prob).ServiceScheduled?
  {
  }

  /** A higher probability never turns a maintenance warning back into a normal report. */
  lemma AdviceMonotone(p: real, q: real)
    requires p <= q
    ensures Advice(p) == MaintenanceRequired ==> Advice(q) == MaintenanceRequired
  {
  }
}
