/** The six sensor columns shared by the synthetic fleet table and the Vehicle page's input row. */
module Telemetry {

  /** One vehicle's instantaneous sensor snapshot. Brake wear and RPM are integer columns;
      the other readings are modelled as reals, which is exact here because every rule only
      compares them against literal constants. */
  datatype Reading = Reading(
    engineTemp: real,      // degrees Celsius
    batteryVoltage: real,  // volts
    brakeWear: int,        // percent
    oilPressure: real,     // psi
    coolantLevel: real,    // percent
    rpm: int)

  /** The ranges the Vehicle page's six sliders allow, so every reading that page scores lies in them. */
  predicate InSliderRange(r: Reading) {
    && 60.0 <= r.engineTemp <= 120.0
    && 10.0 <= r.batteryVoltage <= 13.5
    && 0 <= r.brakeWear <= 100
    && 20.0 <= r.oilPressure <= 60.0
    && 40.0 <= r.coolantLevel <= 100.0
    && 600 <= r.rpm <= 5000
  }

  /** The sliders' starting positions: the reading the Vehicle page scores before anything is moved. */
  const DefaultReading: Reading := Reading(92.0, 12.0, 55, 38.0, 75.0, 2500)
}
