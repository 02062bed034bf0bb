/** The per-sensor reading simulators (backend/utils.js,
    `simulateSensorAirData`, `simulateSensorWaterData`). Each call takes one
    uniform draw in [0, 1), which the source obtains from `Math.random()`
    and the model receives as the parameter `r`; it scales the draw into a
    sensor-specific range and rounds it with `toFixed`, or returns null for
    an id it does not know. */
module Simulator {
  import opened Wrappers
  import opened Numbers
  import opened Catalog
  import opened Random

  /** `+(r * width + offset).toFixed(digits)`. */
  function Uniform(r: Draw, width: real, offset: real, digits: nat): Decimal {
    ToFixed(r * width + offset, digits)
  }

  /** The air simulator's `switch`: the same ids as the air catalogue get a
      reading, every other id gets null. */
  function SimulateSensorAirData(sensor: string, r: Draw): (v: Option<Decimal>)
    ensures v.Some? ==> v.value.scale <= 2
  {
    if sensor == "pm10" || sensor == "pm2.5" then Some(Uniform(r, 150.0, 10.0, 1))
    else if sensor == "co" then Some(Uniform(r, 9.0, 0.5, 2))
    else if sensor == "co2" then Some(Uniform(r, 1600.0, 400.0, 0))
    else if sensor == "temperature" then Some(Uniform(r, 10.0, 25.0, 1))
    else if sensor == "humidity" then Some(Uniform(r, 60.0, 30.0, 0))
    else if sensor == "no2" || sensor == "so2" then Some(Uniform(r, 100.0, 5.0, 1))
    else None
  }

  /** The water simulator's `switch`: the same ids as the water catalogue
      get a reading, every other id gets null. Colour is a category index,
      `Math.floor(r * 5)`, not a rounded measurement. */
  function SimulateSensorWaterData(sensor: string, r: Draw): (v: Option<Decimal>)
    ensures v.Some? ==> v.value.scale <= 2
  {
    if sensor == "total_dissolved_solids" then Some(Uniform(r, 150.0, 10.0, 1))
    else if sensor == "odor" then Some(Uniform(r, 9.0, 0.5, 2))
    else if sensor == "turbidity" then Some(Uniform(r, 1600.0, 400.0, 0))
    else if sensor == "chloride" then Some(Uniform(r, 10.0, 25.0, 1))
    else if sensor == "time_of_day" then Some(Uniform(r, 60.0, 30.0, 0))
    else if sensor == "color" then Some(Decimal((r * 5.0).Floor, 0))
    else None
  }

  /** The simulators recognise exactly the catalogue's ids: a supported
      sensor always gets a reading and any other id gets null. */
  lemma SimulatorsMatchCatalogue(sensor: string, r: Draw)
    ensures SimulateSensorAirData(sensor, r).Some? <==> sensor in AirSensors
    ensures SimulateSensorWaterData(sensor, r).Some? <==> sensor in WaterSensors
  {
  }

  /** A reading between `lo` and `hi` inclusive that is a multiple of
      10^-digits, that is, has at most `digits` decimal places. */
  predicate ReadingIn(v: Option<Decimal>, lo: real, hi: real, digits: nat) {
    v.Some? && v.value.scale == digits && lo <= Value(v.value) <= hi
  }

  /** The range and precision of every air reading: the draw's range
      `[offset, offset + width)` widened to `[offset, offset + width]` by the
      rounding. */
  lemma AirReadingRanges(r: Draw)
    ensures ReadingIn(SimulateSensorAirData("pm10", r), 10.0, 160.0, 1)
    ensures ReadingIn(SimulateSensorAirData("pm2.5", r), 10.0, 160.0, 1)
    ensures ReadingIn(SimulateSensorAirData("co", r), 0.5, 9.5, 2)
    ensures ReadingIn(SimulateSensorAirData("co2", r), 400.0, 2000.0, 0)
    ensures ReadingIn(SimulateSensorAirData("temperature", r), 25.0, 35.0, 1)
    ensures ReadingIn(SimulateSensorAirData("humidity", r), 30.0, 90.0, 0)
    ensures ReadingIn(SimulateSensorAirData("no2", r), 5.0, 105.0, 1)
    ensures ReadingIn(SimulateSensorAirData("so2", r), 5.0, 105.0, 1)
  {
    RoundingTenths150(r);
    RoundingHundredths9(r);
    RoundingUnits1600(r);
    RoundingTenths10(r);
    RoundingUnits60(r);
    RoundingTenths100(r);
  }

  /** The range and precision of every water reading; colour is an integer
      category in 0..4. */
  lemma WaterReadingRanges(r: Draw)
    ensures ReadingIn(SimulateSensorWaterData("total_dissolved_solids", r), 10.0, 160.0, 1)
    ensures ReadingIn(SimulateSensorWaterData("odor", r), 0.5, 9.5, 2)
    ensures ReadingIn(SimulateSensorWaterData("turbidity", r), 400.0, 2000.0, 0)
    ensures ReadingIn(SimulateSensorWaterData("chloride", r), 25.0, 35.0, 1)
    ensures ReadingIn(SimulateSensorWaterData("time_of_day", r), 30.0, 90.0, 0)
    ensures ReadingIn(SimulateSensorWaterData("color", r), 0.0, 4.0, 0)
    ensures 0 <= SimulateSensorWaterData("color", r).value.units <= 4
  {
    assert SimulateSensorWaterData("total_dissolved_solids", r) == Some(Uniform(r, 150.0, 10.0, 1));
    assert SimulateSensorWaterData("odor", r) == Some(Uniform(r, 9.0, 0.5, 2));
    assert SimulateSensorWaterData("turbidity", r) == Some(Uniform(r, 1600.0, 400.0, 0));
    assert SimulateSensorWaterData("chloride", r) == Some(Uniform(r, 10.0, 25.0, 1));
    assert SimulateSensorWaterData("time_of_day", r) == Some(Uniform(r, 60.0, 30.0, 0));
    assert SimulateSensorWaterData("color", r) == Some(Decimal((r * 5.0).Floor, 0));
    RoundingTenths150(r);
    RoundingHundredths9(r);
    RoundingUnits1600(r);
    RoundingTenths10(r);
    RoundingUnits60(r);
  }

  // The five scalings both simulators use, and the sixth of the air
  // simulator, each rounded.

  lemma RoundingTenths150(r: Draw)
    ensures 10.0 <= Value(Uniform(r, 150.0, 10.0, 1)) <= 160.0
  {
    ToFixedWithin(r * 150.0 + 10.0, 1, 100, 1600);
  }

  lemma RoundingHundredths9(r: Draw)
    ensures 0.5 <= Value(Uniform(r, 9.0, 0.5, 2)) <= 9.5
  {
    ToFixedWithin(r * 9.0 + 0.5, 2, 50, 950);
  }

  lemma RoundingUnits1600(r: Draw)
    ensures 400.0 <= Value(Uniform(r, 1600.0, 400.0, 0)) <= 2000.0
  {
    ToFixedWithin(r * 1600.0 + 400.0, 0, 400, 2000);
  }

  lemma RoundingTenths10(r: Draw)
    ensures 25.0 <= Value(Uniform(r, 10.0, 25.0, 1)) <= 35.0
  {
    ToFixedWithin(r * 10.0 + 25.0, 1, 250, 350);
  }

  lemma RoundingUnits60(r: Draw)
    ensures 30.0 <= Value(Uniform(r, 60.0, 30.0, 0)) <= 90.0
  {
    ToFixedWithin(r * 60.0 + 30.0, 0, 30, 90);
  }

  lemma RoundingTenths100(r: Draw)
    ensures 5.0 <= Value(Uniform(r, 100.0, 5.0, 1)) <= 105.0
  {
    ToFixedWithin(r * 100.0 + 5.0, 1, 50, 1050);
  }
}
