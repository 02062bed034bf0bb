/** The air-quality status of a reading (backend/utils.js, `classifyAQI`):
    four bands cut at 50, 100 and 150. The sensor the reading came from is
    accepted and ignored. */
module AirQuality {

  /** `classifyAQI(sensor, value)`, each band closed below and open above. */
  function ClassifyAQI(sensor: string, value: real): (status: string)
    ensures status == "good" <==> value < 50.0
    ensures status == "moderate" <==> 50.0 <= value < 100.0
    ensures status == "unhealthy" <==> 100.0 <= value < 150.0
    ensures status == "hazardous" <==> 150.0 <= value
  {
    if value < 50.0 then "good"
    else if value < 100.0 then "moderate"
    else if value < 150.0 then "unhealthy"
    else "hazardous"
  }

  /** The position of a status in the order good, moderate, unhealthy,
      hazardous. */
  function Severity(status: string): nat {
    if status == "good" then 0
    else if status == "moderate" then 1
    else if status == "unhealthy" then 2
    else 3
  }

  /** A higher reading never gets a milder status, whatever the sensors. */
  lemma ClassifyMonotone(s1: string, v1: real, s2: string, v2: real)
    requires v1 <= v2
    ensures Severity(ClassifyAQI(s1, v1)) <= Severity(ClassifyAQI(s2, v2))
  {
  }

  /** The status depends on the value alone. */
  lemma ClassifyIgnoresSensor(s1: string, s2: string, v: real)
    ensures ClassifyAQI(s1, v) == ClassifyAQI(s2, v)
  {
  }

  /** Each threshold belongs to the band above it. */
  lemma ClassifyBoundaries(sensor: string)
    ensures ClassifyAQI(sensor, 49.0) == "good" && ClassifyAQI(sensor, 50.0) == "moderate"
    ensures ClassifyAQI(sensor, 100.0) == "unhealthy" && ClassifyAQI(sensor, 150.0) == "hazardous"
  {
  }
}
