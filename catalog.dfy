/** The sensor catalogue: which sensor ids each monitoring domain supports,
    with the unit each one reports in, and the membership test every request
    goes through (backend/utils.js, `SUPPORTED_AIR_SENSORS`,
    `SUPPORTED_WATER_SENSORS`, `validateSensor`). */
module Catalog {

  /** Supported air sensors and their units. Ozone ("o3") is not among
      them: its entry is commented out in the source. */
  const AirSensors: map<string, string> := map[
    "pm10" := "µg/m³",
    "pm2.5" := "µg/m³",
    "co" := "ppm",
    "co2" := "ppm",
    "temperature" := "°C",
    "humidity" := "%",
    "no2" := "ppb",
    "so2" := "ppb"
  ]

  /** Supported water sensors and their units ("" for unitless ones). */
  const WaterSensors: map<string, string> := map[
    "total_dissolved_solids" := "mg/L",
    "odor" := "",
    "turbidity" := "NTU",
    "chloride" := "mg/L",
    "time_of_day" := "",
    "color" := ""
  ]

  /** `validateSensor(sensor, monitoringType)`: an exact, case-sensitive key
      lookup. The air catalogue is consulted only when the type is exactly
      "air"; every other type string, "water" or not, means water. */
  function ValidateSensor(sensor: string, monitoringType: string): (ok: bool)
    ensures monitoringType == "air" ==> (ok <==> sensor in AirSensors)
    ensures monitoringType != "air" ==> (ok <==> sensor in WaterSensors)
  {
    if monitoringType == "air" then sensor in AirSensors else sensor in WaterSensors
  }

  /** The ids each catalogue accepts, listed out. */
  lemma AirSensorIds(sensor: string)
    ensures ValidateSensor(sensor, "air") <==>
      sensor in ["pm10", "pm2.5", "co", "co2", "temperature", "humidity", "no2", "so2"]
  {
  }

  lemma WaterSensorIds(sensor: string)
    ensures ValidateSensor(sensor, "water") <==>
      sensor in ["total_dissolved_solids", "odor", "turbidity", "chloride", "time_of_day", "color"]
  {
  }

  /** Any type string other than "air", including "Air" or "", selects the
      water catalogue. */
  lemma NonAirMeansWater(sensor: string, monitoringType: string)
    requires monitoringType != "air"
    ensures ValidateSensor(sensor, monitoringType) == ValidateSensor(sensor, "water")
  {
  }

  /** No normalisation: ozone is rejected, and an id in another case or with
      surrounding space is not the id. */
  lemma ExactMatchOnly()
    ensures !ValidateSensor("o3", "air")
    ensures !ValidateSensor("PM10", "air") && !ValidateSensor(" pm10", "air")
    ensures !ValidateSensor("Color", "water")
    ensures !ValidateSensor("pm10", "Air") && ValidateSensor("color", "AIR")
  {
  }

  /** The two catalogues share no id. */
  lemma CataloguesDisjoint(sensor: string)
    ensures !(sensor in AirSensors && sensor in WaterSensors)
  {
  }
}
