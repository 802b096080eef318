/** Names shared by the validators, the schemas and the handlers: the four
    measurements of the time-series database, the size fields the
    particulate-matter sensor reports, and the tag every point carries. */
module Measurements {
  const TEMPERATURE := "temperature"
  const HUMIDITY := "humidity"
  const PM_UG_PER_M3 := "pm_ug_per_m3"
  const PM_PER_1L_AIR := "pm_per_1l_air"

  const PM_UG_PER_M3_FIELDS: seq<string> := ["1.0um", "2.5um", "10um"]
  const PM_PER_1L_AIR_FIELDS: seq<string> := ["0.3um", "0.5um", "1.0um", "2.5um", "5.0um", "10um"]

  const SENSOR_ID := "sensor_id"
}
