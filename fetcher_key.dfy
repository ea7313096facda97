/** The result keys of the published weather record. */
module FetcherKey {
  const STATUS := "status"

  const BATTERY := "battery"
  const BATTERY_INSIDE := "batteryInside"
  const BATTERY_OUTSIDE := "batteryOutside"

  const HUMI := "humidity"
  const HUMI_INSIDE := "humiInside"
  const HUMI_OUTSIDE := "humiOutside"

  const TEMP := "temperature"
  const TEMP_INSIDE := "tempInside"
  const TEMP_OUTSIDE := "tempOutside"

  const TIMESTAMP := "timestamp"
  const SENSOR := "sensor"

  const PRESSURE_ABS := "pressureAbs"
  const PRESSURE_REL := "pressureRel"

  const WIND_DIRECTION := "windDirection"
  const WIND_GUST := "windGust"
  const WIND_SPEED := "windSpeed"

  const SOLAR_RADIATION := "solarRadiation"
  const UVI := "uvi"

  const RAIN_HOURLY := "rainHourly"
  const RAIN_COUNTER := "rainCounter"
}
