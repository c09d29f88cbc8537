/**
 * The two records the page works with (src/types/Weather.tsx).
 * Temperatures are only ever copied, never computed on, so they are kept as opaque reals.
 */
module WeatherTypes {

  /** The current conditions shown on the large card. */
  datatype WeatherData = WeatherData(temperature: real, weatherCode: int, time: string)

  /** One day of the forecast strip. */
  datatype DailyForecast = DailyForecast(date: string, maxTemp: real, minTemp: real, weatherCode: int)
}
