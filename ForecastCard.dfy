/** The style classifier of a forecast card (src/components/ForecastCard.tsx). */
module ForecastCard {
  import opened WeatherGroups
  import WeatherCard

  /** Text colour class and icon of the card. */
  datatype ForecastStyle = ForecastStyle(color: string, icon: string)

  /** Used both for the cloudy group and for the default. */
  const GrayText: string := "text-gray-600"
  const DefaultIcon: string := "\U{1F325}\U{FE0F}"

  /** `getWeatherStyles`: the first group list that holds the code decides; otherwise the default. */
  function Styles(code: int): (r: ForecastStyle)
    ensures r.icon == DefaultIcon <==> GroupOf(code) == Other
    ensures r.color == GrayText <==> GroupOf(code) in {Cloudy, Other}
    ensures GroupOf(code) == Other ==> r == ForecastStyle(GrayText, DefaultIcon)
  {
    if code in [0, 1] then ForecastStyle("text-yellow-600", "\U{2600}\U{FE0F}")
    else if code in [2, 3] then ForecastStyle(GrayText, "\U{2601}\U{FE0F}")
    else if code in [45, 48] then ForecastStyle("text-gray-500", "\U{1F32B}\U{FE0F}")
    else if code in [51, 53, 55, 61, 63, 65] then ForecastStyle("text-blue-600", "\U{1F327}\U{FE0F}")
    else if code in [71, 73, 75] then ForecastStyle("text-blue-700", "\U{2744}\U{FE0F}")
    else if code in [95, 96, 99] then ForecastStyle("text-purple-600", "\U{26C8}\U{FE0F}")
    else ForecastStyle(GrayText, DefaultIcon)
  }

  /** The style of each group, as the component lists them. */
  lemma GroupStyles(code: int)
    ensures GroupOf(code) == Clear ==> Styles(code) == ForecastStyle("text-yellow-600", "\U{2600}\U{FE0F}")
    ensures GroupOf(code) == Cloudy ==> Styles(code) == ForecastStyle(GrayText, "\U{2601}\U{FE0F}")
    ensures GroupOf(code) == Fog ==> Styles(code) == ForecastStyle("text-gray-500", "\U{1F32B}\U{FE0F}")
    ensures GroupOf(code) == Precipitation ==> Styles(code) == ForecastStyle("text-blue-600", "\U{1F327}\U{FE0F}")
    ensures GroupOf(code) == Snow ==> Styles(code) == ForecastStyle("text-blue-700", "\U{2744}\U{FE0F}")
    ensures GroupOf(code) == Thunderstorm ==> Styles(code) == ForecastStyle("text-purple-600", "\U{26C8}\U{FE0F}")
  {
  }

  /** The icons distinguish exactly the groups; the colour only merges the cloudy group with the default. */
  lemma StyleDeterminesGroup(a: int, b: int)
    ensures Styles(a).icon == Styles(b).icon <==> GroupOf(a) == GroupOf(b)
    ensures Styles(a).color == Styles(b).color <==>
      (GroupOf(a) == GroupOf(b) || (GroupOf(a) in {Cloudy, Other} && GroupOf(b) in {Cloudy, Other}))
  {
    GroupStyles(a);
    GroupStyles(b);
  }

  /** The forecast card and the current-weather card show the same icon for every code. */
  lemma IconsAgree(code: int)
    ensures Styles(code).icon == WeatherCard.Styles(code).icon
  {
  }
}
