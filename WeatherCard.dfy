/** The style classifier of the current-weather card (src/components/WeatherCard.tsx). */
module WeatherCard {
  import opened WeatherGroups
  import Api

  /** Background class and icon of the card. */
  datatype CardStyle = CardStyle(bg: string, icon: string)

  const DefaultBg: string := "bg-gray-100"
  const DefaultIcon: string := "\U{1F325}\U{FE0F}"

  /** `getWeatherStyles`: the first group list that holds the code decides; otherwise the default. */
  function Styles(code: int): (r: CardStyle)
    ensures r.bg == DefaultBg <==> GroupOf(code) == Other
    ensures r.icon == DefaultIcon <==> GroupOf(code) == Other
    ensures GroupOf(code) == Other ==> r == CardStyle(DefaultBg, DefaultIcon)
  {
    if code in [0, 1] then CardStyle("bg-yellow-100", "\U{2600}\U{FE0F}")
    else if code in [2, 3] then CardStyle("bg-gray-200", "\U{2601}\U{FE0F}")
    else if code in [45, 48] then CardStyle("bg-gray-300", "\U{1F32B}\U{FE0F}")
    else if code in [51, 53, 55, 61, 63, 65] then CardStyle("bg-blue-200", "\U{1F327}\U{FE0F}")
    else if code in [71, 73, 75] then CardStyle("bg-blue-300", "\U{2744}\U{FE0F}")
    else if code in [95, 96, 99] then CardStyle("bg-purple-200", "\U{26C8}\U{FE0F}")
    else CardStyle(DefaultBg, DefaultIcon)
  }

  /** The style of each group, as the component lists them. */
  lemma GroupStyles(code: int)
    ensures GroupOf(code) == Clear ==> Styles(code) == CardStyle("bg-yellow-100", "\U{2600}\U{FE0F}")
    ensures GroupOf(code) == Cloudy ==> Styles(code) == CardStyle("bg-gray-200", "\U{2601}\U{FE0F}")
    ensures GroupOf(code) == Fog ==> Styles(code) == CardStyle("bg-gray-300", "\U{1F32B}\U{FE0F}")
    ensures GroupOf(code) == Precipitation ==> Styles(code) == CardStyle("bg-blue-200", "\U{1F327}\U{FE0F}")
    ensures GroupOf(code) == Snow ==> Styles(code) == CardStyle("bg-blue-300", "\U{2744}\U{FE0F}")
    ensures GroupOf(code) == Thunderstorm ==> Styles(code) == CardStyle("bg-purple-200", "\U{26C8}\U{FE0F}")
  {
  }

  /** Two codes get the same style exactly when they are in the same group. */
  lemma StyleDeterminesGroup(a: int, b: int)
    ensures Styles(a).bg == Styles(b).bg <==> GroupOf(a) == GroupOf(b)
    ensures Styles(a).icon == Styles(b).icon <==> GroupOf(a) == GroupOf(b)
  {
    GroupStyles(a);
    GroupStyles(b);
  }

  /** Every code with a description of its own is drawn with a non-default style. */
  lemma DescribedCodesAreStyled(code: int)
    requires Api.Description(code) != Api.UnknownDescription
    ensures Styles(code).bg != DefaultBg && Styles(code).icon != DefaultIcon
  {
  }
}
