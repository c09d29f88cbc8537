/**
 * The WMO weather-code groups that both card classifiers test for, one list of codes per group
 * (src/components/WeatherCard.tsx:11-16 and src/components/ForecastCard.tsx:12-17).
 * This is the reference the two classifiers are proved against; each classifier keeps its own
 * chain of tests, as the components do.
 */
module WeatherGroups {

  datatype Group = Clear | Cloudy | Fog | Precipitation | Snow | Thunderstorm | Other

  const ClearCodes: set<int> := {0, 1}
  const CloudyCodes: set<int> := {2, 3}
  const FogCodes: set<int> := {45, 48}
  const PrecipitationCodes: set<int> := {51, 53, 55, 61, 63, 65}
  const SnowCodes: set<int> := {71, 73, 75}
  const ThunderstormCodes: set<int> := {95, 96, 99}

  /** Every code that some group lists. */
  const GroupedCodes: set<int> :=
    ClearCodes + CloudyCodes + FogCodes + PrecipitationCodes + SnowCodes + ThunderstormCodes

  /** The group whose list holds the code; `Other` when none does. */
  function GroupOf(code: int): (g: Group)
    ensures g == Other <==> code !in GroupedCodes
    ensures g == Clear <==> code in ClearCodes
    ensures g == Cloudy <==> code in CloudyCodes
    ensures g == Fog <==> code in FogCodes
    ensures g == Precipitation <==> code in PrecipitationCodes
    ensures g == Snow <==> code in SnowCodes
    ensures g == Thunderstorm <==> code in ThunderstormCodes
  {
    if code in ClearCodes then Clear
    else if code in CloudyCodes then Cloudy
    else if code in FogCodes then Fog
    else if code in PrecipitationCodes then Precipitation
    else if code in SnowCodes then Snow
    else if code in ThunderstormCodes then Thunderstorm
    else Other
  }
}
