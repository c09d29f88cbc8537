/**
 * The forecast client (src/utils/api.tsx): turning the decoded forecast response into the
 * page's records, the error raised for a non-ok response, and the weather-code descriptions.
 * The HTTP request and JSON decoding are outside the model: a response is given as its `ok`
 * flag together with its already decoded body.
 */
module Api {
  import opened Wrappers
  import opened WeatherTypes

  /** The `current` object of the response. */
  datatype RawCurrent = RawCurrent(temperature2m: real, weatherCode: int, time: string)

  /** The `daily` object of the response: four arrays indexed by day. */
  datatype RawDaily = RawDaily(
    time: seq<string>,
    temperature2mMax: seq<real>,
    temperature2mMin: seq<real>,
    weatherCode: seq<int>)

  datatype RawForecast = RawForecast(current: RawCurrent, daily: RawDaily)

  /** What the HTTP layer hands back: whether the status was a success, and the decoded body. */
  datatype Response = Response(ok: bool, body: RawForecast)

  /** The value `fetchWeatherData` resolves to. */
  datatype Payload = Payload(current: WeatherData, daily: seq<DailyForecast>)

  /** Message of the error thrown for a non-ok response. */
  const FetchErrorMessage: string := "Не удалось получить данные о погоде"

  /** Every day listed in `time` has an entry in each of the other three arrays. */
  predicate Covers(d: RawDaily)
  {
    |d.time| <= |d.temperature2mMax| && |d.time| <= |d.temperature2mMin| && |d.time| <= |d.weatherCode|
  }

  /** The four daily arrays have the same length, as the forecast service sends them. */
  predicate Aligned(d: RawDaily)
  {
    |d.temperature2mMax| == |d.time| && |d.temperature2mMin| == |d.time| && |d.weatherCode| == |d.time|
  }

  /** The `current` record: each field copied as sent. */
  function NormaliseCurrent(c: RawCurrent): (w: WeatherData)
    ensures w.temperature == c.temperature2m && w.weatherCode == c.weatherCode && w.time == c.time
  {
    WeatherData(c.temperature2m, c.weatherCode, c.time)
  }

  /** The first `n` entries of the `daily.time.map(...)` result. */
  function DailyPrefix(d: RawDaily, n: nat): (r: seq<DailyForecast>)
    requires Covers(d) && n <= |d.time|
    ensures |r| == n
    ensures forall i :: 0 <= i < n ==>
      && r[i].date == d.time[i]
      && r[i].maxTemp == d.temperature2mMax[i]
      && r[i].minTemp == d.temperature2mMin[i]
      && r[i].weatherCode == d.weatherCode[i]
  {
    if n == 0 then []
    else
      var k := n - 1;
      DailyPrefix(d, k) + [DailyForecast(d.time[k], d.temperature2mMax[k], d.temperature2mMin[k], d.weatherCode[k])]
  }

  /** One forecast record per entry of `daily.time`, in the same order. */
  function NormaliseDaily(d: RawDaily): (r: seq<DailyForecast>)
    requires Covers(d)
    ensures |r| == |d.time|
    ensures forall i :: 0 <= i < |r| ==>
      r[i] == DailyForecast(d.time[i], d.temperature2mMax[i], d.temperature2mMin[i], d.weatherCode[i])
  {
    DailyPrefix(d, |d.time|)
  }

  /** `fetchWeatherData` once the response has arrived. */
  function FetchWeatherData(response: Response): (r: Result<Payload, string>)
    requires response.ok ==> Covers(response.body.daily)
    ensures r.Failure? <==> !response.ok
    ensures r.Failure? ==> r.error == FetchErrorMessage
    ensures r.Success? ==>
      var c, d := response.body.current, response.body.daily;
      && r.value.current.temperature == c.temperature2m
      && r.value.current.weatherCode == c.weatherCode
      && r.value.current.time == c.time
      && |r.value.daily| == |d.time|
      && forall i :: 0 <= i < |d.time| ==>
           r.value.daily[i] == DailyForecast(d.time[i], d.temperature2mMax[i], d.temperature2mMin[i], d.weatherCode[i])
  {
    if !response.ok then Failure(FetchErrorMessage)
    else Success(Payload(NormaliseCurrent(response.body.current), NormaliseDaily(response.body.daily)))
  }

  /** The response body that carries exactly the given payload: the inverse of the normalisation. */
  function Encode(p: Payload): Response
  {
    var n := |p.daily|;
    Response(true, RawForecast(
      RawCurrent(p.current.temperature, p.current.weatherCode, p.current.time),
      RawDaily(
        seq(n, i requires 0 <= i < n => p.daily[i].date),
        seq(n, i requires 0 <= i < n => p.daily[i].maxTemp),
        seq(n, i requires 0 <= i < n => p.daily[i].minTemp),
        seq(n, i requires 0 <= i < n => p.daily[i].weatherCode))))
  }

  /** Normalisation loses nothing: every payload comes back from the response that encodes it. */
  lemma {:induction false} FetchEncoded(p: Payload)
    ensures Aligned(Encode(p).body.daily)
    ensures FetchWeatherData(Encode(p)) == Success(p)
  {
    var d := Encode(p).body.daily;
    var r := FetchWeatherData(Encode(p));
    assert r.value.daily == p.daily by {
      forall i | 0 <= i < |p.daily|
        ensures r.value.daily[i] == p.daily[i]
      {
        assert d.time[i] == p.daily[i].date;
      }
    }
  }

  /** An aligned ok response is recovered from what it normalises to. */
  lemma EncodeFetched(response: Response)
    requires response.ok && Aligned(response.body.daily)
    ensures Encode(FetchWeatherData(response).value) == response
  {
  }

  /** The description table of `getWeatherDescription`. */
  const Descriptions: map<int, string> := map[
    0 := "Ясное небо",
    1 := "В основном ясно",
    2 := "Частичная облачность",
    3 := "Пасмурно",
    45 := "Туман",
    51 := "Легкая морось",
    61 := "Легкий дождь",
    63 := "Умеренный дождь",
    65 := "Сильный дождь",
    71 := "Легкий снег",
    73 := "Умеренный снег",
    75 := "Сильный снег",
    95 := "Гроза"
  ]

  const UnknownDescription: string := "Неизвестно"

  /** The codes that have their own description. */
  const DescribedCodes: set<int> := {0, 1, 2, 3, 45, 51, 61, 63, 65, 71, 73, 75, 95}

  /** `getWeatherDescription`: the table entry, or the fallback when the lookup gives nothing truthy. */
  function Description(code: int): (r: string)
    ensures r != ""
    ensures code in Descriptions ==> r == Descriptions[code]
    ensures code !in Descriptions ==> r == UnknownDescription
  {
    if code in Descriptions && Descriptions[code] != "" then Descriptions[code] else UnknownDescription
  }

  /** A code gets a description of its own exactly when it is one of the thirteen listed codes. */
  lemma DescribedExactly(code: int)
    ensures Description(code) != UnknownDescription <==> code in DescribedCodes
  {
  }

  /** Entries of the table, and codes of the classifier groups that the table leaves out. */
  lemma DescriptionExamples()
    ensures Description(0) == "Ясное небо" && Description(95) == "Гроза"
    ensures Description(48) == UnknownDescription && Description(53) == UnknownDescription
    ensures Description(55) == UnknownDescription && Description(96) == UnknownDescription
    ensures Description(99) == UnknownDescription
  {
  }
}
