/**
 * The weather slice of the store (src/store/WeatherSlice.tsx): the request state and the three
 * cases that the request's pending, fulfilled and rejected actions run on it.
 *
 * `Reduce` is the value-level specification of one case; `WeatherStore` is the in-place form the
 * slice uses, each method of which is tied to `Reduce`. `Run` replays a whole history of actions,
 * and the lemmas below say what any history leaves in the state.
 */
module WeatherSlice {
  import opened Wrappers
  import opened WeatherTypes
  import Api

  datatype Status = Idle | Loading | Succeeded | Failed

  datatype State = State(
    currentWeather: Option<WeatherData>,
    forecast: seq<DailyForecast>,
    status: Status,
    error: Option<string>)

  /** No current weather, no forecast days, idle, no error. */
  const InitialState: State := State(None, [], Idle, None)

  /** The three actions of the `fetchWeather` request; `Rejected` carries the error's message, if any. */
  datatype Action = Pending | Fulfilled(payload: Api.Payload) | Rejected(message: Option<string>)

  /** Shown when the rejection carries no usable message. */
  const DefaultError: string := "Не удалось получить данные о погоде"

  /** `action.error.message || DefaultError`: a missing or empty message falls back to the default. */
  function ErrorText(message: Option<string>): (e: string)
    ensures e != ""
    ensures message.Some? && message.value != "" ==> e == message.value
    ensures message.None? || message.value == "" ==> e == DefaultError
  {
    match message
    case Some(m) => if m != "" then m else DefaultError
    case None => DefaultError
  }

  /** One case reducer applied to a state value. */
  function Reduce(s: State, a: Action): (r: State)
    ensures a.Pending? ==>
      r.status == Loading && r.currentWeather == s.currentWeather && r.forecast == s.forecast && r.error == s.error
    ensures a.Fulfilled? ==>
      && r.status == Succeeded
      && r.currentWeather == Some(a.payload.current) && r.forecast == a.payload.daily
      && r.error == s.error
    ensures a.Rejected? ==>
      && r.status == Failed
      && r.currentWeather == s.currentWeather && r.forecast == s.forecast
      && r.error.Some? && r.error.value != "" && r.error.value == ErrorText(a.message)
  {
    match a
    case Pending => s.(status := Loading)
    case Fulfilled(p) => s.(status := Succeeded, currentWeather := Some(p.current), forecast := p.daily)
    case Rejected(m) => s.(status := Failed, error := Some(ErrorText(m)))
  }

  /** The state after the actions of `t`, in order, starting from `s`. */
  function Run(s: State, t: seq<Action>): State
  {
    if t == [] then s else Reduce(Run(s, t[..|t| - 1]), t[|t| - 1])
  }

  /** Replaying a history in two parts is replaying it whole. */
  lemma {:induction false} RunConcat(s: State, t: seq<Action>, u: seq<Action>)
    ensures Run(s, t + u) == Run(Run(s, t), u)
  {
    if u == [] {
      assert t + u == t;
    } else {
      var n := |u| - 1;
      assert (t + u)[..|t + u| - 1] == t + u[..n];
      assert (t + u)[|t + u| - 1] == u[n];
      RunConcat(s, t, u[..n]);
    }
  }

  /** A history of two actions applies them in order. */
  lemma RunPair(s: State, a: Action, b: Action)
    ensures Run(s, [a, b]) == Reduce(Reduce(s, a), b)
  {
    assert [a, b][..1] == [a];
    assert [a][..0] == [];
    assert Run(s, [a]) == Reduce(s, a);
  }

  /** The payload of the last `Fulfilled` action of `t`, if there is one. */
  function LastPayload(t: seq<Action>): Option<Api.Payload>
  {
    if t == [] then None
    else if t[|t| - 1].Fulfilled? then Some(t[|t| - 1].payload)
    else LastPayload(t[..|t| - 1])
  }

  /** The message of the last `Rejected` action of `t`, if there is one. */
  function LastRejection(t: seq<Action>): Option<Option<string>>
  {
    if t == [] then None
    else if t[|t| - 1].Rejected? then Some(t[|t| - 1].message)
    else LastRejection(t[..|t| - 1])
  }

  /** The status each action leaves behind. */
  function StatusAfter(a: Action): Status
  {
    match a
    case Pending => Loading
    case Fulfilled(_) => Succeeded
    case Rejected(_) => Failed
  }

  /**
   * The current weather and the forecast always come together from one payload: the last one
   * fulfilled. A history without a fulfilment leaves both as they were.
   */
  lemma {:induction false} DataFromLastPayload(s: State, t: seq<Action>)
    ensures LastPayload(t).None? ==>
      Run(s, t).currentWeather == s.currentWeather && Run(s, t).forecast == s.forecast
    ensures LastPayload(t).Some? ==>
      && Run(s, t).currentWeather == Some(LastPayload(t).value.current)
      && Run(s, t).forecast == LastPayload(t).value.daily
  {
    if t != [] {
      DataFromLastPayload(s, t[..|t| - 1]);
    }
  }

  /** The error is set only by a rejection and is never cleared: it is the last rejection's text. */
  lemma {:induction false} ErrorFromLastRejection(s: State, t: seq<Action>)
    ensures LastRejection(t).None? ==> Run(s, t).error == s.error
    ensures LastRejection(t).Some? ==> Run(s, t).error == Some(ErrorText(LastRejection(t).value))
  {
    if t != [] {
      ErrorFromLastRejection(s, t[..|t| - 1]);
    }
  }

  /** The status is decided by the last action alone. */
  lemma StatusFromLastAction(s: State, t: seq<Action>)
    ensures t == [] ==> Run(s, t).status == s.status
    ensures t != [] ==> Run(s, t).status == StatusAfter(t[|t| - 1])
  {
  }

  /** Facts that hold of every state the page can observe. */
  ghost predicate Consistent(s: State)
  {
    && (s.currentWeather.None? ==> s.forecast == [])
    && (s.status == Succeeded ==> s.currentWeather.Some?)
    && (s.status == Failed ==> s.error.Some? && s.error.value != "")
  }

  /**
   * From the initial state, any history keeps the state consistent, and the status is idle
   * exactly when nothing has happened yet.
   */
  lemma {:induction false} ReachableStatesConsistent(t: seq<Action>)
    ensures Consistent(Run(InitialState, t))
    ensures Run(InitialState, t).status == Idle <==> t == []
  {
    if t != [] {
      ReachableStatesConsistent(t[..|t| - 1]);
    }
  }

  /** Fetching the same payload twice in a row ends where fetching it once does. */
  lemma FulfilTwice(s: State, p: Api.Payload)
    ensures Run(s, [Pending, Fulfilled(p), Pending, Fulfilled(p)]) == Run(s, [Pending, Fulfilled(p)])
  {
    var once := [Pending, Fulfilled(p)];
    assert once + once == [Pending, Fulfilled(p), Pending, Fulfilled(p)];
    RunConcat(s, once, once);
    RunPair(s, Pending, Fulfilled(p));
    RunPair(Run(s, once), Pending, Fulfilled(p));
  }

  /** `fetchWeather`: the pending action, then the outcome of `fetchWeatherData` as an action. */
  function FetchWeather(response: Api.Response): (t: seq<Action>)
    requires response.ok ==> Api.Covers(response.body.daily)
    ensures |t| == 2 && t[0] == Pending
    ensures t[1].Fulfilled? <==> response.ok
    ensures t[1].Rejected? <==> !response.ok
    ensures response.ok ==> t[1] == Fulfilled(Api.FetchWeatherData(response).value)
    ensures !response.ok ==> t[1] == Rejected(Some(Api.FetchErrorMessage))
  {
    var outcome := match Api.FetchWeatherData(response)
      case Success(p) => Fulfilled(p)
      case Failure(m) => Rejected(Some(m));
    [Pending, outcome]
  }

  /** A non-ok response leaves the previous data in place and surfaces the fixed message. */
  lemma FetchFailureKeepsData(s: State, response: Api.Response)
    requires !response.ok
    ensures Run(s, FetchWeather(response)).status == Failed
    ensures Run(s, FetchWeather(response)).currentWeather == s.currentWeather
    ensures Run(s, FetchWeather(response)).forecast == s.forecast
    ensures Run(s, FetchWeather(response)).error == Some(Api.FetchErrorMessage)
  {
    var t := FetchWeather(response);
    RunPair(s, t[0], t[1]);
  }

  /** An ok response replaces both the current weather and the forecast, and keeps the old error. */
  lemma FetchSuccessReplacesData(s: State, response: Api.Response)
    requires response.ok && Api.Covers(response.body.daily)
    ensures Run(s, FetchWeather(response)).status == Succeeded
    ensures Run(s, FetchWeather(response)).currentWeather == Some(Api.NormaliseCurrent(response.body.current))
    ensures Run(s, FetchWeather(response)).forecast == Api.NormaliseDaily(response.body.daily)
    ensures |Run(s, FetchWeather(response)).forecast| == |response.body.daily.time|
    ensures Run(s, FetchWeather(response)).error == s.error
  {
    var t := FetchWeather(response);
    RunPair(s, t[0], t[1]);
  }

  /** The slice's state, updated in place by its case reducers. */
  class WeatherStore {
    var currentWeather: Option<WeatherData>
    var forecast: seq<DailyForecast>
    var status: Status
    var error: Option<string>

    function Snapshot(): State
      reads this
    {
      State(currentWeather, forecast, status, error)
    }

    constructor ()
      ensures currentWeather == None && forecast == [] && status == Idle && error == None
      ensures Snapshot() == InitialState
    {
      currentWeather := None;
      forecast := [];
      status := Idle;
      error := None;
    }

    /** The `pending` case: only the status changes. */
    method OnPending()
      modifies this
      ensures status == Loading
      ensures currentWeather == old(currentWeather) && forecast == old(forecast) && error == old(error)
      ensures Snapshot() == Reduce(old(Snapshot()), Pending)
    {
      status := Loading;
    }

    /** The `fulfilled` case: the status and both data fields change; the error is kept. */
    method OnFulfilled(payload: Api.Payload)
      modifies this
      ensures status == Succeeded
      ensures currentWeather == Some(payload.current) && forecast == payload.daily
      ensures error == old(error)
      ensures Snapshot() == Reduce(old(Snapshot()), Fulfilled(payload))
    {
      status := Succeeded;
      currentWeather := Some(payload.current);
      forecast := payload.daily;
    }

    /** The `rejected` case: the status and the error change; the data is kept. */
    method OnRejected(message: Option<string>)
      modifies this
      ensures status == Failed
      ensures error == Some(ErrorText(message)) && error.value != ""
      ensures currentWeather == old(currentWeather) && forecast == old(forecast)
      ensures Snapshot() == Reduce(old(Snapshot()), Rejected(message))
    {
      status := Failed;
      error := Some(ErrorText(message));
    }

    /** The slice reducer: routes an action to its case. */
    method Dispatch(a: Action)
      modifies this
      ensures Snapshot() == Reduce(old(Snapshot()), a)
    {
      match a
      case Pending => OnPending();
      case Fulfilled(p) => OnFulfilled(p);
      case Rejected(m) => OnRejected(m);
    }
  }
}
