/** What `weatherClient.tsx` and `weatherApp.tsx` share: the provider's
    response shape, the outcome of one request, the three state slots and the
    way `fetchWeatherData` moves them through try/catch/finally. Each
    component supplies its own not-found message and request URL. */
module FetchCore {
  import opened Wrappers
  import Text

  const BaseUrl := "https://api.openweathermap.org/data/2.5/weather"
  const KeyErrorMessage := "API Key invalid or not found."
  const UnknownErrorMessage := "An unknown error occurred."
  const StatusPrefix := "Failed to fetch data (HTTP status: "
  const NotFoundPrefix := "City \""

  /** A JavaScript number from the provider; passed through untouched. */
  type Number = real

  datatype MainReadings = MainReadings(temp: Number, feelsLike: Number, humidity: Number, tempMin: Number, tempMax: Number)
  datatype Condition = Condition(description: string)
  /** `rain`, whose `'1h'` member may be missing. */
  datatype Rain = Rain(lastHour: Option<Number>)

  /** The parsed response body (`WeatherData`). */
  datatype WeatherData = WeatherData(
    name: string,
    main: MainReadings,
    windSpeed: Number,
    weather: seq<Condition>,
    rain: Option<Rain>)

  /** How the awaited `fetch(url)` and `response.json()` turned out. */
  datatype Outcome =
    | Ok(body: Option<WeatherData>)  // `response.ok` held; `json()` gave this body (None: JSON null)
    | Http(status: nat)              // `response.ok` was false, with this status
    | ThrowErr(message: string)      // a promise rejected with an `Error`
    | ThrowOther                     // a promise rejected with something that is not an `Error`

  /** A value thrown inside the try block. */
  datatype Thrown = ErrorValue(message: string) | OtherValue

  /** A request handed to `fetch`: the city the call captured and the URL. */
  datatype Request = Request(city: string, url: string)

  /** The three state slots of a weather component. */
  datatype ViewState = ViewState(loading: bool, error: Option<string>, weatherData: Option<WeatherData>)

  /** The slots as `useState` initialises them. */
  const Initial := ViewState(true, None, None)

  /** `!API_KEY`: the key is undefined or the empty string. */
  predicate KeyMissing(key: Option<string>)
  {
    key.None? || key.value == ""
  }

  /** `${API_KEY}` inside a template literal. */
  function KeyText(key: Option<string>): string
  {
    match key
    case Some(k) => k
    case None => "undefined"
  }

  function StatusMessage(status: nat): string
  {
    StatusPrefix + Text.Decimal(status) + ")"
  }

  /** The text strictly between `prefix` and `suffix` when `msg` has that shape. */
  function Between(prefix: string, suffix: string, msg: string): (r: Option<string>)
    ensures r.Some? ==> msg == prefix + r.value + suffix
  {
    if |msg| >= |prefix| + |suffix| && msg[..|prefix|] == prefix && msg[|msg| - |suffix|..] == suffix
    then
      var middle := msg[|prefix|..|msg| - |suffix|];
      assert msg == msg[..|prefix|] + middle + msg[|msg| - |suffix|..];
      Some(middle)
    else None
  }

  lemma BetweenOfWrapped(prefix: string, suffix: string, middle: string)
    ensures Between(prefix, suffix, prefix + middle + suffix) == Some(middle)
  {
    var msg := prefix + middle + suffix;
    assert msg[..|prefix|] == prefix;
    assert msg[|msg| - |suffix|..] == suffix;
    assert msg[|prefix|..|msg| - |suffix|] == middle;
  }

  /** Reads the status back out of a status message. */
  function StatusOf(msg: string): Option<nat>
  {
    match Between(StatusPrefix, ")", msg)
    case Some(digits) =>
      if forall k :: 0 <= k < |digits| ==> Text.IsDigit(digits[k])
      then Some(Text.ParseDecimal(digits)) else None
    case None => None
  }

  /** The message for a non-404 failure names the status: its decimal text
      occurs in it, and the status can be read back from it. */
  lemma StatusMessageNamesStatus(status: nat)
    ensures Text.IsInfix(Text.Decimal(status), StatusMessage(status))
    ensures StatusOf(StatusMessage(status)) == Some(status)
  {
    var d := Text.Decimal(status);
    assert Text.OccursAt(d, StatusMessage(status), |StatusPrefix|);
    BetweenOfWrapped(StatusPrefix, ")", d);
    Text.DecimalRoundTrip(status);
  }

  /** The message thrown for a 404: the city in double quotes, followed by
      the component's own `suffix`. */
  function NotFoundMessage(city: string, suffix: string): string
  {
    NotFoundPrefix + city + suffix
  }

  /** Reads the city back out of a not-found message with the given suffix. */
  function CityOf(msg: string, suffix: string): Option<string>
  {
    Between(NotFoundPrefix, suffix, msg)
  }

  /** The 404 message contains the queried city, which can be read back
      from it, and it is never mistaken for a status message. */
  lemma NotFoundNamesCity(city: string, suffix: string)
    ensures Text.IsInfix(city, NotFoundMessage(city, suffix))
    ensures CityOf(NotFoundMessage(city, suffix), suffix) == Some(city)
    ensures StatusOf(NotFoundMessage(city, suffix)) == None
  {
    assert Text.OccursAt(city, NotFoundMessage(city, suffix), |NotFoundPrefix|);
    BetweenOfWrapped(NotFoundPrefix, suffix, city);
    assert NotFoundMessage(city, suffix)[0] != StatusPrefix[0];
  }

  /** The try block: the value it throws, or None when it runs to its end. */
  function TryBlock(notFound: string, o: Outcome): Option<Thrown>
  {
    match o
    case Ok(_) => None
    case Http(status) =>
      Some(ErrorValue(if status == 404 then notFound else StatusMessage(status)))
    case ThrowErr(m) => Some(ErrorValue(m))
    case ThrowOther => Some(OtherValue)
  }

  /** The catch block: the text it stores in `error`. */
  function CatchBlock(t: Thrown): string
  {
    match t
    case ErrorValue(m) => m
    case OtherValue => UnknownErrorMessage
  }

  /** The start of `fetchWeatherData`: loading, with error and data cleared. */
  function Started(s: ViewState): ViewState
  {
    s.(loading := true, error := None, weatherData := None)
  }

  /** The rest of `fetchWeatherData` once the request has an outcome: the try
      block stores the body, or the catch block stores a message, and the
      finally block clears `loading`. A slot the path does not set keeps its
      value. */
  function Settled(s: ViewState, notFound: string, o: Outcome): ViewState
  {
    match TryBlock(notFound, o)
    case None => s.(weatherData := o.body, loading := false)
    case Some(t) => s.(error := Some(CatchBlock(t)), loading := false)
  }

  /** The key gate of the effect: error set and loading cleared, no request. */
  function KeyRejected(s: ViewState): ViewState
  {
    s.(error := Some(KeyErrorMessage), loading := false)
  }

  /** One fetch run from start to end, whatever the state before it: loading
      ends false, and each outcome leaves exactly the state the source
      promises. */
  lemma FetchResult(s: ViewState, notFound: string, o: Outcome)
    ensures var t := Settled(Started(s), notFound, o);
      && !t.loading
      && (o.Ok? ==> t.error == None && t.weatherData == o.body)
      && (o.Http? && o.status == 404 ==> t.error == Some(notFound) && t.weatherData == None)
      && (o.Http? && o.status != 404 ==> t.error == Some(StatusMessage(o.status)) && t.weatherData == None)
      && (o.ThrowErr? ==> t.error == Some(o.message) && t.weatherData == None)
      && (o == ThrowOther ==> t.error == Some(UnknownErrorMessage) && t.weatherData == None)
  {
  }

  /** After one fetch whose body is not JSON null, exactly one of `error` and
      `weatherData` is set. */
  lemma FetchExactlyOneSlot(s: ViewState, notFound: string, o: Outcome)
    requires o != Ok(None)
    ensures var t := Settled(Started(s), notFound, o);
      t.error.Some? != t.weatherData.Some?
  {
  }

  /** Nothing ties a completion to the request that is current: a completion
      applied after another one overwrites the slot its path writes,
      whichever request it belongs to. */
  lemma LastCompletionWins(s: ViewState, n1: string, o1: Outcome, n2: string, o2: Outcome)
    ensures var t := Settled(Settled(s, n1, o1), n2, o2);
      && !t.loading
      && (o2.Ok? ==> t.weatherData == o2.body)
      && (!o2.Ok? ==> t.error == Some(CatchBlock(TryBlock(n2, o2).value)))
  {
  }

  /** The overwrite race: fetches for `first` and then `second` are started,
      the second one fails with 404 first, then the first one succeeds. Both
      slots end up set: the 404 text naming the second city is shown beside
      the data of the first. */
  lemma OutOfOrderCompletionSetsBothSlots(s: ViewState, first: string, second: string, suffix: string, d: WeatherData)
    ensures Settled(Settled(Started(Started(s)), NotFoundMessage(second, suffix), Http(404)),
                    NotFoundMessage(first, suffix), Ok(Some(d)))
         == ViewState(false, Some(NotFoundMessage(second, suffix)), Some(d))
  {
  }
}
