/** The `WeatherClient` component of `src/components/weatherClient.tsx`:
    state slots, a country selector limited to the supported codes, the key
    gate of its effect, and `fetchWeatherData` split at its `await` into
    `Begin` and `Complete`. */
module WeatherClientView {
  import opened Wrappers
  import Text
  import Capitalize
  import opened FetchCore

  /** The `code` of each entry of `SUPPORTED_COUNTRIES`. */
  const SupportedCodes: seq<string> := ["uk", "us", "de"]

  /** What follows the quoted city in the 404 message. */
  const NotFoundSuffix := "\" not found in supported country."

  /** Everything after the country code in the request URL but the key. */
  const QueryTail := "&units=metric&appid="

  /** The URL handed to `fetch`: the query prefix, then the city and the
      country code unchanged with a comma between, then the fixed units
      parameter and the key, in that order. */
  function RequestUrl(city: string, code: string, key: Option<string>): (url: string)
    ensures |url| == |BaseUrl| + 3 + |city| + 1 + |code| + |QueryTail| + |KeyText(key)|
    ensures url[..|BaseUrl| + 3] == BaseUrl + "?q="
    ensures Text.OccursAt(city + "," + code, url, |BaseUrl| + 3)
    ensures Text.OccursAt(QueryTail + KeyText(key), url, |BaseUrl| + 3 + |city| + 1 + |code|)
  {
    var head := BaseUrl + "?q=";
    var url := head + city + "," + code + QueryTail + KeyText(key);
    assert url == head + (city + "," + code) + (QueryTail + KeyText(key));
    assert url[|head|..|head| + |city| + 1 + |code|] == city + "," + code;
    url
  }

  /** With the country limited to the supported codes, different queries
      under one key give different URLs. */
  lemma RequestUrlInjective(c1: string, d1: string, c2: string, d2: string, key: Option<string>)
    requires d1 in SupportedCodes && d2 in SupportedCodes
    requires RequestUrl(c1, d1, key) == RequestUrl(c2, d2, key)
    ensures c1 == c2 && d1 == d2
  {
    assert |d1| == 2 && |d2| == 2;
    assert RequestUrl(c1, d1, key) == (BaseUrl + "?q=") + c1 + "," + d1 + (QueryTail + KeyText(key));
    assert RequestUrl(c2, d2, key) == (BaseUrl + "?q=") + c2 + "," + d2 + (QueryTail + KeyText(key));
    SplitAtComma(BaseUrl + "?q=", c1, d1, c2, d2, QueryTail + KeyText(key));
  }

  lemma SplitAtComma(head: string, c1: string, d1: string, c2: string, d2: string, tail: string)
    requires |d1| == |d2|
    requires head + c1 + "," + d1 + tail == head + c2 + "," + d2 + tail
    ensures c1 == c2 && d1 == d2
  {
    var u := head + c1 + "," + d1 + tail;
    var v := head + c2 + "," + d2 + tail;
    assert |c1| == |c2|;
    assert c1 == u[|head|..|head| + |c1|];
    assert c2 == v[|head|..|head| + |c2|];
    assert d1 == u[|head| + |c1| + 1..|head| + |c1| + 1 + |d1|];
    assert d2 == v[|head| + |c2| + 1..|head| + |c2| + 1 + |d2|];
  }

  /** The rain line's condition `weatherData.rain?.['1h']`: present and non-zero. */
  predicate ShowsRainLine(d: WeatherData)
  {
    d.rain.Some? && d.rain.value.lastHour.Some? && d.rain.value.lastHour.value != 0.0
  }

  /** The "Weather Conditions" text: the first description, capitalized. */
  function ConditionsLine(d: WeatherData): (line: string)
    requires |d.weather| > 0
    ensures |line| == |d.weather[0].description|
  {
    Capitalize.CapitalizeWordsPointwise(d.weather[0].description);
    Capitalize.CapitalizeWords(d.weather[0].description)
  }

  /** The test data: Berlin, 15.5 degrees, "light rain", 0.5 mm in the last hour. */
  function BerlinData(): WeatherData
  {
    WeatherData("Berlin", MainReadings(15.5, 14.0, 70.0, 10.0, 20.0), 5.0,
                [Condition("light rain")], Some(Rain(Some(0.5))))
  }

  /** A successful fetch of the test data stores it unchanged: the report
      shows "Berlin", the raw temperature, "Light Rain" and a rain line;
      the same data without `rain` shows no rain line and no error. */
  lemma BerlinScenario(s: ViewState)
    ensures var t := Settled(Started(s), NotFoundMessage("Berlin", NotFoundSuffix), Ok(Some(BerlinData())));
      && t == ViewState(false, None, Some(BerlinData()))
      && t.weatherData.value.name == "Berlin"
      && t.weatherData.value.main.temp == 15.5
      && ConditionsLine(t.weatherData.value) == "Light Rain"
      && ShowsRainLine(t.weatherData.value)
    ensures var dry := BerlinData().(rain := None);
      var t := Settled(Started(s), NotFoundMessage("Berlin", NotFoundSuffix), Ok(Some(dry)));
      t.error == None && !ShowsRainLine(t.weatherData.value)
  {
    Capitalize.LightRainExample(BerlinData().weather[0].description);
  }

  /** A 404 (the test uses "InvalidCity") ends with no data, no loading
      indicator, and an error that begins `City "<city>" not found`. */
  lemma NotFoundScenario(s: ViewState, city: string)
    ensures var t := Settled(Started(s), NotFoundMessage(city, NotFoundSuffix), Http(404));
      && t == ViewState(false, Some(NotFoundMessage(city, NotFoundSuffix)), None)
      && Text.OccursAt("City \"" + city + "\" not found", t.error.value, 0)
  {
    var m := NotFoundMessage(city, NotFoundSuffix);
    var head := "City \"" + city + "\" not found";
    assert NotFoundSuffix == "\" not found" + " in supported country.";
    assert m == head + " in supported country.";
    assert m[..|head|] == head;
  }

  class WeatherClient {
    /** The `initialCity` prop. */
    const initialCity: string
    /** `NEXT_PUBLIC_WEATHER_API_KEY`, undefined when not configured. */
    const apiKey: Option<string>

    var countryCode: string
    var loading: bool
    var error: Option<string>
    var weatherData: Option<WeatherData>
    /** Every URL handed to `fetch`, oldest first. */
    var requests: seq<string>

    function State(): ViewState
      reads this
    {
      ViewState(loading, error, weatherData)
    }

    /** The country is always one the selector offers. */
    predicate Valid()
      reads this
    {
      countryCode in SupportedCodes
    }

    /** The component mounted: the slots as `useState` sets them, country `'uk'`. */
    constructor (initialCity: string, apiKey: Option<string>)
      ensures Valid()
      ensures this.initialCity == initialCity && this.apiKey == apiKey
      ensures countryCode == "uk" && State() == Initial && requests == []
    {
      this.initialCity := initialCity;
      this.apiKey := apiKey;
      countryCode := "uk";
      loading, error, weatherData := true, None, None;
      requests := [];
    }

    /** The selector's `onChange`, which can only pick a listed code. */
    method SelectCountry(code: string)
      requires code in SupportedCodes
      modifies this`countryCode
      ensures Valid() && countryCode == code
    {
      countryCode := code;
    }

    /** The effect, run on mount and whenever `countryCode` changes: a
        missing key sets the key error and stops; otherwise a fetch for the
        initial city and the current country starts. */
    method RunEffect() returns (req: Option<Request>)
      requires Valid()
      modifies this`loading, this`error, this`weatherData, this`requests
      ensures Valid()
      ensures KeyMissing(apiKey) ==>
        req == None && State() == KeyRejected(old(State())) && requests == old(requests)
      ensures !KeyMissing(apiKey) ==>
        && req == Some(Request(initialCity, RequestUrl(initialCity, countryCode, apiKey)))
        && State() == Started(old(State()))
        && requests == old(requests) + [req.value.url]
    {
      if KeyMissing(apiKey) {
        error := Some(KeyErrorMessage);
        loading := false;
        req := None;
        return;
      }
      var r := Begin(initialCity, countryCode);
      req := Some(r);
    }

    /** `fetchWeatherData` up to its `await`: the slots are reset and the
        request is handed to `fetch`. */
    method Begin(cityToSearch: string, code: string) returns (req: Request)
      requires Valid()
      modifies this`loading, this`error, this`weatherData, this`requests
      ensures Valid()
      ensures req == Request(cityToSearch, RequestUrl(cityToSearch, code, apiKey))
      ensures State() == Started(old(State()))
      ensures requests == old(requests) + [req.url]
    {
      loading := true;
      error := None;
      weatherData := None;
      req := Request(cityToSearch, RequestUrl(cityToSearch, code, apiKey));
      requests := requests + [req.url];
    }

    /** `fetchWeatherData` after its `await`, for the request `req` it
        started. Nothing checks that `req` is still the latest one. */
    method Complete(req: Request, outcome: Outcome)
      requires Valid()
      modifies this`loading, this`error, this`weatherData
      ensures Valid()
      ensures State() == Settled(old(State()), NotFoundMessage(req.city, NotFoundSuffix), outcome)
    {
      if outcome.Ok? {
        weatherData := outcome.body;
      } else if outcome.Http? {
        if outcome.status == 404 {
          error := Some(NotFoundMessage(req.city, NotFoundSuffix));
        } else {
          error := Some(StatusMessage(outcome.status));
        }
      } else if outcome.ThrowErr? {
        error := Some(outcome.message);
      } else {
        error := Some(UnknownErrorMessage);
      }
      loading := false;
    }
  }
}
