/** The `WeatherApp` component of `src/app/weatherApp.tsx`: a search form
    whose submit fetches the trimmed term, a key gate run once on mount that
    fetches `'London'`, and a `fetchWeatherData` fixed to the country `uk`. */
module WeatherAppView {
  import opened Wrappers
  import Text
  import opened FetchCore

  const InitialCity := "London"

  /** What follows the quoted city in the 404 message. */
  const NotFoundSuffix := "\" not found. Please check spelling."
  /** Everything after the city in the request URL but the key. */
  const QueryTail := ",uk&units=metric&appid="

  /** The URL handed to `fetch`: the country is always `uk`. */
  function RequestUrl(city: string, key: Option<string>): string
  {
    BaseUrl + "?q=" + city + QueryTail + KeyText(key)
  }

  /** The URL is the query prefix, the city unchanged, the fixed `,uk`
      parameters and the key, in that order; so different cities under one
      key give different URLs, and without a key the URL ends in
      `appid=undefined`. */
  lemma RequestUrlLayout(city: string, key: Option<string>)
    ensures RequestUrl(city, key)[..|BaseUrl| + 3] == BaseUrl + "?q="
    ensures Text.OccursAt(city, RequestUrl(city, key), |BaseUrl| + 3)
    ensures Text.OccursAt(QueryTail + KeyText(key), RequestUrl(city, key), |BaseUrl| + 3 + |city|)
    ensures |RequestUrl(city, key)| == |BaseUrl| + 3 + |city| + |QueryTail| + |KeyText(key)|
    ensures key.None? ==> Text.OccursAt("undefined", RequestUrl(city, key), |RequestUrl(city, key)| - 9)
  {
    var u := RequestUrl(city, key);
    var head := BaseUrl + "?q=";
    assert u == head + city + (QueryTail + KeyText(key));
    assert u[|head|..|head| + |city|] == city;
    assert u[|head| + |city|..] == QueryTail + KeyText(key);
  }

  lemma RequestUrlInjective(c1: string, c2: string, key: Option<string>)
    requires RequestUrl(c1, key) == RequestUrl(c2, key)
    ensures c1 == c2
  {
    RequestUrlLayout(c1, key);
    RequestUrlLayout(c2, key);
  }

  /** The submit gate: the trimmed term when it is non-empty. */
  function SearchQuery(term: string): (city: Option<string>)
    ensures city.None? <==> forall k :: 0 <= k < |term| ==> Text.IsWhitespace(term[k])
    ensures city.Some? ==> city.value == Text.Trim(term)
    ensures city.Some? ==> Text.Trim(city.value) == city.value
  {
    Text.TrimEmptyIff(term);
    Text.TrimIdempotent(term);
    var city := Text.Trim(term);
    if city != [] then Some(city) else None
  }

  class WeatherApp {
    /** `NEXT_PUBLIC_WEATHER_API_KEY`, undefined when not configured. */
    const apiKey: Option<string>

    var searchTerm: string
    var loading: bool
    var error: Option<string>
    var weatherData: Option<WeatherData>
    /** Every URL handed to `fetch`, oldest first. */
    var requests: seq<string>

    function State(): ViewState
      reads this
    {
      ViewState(loading, error, weatherData)
    }

    /** The component mounted: the slots as `useState` sets them, the search
        field holding `'London'`. */
    constructor (apiKey: Option<string>)
      ensures this.apiKey == apiKey
      ensures searchTerm == InitialCity && State() == Initial && requests == []
    {
      this.apiKey := apiKey;
      searchTerm := InitialCity;
      loading, error, weatherData := true, None, None;
      requests := [];
    }

    /** The input's `onChange`. */
    method EditSearchTerm(term: string)
      modifies this`searchTerm
      ensures searchTerm == term
    {
      searchTerm := term;
    }

    /** The effect, run once on mount: a missing key sets the key error and
        stops; otherwise a fetch for `'London'` starts. */
    method RunEffect() returns (req: Option<Request>)
      modifies this`loading, this`error, this`weatherData, this`requests
      ensures KeyMissing(apiKey) ==>
        req == None && State() == KeyRejected(old(State())) && requests == old(requests)
      ensures !KeyMissing(apiKey) ==>
        && req == Some(Request(InitialCity, RequestUrl(InitialCity, apiKey)))
        && State() == Started(old(State()))
        && requests == old(requests) + [req.value.url]
    {
      if KeyMissing(apiKey) {
        error := Some(KeyErrorMessage);
        loading := false;
        req := None;
        return;
      }
      var r := Begin(InitialCity);
      req := Some(r);
    }

    /** The form's submit: a fetch for the trimmed term when it is not
        empty, and nothing otherwise. The key is not consulted here. */
    method HandleSearch() returns (req: Option<Request>)
      modifies this`loading, this`error, this`weatherData, this`requests
      ensures SearchQuery(searchTerm).None? ==>
        req == None && State() == old(State()) && requests == old(requests)
      ensures SearchQuery(searchTerm).Some? ==>
        && req == Some(Request(SearchQuery(searchTerm).value, RequestUrl(SearchQuery(searchTerm).value, apiKey)))
        && State() == Started(old(State()))
        && requests == old(requests) + [req.value.url]
    {
      if Text.Trim(searchTerm) != [] {
        var r := Begin(Text.Trim(searchTerm));
        req := Some(r);
      } else {
        req := None;
      }
    }

    /** `fetchWeatherData` up to its `await`: the slots are reset and the
        request is handed to `fetch`. */
    method Begin(cityToSearch: string) returns (req: Request)
      modifies this`loading, this`error, this`weatherData, this`requests
      ensures req == Request(cityToSearch, RequestUrl(cityToSearch, apiKey))
      ensures State() == Started(old(State()))
      ensures requests == old(requests) + [req.url]
    {
      loading := true;
      error := None;
      weatherData := None;
      req := Request(cityToSearch, RequestUrl(cityToSearch, apiKey));
      requests := requests + [req.url];
    }

    /** `fetchWeatherData` after its `await`, for the request `req` it
        started. Nothing checks that `req` is still the latest one. */
    method Complete(req: Request, outcome: Outcome)
      modifies this`loading, this`error, this`weatherData
      ensures State() == Settled(old(State()), NotFoundMessage(req.city, NotFoundSuffix), outcome)
    {
      if outcome.Ok? {
        weatherData := outcome.body;
      } else if outcome.Http? {
        if outcome.status == 404 {
          error := Some(NotFoundMessage(req.city, NotFoundSuffix));
        } else {
          error := Some(StatusMessage(outcome.status));
        }
      } else if outcome.ThrowErr? {
        error := Some(outcome.message);
      } else {
        error := Some(UnknownErrorMessage);
      }
      loading := false;
    }
  }
}
