# Bright Weather: the fetch state machine, `capitalizeWords` and the search routes

This project models the logic of a small Next.js weather client. It covers four
source files:

- `WeatherClient` (`src/components/weatherClient.tsx`). It holds three state
  slots: `loading`, `error` and `weatherData`. Its effect checks the API key and
  then starts `fetchWeatherData` for the `initialCity` prop and the selected
  country. That function resets the slots and calls the weather provider. The
  outcome becomes either the body or an error text: the not-found text naming
  the city, the status text naming the status, the thrown `Error`'s own
  message, or the fixed unknown-error text. `loading` is cleared last. The
  component also formats the description with `capitalizeWords` and shows a
  rain line only when `rain['1h']` is present and non-zero.
- `WeatherApp` (`src/app/weatherApp.tsx`), the older twin. It keeps the same
  slots, but the country is always `uk` and the 404 text is different. Its
  mount effect fetches `'London'`, and its form submit fetches the trimmed
  search term.
- The two `SearchBox` components (`src/components/searchBox.tsx` and
  `src/app/components/searchBox.tsx`). Each trims the term and then either does
  nothing or pushes one route: `/weather/{countryCode}/{city}` or
  `/weather/{city}`.

Modules, one per concern:

- `Wrappers`: `Option`.
- `Text`: ECMAScript `trim`, the decimal text of a number, substring occurrence.
- `Capitalize`: `capitalizeWords`.
- `FetchCore`: the response shape, the request outcome, the three slots and the
  try/catch/finally steps that both weather components share.
- `WeatherClientView`, `WeatherAppView`: the two weather components, as classes.
- `CountrySearchBox`, `CitySearchBox`: the two search boxes, as classes.

How the components are modelled:

- A request is split at its `await`. `Begin` covers the synchronous start of
  `fetchWeatherData`: it resets the slots, builds the URL and records it.
  `Complete(req, outcome)` covers the rest. The `Outcome` input
  (`Ok(body) | Http(status) | ThrowErr(message) | ThrowOther`) stands in for
  `fetch` and `response.json()`. The `Request` value carries the
  `cityToSearch` that the async call captured.
- Each class method states its new state as a function of the old one
  (`Started`, `Settled`, `KeyRejected`, `SubmitRoute`). The lemmas prove the
  source's promises about those functions.
- The API key is a constructor parameter (`Option<string>`; `None` means
  undefined). `router.push` is recorded in a `pushed` sequence, and every URL
  handed to `fetch` is recorded in `requests`.

The model follows the code, which keeps three independent slots rather than one tagged state:

- `Complete` writes only the slot its path writes. So a completion that arrives after another
  one can leave both `error` and `weatherData` set
  (`FetchCore.OutOfOrderCompletionSetsBothSlots`). A JSON `null` body leaves
  both unset.
- The key gate sets `error` and clears `loading` but does not touch
  `weatherData`.
- `WeatherApp`'s form submit does not check the key. With no key, it still
  issues a request, and the URL ends in `appid=undefined`
  (`WeatherAppView.RequestUrlLayout`).
- `WeatherApp` always queries the country `uk`.

## Model

| member | source | states |
|---|---|---|
| `Text.TrimStart` | src/components/searchBox.tsx:26 | the result is a suffix of the input that does not start with whitespace, and everything dropped is whitespace |
| `Text.TrimEnd` | src/components/searchBox.tsx:26 | the result is a prefix of the input that does not end with whitespace, and everything dropped is whitespace |
| `Text.IsWhitespace` | src/components/searchBox.tsx:26 | definition: the characters `trim()` removes (ECMAScript WhiteSpace and LineTerminator); its use is proved in `Text.TrimIsMaximalSlice` |
| `Text.Trim` | src/components/searchBox.tsx:26 | `trim()`: the result is no longer than the term and has no whitespace at either end; that it is the maximal such slice is proved in `Text.TrimIsMaximalSlice` |
| `Text.TrimIsMaximalSlice` | src/components/searchBox.tsx:26 | `trim()` yields a contiguous piece `s[i..i+n]` of the term with only whitespace outside it; with `Text.Trim`'s own contract (no whitespace at either end) this fixes the result |
| `Text.TrimIdempotent` | src/app/components/searchBox.tsx:17 | trimming the trimmed city again leaves it unchanged |
| `Text.TrimEmptyIff` | src/app/weatherApp.tsx:39 | `searchTerm.trim()` is empty (falsy) exactly when the term is all whitespace |
| `Text.Decimal` | src/components/weatherClient.tsx:67 | the status text inside the message is non-empty, all digits, and has no leading zero |
| `Text.DecimalRoundTrip` | src/components/weatherClient.tsx:67 | the status's decimal text parses back to the status |
| `Text.DecimalInjective` | src/app/weatherApp.tsx:57 | different statuses render as different texts |
| `Capitalize.Upper` | src/components/weatherClient.tsx:49 | an upper-cased character is never a lower-case ASCII letter, and it is a space exactly when the input was |
| `Capitalize.UpperIdempotent` | src/components/weatherClient.tsx:49 | upper-casing twice equals upper-casing once |
| `Capitalize.Split` | src/components/weatherClient.tsx:47 | `split(' ')` yields at least one piece, and no piece contains a space |
| `Capitalize.Join` | src/components/weatherClient.tsx:51 | definition of `join(' ')`; its properties are proved in `Capitalize.JoinSplit` |
| `Capitalize.CapitalizeWord` | src/components/weatherClient.tsx:49 | a piece keeps its length; its first character is upper-cased and every other character stays |
| `Capitalize.CapitalizeAll` | src/components/weatherClient.tsx:48-50 | the mapped list has the same length, and each entry is the corresponding piece with its first character upper-cased |
| `Capitalize.CapitalizeWords` | src/components/weatherClient.tsx:46-52 | definition of `capitalizeWords`; its properties are proved in `Capitalize.CapitalizeWordsPointwise`, `Capitalize.CapitalizeWordsIdempotent` and `Capitalize.CapitalizeWordsPieces` |
| `Capitalize.JoinSplit` | src/components/weatherClient.tsx:47-51 | `join(' ')` after `split(' ')` gives back the original string |
| `Capitalize.CapitalizeWordsPointwise` | src/components/weatherClient.tsx:46-52 | `capitalizeWords` keeps the length and changes a character only by upper-casing it, and only where a `' '`-separated piece begins; spaces and all other characters stay in place |
| `Capitalize.CapitalizeWordsIdempotent` | src/components/weatherClient.tsx:46-52 | `capitalizeWords(capitalizeWords(s)) == capitalizeWords(s)` |
| `Capitalize.CapitalizeWordsPieces` | src/components/weatherClient.tsx:46-52 | the pieces of the result are the capitalized pieces of the input, so the number of pieces is unchanged, empty pieces from doubled spaces included |
| `Capitalize.LightRainExample` | __tests__/formatters.test.tsx:64 | "light rain" is shown as "Light Rain" |
| `FetchCore.KeyMissing` | src/components/weatherClient.tsx:85 | definition of `!API_KEY`: the key is undefined or empty; used by `RunEffect` of both components |
| `FetchCore.KeyText` | src/components/weatherClient.tsx:60 | definition: the key as a template literal renders it, `undefined` when missing; see `WeatherAppView.RequestUrlLayout` |
| `FetchCore.StatusMessage` | src/components/weatherClient.tsx:67 | definition of the non-404 failure text; its properties are proved in `FetchCore.StatusMessageNamesStatus` |
| `FetchCore.NotFoundMessage` | src/components/weatherClient.tsx:65 | definition of the 404 text (also src/app/weatherApp.tsx:55, with its own suffix); its properties are proved in `FetchCore.NotFoundNamesCity` |
| `FetchCore.CityOf` | src/components/weatherClient.tsx:65 | definition: reads the city back out of a 404 text; its properties are proved in `FetchCore.NotFoundNamesCity` |
| `FetchCore.TryBlock` | src/components/weatherClient.tsx:59-71 | definition of the try block's thrown value; its properties are proved in `FetchCore.FetchResult` |
| `FetchCore.CatchBlock` | src/components/weatherClient.tsx:73-78 | definition of the catch block's stored message; its properties are proved in `FetchCore.FetchResult` |
| `FetchCore.Started` | src/components/weatherClient.tsx:55-57 | definition of the first three setter calls; its properties are proved in `FetchCore.FetchResult` |
| `FetchCore.Settled` | src/components/weatherClient.tsx:59-81 | definition of the rest of the fetch; its properties are proved in `FetchCore.FetchResult`, `FetchCore.FetchExactlyOneSlot` and `FetchCore.LastCompletionWins` |
| `FetchCore.KeyRejected` | src/components/weatherClient.tsx:85-88 | definition of the key gate's setter calls; used by `WeatherClientView.WeatherClient.RunEffect` |
| `FetchCore.StatusMessageNamesStatus` | src/components/weatherClient.tsx:67 | the message for a non-404 failure contains the status's decimal text, and the status can be read back from it |
| `FetchCore.FetchResult` | src/components/weatherClient.tsx:54-81 | one fetch from any prior state ends with `loading` false; ok stores the body unchanged with no error; 404 stores the not-found text; any other status S stores `Failed to fetch data (HTTP status: S)`; a thrown `Error` stores its message; anything else stores `An unknown error occurred.`; every failure leaves no data |
| `FetchCore.FetchExactlyOneSlot` | src/components/weatherClient.tsx:70-81 | after one fetch whose body is not JSON null, exactly one of `error` and `weatherData` is set |
| `FetchCore.LastCompletionWins` | src/components/weatherClient.tsx:54-81 | a completion applied after another overwrites the slot its path writes, whichever request it belongs to, and clears `loading` |
| `FetchCore.OutOfOrderCompletionSetsBothSlots` | src/components/weatherClient.tsx:84-93 | if fetches for a first and a second city start and the second one's 404 arrives before the first one's data, the 404 text naming the second city and the first city's data are both shown |
| `FetchCore.NotFoundNamesCity` | src/components/weatherClient.tsx:64-65 | the 404 message `City "<city>"` plus the component's suffix (` not found in supported country.` here, ` not found. Please check spelling.` at src/app/weatherApp.tsx:55) contains the city, the city can be read back from it, and it cannot be read as a status message |
| `WeatherClientView.RequestUrl` | src/components/weatherClient.tsx:60 | the URL starts with `BASE_URL?q=`, then holds the city and the country code unchanged with a comma between, then `&units=metric&appid=` and the key (`undefined` when missing), and nothing else |
| `WeatherClientView.ShowsRainLine` | src/components/weatherClient.tsx:135 | definition of `weatherData.rain?.['1h']` as a condition: present and non-zero; used in `WeatherClientView.BerlinScenario` |
| `WeatherClientView.ConditionsLine` | src/components/weatherClient.tsx:127 | the conditions text is the first description, capitalized, of the same length; used in `WeatherClientView.BerlinScenario` |
| `WeatherClientView.RequestUrlInjective` | src/components/weatherClient.tsx:60 | with the country among the supported codes, two queries under one key give the same URL only if city and country are both equal |
| `WeatherClientView.BerlinScenario` | __tests__/formatters.test.tsx:46-66 | fetching the Berlin test data stores it unchanged (name "Berlin", temperature 15.5, conditions "Light Rain", a rain line); the same data without `rain` shows no rain line and no error |
| `WeatherClientView.NotFoundScenario` | __tests__/formatters.test.tsx:68-82 | a 404 ends with no data, `loading` false, and an error that begins `City "<city>" not found` |
| `WeatherClientView.WeatherClient.constructor` | src/components/weatherClient.tsx:39-43 | initially `loading` is true, `error` and `weatherData` are null, the country is `'uk'`, and no request has been made |
| `WeatherClientView.WeatherClient.SelectCountry` | src/components/weatherClient.tsx:104-116 | the selector sets the country to one of the listed codes |
| `WeatherClientView.WeatherClient.RunEffect` | src/components/weatherClient.tsx:84-93 | a missing or empty key sets `API Key invalid or not found.`, clears `loading` and makes no request; otherwise a fetch for `initialCity` and the current country starts |
| `WeatherClientView.WeatherClient.Begin` | src/components/weatherClient.tsx:54-61 | starting a fetch sets `loading` and clears `error` and `weatherData` whatever they held, then requests `BASE_URL?q=<city>,<code>&units=metric&appid=<key>`; the country stays a supported code |
| `WeatherClientView.WeatherClient.Complete` | src/components/weatherClient.tsx:61-81 | the slots after an outcome are `Settled` of the slots before it, with the not-found message for the request's own city; the country stays a supported code |
| `WeatherAppView.RequestUrl` | src/app/weatherApp.tsx:50 | definition of the `,uk` URL; its properties are proved in `WeatherAppView.RequestUrlLayout` and `WeatherAppView.RequestUrlInjective` |
| `WeatherAppView.RequestUrlLayout` | src/app/weatherApp.tsx:50 | the URL is `BASE_URL?q=`, then the city unchanged, then the fixed `,uk&units=metric&appid=` and the key; with no key it ends in `undefined` |
| `WeatherAppView.RequestUrlInjective` | src/app/weatherApp.tsx:50 | under one key, different cities give different URLs |
| `WeatherAppView.SearchQuery` | src/app/weatherApp.tsx:39-40 | the submit goes ahead exactly when the term is not all whitespace, the city it passes on is `searchTerm.trim()`, and trimming it again leaves it unchanged |
| `WeatherAppView.WeatherApp.constructor` | src/app/weatherApp.tsx:28-34 | initially `loading` is true, `error` and `weatherData` are null, the search term is `'London'`, and no request has been made |
| `WeatherAppView.WeatherApp.EditSearchTerm` | src/app/weatherApp.tsx:93 | the input sets the search term |
| `WeatherAppView.WeatherApp.RunEffect` | src/app/weatherApp.tsx:75-83 | a missing or empty key sets the key error, clears `loading` and makes no request; otherwise the first fetch is for `'London'` |
| `WeatherAppView.WeatherApp.HandleSearch` | src/app/weatherApp.tsx:36-42 | submitting starts a fetch for the trimmed term only when that is non-empty, and otherwise changes nothing; the search term itself never changes |
| `WeatherAppView.WeatherApp.Begin` | src/app/weatherApp.tsx:44-51 | starting a fetch sets `loading` and clears `error` and `weatherData`, then requests the `,uk` URL for the city |
| `WeatherAppView.WeatherApp.Complete` | src/app/weatherApp.tsx:51-72 | the slots after an outcome are `Settled` of the slots before it, with this component's not-found message for the request's city |
| `CountrySearchBox.Route` | src/components/searchBox.tsx:29 | definition of `/weather/${countryCode}/${city}`; its properties are proved in `CountrySearchBox.RouteRoundTrip` |
| `CountrySearchBox.RouteRoundTrip` | src/components/searchBox.tsx:29 | from `/weather/{countryCode}/{city}`, a code without `/` and the city read back unchanged |
| `CountrySearchBox.SubmitRoute` | src/components/searchBox.tsx:24-31 | no route when the code is empty or the term is all whitespace; otherwise the route is `Route(code, trimmed term)`, and for a code without `/` its segments read back as the code and the trimmed term |
| `CountrySearchBox.SearchBox.constructor` | src/components/searchBox.tsx:17-20 | the term starts as `initialValue` (default `''`) and the country as `initialCountryCode` (default `'uk'`) |
| `CountrySearchBox.SearchBox.EditSearchTerm` | src/components/searchBox.tsx:51 | the input sets the search term |
| `CountrySearchBox.SearchBox.SelectCountry` | src/components/searchBox.tsx:38 | the selector sets the country code |
| `CountrySearchBox.SearchBox.HandleSearch` | src/components/searchBox.tsx:24-31 | each submit pushes at most one path, exactly `SubmitRoute(term, code)`, and changes neither the term nor the code |
| `CitySearchBox.Route` | src/app/components/searchBox.tsx:20 | definition of `/weather/${city}`; its properties are proved in `CitySearchBox.RouteRoundTrip` |
| `CitySearchBox.RouteRoundTrip` | src/app/components/searchBox.tsx:20 | the city reads back unchanged from `/weather/{city}` |
| `CitySearchBox.SubmitRoute` | src/app/components/searchBox.tsx:15-22 | no route when the term is all whitespace; otherwise the route's segment is the trimmed term, which trimming again leaves unchanged |
| `CitySearchBox.SearchBox.constructor` | src/app/components/searchBox.tsx:10-11 | the term starts as `initialValue`, default `''` |
| `CitySearchBox.SearchBox.EditSearchTerm` | src/app/components/searchBox.tsx:29 | the input sets the search term |
| `CitySearchBox.SearchBox.HandleSearch` | src/app/components/searchBox.tsx:15-22 | each submit pushes at most one path, exactly `SubmitRoute(term)`, and leaves the term unchanged |

## Left out

- JSX rendering, styling, the `<option>` list markup and `src/app/page.tsx`. Only two display rules are modelled: the rain line's condition (`ShowsRainLine`) and the capitalized conditions line (`ConditionsLine`).
- The network: `fetch` and `response.json()` are replaced by the `Outcome` input. A rejected `fetch` or a body that is not JSON at all is the `ThrowErr`/`ThrowOther` case; timeouts and retries are not modelled.
- A well-formed JSON body of the wrong shape (`{}`, or `weather: []`) is stored unchanged by the source (src/components/weatherClient.tsx:70-71), since the type annotation is not checked at run time. `Ok` carries a well-typed `WeatherData`, so such a body is not representable.
- WeatherClientView.ConditionsLine: requires a non-empty `weather` list. The render error the source raises at `weatherData.weather[0].description` when the list is empty (src/components/weatherClient.tsx:127) is not modelled.
- `process.env`: the key is a constructor parameter.
- React scheduling. `useEffect` dependencies, re-renders and async interleaving are not modelled. A caller runs `RunEffect` after `SelectCountry`, and orders `Begin`/`Complete` events one at a time. True concurrency is out of scope.
- `disabled={loading}` on the inputs. The model does not stop `HandleSearch` or `SelectCountry` while `loading` is set.
- The numeric fields are JavaScript floats, modelled as `real` and passed through untouched. `ShowsRainLine` reads the truthiness of `rain['1h']` as "present and non-zero"; NaN is not modelled.
- `console.log(data)` in `weatherApp.tsx`.
- URL encoding. There is none in the code, and none is modelled. `decodeURIComponent` and Next.js route matching in the page files are not part of this model.
- `src/app/weather/[city]/page.tsx`, a third copy of the fetch logic, is not part of this model.
- The `initialCountryCode` prop passed to `WeatherClient` by the page file and the tests does not exist on the component, so it is not modelled.
- Capitalize.Upper: upper-cases only the ASCII letters `a`–`z`. It does not model full Unicode `toUpperCase`, which can also map other letters and can change length (`ß` becomes `SS`).
- Capitalize.CapitalizeWord: works on code points, while `charAt(0)` takes one UTF-16 code unit. The two differ only for a piece that starts with a character outside the Basic Multilingual Plane.
- Text.IsWhitespace: is the fixed ECMAScript set of whitespace and line terminators, including every code point of Unicode category Zs. A future Unicode version could add to that category.
- CountrySearchBox.RouteRoundTrip: assumes a country code without `/`. The supported codes meet this; an arbitrary `initialCountryCode` might not.
