/** The `SearchBox` of `src/components/searchBox.tsx`: a search term and a
    country code held in component state; submitting pushes
    `/weather/{countryCode}/{city}` when both are non-empty after trimming
    the term. */
module CountrySearchBox {
  import opened Wrappers
  import Text

  const RoutePrefix := "/weather/"
  const DefaultCountryCode := "uk"

  /** The path pushed for a country and a city. */
  function Route(code: string, city: string): string
  {
    RoutePrefix + code + "/" + city
  }

  /** The first index of `c` in `s`, if any. */
  function IndexOf(s: string, c: char): (r: Option<nat>)
    ensures r.Some? ==> r.value < |s| && s[r.value] == c && c !in s[..r.value]
    ensures r.None? ==> c !in s
  {
    if s == [] then None
    else if s[0] == c then Some(0)
    else match IndexOf(s[1..], c)
      case Some(i) =>
        assert s[..i + 1] == [s[0]] + s[1..][..i];
        Some(i + 1)
      case None => None
  }

  /** Reads a path of the shape `/weather/{countryCode}/{city}` back into its
      two segments, splitting at the first `/` after the prefix. */
  function ParseRoute(path: string): Option<(string, string)>
  {
    if |path| >= |RoutePrefix| && path[..|RoutePrefix|] == RoutePrefix then
      var rest := path[|RoutePrefix|..];
      match IndexOf(rest, '/')
      case Some(i) => Some((rest[..i], rest[i + 1..]))
      case None => None
    else None
  }

  /** A country code without `/` and any city come back out of the path
      unchanged. */
  lemma RouteRoundTrip(code: string, city: string)
    requires '/' !in code
    ensures ParseRoute(Route(code, city)) == Some((code, city))
  {
    var path := Route(code, city);
    assert path[..|RoutePrefix|] == RoutePrefix;
    var rest := path[|RoutePrefix|..];
    assert rest == code + ("/" + city);
    assert rest[..|code|] == code;
    assert IndexOf(rest, '/') == Some(|code|) by {
      IndexOfPrefix(code, "/" + city, '/');
    }
    assert rest[|code| + 1..] == city;
  }

  lemma {:induction false} IndexOfPrefix(a: string, b: string, c: char)
    requires c !in a && b != [] && b[0] == c
    ensures IndexOf(a + b, c) == Some(|a|)
  {
    if a != [] {
      assert (a + b)[1..] == a[1..] + b;
      IndexOfPrefix(a[1..], b, c);
    }
  }

  /** What `handleSearch` pushes for a term and a country: nothing when the
      trimmed term or the code is empty, and otherwise a path from which the
      code and the trimmed term read back unchanged (for a code without `/`). */
  function SubmitRoute(term: string, code: string): (route: Option<string>)
    ensures route.None? <==> code == [] || forall k :: 0 <= k < |term| ==> Text.IsWhitespace(term[k])
    ensures route.Some? ==> route.value == Route(code, Text.Trim(term))
    ensures route.Some? && '/' !in code ==> ParseRoute(route.value) == Some((code, Text.Trim(term)))
  {
    Text.TrimEmptyIff(term);
    var city := Text.Trim(term);
    if city != [] && code != [] then
      assert '/' !in code ==> ParseRoute(Route(code, city)) == Some((code, city)) by {
        if '/' !in code {
          RouteRoundTrip(code, city);
        }
      }
      Some(Route(code, city))
    else None
  }

  class SearchBox {
    var searchTerm: string
    var countryCode: string
    /** Every path handed to `router.push`, oldest first. */
    var pushed: seq<string>

    /** The component mounted with the `initialValue` and
        `initialCountryCode` props, each defaulting when not given. */
    constructor (initialValue: Option<string>, initialCountryCode: Option<string>)
      ensures searchTerm == initialValue.GetOr("")
      ensures countryCode == initialCountryCode.GetOr(DefaultCountryCode)
      ensures pushed == []
    {
      searchTerm := initialValue.GetOr("");
      countryCode := initialCountryCode.GetOr(DefaultCountryCode);
      pushed := [];
    }

    /** The input's `onChange`. */
    method EditSearchTerm(term: string)
      modifies this`searchTerm
      ensures searchTerm == term
    {
      searchTerm := term;
    }

    /** The selector's `onChange`. */
    method SelectCountry(code: string)
      modifies this`countryCode
      ensures countryCode == code
    {
      countryCode := code;
    }

    /** The form's submit: at most one path is pushed, and neither the term
        nor the country changes. */
    method HandleSearch() returns (route: Option<string>)
      modifies this`pushed
      ensures route == SubmitRoute(searchTerm, countryCode)
      ensures pushed == old(pushed) + route.ToSeq()
    {
      var city := Text.Trim(searchTerm);
      if city != [] && countryCode != [] {
        route := Some(Route(countryCode, city));
      } else {
        route := None;
      }
      pushed := pushed + route.ToSeq();
    }
  }
}
