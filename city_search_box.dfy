/** The `SearchBox` of `src/app/components/searchBox.tsx`: a search term held
    in component state; submitting pushes `/weather/{city}` when the trimmed
    term is not empty. */
module CitySearchBox {
  import opened Wrappers
  import Text

  const RoutePrefix := "/weather/"

  /** The path pushed for a city. */
  function Route(city: string): string
  {
    RoutePrefix + city
  }

  /** Reads the city segment back out of a `/weather/{city}` path. */
  function ParseRoute(path: string): Option<string>
  {
    if |path| >= |RoutePrefix| && path[..|RoutePrefix|] == RoutePrefix
    then Some(path[|RoutePrefix|..])
    else None
  }

  lemma RouteRoundTrip(city: string)
    ensures ParseRoute(Route(city)) == Some(city)
  {
    assert Route(city)[..|RoutePrefix|] == RoutePrefix;
  }

  /** What `handleSearch` pushes for a term: nothing when the trimmed term is
      empty, and otherwise a path from which the trimmed term reads back,
      itself unchanged by trimming again. */
  function SubmitRoute(term: string): (route: Option<string>)
    ensures route.None? <==> forall k :: 0 <= k < |term| ==> Text.IsWhitespace(term[k])
    ensures route.Some? ==> ParseRoute(route.value) == Some(Text.Trim(term))
    ensures route.Some? ==> Text.Trim(ParseRoute(route.value).value) == ParseRoute(route.value).value
  {
    Text.TrimEmptyIff(term);
    Text.TrimIdempotent(term);
    var city := Text.Trim(term);
    if city != [] then
      RouteRoundTrip(city);
      Some(Route(city))
    else None
  }

  class SearchBox {
    var searchTerm: string
    /** Every path handed to `router.push`, oldest first. */
    var pushed: seq<string>

    /** The component mounted with the `initialValue` prop, `''` when not given. */
    constructor (initialValue: Option<string>)
      ensures searchTerm == initialValue.GetOr("")
      ensures pushed == []
    {
      searchTerm := initialValue.GetOr("");
      pushed := [];
    }

    /** The input's `onChange`. */
    method EditSearchTerm(term: string)
      modifies this`searchTerm
      ensures searchTerm == term
    {
      searchTerm := term;
    }

    /** The form's submit: at most one path is pushed and the term does not change. */
    method HandleSearch() returns (route: Option<string>)
      modifies this`pushed
      ensures route == SubmitRoute(searchTerm)
      ensures pushed == old(pushed) + route.ToSeq()
    {
      var city := Text.Trim(searchTerm);
      if city != [] {
        route := Some(Route(city));
      } else {
        route := None;
      }
      pushed := pushed + route.ToSeq();
    }
  }
}
