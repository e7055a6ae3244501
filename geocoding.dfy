/**
 * The `geocode` helper of the map component: one Nominatim search per
 * address, of which only the first candidate is used.
 */
module Geocoding {
  import opened Wrappers
  import opened Geo

  /** A search candidate, reduced to its numeric position (the provider lists latitude first). */
  datatype Candidate = Candidate(lat: real, lon: real)

  /** What the provider's search call can come back with. */
  datatype GeocodeReply =
    | Candidates(items: seq<Candidate>)  // a JSON array of matches, possibly empty
    | NotAList                           // `null` or a JSON object: `data.length > 0` is false
    | FetchError                         // the fetch rejected or the body was not JSON

  /** The value `geocode` resolves to, and the alerts it raised on the way. */
  datatype Geocoded = Geocoded(coord: Option<Coord>, alerts: seq<string>)

  /** The alert naming an address that had no match: the fixed lead-in, then the query in double quotes. */
  function NotFoundAlert(query: string): (msg: string)
    ensures |msg| == |query| + 27
    ensures msg[..25] == "Could not find location: "
    ensures msg[25] == '"' && msg[|msg| - 1] == '"'
    ensures msg[26..|msg| - 1] == query
  {
    "Could not find location: \"" + query + "\""
  }

  /** Different addresses give different alerts: the user is told which query failed. */
  lemma NotFoundAlertInjective(q1: string, q2: string)
    requires NotFoundAlert(q1) == NotFoundAlert(q2)
    ensures q1 == q2
  {
    var m := NotFoundAlert(q1);
    assert q1 == m[26..|m| - 1] == q2;
  }

  /** First-result policy: the `[lon, lat]` of candidate 0, or nothing for an empty list. */
  function FirstResult(items: seq<Candidate>): (r: Option<Coord>)
    ensures r.Some? <==> |items| > 0
    ensures r.Some? ==> r.value.lon == items[0].lon && r.value.lat == items[0].lat
  {
    if |items| > 0 then Some(Coord(items[0].lon, items[0].lat)) else None
  }

  /**
   * `geocode(query)` given the provider's reply: a non-empty list yields its first
   * candidate; an empty list or a non-list yields nothing and alerts the user; a
   * thrown error yields nothing and is only logged to the console.
   */
  function Geocode(query: string, reply: GeocodeReply): (g: Geocoded)
    ensures g.coord.Some? <==> reply.Candidates? && |reply.items| > 0
    ensures g.coord.Some? ==> g.coord == FirstResult(reply.items) && g.alerts == []
    ensures reply.FetchError? ==> g.alerts == []
    ensures g.coord.None? && !reply.FetchError? ==> g.alerts == [NotFoundAlert(query)]
  {
    match reply
    case Candidates(items) =>
      var first := FirstResult(items);
      if first.Some? then Geocoded(first, []) else Geocoded(None, [NotFoundAlert(query)])
    case NotAList => Geocoded(None, [NotFoundAlert(query)])
    case FetchError => Geocoded(None, [])
  }

  /** Only candidate 0 matters: whatever follows it, however many, changes nothing. */
  lemma FirstResultIgnoresRest(items: seq<Candidate>, more: seq<Candidate>)
    requires |items| > 0
    ensures Geocode("", Candidates(items + more)).coord == FirstResult(items)
    ensures FirstResult(items + more) == Some(Coord(items[0].lon, items[0].lat))
  {
  }

  /** Longitude and latitude are never swapped: the pair is built from the candidate's `lon` then `lat`. */
  lemma GeocodeLongitudeFirst(query: string, c: Candidate, rest: seq<Candidate>)
    ensures Geocode(query, Candidates([c] + rest)).coord == Some(Coord(c.lon, c.lat))
  {
  }
}
