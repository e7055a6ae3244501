/**
 * The route request of `handleSearch`: the JSON body POSTed to `/api/route`
 * and what the component makes of the backend's answer.
 */
module RouteClient {
  import opened Wrappers
  import opened Geo

  /** The JSON body of the route request, as an object from field names to numbers. */
  type RequestBody = map<string, real>

  /**
   * `{start_lon, start_lat, end_lon, end_lat}` built from element 0 (longitude)
   * and element 1 (latitude) of each coordinate pair.
   */
  function RouteRequestBody(start: Coord, end: Coord): (body: RequestBody)
    ensures body.Keys == {"start_lon", "start_lat", "end_lon", "end_lat"}
    ensures ReadEndpoints(body) == Some((start, end))
  {
    map["start_lon" := start.lon, "start_lat" := start.lat,
        "end_lon" := end.lon, "end_lat" := end.lat]
  }

  /** How a reader of the body (the backend) recovers the two positions from the field names. */
  function ReadEndpoints(body: RequestBody): (r: Option<(Coord, Coord)>)
    ensures r.Some? <==> {"start_lon", "start_lat", "end_lon", "end_lat"} <= body.Keys
  {
    if "start_lon" in body && "start_lat" in body && "end_lon" in body && "end_lat" in body
    then Some((Coord(body["start_lon"], body["start_lat"]), Coord(body["end_lon"], body["end_lat"])))
    else None
  }

  /** Distinct endpoint pairs give distinct bodies: nothing is swapped or lost. */
  lemma RequestBodyInjective(s1: Coord, e1: Coord, s2: Coord, e2: Coord)
    requires RouteRequestBody(s1, e1) == RouteRequestBody(s2, e2)
    ensures s1 == s2 && e1 == e2
  {
  }

  /** A route between two different points is not the same request as the route back. */
  lemma ReversedRequestDiffers(start: Coord, end: Coord)
    requires start != end
    ensures RouteRequestBody(start, end) != RouteRequestBody(end, start)
  {
  }

  /** What the POST can come back with. */
  datatype RouteReply =
    | Delivered(data: FeatureCollection)  // `response.ok`, body parsed as a route
    | Rejected(detail: Option<string>)    // non-2xx status with a JSON body `{detail?}`
    | Thrown(message: string)             // transport failure or a body that is not JSON

  /** The request's result: a route, or the message of the error thrown inside the `try`. */
  datatype RouteOutcome = Routed(data: FeatureCollection) | NoRoute(reason: string)

  /** `errorData.detail || "No route found"`: a missing or empty detail falls back to the default. */
  function RejectionMessage(detail: Option<string>): (msg: string)
    ensures msg != ""
    ensures detail.Some? && detail.value != "" ==> msg == detail.value
    ensures detail.None? || detail.value == "" ==> msg == "No route found"
  {
    if detail.Some? && detail.value != "" then detail.value else "No route found"
  }

  /** Only an ok response produces a route, and that route is the parsed body unchanged. */
  function RequestRoute(reply: RouteReply): (r: RouteOutcome)
    ensures r.Routed? <==> reply.Delivered?
    ensures r.Routed? ==> r.data == reply.data
    ensures reply.Rejected? ==> r == NoRoute(RejectionMessage(reply.detail))
  {
    match reply
    case Delivered(data) => Routed(data)
    case Rejected(detail) => NoRoute(RejectionMessage(detail))
    case Thrown(message) => NoRoute(message)
  }
}
