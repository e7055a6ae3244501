/**
 * The dashed "doorstep" connectors: two two-point lines joining each marker to
 * the nearer end of the route's first feature, and the condition under which
 * the map shows them.
 */
module Connectors {
  import opened Wrappers
  import opened Geo

  /** The connector FeatureCollection: start marker to first vertex, last vertex to end marker. */
  function Connectors(start: Coord, end: Coord, route: FeatureCollection): (r: FeatureCollection)
    requires HasEndpoints(route)
    ensures |r.features| == 2
    ensures forall i :: 0 <= i < |r.features| ==> |r.features[i].coordinates| == 2
    ensures r.features[0].coordinates[0] == start && r.features[1].coordinates[1] == end
    ensures r.features[0].coordinates[1] == MainLine(route)[0]
    ensures r.features[1].coordinates[0] == Last(MainLine(route))
  {
    var line := MainLine(route);
    FeatureCollection([Feature([start, line[0]]), Feature([Last(line), end])], None)
  }

  /** Joining two lines that share an end vertex: `a` followed by `b` without its repeated first vertex. */
  function Splice(a: seq<Coord>, b: seq<Coord>): (r: seq<Coord>)
    requires |a| > 0 && |b| > 0 && Last(a) == b[0]
    ensures |r| == |a| + |b| - 1
  {
    a + b[1..]
  }

  /**
   * Stitched together, the first connector, the route line and the second connector
   * form one walk that leaves the start marker, passes every route vertex in order and
   * arrives at the end marker.
   */
  lemma ConnectorsCompleteWalk(start: Coord, end: Coord, route: FeatureCollection)
    requires HasEndpoints(route)
    ensures var c := Connectors(start, end, route).features;
      && Last(c[0].coordinates) == MainLine(route)[0]
      && Last(MainLine(route)) == c[1].coordinates[0]
      && Splice(Splice(c[0].coordinates, MainLine(route)), c[1].coordinates)
         == [start] + MainLine(route) + [end]
  {
  }

  /** The connector source is rendered exactly when a route and both markers are present. */
  function ConnectorLayer(startCoords: Option<Coord>, endCoords: Option<Coord>,
                          routeData: Option<FeatureCollection>): (r: Option<FeatureCollection>)
    requires routeData.Some? && startCoords.Some? && endCoords.Some? ==> HasEndpoints(routeData.value)
    ensures r.Some? <==> routeData.Some? && startCoords.Some? && endCoords.Some?
    ensures r.Some? ==> r.value == Connectors(startCoords.value, endCoords.value, routeData.value)
  {
    if routeData.Some? && startCoords.Some? && endCoords.Some?
    then Some(Connectors(startCoords.value, endCoords.value, routeData.value))
    else None
  }

  /** A route of one feature from (-2.24, 53.48) to (-2.20, 53.46) is joined at exactly those vertices. */
  lemma SingleFeatureConnectors(start: Coord, end: Coord)
    ensures var route := FeatureCollection([Feature([Coord(-2.24, 53.48), Coord(-2.22, 53.47), Coord(-2.20, 53.46)])], None);
      Connectors(start, end, route).features
        == [Feature([start, Coord(-2.24, 53.48)]), Feature([Coord(-2.20, 53.46), end])]
  {
  }
}
