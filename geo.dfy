/**
 * Shared geometry values of the map component: `[lon, lat]` coordinate pairs,
 * LineString features and the GeoJSON-like feature collection that the routing
 * backend returns and the connector layer is built from.
 */
module Geo {
  import opened Wrappers

  /** A WGS84 position, always stored longitude first, as the `[number, number]` pairs are. */
  datatype Coord = Coord(lon: real, lat: real)

  /** A `Feature` whose geometry is a LineString: the ordered vertices of a line. */
  datatype Feature = Feature(coordinates: seq<Coord>)

  /** The optional statistics the backend attaches to a route. */
  datatype Metadata = Metadata(distanceM: real, durationMin: real)

  /** A `FeatureCollection` of line features, with the route's optional metadata. */
  datatype FeatureCollection = FeatureCollection(features: seq<Feature>, metadata: Option<Metadata>)

  /**
   * What the connector layer assumes of a route without checking it: a first
   * feature exists and that feature has at least one vertex.
   */
  predicate HasEndpoints(route: FeatureCollection) {
    |route.features| > 0 && |route.features[0].coordinates| > 0
  }

  /** The vertices of the route's first feature, the line the connectors attach to. */
  function MainLine(route: FeatureCollection): (line: seq<Coord>)
    requires HasEndpoints(route)
    ensures |line| > 0
  {
    route.features[0].coordinates
  }

  function Last<T>(s: seq<T>): T
    requires |s| > 0
  {
    s[|s| - 1]
  }
}
