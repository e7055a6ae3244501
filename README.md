# Take Me For A Walk: the map component's search pipeline, in Dafny

The web front end turns two free-text addresses into a walking route on a map.
`MapComponent` (frontend/components/Map.tsx) holds the whole logic:

- it geocodes the start address and then the end address, using the first match of each;
- it POSTs `{start_lon, start_lat, end_lon, end_lat}` to the routing backend;
- it keeps the resolved markers, the route and a `loading` flag as component state;
- it draws two dashed connector lines from the markers to the ends of the route.

This project models that logic. The modules are:

- `Geo`: coordinate pairs (longitude first), LineString features and feature collections.
- `Geocoding`: the first-result policy and the alerts raised by `geocode`.
- `RouteClient`: the request body, and how a route reply becomes a route or a failure.
- `Connectors`: the two connector segments and when they are drawn.
- `Orchestration`: `Submit`, the pure specification of one `handleSearch` run over the
  component state. The class `MapComponent` has the state hooks as fields, and its
  `HandleSearch` method performs the same steps in place, proved equal to `Submit`.
  The consistency invariant between searches is defined here.
- `Session`: a component's lifetime as a sequence of edits and searches. Invariants
  that span several searches are proved here by induction.

Each network call is replaced by its answer, passed in as a parameter:
`GeocodeReply` for the geocoder and `RouteReply` for the backend. Two ghost logs record
what the component did: `calls` holds the geocode queries and route request bodies in
the order they were issued, and `alerts` holds the texts shown in `alert` boxes.

Three behaviours of frontend/components/Map.tsx are worth noting:

- A geocode request that throws raises no alert; it is only logged. An empty or
  non-list answer does raise an alert naming the address.
- A failed route request always alerts the same fixed text. The backend's `detail`
  field is only used in the thrown error, which goes to the console
  (`FailureIgnoresDetail`).
- The component tracks progress with the `loading` flag alone, and the model runs
  each search as one step.

## Model

| member | source | states |
|---|---|---|
| `Geocoding.FirstResult` | frontend/components/Map.tsx:32-34 | the result is present iff the candidate list is non-empty, and is then `[lon, lat]` of candidate 0 |
| `Geocoding.Geocode` | frontend/components/Map.tsx:25-41 | a coordinate exactly for a non-empty list (the first candidate's) and then no alert; a thrown error gives nothing and no alert; an empty or non-list answer gives nothing and the "Could not find location" alert naming the query |
| `Geocoding.NotFoundAlert` | frontend/components/Map.tsx:35 | the alert is "Could not find location: " followed by the query in double quotes |
| `Geocoding.NotFoundAlertInjective` | frontend/components/Map.tsx:35 | different addresses give different alerts, so the alert identifies the query that failed |
| `Geocoding.FirstResultIgnoresRest` | frontend/components/Map.tsx:32-33 | candidates after the first, however many, do not change the resolved coordinate |
| `Geocoding.GeocodeLongitudeFirst` | frontend/components/Map.tsx:33 | the pair is built as (candidate lon, candidate lat), never swapped |
| `RouteClient.RouteRequestBody` | frontend/components/Map.tsx:63-68 | the body has exactly the four keys `start_lon`, `start_lat`, `end_lon`, `end_lat`, and reading them back gives the start and end pairs unchanged |
| `RouteClient.RequestBodyInjective` | frontend/components/Map.tsx:63-68 | different endpoint pairs never produce the same body |
| `RouteClient.ReversedRequestDiffers` | frontend/components/Map.tsx:63-68 | start and end are never swapped: the body for (a, b) differs from the body for (b, a) when a and b differ |
| `RouteClient.RejectionMessage` | frontend/components/Map.tsx:74 | the thrown message is the `detail` when it is present and non-empty; a missing or empty `detail` gives "No route found"; never empty |
| `RouteClient.RequestRoute` | frontend/components/Map.tsx:71-78 | a route exactly for an ok response, equal to the parsed body; a rejected response fails with its detail message |
| `Connectors.Connectors` | frontend/components/Map.tsx:176-204 | exactly two features of two points each: start marker to the first vertex of the first route feature, and that feature's last vertex to the end marker |
| `Connectors.ConnectorsCompleteWalk` | frontend/components/Map.tsx:179-199 | the connectors share their inner ends with the route line, and joined with it they form the walk `[start] + route line + [end]` |
| `Connectors.ConnectorLayer` | frontend/components/Map.tsx:172-204 | the connector source is drawn iff route, start marker and end marker are all present, and then holds `Connectors` of them; only then is the route's first feature required to have a vertex |
| `Connectors.SingleFeatureConnectors` | frontend/components/Map.tsx:184-198 | for a route from (-2.24, 53.48) to (-2.20, 53.46), the connectors are [start, (-2.24, 53.48)] and [(-2.20, 53.46), end] |
| `Orchestration.Initial` | frontend/components/Map.tsx:17-22 | a fresh component is not loading, shows no route and has made no calls |
| `Orchestration.Submit` | frontend/components/Map.tsx:44-84 | after a search `loading` is false; the addresses are unchanged; one to three calls are appended, the first a geocode of the start address; a route is shown only beside both markers |
| `Orchestration.StartFailureAborts` | frontend/components/Map.tsx:46-50 | start unresolved: only the start geocode is issued, both markers keep their old values, the route is cleared, only geocode alerts are added, `loading` is false |
| `Orchestration.EndFailureAborts` | frontend/components/Map.tsx:49-54 | end unresolved: exactly two geocodes and no route request; the start marker is the new start; the end marker is unchanged; the route is cleared; only the end geocode's alerts are added |
| `Orchestration.RouteSuccessDisplays` | frontend/components/Map.tsx:55-78 | both resolved and an ok response: geocode, geocode, then one route request for the two new markers in longitude-first order; the route shown is the response body; no alert |
| `Orchestration.RouteFailureClears` | frontend/components/Map.tsx:71-83 | both resolved and the request fails: geocode, geocode, then the one route request for the two new markers were issued; both markers are set; the route stays cleared; exactly the fixed "No route found" alert is added; `loading` is false |
| `Orchestration.FailureIgnoresDetail` | frontend/components/Map.tsx:71-81 | a rejection with any `detail`, one without it and a transport error all leave the same state |
| `Orchestration.RouteShownIffAllSucceeded` | frontend/components/Map.tsx:47-78 | a route is shown after a search iff both geocodes resolved and the response was ok |
| `Orchestration.AppendKeepsRouteOrder` | frontend/components/Map.tsx:49-69 | appending one search's calls (a geocode, two geocodes, or two geocodes then a route request) keeps every route request right after two geocodes |
| `Orchestration.SubmitKeepsConsistent` | frontend/components/Map.tsx:44-84 | a search keeps the invariant: an end marker only with a start marker; a route only with both markers and as the answer to the last call, which requested exactly those markers; every route request right after two geocodes |
| `Orchestration.MapComponent.constructor` | frontend/components/Map.tsx:17-22 | the fields start empty, unset and not loading, and the invariant holds |
| `Orchestration.MapComponent.SetStartAddress` | frontend/components/Map.tsx:98 | only the start address changes |
| `Orchestration.MapComponent.SetEndAddress` | frontend/components/Map.tsx:106 | only the end address changes |
| `Orchestration.MapComponent.HandleSearch` | frontend/components/Map.tsx:44-84 | offered only while not loading (the disabled button, line 111); the fields end up exactly as `Submit` says, `loading` false, invariant kept |
| `Session.Step` | frontend/components/Map.tsx:92-111 | an edit or a search leaves the component not loading and only appends to the call log |
| `Session.Run` | frontend/components/Map.tsx:92-111 | over any run of edits and searches, `loading` ends false and the call log only grows |
| `Session.StepKeepsConsistent` | frontend/components/Map.tsx:44-106 | edits and searches each keep the invariant |
| `Session.RunKeepsConsistent` | frontend/components/Map.tsx:44-106 | the invariant holds after any run of events |
| `Session.RunKeepsMarkers` | frontend/components/Map.tsx:49-55 | once placed, a marker is never removed by later searches, failed or not |
| `Session.RunThenStep` | frontend/components/Map.tsx:92-111 | an event after a run acts on the state that run reached |
| `Session.LastSearchDecidesRoute` | frontend/components/Map.tsx:46-78 | after a search, the route shown is that search's ok answer if both current addresses resolved, and none otherwise, whatever earlier routes, markers and replies were |
| `Session.SessionConsistent` | frontend/components/Map.tsx:17-84 | every state a mounted component reaches between searches satisfies the invariant |
| `Session.ConnectorsAccompanyRoute` | frontend/components/Map.tsx:172-199 | between searches the connectors are drawn iff the route is, and they reach the two points the shown route was requested for |

## Left out

- Rendering: JSX, map style, markers, route and connector layer paint properties,
  `NavigationControl` (frontend/components/Map.tsx:86-220). These are declarative UI.
  Only the condition and data of the connector source are modelled.
- The network calls, URL building with `encodeURIComponent` and the bounding box,
  `fetch`, `response.json()`, `alert` and `console`. Their answers are the
  `GeocodeReply` and `RouteReply` parameters; alerts go into a ghost log.
  Console output is not modelled.
- `parseFloat`: a candidate carries its longitude and latitude already as numbers.
  A non-numeric string (NaN) is not modelled. A JSON string answer from the geocoder
  is treated like any other non-list answer.
- Floating point: coordinates are exact reals, so IEEE rounding and NaN are not modelled.
- The distance and time formatting of the stats panel (`toFixed(2)`, `Math.round`,
  frontend/components/Map.tsx:125, 131). This is floating-point text formatting; the
  metadata is kept in the route value.
- `Connectors.Connectors`: requires a first feature with at least one vertex. The source
  indexes without a check. With no feature, rendering throws; with an empty vertex list,
  the connectors get `undefined` endpoints. Neither case is modelled.
- Overlapping searches: each search is one atomic step, and the form's text inputs
  cannot change during it. `handleSearch` has no re-entry check of its own; only the
  disabled submit button (frontend/components/Map.tsx:111) prevents a second submission
  while one is running.
- frontend/src/app/page.tsx (a health-check fetch and page wrapper),
  frontend/next.config.ts (proxy rewrites) and backend/main.py (a health endpoint).
  None of them has logic this component depends on.
