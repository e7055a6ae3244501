/**
 * `handleSearch` of the map component: geocode the start address, then the end
 * address, then request the route, stopping at the first failure and always
 * finishing with `loading` false. A search is modelled as one atomic step.
 *
 * `Submit` is the specification of one search as a function of the component's
 * state before it; the class `MapComponent` holds the state in fields and its
 * `HandleSearch` method performs the same steps in place.
 */
module Orchestration {
  import opened Wrappers
  import opened Geo
  import opened Geocoding
  import opened RouteClient

  /** An external call the component issues, in the order issued. */
  datatype Call = GeocodeCall(query: string) | RouteCall(body: RequestBody)

  /**
   * The component's state: the two form fields, the resolved markers, the route on
   * display and the busy flag; `calls` and `alerts` record what went out to the
   * geocoder and the backend and what the user was shown in `alert` boxes.
   */
  datatype State = State(
    startAddress: string,
    endAddress: string,
    startCoords: Option<Coord>,
    endCoords: Option<Coord>,
    routeData: Option<FeatureCollection>,
    loading: bool,
    calls: seq<Call>,
    alerts: seq<string>)

  /** The state a freshly mounted component starts in. */
  function Initial(): (s: State)
    ensures !s.loading && s.routeData.None? && s.calls == []
  {
    State("", "", None, None, None, false, [], [])
  }

  /** The alert of a failed route request, whatever the failure. */
  const NoRouteAlert := "No route found. Try points closer to a main road."

  /** Every route request comes right after two geocode calls. */
  ghost predicate RouteCallsFollowGeocodes(calls: seq<Call>) {
    forall i :: 0 <= i < |calls| && calls[i].RouteCall? ==>
      2 <= i && calls[i - 2].GeocodeCall? && calls[i - 1].GeocodeCall?
  }

  /**
   * What holds of the component between searches: an end marker only beside a start
   * marker; a route only beside both markers, and only as the answer to the latest
   * call, which asked for the route between exactly those two markers.
   */
  ghost predicate Consistent(s: State) {
    && (s.endCoords.Some? ==> s.startCoords.Some?)
    && (s.routeData.Some? ==>
          && s.startCoords.Some? && s.endCoords.Some?
          && |s.calls| > 0
          && Last(s.calls) == RouteCall(RouteRequestBody(s.startCoords.value, s.endCoords.value)))
    && RouteCallsFollowGeocodes(s.calls)
  }

  /**
   * One search run, stage by stage, given what the two geocode calls and the route
   * request would answer. A new search is offered only while `loading` is false.
   */
  function Submit(s: State, startReply: GeocodeReply, endReply: GeocodeReply, routeReply: RouteReply): (t: State)
    requires !s.loading
    ensures !t.loading
    ensures t.startAddress == s.startAddress && t.endAddress == s.endAddress
    ensures |s.calls| < |t.calls| <= |s.calls| + 3 && t.calls[..|s.calls|] == s.calls
    ensures t.calls[|s.calls|] == GeocodeCall(s.startAddress)
    ensures t.routeData.Some? ==> t.startCoords.Some? && t.endCoords.Some?
  {
    var busy := s.(loading := true, routeData := None);
    var first := Geocode(s.startAddress, startReply);
    var afterStart := busy.(calls := busy.calls + [GeocodeCall(s.startAddress)],
                            alerts := busy.alerts + first.alerts);
    if first.coord.None? then afterStart.(loading := false)
    else
      var start := first.coord.value;
      var second := Geocode(s.endAddress, endReply);
      var afterEnd := afterStart.(startCoords := Some(start),
                                  calls := afterStart.calls + [GeocodeCall(s.endAddress)],
                                  alerts := afterStart.alerts + second.alerts);
      if second.coord.None? then afterEnd.(loading := false)
      else
        var end := second.coord.value;
        var requested := afterEnd.(endCoords := Some(end),
                                   calls := afterEnd.calls + [RouteCall(RouteRequestBody(start, end))]);
        match RequestRoute(routeReply)
        case Routed(data) => requested.(routeData := Some(data), loading := false)
        case NoRoute(_) => requested.(alerts := requested.alerts + [NoRouteAlert], loading := false)
  }

  /**
   * Start address unresolved: the end address is never geocoded, no route is
   * requested, both markers keep their earlier values and the route is cleared.
   */
  lemma StartFailureAborts(s: State, startReply: GeocodeReply, endReply: GeocodeReply, routeReply: RouteReply)
    requires !s.loading
    requires Geocode(s.startAddress, startReply).coord.None?
    ensures var t := Submit(s, startReply, endReply, routeReply);
      && t.calls == s.calls + [GeocodeCall(s.startAddress)]
      && t.startCoords == s.startCoords && t.endCoords == s.endCoords
      && t.routeData.None? && !t.loading
      && t.alerts == s.alerts + Geocode(s.startAddress, startReply).alerts
  {
  }

  /**
   * Start resolved, end unresolved: the start marker moves to the new position, the
   * end marker keeps its earlier value, no route is requested and the route stays cleared.
   */
  lemma EndFailureAborts(s: State, startReply: GeocodeReply, endReply: GeocodeReply, routeReply: RouteReply)
    requires !s.loading
    requires Geocode(s.startAddress, startReply).coord.Some?
    requires Geocode(s.endAddress, endReply).coord.None?
    ensures var t := Submit(s, startReply, endReply, routeReply);
      && t.calls == s.calls + [GeocodeCall(s.startAddress), GeocodeCall(s.endAddress)]
      && t.startCoords == Geocode(s.startAddress, startReply).coord
      && t.endCoords == s.endCoords
      && t.routeData.None? && !t.loading
      && t.alerts == s.alerts + Geocode(s.endAddress, endReply).alerts
  {
  }

  /**
   * Both resolved: the route is requested once, for the two new markers in
   * longitude-first order; an ok answer is displayed as received and nothing is alerted.
   */
  lemma RouteSuccessDisplays(s: State, startReply: GeocodeReply, endReply: GeocodeReply, data: FeatureCollection)
    requires !s.loading
    requires Geocode(s.startAddress, startReply).coord.Some?
    requires Geocode(s.endAddress, endReply).coord.Some?
    ensures var start := Geocode(s.startAddress, startReply).coord.value;
      var end := Geocode(s.endAddress, endReply).coord.value;
      var t := Submit(s, startReply, endReply, Delivered(data));
      && t.calls == s.calls + [GeocodeCall(s.startAddress), GeocodeCall(s.endAddress),
                               RouteCall(RouteRequestBody(start, end))]
      && t.startCoords == Some(start) && t.endCoords == Some(end)
      && t.routeData == Some(data) && !t.loading
      && t.alerts == s.alerts
  {
  }

  /**
   * Both resolved but the request fails (non-ok status or a thrown error): the route
   * request for the two new markers was issued, the markers are set, the route stays
   * cleared and the user gets the one fixed alert.
   */
  lemma RouteFailureClears(s: State, startReply: GeocodeReply, endReply: GeocodeReply, routeReply: RouteReply)
    requires !s.loading
    requires Geocode(s.startAddress, startReply).coord.Some?
    requires Geocode(s.endAddress, endReply).coord.Some?
    requires !routeReply.Delivered?
    ensures var start := Geocode(s.startAddress, startReply).coord.value;
      var end := Geocode(s.endAddress, endReply).coord.value;
      var t := Submit(s, startReply, endReply, routeReply);
      && t.calls == s.calls + [GeocodeCall(s.startAddress), GeocodeCall(s.endAddress),
                               RouteCall(RouteRequestBody(start, end))]
      && t.startCoords == Geocode(s.startAddress, startReply).coord
      && t.endCoords == Geocode(s.endAddress, endReply).coord
      && t.routeData.None? && !t.loading
      && t.alerts == s.alerts + [NoRouteAlert]
  {
  }

  /** The backend's `detail` text never reaches the user: every failed request ends the same way. */
  lemma FailureIgnoresDetail(s: State, startReply: GeocodeReply, endReply: GeocodeReply,
                             detail: Option<string>, message: string)
    requires !s.loading
    ensures Submit(s, startReply, endReply, Rejected(detail))
         == Submit(s, startReply, endReply, Thrown(message))
         == Submit(s, startReply, endReply, Rejected(None))
  {
  }

  /** A route is on display after a search exactly when both addresses resolved and the answer was ok. */
  lemma RouteShownIffAllSucceeded(s: State, startReply: GeocodeReply, endReply: GeocodeReply, routeReply: RouteReply)
    requires !s.loading
    ensures Submit(s, startReply, endReply, routeReply).routeData.Some?
        <==> && Geocode(s.startAddress, startReply).coord.Some?
             && Geocode(s.endAddress, endReply).coord.Some?
             && routeReply.Delivered?
  {
  }

  /** Appending the calls of one search (a geocode, two, or two and a route request) keeps the order. */
  lemma AppendKeepsRouteOrder(calls: seq<Call>, more: seq<Call>)
    requires RouteCallsFollowGeocodes(calls)
    requires 1 <= |more| <= 3 && more[0].GeocodeCall?
    requires |more| >= 2 ==> more[1].GeocodeCall?
    ensures RouteCallsFollowGeocodes(calls + more)
  {
    var all := calls + more;
    forall i | 0 <= i < |all| && all[i].RouteCall?
      ensures 2 <= i && all[i - 2].GeocodeCall? && all[i - 1].GeocodeCall?
    {
      if i < |calls| {
        assert all[i] == calls[i] && all[i - 2] == calls[i - 2] && all[i - 1] == calls[i - 1];
      } else {
        assert i == |calls| + 2;
      }
    }
  }

  /** A search started between searches leaves the component consistent again. */
  lemma SubmitKeepsConsistent(s: State, startReply: GeocodeReply, endReply: GeocodeReply, routeReply: RouteReply)
    requires !s.loading && Consistent(s)
    ensures Consistent(Submit(s, startReply, endReply, routeReply))
  {
    var first := Geocode(s.startAddress, startReply);
    var second := Geocode(s.endAddress, endReply);
    if first.coord.None? {
      StartFailureAborts(s, startReply, endReply, routeReply);
      AppendKeepsRouteOrder(s.calls, [GeocodeCall(s.startAddress)]);
    } else if second.coord.None? {
      EndFailureAborts(s, startReply, endReply, routeReply);
      AppendKeepsRouteOrder(s.calls, [GeocodeCall(s.startAddress), GeocodeCall(s.endAddress)]);
    } else {
      var request := RouteCall(RouteRequestBody(first.coord.value, second.coord.value));
      var more := [GeocodeCall(s.startAddress), GeocodeCall(s.endAddress), request];
      var t := Submit(s, startReply, endReply, routeReply);
      assert t.calls == s.calls + more;
      AppendKeepsRouteOrder(s.calls, more);
    }
  }

  /** The map component: the state hooks of the React function component, as fields. */
  class MapComponent {
    var startAddress: string
    var endAddress: string
    var startCoords: Option<Coord>
    var endCoords: Option<Coord>
    var routeData: Option<FeatureCollection>
    var loading: bool
    ghost var calls: seq<Call>
    ghost var alerts: seq<string>

    /** The fields, read together as a state value. */
    ghost function Snapshot(): State
      reads this
    {
      State(startAddress, endAddress, startCoords, endCoords, routeData, loading, calls, alerts)
    }

    ghost predicate Valid()
      reads this
    {
      Consistent(Snapshot())
    }

    /** A mounted component: empty form, no markers, no route, not busy. */
    constructor ()
      ensures Valid() && Snapshot() == Initial()
    {
      startAddress, endAddress := "", "";
      startCoords, endCoords := None, None;
      routeData := None;
      loading := false;
      calls, alerts := [], [];
    }

    /** Typing into the start field. */
    method SetStartAddress(text: string)
      requires Valid()
      modifies this
      ensures Valid() && Snapshot() == old(Snapshot()).(startAddress := text)
    {
      startAddress := text;
    }

    /** Typing into the end field. */
    method SetEndAddress(text: string)
      requires Valid()
      modifies this
      ensures Valid() && Snapshot() == old(Snapshot()).(endAddress := text)
    {
      endAddress := text;
    }

    /**
     * Submitting the form while the button is enabled: the fields end up exactly as
     * `Submit` describes, with `loading` false and the component consistent.
     */
    method HandleSearch(startReply: GeocodeReply, endReply: GeocodeReply, routeReply: RouteReply)
      requires Valid() && !loading
      modifies this
      ensures Valid() && !loading
      ensures Snapshot() == Submit(old(Snapshot()), startReply, endReply, routeReply)
    {
      ghost var before := Snapshot();
      SubmitKeepsConsistent(before, startReply, endReply, routeReply);
      loading := true;
      routeData := None;

      calls := calls + [GeocodeCall(startAddress)];
      var first := Geocode(startAddress, startReply);
      alerts := alerts + first.alerts;
      if first.coord.None? {
        loading := false;
        return;
      }
      var start := first.coord.value;
      startCoords := Some(start);

      calls := calls + [GeocodeCall(endAddress)];
      var second := Geocode(endAddress, endReply);
      alerts := alerts + second.alerts;
      if second.coord.None? {
        loading := false;
        return;
      }
      var end := second.coord.value;
      endCoords := Some(end);

      calls := calls + [RouteCall(RouteRequestBody(start, end))];
      match RequestRoute(routeReply) {
        case Routed(data) =>
          routeData := Some(data);
        case NoRoute(_) =>
          alerts := alerts + [NoRouteAlert];
      }
      loading := false;
    }
  }
}
