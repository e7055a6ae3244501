/**
 * A component's lifetime as a sequence of user events: edits of the two form
 * fields and searches submitted while the button is enabled. Properties that span
 * several searches are proved here by induction over the events.
 */
module Session {
  import opened Wrappers
  import opened Geo
  import opened Geocoding
  import opened RouteClient
  import opened Connectors
  import opened Orchestration

  /** A user action, with the answers the external services give to a search. */
  datatype Event =
    | EditStart(text: string)
    | EditEnd(text: string)
    | Search(startReply: GeocodeReply, endReply: GeocodeReply, routeReply: RouteReply)

  /** The component's state after one event. */
  function Step(s: State, e: Event): (t: State)
    requires !s.loading
    ensures !t.loading
    ensures |s.calls| <= |t.calls| && t.calls[..|s.calls|] == s.calls
  {
    match e
    case EditStart(text) => s.(startAddress := text)
    case EditEnd(text) => s.(endAddress := text)
    case Search(startReply, endReply, routeReply) => Submit(s, startReply, endReply, routeReply)
  }

  /** The state after a run of events; each search finds the button enabled again. */
  function Run(s: State, events: seq<Event>): (t: State)
    requires !s.loading
    ensures !t.loading
    ensures |s.calls| <= |t.calls| && t.calls[..|s.calls|] == s.calls
    decreases |events|
  {
    if events == [] then s else Run(Step(s, events[0]), events[1..])
  }

  lemma StepKeepsConsistent(s: State, e: Event)
    requires !s.loading && Consistent(s)
    ensures Consistent(Step(s, e))
  {
    if e.Search? {
      SubmitKeepsConsistent(s, e.startReply, e.endReply, e.routeReply);
    }
  }

  /** Consistency holds between searches for the whole lifetime of the component. */
  lemma {:induction false} RunKeepsConsistent(s: State, events: seq<Event>)
    requires !s.loading && Consistent(s)
    ensures Consistent(Run(s, events))
    decreases |events|
  {
    if events != [] {
      StepKeepsConsistent(s, events[0]);
      RunKeepsConsistent(Step(s, events[0]), events[1..]);
    }
  }

  /** A marker, once placed, stays on the map: later failures move or keep it, never remove it. */
  lemma {:induction false} RunKeepsMarkers(s: State, events: seq<Event>)
    requires !s.loading
    ensures s.startCoords.Some? ==> Run(s, events).startCoords.Some?
    ensures s.endCoords.Some? ==> Run(s, events).endCoords.Some?
    decreases |events|
  {
    if events != [] {
      RunKeepsMarkers(Step(s, events[0]), events[1..]);
    }
  }

  /** One more event after a run acts on the state the run reached. */
  lemma {:induction false} RunThenStep(s: State, events: seq<Event>, e: Event)
    requires !s.loading
    ensures Run(s, events + [e]) == Step(Run(s, events), e)
    decreases |events|
  {
    if events == [] {
      assert events + [e] == [e];
      assert Run(Step(s, e), []) == Step(s, e);
    } else {
      assert (events + [e])[1..] == events[1..] + [e];
      RunThenStep(Step(s, events[0]), events[1..], e);
    }
  }

  /**
   * The route on display after a search is decided by that search alone: it is the
   * backend's answer when both addresses resolved and the answer was ok, and none
   * otherwise, whatever route, markers or replies came before. Only the two
   * addresses in the form at that moment carry over.
   */
  lemma LastSearchDecidesRoute(s: State, events: seq<Event>, e: Event)
    requires !s.loading && e.Search?
    ensures var before := Run(s, events);
      Run(s, events + [e]).routeData
        == if && Geocode(before.startAddress, e.startReply).coord.Some?
              && Geocode(before.endAddress, e.endReply).coord.Some?
              && e.routeReply.Delivered?
           then Some(e.routeReply.data) else None
  {
    RunThenStep(s, events, e);
    var before := Run(s, events);
    RouteShownIffAllSucceeded(before, e.startReply, e.endReply, e.routeReply);
    if && Geocode(before.startAddress, e.startReply).coord.Some?
       && Geocode(before.endAddress, e.endReply).coord.Some?
       && e.routeReply.Delivered? {
      RouteSuccessDisplays(before, e.startReply, e.endReply, e.routeReply.data);
    }
  }

  /** Every state a mounted component reaches between searches is consistent. */
  lemma SessionConsistent(events: seq<Event>)
    ensures Consistent(Run(Initial(), events))
  {
    RunKeepsConsistent(Initial(), events);
  }

  /**
   * Between searches the dashed connectors are drawn exactly when the route is, and
   * they reach out to the two points the displayed route was requested for.
   */
  lemma ConnectorsAccompanyRoute(events: seq<Event>)
    requires var t := Run(Initial(), events);
      t.routeData.Some? ==> HasEndpoints(t.routeData.value)
    ensures var t := Run(Initial(), events);
      var layer := ConnectorLayer(t.startCoords, t.endCoords, t.routeData);
      && (layer.Some? <==> t.routeData.Some?)
      && (layer.Some? ==>
            && |t.calls| > 0
            && Last(t.calls) == RouteCall(RouteRequestBody(layer.value.features[0].coordinates[0],
                                                           layer.value.features[1].coordinates[1])))
  {
    SessionConsistent(events);
  }
}
