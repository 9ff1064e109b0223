/** The orchestrating `Map` component: the events sub-state driven by the
    coordinates effect and by the settlement of the fetch, and the pure choice
    of what to show. React's effects become explicit events. */
module MapView {
  import opened Optional
  import opened Events
  import Geolocation
  import Ticketmaster

  // ---------------------------------------------------------------------
  // The events sub-state
  // ---------------------------------------------------------------------

  /** The component's own state. */
  datatype EventsState = EventsState(events: seq<Event>, isLoadingEvents: bool)

  /** No events, not loading. */
  const INITIAL_EVENTS: EventsState := EventsState([], false)

  /** A call of `fetchEvents` with its two arguments. */
  datatype FetchCall = FetchCall(lat: Number, lng: Number)

  /** What the coordinates effect does: the state it leaves and the fetch it
      starts, if any. */
  datatype Effect = Effect(state: EventsState, call: Option<FetchCall>)

  /** How a started fetch settles. */
  datatype Settlement = Resolved(fetched: seq<Event>) | Rejected

  /** The effect run when the coordinates change. Without coordinates it does
      nothing; with them it raises the loading flag and calls the fetch with
      exactly the coordinates' latitude and longitude. */
  function OnCoordinates(s: EventsState, coordinates: Option<LatLng>): (r: Effect)
    ensures coordinates.None? ==> r.state == s && r.call.None?
    ensures coordinates.Some? ==>
              && r.state.isLoadingEvents
              && r.state.events == s.events
              && r.call == Some(FetchCall(coordinates.value.lat, coordinates.value.lng))
  {
    match coordinates
    case None => Effect(s, None)
    case Some(c) => Effect(s.(isLoadingEvents := true), Some(FetchCall(c.lat, c.lng)))
  }

  /** The fetch settles: a resolution replaces the events wholesale, a
      rejection keeps them, and either way loading stops. */
  function OnSettled(s: EventsState, outcome: Settlement): (t: EventsState)
    ensures !t.isLoadingEvents
    ensures outcome.Resolved? ==> t.events == outcome.fetched
    ensures outcome.Rejected? ==> t.events == s.events
  {
    match outcome
    case Resolved(fetched) => EventsState(fetched, false)
    case Rejected => s.(isLoadingEvents := false)
  }

  /** There is no guard against stale results: of two settlements, the later
      decides the events, whichever call it belongs to, and the first one
      already clears the loading flag. */
  lemma LaterSettlementWins(s: EventsState, first: Settlement, later: seq<Event>)
    ensures OnSettled(OnSettled(s, first), Resolved(later)).events == later
    ensures !OnSettled(s, first).isLoadingEvents
  {
  }

  // ---------------------------------------------------------------------
  // What is shown
  // ---------------------------------------------------------------------

  /** The zoom level of the map. */
  const ZOOM: nat := 13

  /** A marker's popup: the user's own, or an event's name, image and link. */
  datatype Popup = UserPopup | EventPopup(name: string, imageUrl: string, url: string)

  /** A marker: its React key (events only), its position and its popup. */
  datatype Marker = Marker(key: Option<string>, position: LatLng, popup: Popup)

  /** The screen the component renders. */
  datatype Screen =
    | LocatingScreen
    | NoLocationScreen
    | MapScreen(center: LatLng, zoom: nat, warningBanner: bool, loadingBanner: bool,
                markers: seq<Marker>)

  /** The marker of one event. */
  function EventMarker(e: Event): Marker {
    Marker(Some(e.id), e.location, EventPopup(e.name, e.imageUrl, e.url))
  }

  /** The event a marker was drawn for; the inverse of `EventMarker`. */
  function MarkerEvent(m: Marker): (e: Event)
    requires m.key.Some? && m.popup.EventPopup?
    ensures EventMarker(e) == m
  {
    Event(m.key.value, m.popup.name, m.popup.url, m.popup.imageUrl, m.position)
  }

  /** The marker list: the user's marker at the coordinates, then one marker
      per event, in the order of the events, at that event's location. */
  function Markers(user: LatLng, events: seq<Event>): (ms: seq<Marker>)
    ensures |ms| == |events| + 1
    ensures ms[0] == Marker(None, user, UserPopup)
    ensures forall i :: 0 <= i < |events| ==>
              ms[i + 1].position == events[i].location && ms[i + 1].key == Some(events[i].id)
  {
    [Marker(None, user, UserPopup)] + seq(|events|, i requires 0 <= i < |events| => EventMarker(events[i]))
  }

  /** The event markers lose nothing: every event can be read back from its
      marker, in order. */
  lemma MarkersRecoverEvents(user: LatLng, events: seq<Event>)
    ensures var ms := Markers(user, events);
            forall i :: 1 <= i < |ms| ==> ms[i].key.Some? && ms[i].popup.EventPopup?
    ensures var ms := Markers(user, events);
            seq(|events|, i requires 0 <= i < |events| => MarkerEvent(ms[i + 1])) == events
  {
  }

  /** The screen for a geolocation state and an events state: the locating
      screen while resolving, the no-location screen when resolution ended
      without coordinates, and otherwise the map centred on the coordinates at
      zoom 13 with a warning banner exactly when there is a geolocation error
      and a loading banner exactly while events load. */
  function SelectScreen(geo: Geolocation.GeoState, ev: EventsState): (v: Screen)
    ensures geo.loading ==> v == LocatingScreen
    ensures !geo.loading && geo.coordinates.None? ==> v == NoLocationScreen
    ensures !geo.loading && geo.coordinates.Some? ==>
              && v.MapScreen?
              && v.center == geo.coordinates.value
              && v.zoom == 13
              && (v.warningBanner <==> geo.error.Some?)
              && (v.loadingBanner <==> ev.isLoadingEvents)
              && v.markers == Markers(geo.coordinates.value, ev.events)
  {
    if geo.loading then LocatingScreen
    else
      match geo.coordinates
      case None => NoLocationScreen
      case Some(c) =>
        MapScreen(c, ZOOM, geo.error.Some?, ev.isLoadingEvents, Markers(c, ev.events))
  }

  /** Before resolution the locating screen is shown; after it, whatever the
      outcome, the map is shown: the no-location screen is never reached. The
      warning banner appears exactly when the outcome was not a success. */
  lemma ResolvedPositionAlwaysShowsMap(o: Geolocation.Outcome, ev: EventsState)
    ensures SelectScreen(Geolocation.INITIAL, ev) == LocatingScreen
    ensures SelectScreen(Geolocation.Resolve(o), ev).MapScreen?
    ensures SelectScreen(Geolocation.Resolve(o), ev).warningBanner <==> !o.Success?
  {
  }

  // ---------------------------------------------------------------------
  // The pipeline end to end
  // ---------------------------------------------------------------------

  /** The events state once the position is resolved with outcome `o`, the
      fetch for it has been started and has resolved with what the catalog
      returns. */
  function Pipeline(o: Geolocation.Outcome, catalog: seq<Ticketmaster.QueryParam> -> Ticketmaster.Response,
                    apiKey: string, numberToString: Number -> string, parse: string -> Number)
    : (r: EventsState)
    ensures !r.isLoadingEvents
    ensures var c := Geolocation.Resolve(o).coordinates.value;
            r.events == Ticketmaster.FetchEvents(catalog, apiKey, c.lat, c.lng, numberToString, parse)
  {
    var started := OnCoordinates(INITIAL_EVENTS, Geolocation.Resolve(o).coordinates);
    var call := started.call.value;
    OnSettled(started.state,
              Resolved(Ticketmaster.FetchEvents(catalog, apiKey, call.lat, call.lng, numberToString, parse)))
  }

  /** Without geolocation the fetch is called with the fallback position, and
      once it resolves the map shows the warning banner, no loading banner and
      one marker per fetched event besides the user's. */
  lemma UnsupportedFetchesAtFallback(catalog: seq<Ticketmaster.QueryParam> -> Ticketmaster.Response,
                                     apiKey: string, numberToString: Number -> string,
                                     parse: string -> Number)
    ensures OnCoordinates(INITIAL_EVENTS, Geolocation.OnMount(false).state.coordinates).call
         == Some(FetchCall(Finite(51.5074), Finite(-0.1278)))
    ensures var geo := Geolocation.Resolve(Geolocation.Unsupported);
            var ev := Pipeline(Geolocation.Unsupported, catalog, apiKey, numberToString, parse);
            var v := SelectScreen(geo, ev);
            v.MapScreen? && v.warningBanner && !v.loadingBanner && |v.markers| == |ev.events| + 1
  {
    Geolocation.MountWithoutGeolocationResolves();
  }

  /** Whatever the geolocation outcome and the catalog's answer, the map shows
      at most one marker per catalog record, plus the user's. */
  lemma MarkersBoundedByRecords(o: Geolocation.Outcome,
                                catalog: seq<Ticketmaster.QueryParam> -> Ticketmaster.Response,
                                apiKey: string, numberToString: Number -> string,
                                parse: string -> Number)
    ensures var c := Geolocation.Resolve(o).coordinates.value;
            var response := catalog(Ticketmaster.BuildQuery(apiKey, c.lat, c.lng, numberToString));
            var records := if response.Ok() then Ticketmaster.RawEvents(response.body).GetOr([]) else [];
            |SelectScreen(Geolocation.Resolve(o), Pipeline(o, catalog, apiKey, numberToString, parse)).markers|
              <= |records| + 1
  {
  }
}
