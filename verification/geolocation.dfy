/** The position resolver: the state of the `useGeolocation` hook and its one
    transition. The browser capability is not called; which of the three
    outcomes happens is an input. */
module Geolocation {
  import opened Optional
  import opened Events

  /** Where the map is centred when no reading can be had (central London). */
  const DEFAULT_LOCATION: LatLng := LatLng(Finite(51.5074), Finite(-0.1278))

  /** The message of the error raised when the browser has no geolocation. */
  const UNSUPPORTED_MESSAGE: string := "Geolocation is not supported by your browser."

  /** The options of a position request. */
  datatype PositionOptions = PositionOptions(enableHighAccuracy: bool, timeout: nat, maximumAge: nat)

  /** A precise reading, a 10-second timeout, and no cached positions. */
  const REQUEST_OPTIONS: PositionOptions := PositionOptions(true, 10000, 0)

  /** The platform's failure report (`GeolocationPositionError`). */
  datatype PositionError = PositionError(code: nat, message: string)

  /** The hook's `error`: either the error it raises itself when the browser
      has no geolocation, or the platform's failure report. */
  datatype GeoError =
    | UnsupportedError(message: string)
    | PlatformError(cause: PositionError)

  /** The hook's state. */
  datatype GeoState = GeoState(coordinates: Option<LatLng>, loading: bool, error: Option<GeoError>)

  /** Before anything is known: no coordinates, loading, no error. */
  const INITIAL: GeoState := GeoState(None, true, None)

  /** The three ways the resolution can end. */
  datatype Outcome =
    | Unsupported
    | Success(latitude: Number, longitude: Number)
    | Failure(cause: PositionError)

  /** What the mount effect does: the state it leaves and the position
      requests it issues. */
  datatype Mount = Mount(state: GeoState, requests: seq<PositionOptions>)

  /** The effect that runs once on mount. Without geolocation it settles at
      once with the fallback and issues no request; otherwise it issues exactly
      one request with the fixed options and leaves the state pending. */
  function OnMount(geolocationAvailable: bool): (m: Mount)
    ensures |m.requests| <= 1
    ensures forall i :: 0 <= i < |m.requests| ==>
              m.requests[i].enableHighAccuracy && m.requests[i].timeout == 10000
              && m.requests[i].maximumAge == 0
    ensures geolocationAvailable <==> |m.requests| == 1
    ensures geolocationAvailable ==> m.state == INITIAL
    ensures !geolocationAvailable ==>
              !m.state.loading && m.state.coordinates == Some(DEFAULT_LOCATION)
              && m.state.error == Some(UnsupportedError(UNSUPPORTED_MESSAGE))
  {
    if !geolocationAvailable then Mount(Settle(INITIAL, Unsupported), [])
    else Mount(INITIAL, [REQUEST_OPTIONS])
  }

  /** The transition on an outcome. Every outcome stops loading and provides
      coordinates: the reading itself on success, the fallback otherwise. A
      success touches neither the error nor anything but the coordinates and
      the loading flag; the two failure paths record their error. */
  function Settle(s: GeoState, o: Outcome): (t: GeoState)
    ensures !t.loading && t.coordinates.Some?
    ensures o.Success? ==>
              t.coordinates == Some(LatLng(o.latitude, o.longitude)) && t.error == s.error
    ensures !o.Success? ==> t.coordinates == Some(DEFAULT_LOCATION) && t.error.Some?
    ensures o.Unsupported? ==> t.error == Some(UnsupportedError(UNSUPPORTED_MESSAGE))
    ensures o.Failure? ==> t.error == Some(PlatformError(o.cause))
  {
    match o
    case Unsupported =>
      GeoState(Some(DEFAULT_LOCATION), false, Some(UnsupportedError(UNSUPPORTED_MESSAGE)))
    case Success(latitude, longitude) =>
      s.(coordinates := Some(LatLng(latitude, longitude)), loading := false)
    case Failure(cause) =>
      GeoState(Some(DEFAULT_LOCATION), false, Some(PlatformError(cause)))
  }

  /** The state after the single resolution. */
  function Resolve(o: Outcome): GeoState {
    Settle(INITIAL, o)
  }

  /** An error is only ever reported together with the fallback coordinates. */
  predicate ErrorMeansFallback(s: GeoState) {
    s.error.Some? ==> s.coordinates == Some(DEFAULT_LOCATION)
  }

  /** Every state the hook can be in keeps `ErrorMeansFallback`: the initial
      one, and the one after the resolution whatever its outcome. A success
      reading leaves the error null. */
  lemma ResolvedStatesKeepFallbackInvariant(o: Outcome)
    ensures ErrorMeansFallback(INITIAL)
    ensures ErrorMeansFallback(Resolve(o))
    ensures Resolve(o).error.Some? <==> !o.Success?
    ensures !Resolve(o).loading && Resolve(o).coordinates.Some?
  {
  }

  /** A success from the initial state gives exactly the reading, with no
      error. */
  lemma SuccessIsExact(latitude: Number, longitude: Number)
    ensures Resolve(Success(latitude, longitude))
         == GeoState(Some(LatLng(latitude, longitude)), false, None)
  {
  }

  /** The unsupported path taken by the mount effect is the `Unsupported`
      transition from the initial state. */
  lemma MountWithoutGeolocationResolves()
    ensures OnMount(false).state == Resolve(Unsupported)
    ensures OnMount(true).requests == [REQUEST_OPTIONS]
  {
  }
}
