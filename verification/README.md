# city-pulse-hub: the location-to-events pipeline in Dafny

This project models the decision logic of city-pulse-hub, a small web app that
finds live music events near the user and puts them on a map. Three pieces are
modelled:

- **The event discovery client** (`src/services/ticketmaster.ts`, module
  `Ticketmaster`). It builds the six search parameters of the catalog request
  from a key and a position. It normalises the catalog's raw records into
  `Event`s: it looks only at the first venue, drops a record whose latitude or
  longitude is missing or empty, copies `id`, `name` and `url`, takes the first
  image URL or `""`, and parses both coordinates. It fails closed: any failure
  yields the empty list.
- **The position resolver** (`src/hooks/useGeolocation.ts`, module
  `Geolocation`). The state `{coordinates, loading, error}` starts at
  `{null, true, null}`. It makes one transition on one of three outcomes:
  unsupported, success or failure. Both failure paths substitute the fixed
  default position (51.5074, -0.1278).
- **The orchestrating map component** (`src/components/Map.tsx`, module
  `MapView`). When coordinates appear, the events sub-state `{events,
  isLoadingEvents}` starts a fetch. The fetch then settles. A pure function
  chooses the screen: locating, no location, or the map with its banners and
  markers.

The record shapes of `src/types/events.ts` are the datatypes of module `Events`.
`Optional.Option` stands for every field the code reaches through `?.` or
`|| default`, including fields the TypeScript type declares as required.

JavaScript numbers are the datatype `Events.Number`. It has a real value, `NaN`,
or an infinity. `parseFloat` and the number-to-string conversion of a template
literal are function parameters (`parse`, `numberToString`), so every property
holds whatever they compute. The network is a parameter `catalog`: a function
from the query to the response. Normalisation is a Dafny function, so the same
raw list always gives the same event list, by construction.

Two behaviours of the code are worth stating plainly:

- A non-numeric latitude or longitude is not filtered out. The code only tests
  for absent or empty text, so a record with latitude `"not-a-number"` is kept
  and its latitude is whatever `parseFloat` yields
  (`Ticketmaster.NonNumericLatitudeKept`).
- There is no guard against a stale fetch result. The later settlement always
  decides the events (`MapView.LaterSettlementWins`).

## Model

| member | source | states |
|---|---|---|
| `Ticketmaster.BuildQuery` | src/services/ticketmaster.ts:16-22 | The query has exactly six parameters, in the order apikey, latlong, radius, unit, classificationName, sort. Looking up `apikey` gives the key. Looking up `latlong` gives the two numbers' text joined by a comma. The last four are the fixed radius 20, unit km, classification Music and sort date,asc. |
| `Ticketmaster.QueryTailIsFixed` | src/services/ticketmaster.ts:19-22 | Two queries built from any two keys and positions agree on every parameter after the second. Only the key and the position feed the query. |
| `Ticketmaster.LatLongRoundTrip` | src/services/ticketmaster.ts:18 | Splitting the `latlong` value at its first comma gives back the latitude's and the longitude's text. The text of both coordinates can be recovered from the query. |
| `Ticketmaster.FirstImageUrl` | src/services/ticketmaster.ts:54 | The image URL is non-empty only if it is the first image's URL. If a first image with a URL exists, the result is that URL. In every other case (no list, empty list, missing URL) it is `""`. |
| `Ticketmaster.NormaliseOne` | src/services/ticketmaster.ts:43-59 | A record yields an event if and only if its first venue has a location with non-empty latitude and longitude text. The event's id, name and url are the record's, its image URL is the first image's, and its coordinates are the parsed latitude and longitude text. |
| `Ticketmaster.LaterVenuesIgnored` | src/services/ticketmaster.ts:43 | Replacing every venue after the first changes nothing in the per-record result. |
| `Ticketmaster.DropNulls` | src/services/ticketmaster.ts:61 | The filter never lengthens the list, and keeps its length if and only if every entry is present. Its contents are stated by `DropNullsMembership` and `DropNullsSelects`. |
| `Ticketmaster.DropNullsMembership` | src/services/ticketmaster.ts:61 | Each output value is present in the input, and each present input value is in the output. |
| `Ticketmaster.SomeIndices` | src/services/ticketmaster.ts:61 | The positions the filter keeps are strictly increasing, each one holds a present value, and every present value's position is among them. |
| `Ticketmaster.DropNullsSelects` | src/services/ticketmaster.ts:61 | The k-th filtered value is the value at the k-th present position. The filter is an order-preserving selection. |
| `Ticketmaster.DropNullsConcat` | src/services/ticketmaster.ts:61 | Filtering a concatenation gives the concatenation of the filtered parts. |
| `Ticketmaster.Normalise` | src/services/ticketmaster.ts:41-61 | The output is never longer than the raw list. It has the same length if and only if every record is plottable. |
| `Ticketmaster.NormaliseSelectsPlottableInOrder` | src/services/ticketmaster.ts:41-61 | The output is exactly the clean forms of the plottable records, in their original order. A record is selected if and only if it is plottable, and the k-th event comes from the k-th selected record. |
| `Ticketmaster.NormaliseMembership` | src/services/ticketmaster.ts:41-61 | An event is in the output if and only if some raw record normalises to it. |
| `Ticketmaster.NormaliseCopiesFields` | src/services/ticketmaster.ts:50-54 | Every output event has the id, name and url of a plottable source record verbatim, and that record's first image URL. |
| `Ticketmaster.NormaliseConcat` | src/services/ticketmaster.ts:41-61 | Normalising a concatenation gives the concatenation of the normalised parts. Each record is treated independently. |
| `Ticketmaster.RawEvents` | src/services/ticketmaster.ts:35 | Reading the records throws exactly when the body cannot be parsed or is `null`. A body holding `_embedded.events` gives exactly that list. A number, string or boolean body, or a missing `_embedded` or `events`, gives the empty list. |
| `Ticketmaster.FetchEvents` | src/services/ticketmaster.ts:24-69 | The result for a non-ok response, or for a body that cannot be read, is empty. Otherwise it is the normalisation of the body's records. The result is a plain list, never a rejection. |
| `Ticketmaster.FetchFailsClosed` | src/services/ticketmaster.ts:27-35 | Each of these gives the empty list: a network error, a status outside 200-299, an unparsable, `null`, number, string or boolean body, or a body without `_embedded.events`. |
| `Ticketmaster.FetchedEventsComeFromOkResponse` | src/services/ticketmaster.ts:27-63 | Any fetched event implies an ok response with a JSON object body, and some record of that body normalises to the event. |
| `Ticketmaster.OneOfTwoRecordsKept` | src/services/ticketmaster.ts:43-61 | Take one record with a located venue and one without `_embedded`. Only the first survives, with its fields copied. |
| `Ticketmaster.EmptyImagesGiveEmptyUrl` | src/services/ticketmaster.ts:54 | A record with an empty image list normalises to the image URL `""`. |
| `Ticketmaster.NonNumericLatitudeKept` | src/services/ticketmaster.ts:46-57 | A latitude text that is not a numeral still passes the filter. The event's latitude is what `parseFloat` yields (here NaN). |
| `Geolocation.OnMount` | src/hooks/useGeolocation.ts:29-65 | The mount effect issues at most one request, with high accuracy, a 10000 ms timeout and maximum age 0. It issues a request exactly when geolocation is available, and then the state stays the initial one. Without geolocation it settles at once on the default position with the unsupported error and loading false. |
| `Geolocation.Settle` | src/hooks/useGeolocation.ts:31-53 | Every outcome ends loading and provides coordinates. Success gives exactly the reading and leaves the error alone. Unsupported and failure give the default (51.5074, -0.1278) and record their own error. |
| `Geolocation.ResolvedStatesKeepFallbackInvariant` | src/hooks/useGeolocation.ts:25-53 | In the initial state and in the state after the resolution, an error implies the default coordinates. After the resolution, the error is set exactly when the outcome was not a success, loading is false and coordinates are present. |
| `Geolocation.SuccessIsExact` | src/hooks/useGeolocation.ts:39-45 | From the initial state, a success gives exactly the reading's latitude and longitude, loading false and no error. |
| `Geolocation.MountWithoutGeolocationResolves` | src/hooks/useGeolocation.ts:31-35 | The unsupported branch of the mount effect is the unsupported transition from the initial state. With geolocation, the single request carries the fixed options. |
| `MapView.OnCoordinates` | src/components/Map.tsx:13-17 | Without coordinates, nothing changes and no fetch starts. With coordinates, loading becomes true, the events are kept, and the fetch is called with exactly the coordinates' latitude and longitude. |
| `MapView.OnSettled` | src/components/Map.tsx:18-27 | After settlement, loading is false whatever the outcome. A resolution replaces the events wholesale, and a rejection leaves them unchanged. |
| `MapView.LaterSettlementWins` | src/components/Map.tsx:13-29 | With no staleness guard, the later of two settlements decides the events, and the first already clears the loading flag. |
| `MapView.Markers` | src/components/Map.tsx:74-99 | There is one marker per event plus one. The first is the user's, at the coordinates. Marker i+1 sits at event i's location and has event i's id as its key. |
| `MapView.MarkerEvent` | src/components/Map.tsx:79-98 | An event marker's key, position and popup determine the event it was drawn for. This is the inverse of drawing the marker. |
| `MapView.MarkersRecoverEvents` | src/components/Map.tsx:79-98 | Reading the events back from the event markers gives the event list in order. The markers lose nothing. |
| `MapView.SelectScreen` | src/components/Map.tsx:32-64 | Resolving shows the locating screen, and a resolved state without coordinates shows the no-location screen. Otherwise the map is centred on the coordinates at zoom 13, with its marker list. The warning banner shows exactly when there is a geolocation error, and the loading banner exactly while events load. |
| `MapView.ResolvedPositionAlwaysShowsMap` | src/components/Map.tsx:32-46 | Before resolution the locating screen shows. After resolution the map shows whatever the outcome, so the no-location screen is never reached. The warning banner shows exactly when the outcome was not a success. |
| `MapView.Pipeline` | src/components/Map.tsx:13-29 | After the position resolves and the started fetch resolves, loading is false. The events are exactly what the fetch returns for the resolved coordinates. |
| `MapView.UnsupportedFetchesAtFallback` | src/components/Map.tsx:13-17 | Without geolocation, the fetch is called with (51.5074, -0.1278). Once it resolves, the map shows the warning banner, no loading banner, and one marker per event plus the user's. |
| `MapView.MarkersBoundedByRecords` | src/components/Map.tsx:74-99 | For any geolocation outcome and any catalog answer, the map shows at most one marker per catalog record plus the user's. |

## Left out

- HTTP, `response.json()`, the URL and its percent-encoding are foreign calls. The response is the abstract datatype `Ticketmaster.Response`, produced by the `catalog` parameter from the query. The endpoint URL is not modelled: the request is identified by its search parameters alone.
- `parseFloat` and number-to-string conversion are built-ins with floating-point behaviour. They are parameters, and no property claims the coordinates are numeric or finite.
- The API key comes from the build environment. It is a plain string parameter.
- `navigator.geolocation` and the capability check are foreign. They become the `geolocationAvailable` flag and the `Outcome` datatype.
- React scheduling, effect re-runs, batching of setter calls and async interleaving are left out. Effects and settlements are explicit events applied in the order given.
- `console.error` logging has no effect on the state and is left out.
- JSX markup, CSS classes, tile layers and popup rendering are presentation. Only the screen choice, the banners, the centre, the zoom and the marker list are modelled.
- Record entries that are not objects are not representable: every record is a `RawEvent`. A `null` entry makes the `map` callback throw, so `fetchEvents` returns the empty list. A number, string or boolean entry has no venues, so it returns `null` and is dropped like any unplottable record. Fields whose JSON type differs from the declared one are left out too.
- `src/App.tsx` only renders the map component. It is not part of this model.
- Geolocation.ResolvedStatesKeepFallbackInvariant: the invariant is proved for the states the single-shot hook can reach. A success applied to a state that already holds an error would keep that error beside a genuine reading. This cannot happen because the platform calls exactly one callback once.
- Ticketmaster.LatLongRoundTrip: this assumes the latitude's text contains no comma. JavaScript's number-to-string conversion guarantees that, but the model leaves the conversion uninterpreted. It recovers the text, not the numbers: getting the numbers back would also need the conversion to be injective, which the model does not assume.
