/** The event discovery client: the catalog query built from a position, the
    normalisation of the catalog's records into `Event`s, and the fail-closed
    handling of everything that can go wrong on the way.

    Two JavaScript built-ins are parameters rather than definitions, so every
    result below holds whatever they compute: `parse` is `parseFloat`, and
    `numberToString` is the conversion a template literal applies to a number.
    The network is the parameter `catalog`, a function from the query to the
    response it produces. */
module Ticketmaster {
  import opened Optional
  import opened Events

  // ---------------------------------------------------------------------
  // Query construction
  // ---------------------------------------------------------------------

  /** One `name=value` search parameter of the request URL. */
  datatype QueryParam = QueryParam(name: string, value: string)

  /** The parameter names, in the order the request appends them. */
  const QUERY_NAMES: seq<string> :=
    ["apikey", "latlong", "radius", "unit", "classificationName", "sort"]

  /** The parameters that do not depend on the caller: a 20 km radius, the
      music classification only, soonest events first. */
  const FIXED_PARAMS: seq<QueryParam> := [
    QueryParam("radius", "20"),
    QueryParam("unit", "km"),
    QueryParam("classificationName", "Music"),
    QueryParam("sort", "date,asc")
  ]

  /** The `latlong` value: the text of both numbers joined by a comma. */
  function LatLong(lat: Number, lng: Number, numberToString: Number -> string): string {
    numberToString(lat) + "," + numberToString(lng)
  }

  /** The value of the first parameter called `name`, if there is one. */
  function Lookup(q: seq<QueryParam>, name: string): (r: Option<string>)
    ensures r.None? <==> forall i :: 0 <= i < |q| ==> q[i].name != name
    ensures r.Some? ==> exists i :: 0 <= i < |q| && q[i] == QueryParam(name, r.value)
                                && forall j :: 0 <= j < i ==> q[j].name != name
  {
    if |q| == 0 then None
    else if q[0].name == name then Some(q[0].value)
    else
      var r := Lookup(q[1..], name);
      assert forall i :: 1 <= i < |q| ==> q[i] == q[1..][i - 1];
      r
  }

  /** The search parameters of one request: the key, the position, then the
      fixed parameters. Nothing else feeds into the query. */
  function BuildQuery(apiKey: string, lat: Number, lng: Number, numberToString: Number -> string)
    : (q: seq<QueryParam>)
    ensures |q| == |QUERY_NAMES|
    ensures forall i :: 0 <= i < |q| ==> q[i].name == QUERY_NAMES[i]
    ensures Lookup(q, "apikey") == Some(apiKey)
    ensures Lookup(q, "latlong") == Some(LatLong(lat, lng, numberToString))
    ensures q[2..] == FIXED_PARAMS
  {
    [QueryParam("apikey", apiKey), QueryParam("latlong", LatLong(lat, lng, numberToString))]
      + FIXED_PARAMS
  }

  /** Two requests differ at most in the key and the position: the last four
      parameters are the same whatever the inputs. */
  lemma QueryTailIsFixed(k1: string, lat1: Number, lng1: Number,
                         k2: string, lat2: Number, lng2: Number,
                         numberToString: Number -> string)
    ensures BuildQuery(k1, lat1, lng1, numberToString)[2..]
         == BuildQuery(k2, lat2, lng2, numberToString)[2..]
    ensures BuildQuery(k1, lat1, lng1, numberToString)[0].name == "apikey"
    ensures BuildQuery(k1, lat1, lng1, numberToString)[1].name == "latlong"
  {
  }

  /** How the catalog reads a `latlong` value back: the text before the first
      comma and the text after it, or `None` when there is no comma. */
  function SplitLatLong(s: string): (r: Option<(string, string)>)
    ensures r.Some? ==> s == r.value.0 + "," + r.value.1 && ',' !in r.value.0
    ensures r.None? <==> ',' !in s
  {
    if |s| == 0 then None
    else if s[0] == ',' then Some(("", s[1..]))
    else
      match SplitLatLong(s[1..])
      case None => None
      case Some(parts) => Some(([s[0]] + parts.0, parts.1))
  }

  /** The text of both coordinates can be recovered from the query: splitting
      the `latlong` value at its first comma gives back the text of each number
      (the text of a number never contains a comma). */
  lemma {:induction false} LatLongRoundTrip(lat: Number, lng: Number, numberToString: Number -> string)
    requires ',' !in numberToString(lat)
    ensures SplitLatLong(LatLong(lat, lng, numberToString))
         == Some((numberToString(lat), numberToString(lng)))
  {
    SplitJoined(numberToString(lat), numberToString(lng));
  }

  lemma {:induction false} SplitJoined(a: string, b: string)
    requires ',' !in a
    ensures SplitLatLong(a + "," + b) == Some((a, b))
    decreases |a|
  {
    var s := a + "," + b;
    if |a| == 0 {
      assert s == [','] + b;
      assert s[1..] == b;
    } else {
      assert s[0] == a[0];
      assert s[1..] == a[1..] + "," + b;
      SplitJoined(a[1..], b);
      assert [a[0]] + a[1..] == a;
    }
  }

  // ---------------------------------------------------------------------
  // Normalisation of one record
  // ---------------------------------------------------------------------

  /** JavaScript truthiness of a string that may be missing: present and
      non-empty. */
  predicate HasText(s: Option<string>) {
    s.Some? && s.value != ""
  }

  /** `event._embedded?.venues?.[0]`: only the first venue is looked at. */
  function FirstVenue(e: RawEvent): Option<RawVenue> {
    match e.embedded
    case None => None
    case Some(envelope) =>
      match envelope.venues
      case None => None
      case Some(venues) => if |venues| == 0 then None else Some(venues[0])
  }

  /** `venue?.location` for the first venue. */
  function FirstVenueLocation(e: RawEvent): Option<RawLocation> {
    match FirstVenue(e)
    case None => None
    case Some(venue) => venue.location
  }

  /** The keep condition, field by field: the record has a first venue whose
      location carries a non-empty latitude and a non-empty longitude. Whether
      the text is a numeral is not part of it. */
  predicate Plottable(e: RawEvent) {
    && e.embedded.Some?
    && e.embedded.value.venues.Some?
    && |e.embedded.value.venues.value| > 0
    && e.embedded.value.venues.value[0].location.Some?
    && HasText(e.embedded.value.venues.value[0].location.value.latitude)
    && HasText(e.embedded.value.venues.value[0].location.value.longitude)
  }

  /** The first venue's location of a plottable record. */
  function PlottableLocation(e: RawEvent): RawLocation
    requires Plottable(e)
  {
    e.embedded.value.venues.value[0].location.value
  }

  /** `event.images?.[0]?.url || ''`: the first image's URL, or the empty
      string when there is no list, the list is empty or the URL is missing. */
  function FirstImageUrl(images: Option<seq<RawImage>>): (u: string)
    ensures u != "" ==> images.Some? && |images.value| > 0 && images.value[0].url == Some(u)
    ensures (images.Some? && |images.value| > 0 && images.value[0].url.Some?) ==>
              u == images.value[0].url.value
  {
    match images
    case None => ""
    case Some(list) => if |list| == 0 then "" else list[0].url.GetOr("")
  }

  /** The per-record step of the normaliser: `None` (the code's `null`) for a
      record without a usable first-venue location, otherwise the clean event
      with `id`, `name` and `url` copied and both coordinates parsed. */
  function NormaliseOne(e: RawEvent, parse: string -> Number): (r: Option<Event>)
    ensures r.Some? <==> Plottable(e)
    ensures r.Some? ==>
              && r.value.id == e.id
              && r.value.name == e.name
              && r.value.url == e.url
              && r.value.imageUrl == FirstImageUrl(e.images)
              && r.value.location.lat == parse(PlottableLocation(e).latitude.value)
              && r.value.location.lng == parse(PlottableLocation(e).longitude.value)
  {
    match FirstVenueLocation(e)
    case None => None
    case Some(location) =>
      if !HasText(location.latitude) || !HasText(location.longitude) then None
      else
        Some(Event(e.id, e.name, e.url, FirstImageUrl(e.images),
                   LatLng(parse(location.latitude.value), parse(location.longitude.value))))
  }

  /** Venues after the first are never consulted: replacing them changes
      nothing. */
  lemma LaterVenuesIgnored(e: RawEvent, first: RawVenue, rest: seq<RawVenue>, parse: string -> Number)
    requires e.embedded == Some(VenueEnvelope(Some([first] + rest)))
    ensures NormaliseOne(e, parse)
         == NormaliseOne(e.(embedded := Some(VenueEnvelope(Some([first])))), parse)
  {
  }

  // ---------------------------------------------------------------------
  // Normalisation of the record list: `map` then `filter`
  // ---------------------------------------------------------------------

  /** `rawEvents.map(...)`: the per-record step applied to every record. */
  function Mapped(raw: seq<RawEvent>, parse: string -> Number): seq<Option<Event>> {
    seq(|raw|, i requires 0 <= i < |raw| => NormaliseOne(raw[i], parse))
  }

  /** `.filter(event => event !== null)`: the present values, in order. It
      never lengthens the list, and keeps its length exactly when no value is
      missing. */
  function DropNulls<T>(s: seq<Option<T>>): (r: seq<T>)
    ensures |r| <= |s|
    ensures |r| == |s| <==> forall i :: 0 <= i < |s| ==> s[i].Some?
    decreases |s|
  {
    if |s| == 0 then []
    else
      var init := s[..|s| - 1];
      var last := s[|s| - 1];
      assert s == init + [last];
      DropNulls(init) + (if last.Some? then [last.value] else [])
  }

  /** The positions of the present values, in increasing order. */
  function SomeIndices<T>(s: seq<Option<T>>): (idx: seq<nat>)
    ensures forall k :: 0 <= k < |idx| ==> idx[k] < |s| && s[idx[k]].Some?
    ensures forall k, l :: 0 <= k < l < |idx| ==> idx[k] < idx[l]
    ensures forall i :: 0 <= i < |s| && s[i].Some? ==> i in idx
    decreases |s|
  {
    if |s| == 0 then []
    else
      var init := s[..|s| - 1];
      SomeIndices(init) + (if s[|s| - 1].Some? then [|s| - 1] else [])
  }

  /** The filter keeps exactly the present values, each at the rank of its
      position among the present positions. */
  lemma {:induction false} DropNullsSelects<T>(s: seq<Option<T>>)
    ensures |DropNulls(s)| == |SomeIndices(s)|
    ensures forall k :: 0 <= k < |SomeIndices(s)| ==> s[SomeIndices(s)[k]] == Some(DropNulls(s)[k])
    decreases |s|
  {
    if |s| > 0 {
      var init := s[..|s| - 1];
      var last := s[|s| - 1];
      DropNullsSelects(init);
      var r, ri := DropNulls(s), DropNulls(init);
      var idx, ii := SomeIndices(s), SomeIndices(init);
      assert r == ri + (if last.Some? then [last.value] else []);
      assert idx == ii + (if last.Some? then [|s| - 1] else []);
      forall k | 0 <= k < |idx|
        ensures s[idx[k]] == Some(r[k])
      {
        if k < |ii| {
          assert idx[k] == ii[k] && r[k] == ri[k];
          assert s[ii[k]] == init[ii[k]];
        } else {
          assert idx[k] == |s| - 1 && r[k] == last.value;
        }
      }
    }
  }

  /** The filter keeps the present values and nothing else: every output value
      is present in the input, and every present input value is in the
      output. */
  lemma DropNullsMembership<T>(s: seq<Option<T>>)
    ensures forall k :: 0 <= k < |DropNulls(s)| ==> Some(DropNulls(s)[k]) in s
    ensures forall i :: 0 <= i < |s| && s[i].Some? ==> s[i].value in DropNulls(s)
  {
    DropNullsSelects(s);
    var r, idx := DropNulls(s), SomeIndices(s);
    forall k | 0 <= k < |r|
      ensures Some(r[k]) in s
    {
      assert s[idx[k]] == Some(r[k]);
    }
    forall i | 0 <= i < |s| && s[i].Some?
      ensures s[i].value in r
    {
      var k :| 0 <= k < |idx| && idx[k] == i;
      assert r[k] == s[i].value;
    }
  }

  /** Filtering distributes over concatenation. */
  lemma {:induction false} DropNullsConcat<T>(s: seq<Option<T>>, t: seq<Option<T>>)
    ensures DropNulls(s + t) == DropNulls(s) + DropNulls(t)
    decreases |t|
  {
    if |t| == 0 {
      assert s + t == s;
    } else {
      var init := t[..|t| - 1];
      var last := t[|t| - 1];
      assert (s + t)[..|s + t| - 1] == s + init;
      assert (s + t)[|s + t| - 1] == last;
      DropNullsConcat(s, init);
    }
  }

  /** The normaliser: the clean events of the plottable records. It never
      lengthens the list, and keeps every record exactly when every record is
      plottable. */
  function Normalise(raw: seq<RawEvent>, parse: string -> Number): (r: seq<Event>)
    ensures |r| <= |raw|
    ensures |r| == |raw| <==> forall i :: 0 <= i < |raw| ==> Plottable(raw[i])
  {
    var mapped := Mapped(raw, parse);
    assert forall i :: 0 <= i < |raw| ==> (mapped[i].Some? <==> Plottable(raw[i]));
    DropNulls(mapped)
  }

  /** The output is the order-preserving selection of the plottable records:
      the k-th event is the clean form of the k-th plottable record, and a
      record is selected exactly when it is plottable. */
  lemma {:induction false} NormaliseSelectsPlottableInOrder(raw: seq<RawEvent>, parse: string -> Number)
    ensures var r := Normalise(raw, parse);
            var idx := SomeIndices(Mapped(raw, parse));
            && |r| == |idx|
            && (forall k, l :: 0 <= k < l < |idx| ==> idx[k] < idx[l])
            && (forall i :: 0 <= i < |raw| ==> (i in idx <==> Plottable(raw[i])))
            && (forall k :: 0 <= k < |idx| ==>
                  idx[k] < |raw| && NormaliseOne(raw[idx[k]], parse) == Some(r[k]))
  {
    var mapped := Mapped(raw, parse);
    DropNullsSelects(mapped);
    var idx := SomeIndices(mapped);
    forall i | 0 <= i < |raw|
      ensures i in idx <==> Plottable(raw[i])
    {
      if i in idx {
        var k :| 0 <= k < |idx| && idx[k] == i;
        assert mapped[i].Some?;
      }
    }
  }

  /** An event is in the output exactly when some record normalises to it. */
  lemma NormaliseMembership(raw: seq<RawEvent>, parse: string -> Number, e: Event)
    ensures e in Normalise(raw, parse)
        <==> exists i :: 0 <= i < |raw| && NormaliseOne(raw[i], parse) == Some(e)
  {
    var mapped := Mapped(raw, parse);
    var r := Normalise(raw, parse);
    var idx := SomeIndices(mapped);
    DropNullsSelects(mapped);
    assert r == DropNulls(mapped);
    if e in r {
      var k :| 0 <= k < |r| && r[k] == e;
      assert NormaliseOne(raw[idx[k]], parse) == mapped[idx[k]] == Some(e);
    }
    forall i | 0 <= i < |raw| && NormaliseOne(raw[i], parse) == Some(e)
      ensures e in r
    {
      assert mapped[i] == Some(e);
      var k :| 0 <= k < |idx| && idx[k] == i;
      assert r[k] == e;
    }
  }

  /** Every output event carries the `id`, `name` and `url` of a plottable
      source record verbatim, and that record's first image URL. */
  lemma NormaliseCopiesFields(raw: seq<RawEvent>, parse: string -> Number, e: Event)
    requires e in Normalise(raw, parse)
    ensures exists i :: 0 <= i < |raw| && Plottable(raw[i])
              && e.id == raw[i].id && e.name == raw[i].name && e.url == raw[i].url
              && e.imageUrl == FirstImageUrl(raw[i].images)
  {
    NormaliseMembership(raw, parse, e);
    var i :| 0 <= i < |raw| && NormaliseOne(raw[i], parse) == Some(e);
  }

  /** Normalising a concatenation is concatenating the normalised parts: each
      record is treated on its own. */
  lemma NormaliseConcat(a: seq<RawEvent>, b: seq<RawEvent>, parse: string -> Number)
    ensures Normalise(a + b, parse) == Normalise(a, parse) + Normalise(b, parse)
  {
    assert Mapped(a + b, parse) == Mapped(a, parse) + Mapped(b, parse);
    DropNullsConcat(Mapped(a, parse), Mapped(b, parse));
  }

  // ---------------------------------------------------------------------
  // The request as a whole
  // ---------------------------------------------------------------------

  /** The `_embedded` object of a response body. */
  datatype EventsEnvelope = EventsEnvelope(events: Option<seq<RawEvent>>)

  /** A response body as `response.json()` settles. */
  datatype Body =
    | Unparsable                               // `response.json()` rejects
    | JsonNull                                 // reading `_embedded` of null throws
    | JsonScalar                               // a number, string or boolean: `_embedded` is undefined
    | JsonObject(embedded: Option<EventsEnvelope>)

  /** What `fetch` settles to. */
  datatype Response =
    | NetworkError                             // `fetch` rejects
    | HttpResponse(status: int, body: Body)
  {
    /** `response.ok`: a status in the range 200 to 299. */
    predicate Ok() {
      HttpResponse? && 200 <= status <= 299
    }
  }

  /** `data._embedded?.events || []`, with `None` when reading the body
      throws. */
  function RawEvents(body: Body): (r: Option<seq<RawEvent>>)
    ensures r.None? <==> body.Unparsable? || body.JsonNull?
    ensures body.JsonObject? && body.embedded.Some? && body.embedded.value.events.Some? ==>
              r == body.embedded.value.events
    ensures r.Some? && r.value != [] ==>
              body.JsonObject? &&
              body.embedded.Some? && body.embedded.value.events == Some(r.value)
  {
    match body
    case Unparsable => None
    case JsonNull => None
    case JsonScalar => Some([])
    case JsonObject(embedded) =>
      match embedded
      case None => Some([])
      case Some(envelope) => Some(envelope.events.GetOr([]))
  }

  /** `fetchEvents(lat, lng)`. It never rejects: a failed request, a non-ok
      status, an unreadable body or a missing event list all end in the empty
      list; otherwise the result is the normalised record list. */
  function FetchEvents(catalog: seq<QueryParam> -> Response, apiKey: string,
                       lat: Number, lng: Number,
                       numberToString: Number -> string, parse: string -> Number)
    : (r: seq<Event>)
    ensures var response := catalog(BuildQuery(apiKey, lat, lng, numberToString));
            && (!response.Ok() ==> r == [])
            && (response.Ok() && RawEvents(response.body).None? ==> r == [])
            && (response.Ok() && RawEvents(response.body).Some? ==>
                  r == Normalise(RawEvents(response.body).value, parse))
  {
    var response := catalog(BuildQuery(apiKey, lat, lng, numberToString));
    if !response.Ok() then []
    else
      match RawEvents(response.body)
      case None => []
      case Some(raw) => Normalise(raw, parse)
  }

  /** Fail-closed: every kind of failure yields the empty list, and so does a
      body without `_embedded.events`. */
  lemma FetchFailsClosed(catalog: seq<QueryParam> -> Response, apiKey: string,
                         lat: Number, lng: Number,
                         numberToString: Number -> string, parse: string -> Number)
    requires var response := catalog(BuildQuery(apiKey, lat, lng, numberToString));
             || !response.Ok()
             || response.body.Unparsable?
             || response.body.JsonNull?
             || response.body.JsonScalar?
             || response.body == JsonObject(None)
             || response.body == JsonObject(Some(EventsEnvelope(None)))
    ensures FetchEvents(catalog, apiKey, lat, lng, numberToString, parse) == []
  {
  }

  /** Every fetched event comes from a plottable record of an ok response. */
  lemma FetchedEventsComeFromOkResponse(catalog: seq<QueryParam> -> Response, apiKey: string,
                                        lat: Number, lng: Number,
                                        numberToString: Number -> string, parse: string -> Number,
                                        e: Event)
    requires e in FetchEvents(catalog, apiKey, lat, lng, numberToString, parse)
    ensures var response := catalog(BuildQuery(apiKey, lat, lng, numberToString));
            && response.Ok()
            && response.body.JsonObject?
            && exists i :: 0 <= i < |RawEvents(response.body).value|
                 && NormaliseOne(RawEvents(response.body).value[i], parse) == Some(e)
  {
    var response := catalog(BuildQuery(apiKey, lat, lng, numberToString));
    NormaliseMembership(RawEvents(response.body).value, parse, e);
  }

  // ---------------------------------------------------------------------
  // Worked cases
  // ---------------------------------------------------------------------

  /** A record with a complete venue location. */
  function LocatedRecord(): RawEvent {
    RawEvent("k1", "Concert", "https://example.org/k1", Some([RawImage(Some("img.jpg"))]),
             Some(VenueEnvelope(Some([RawVenue(Some(RawLocation(Some("51.5"), Some("-0.12"))))]))))
  }

  /** Of two records, one with a located venue and one without `_embedded`,
      only the first survives, with its fields copied. */
  lemma OneOfTwoRecordsKept(parse: string -> Number)
    ensures Normalise([LocatedRecord(), RawEvent("k2", "Other", "https://example.org/k2", None, None)], parse)
         == [Event("k1", "Concert", "https://example.org/k1", "img.jpg",
                   LatLng(parse("51.5"), parse("-0.12")))]
  {
    var unlocated := RawEvent("k2", "Other", "https://example.org/k2", None, None);
    NormaliseConcat([LocatedRecord()], [unlocated], parse);
    assert [LocatedRecord()] + [unlocated] == [LocatedRecord(), unlocated];
    assert Mapped([LocatedRecord()], parse)[..0] == [];
    assert Mapped([unlocated], parse)[..0] == [];
  }

  /** An empty image list gives the empty image URL. */
  lemma EmptyImagesGiveEmptyUrl(parse: string -> Number)
    ensures NormaliseOne(LocatedRecord().(images := Some([])), parse).value.imageUrl == ""
  {
  }

  /** The located record with a latitude that is not a numeral. */
  function NonNumericRecord(): RawEvent {
    LocatedRecord().(embedded := Some(VenueEnvelope(Some(
      [RawVenue(Some(RawLocation(Some("not-a-number"), Some("12.3"))))]))))
  }

  /** A latitude that is not a numeral is not filtered out: the record is kept
      and its latitude is whatever `parseFloat` makes of the text, here NaN. */
  lemma NonNumericLatitudeKept(parse: string -> Number)
    requires parse("not-a-number") == NaN
    ensures Normalise([NonNumericRecord()], parse)
         == [Event("k1", "Concert", "https://example.org/k1", "img.jpg", LatLng(NaN, parse("12.3")))]
  {
    assert [NonNumericRecord()][..0] == [];
  }
}
