/** The two shapes of an event: the raw catalog record as the Ticketmaster
    discovery API sends it, and the normalised `Event` the application uses. */
module Events {
  import opened Optional

  /** A JavaScript number. Besides ordinary values it may be `NaN` or an
      infinity, which is what `parseFloat` yields for text that is not a
      numeral, so the model keeps those values representable. */
  datatype Number = Finite(value: real) | NaN | PositiveInfinity | NegativeInfinity

  /** A `{lat, lng}` pair of numbers. It is both the location of a normalised
      event and the coordinates a position reading produces. */
  datatype LatLng = LatLng(lat: Number, lng: Number)

  /** A venue's location. The catalog sends both coordinates as strings;
      either may be missing from an untrusted record. */
  datatype RawLocation = RawLocation(latitude: Option<string>, longitude: Option<string>)

  /** A venue; its `location` is optional. */
  datatype RawVenue = RawVenue(location: Option<RawLocation>)

  /** The record's `_embedded` object, holding the list of venues. */
  datatype VenueEnvelope = VenueEnvelope(venues: Option<seq<RawVenue>>)

  /** One entry of the record's `images` list. */
  datatype RawImage = RawImage(url: Option<string>)

  /** A raw catalog record. `images` and `_embedded` are optional because the
      client code reaches them through optional chaining. */
  datatype RawEvent = RawEvent(
    id: string,
    name: string,
    url: string,
    images: Option<seq<RawImage>>,
    embedded: Option<VenueEnvelope>)

  /** A normalised event: the image URL is always a string (possibly empty)
      and the location is a pair of numbers. */
  datatype Event = Event(
    id: string,
    name: string,
    url: string,
    imageUrl: string,
    location: LatLng)
}
