/** The normalised record every provider produces, and the point type. */
module Models {
  import opened Wrappers
  import opened Json

  /** A (latitude, longitude) pair in decimal degrees. */
  datatype Location = Location(lat: real, lon: real)

  /** The canonical listing. `(provider, id)` identifies it; the pipeline
      only filters, reorders and drops listings, never changes their fields. */
  datatype Apartment = Apartment(
    id: string,
    provider: string,
    title: Option<string>,
    address: string,
    neighborhood: Option<string>,
    city: string,
    state: string,
    zipcode: Option<string>,
    lat: Option<real>,
    lon: Option<real>,
    price: Option<int>,
    beds: Option<real>,
    baths: Option<real>,
    url: Option<string>,
    raw: Option<Row>)

  /** Field defaults of the record. */
  const DefaultCity: string := "New York"
  const DefaultState: string := "NY"

  /** After normalisation a listing has both coordinates or neither. */
  predicate CoordsPaired(a: Apartment) {
    a.lat.Some? == a.lon.Some?
  }

  predicate HasCoords(a: Apartment) {
    a.lat.Some? && a.lon.Some?
  }

  function PointOf(a: Apartment): Location
    requires HasCoords(a)
  {
    Location(a.lat.value, a.lon.value)
  }

  /** The deduplication key `(provider, id)`. */
  function DedupKey(a: Apartment): (string, string) {
    (a.provider, a.id)
  }
}
