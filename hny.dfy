/** The Housing New York Units by Building provider: one NYC Open Data request,
    one listing per building row. */
module HnyBuildings {
  import opened Wrappers
  import opened PyText
  import opened Json
  import opened Models
  import opened Http
  import opened Config
  import opened Rows

  /** The provider's name in configuration. */
  const Name: string := "nyc_open_data_hny_buildings"

  const DatasetUrl: string := "https://data.cityofnewyork.us/resource/hg8x-zxpr.json"

  /** Rows requested per call. */
  const MaxRows: int := 5000

  /** The request headers: the app token, when one is configured. */
  function Headers(config: AppConfig): (h: map<string, string>)
    ensures "X-App-Token" in h <==>
              config.nycOpenDataAppToken.Some? && config.nycOpenDataAppToken.value != []
    ensures "X-App-Token" in h ==> h["X-App-Token"] == config.nycOpenDataAppToken.value
    ensures forall k :: k in h ==> k == "X-App-Token"
  {
    if config.nycOpenDataAppToken.Some? && config.nycOpenDataAppToken.value != [] then
      map["X-App-Token" := config.nycOpenDataAppToken.value]
    else
      map[]
  }

  /** The one request `fetch` makes. */
  function DatasetRequest(config: AppConfig): Request {
    Request(DatasetUrl, map["$limit" := IntParam(MaxRows)], Headers(config))
  }

  function BuildingId(row: Row): string {
    FirstText(row, ["building_id", "buildingid", "building_id_number"])
  }

  function ProjectId(row: Row): string {
    FirstText(row, ["project_id", "projectid"])
  }

  /** The three address bits of the fallback id, each stripped. */
  function IdBits(row: Row): seq<string> {
    [Strip(FirstText(row, ["house_number", "low_house_number"])),
     Strip(FirstText(row, ["street_name", "streetname"])),
     Strip(FirstText(row, ["borough", "boro"]))]
  }

  /** The listing id: the building id, else the project id, else the three
      address bits joined with `|`, empty bits included. That join always
      holds two separators, so the `"unknown-id"` fallback is never taken. */
  function ListingId(row: Row): (id: string)
    ensures id != []
    ensures BuildingId(row) != [] ==> id == BuildingId(row)
    ensures BuildingId(row) == [] && ProjectId(row) != [] ==> id == ProjectId(row)
    ensures BuildingId(row) == [] && ProjectId(row) == [] ==>
              id == IdBits(row)[0] + "|" + IdBits(row)[1] + "|" + IdBits(row)[2]
  {
    if BuildingId(row) != [] then BuildingId(row)
    else if ProjectId(row) != [] then ProjectId(row)
    else
      var bits := IdBits(row);
      JoinThree("|", bits[0], bits[1], bits[2]);
      assert bits == [bits[0], bits[1], bits[2]];
      var joined := Join("|", bits);
      if joined != [] then joined else "unknown-id"
  }

  function HouseNumber(row: Row): string {
    Strip(FirstText(row, ["house_number", "low_house_number", "high_house_number"]))
  }

  function Street(row: Row): string {
    Strip(FirstText(row, ["street_name", "streetname"]))
  }

  function Borough(row: Row): string {
    Strip(FirstText(row, ["borough", "boro"]))
  }

  /** The house number and street, space-joined, the empty ones left out; or
      "Unknown address" when both are empty. */
  function StreetAddress(house: string, street: string): (r: string)
    ensures house != [] && street != [] ==> r == house + " " + street
    ensures house != [] && street == [] ==> r == house
    ensures house == [] && street != [] ==> r == street
    ensures house == [] && street == [] ==> r == "Unknown address"
  {
    var parts := if house != [] && street != [] then [house, street]
                 else if house != [] then [house]
                 else if street != [] then [street]
                 else [];
    JoinAppend(" ", [house], street);
    assert [house] + [street] == [house, street];
    if parts != [] then Join(" ", parts) else "Unknown address"
  }

  /** The address: the street address, followed by ", " and the borough
      exactly when the borough is non-empty. */
  function Address(row: Row): (r: string)
    ensures Borough(row) != [] ==> r == StreetAddress(HouseNumber(row), Street(row)) + ", " + Borough(row)
    ensures Borough(row) == [] ==> r == StreetAddress(HouseNumber(row), Street(row))
    ensures r != []
  {
    var address := StreetAddress(HouseNumber(row), Street(row));
    if Borough(row) != [] then address + ", " + Borough(row) else address
  }

  /** A three-operand chain picks its first operand when truthy, else its
      second when truthy. */
  lemma OrChainOfTwo(vs: seq<Value>)
    requires |vs| == 3
    ensures Truthy(vs[0]) ==> OrChain(vs) == vs[0]
    ensures !Truthy(vs[0]) && Truthy(vs[1]) ==> OrChain(vs) == vs[1]
  {
    if Truthy(vs[0]) {
      OrChainPicksFirstTruthy(vs, 0);
    } else if Truthy(vs[1]) {
      OrChainPicksFirstTruthy(vs, 1);
    }
  }

  /** `postcode or zip`, as text, or None when neither is truthy. */
  function Zipcode(row: Row): (r: Option<string>)
    ensures r.Some? <==> Truthy(Get(row, "postcode")) || Truthy(Get(row, "zip"))
    ensures r.Some? ==> r.value != []
    ensures Truthy(Get(row, "postcode")) ==> r == Some(PyStr(Get(row, "postcode")))
    ensures !Truthy(Get(row, "postcode")) && Truthy(Get(row, "zip")) ==> r == Some(PyStr(Get(row, "zip")))
  {
    var vs := [Get(row, "postcode"), Get(row, "zip"), Null];
    var v := OrChain(vs);
    assert Truthy(v) <==> Truthy(vs[0]) || Truthy(vs[1]) || Truthy(vs[2]);
    OrChainOfTwo(vs);
    if v.Null? then None else Some(PyStr(v))
  }

  /** The row has both coordinate keys (whatever their values). */
  predicate HasCoordKeys(row: Row) {
    "latitude" in row && "longitude" in row
  }

  /** The `coordinates` of a dict under `location`, when it is a list of two. */
  function LocationPair(row: Row): (r: Option<(Value, Value)>)
    ensures r.Some? <==>
              "location" in row && row["location"].Obj? &&
              Get(row["location"].fields, "coordinates").Arr? &&
              |Get(row["location"].fields, "coordinates").items| == 2
    ensures r.Some? ==>
              var items := Get(row["location"].fields, "coordinates").items;
              r.value == (items[0], items[1])
  {
    if "location" in row && row["location"].Obj? then
      var coords := Get(row["location"].fields, "coordinates");
      if !coords.Arr? then None
      else
        var items := coords.items;
        if |items| == 2 then Some((items[0], items[1])) else None
    else None
  }

  /** `(lat, lon)`: from the `latitude`/`longitude` keys when both are
      present, else from the location's `[lon, lat]` pair; both or neither. */
  function Coords(row: Row, parse: string -> Option<real>): (r: (Option<real>, Option<real>))
    ensures r.0.Some? == r.1.Some?
    ensures HasCoordKeys(row) ==> r == FloatPair(row["latitude"], row["longitude"], parse)
    ensures !HasCoordKeys(row) && LocationPair(row).Some? ==>
              var (first, second) := LocationPair(row).value;
              r.0.Some? <==> ToFloat(first, parse).Some? && ToFloat(second, parse).Some?
    ensures !HasCoordKeys(row) && LocationPair(row).Some? && r.0.Some? ==>
              var (first, second) := LocationPair(row).value;
              r.0 == ToFloat(second, parse) && r.1 == ToFloat(first, parse)
    ensures !HasCoordKeys(row) && LocationPair(row).None? ==> r == (None, None)
  {
    if HasCoordKeys(row) then FloatPair(row["latitude"], row["longitude"], parse)
    else match LocationPair(row)
      case None => (None, None)
      case Some((first, second)) =>
        var (lon, lat) := FloatPair(first, second, parse);
        (lat, lon)
  }

  /** `x or None` for a str field of the record: None when falsy, the text
      when a str, and a validation error otherwise. */
  function OptionalText(v: Value, field: string): (r: Result<Option<string>, RowError>)
    ensures r.Err? <==> Truthy(v) && !v.Str?
    ensures r.Ok? && Truthy(v) ==> r.value == Some(v.s)
    ensures !Truthy(v) ==> r == Ok(None)
  {
    if !Truthy(v) then Ok(None)
    else if v.Str? then Ok(Some(v.s))
    else Err(NotText(field))
  }

  function Neighborhood(row: Row): Value {
    OrChain([Get(row, "nta_name"), Get(row, "neighborhood"), Null])
  }

  /** `_normalize`: one building row as a listing. It fails only when the
      project name or neighbourhood is truthy and not a str. */
  function Normalize(row: Row, parse: string -> Option<real>): (r: Result<Apartment, RowError>)
    ensures r.Err? <==>
              (Truthy(Get(row, "project_name")) && !Get(row, "project_name").Str?) ||
              (Truthy(Neighborhood(row)) && !Neighborhood(row).Str?)
    ensures r.Ok? ==>
              var a := r.value;
              a.id == ListingId(row) && a.id != [] && a.provider == Name &&
              a.address == Address(row) && a.city == DefaultCity && a.state == DefaultState &&
              a.zipcode == Zipcode(row) && (a.lat, a.lon) == Coords(row, parse) && CoordsPaired(a) &&
              a.price.None? && a.beds.None? && a.baths.None? && a.url.None? && a.raw == Some(row) &&
              a.title == OptionalText(Get(row, "project_name"), "title").value &&
              a.neighborhood == OptionalText(Neighborhood(row), "neighborhood").value
  {
    var title :- OptionalText(Get(row, "project_name"), "title");
    var neighborhood :- OptionalText(Neighborhood(row), "neighborhood");
    var (lat, lon) := Coords(row, parse);
    Ok(Apartment(
      id := ListingId(row),
      provider := Name,
      title := title,
      address := Address(row),
      neighborhood := neighborhood,
      city := DefaultCity,
      state := DefaultState,
      zipcode := Zipcode(row),
      lat := lat,
      lon := lon,
      price := None,
      beds := None,
      baths := None,
      url := None,
      raw := Some(row)))
  }

  function NormalizeWith(parse: string -> Option<real>): Row -> Result<Apartment, RowError> {
    row => Normalize(row, parse)
  }

  /** What `fetch` returns: the error `fetch_json` raises, `[]` for a response
      that is not a list, else the normalised dict rows in response order. */
  function FetchResult(config: AppConfig, host: Host): (r: Result<seq<Apartment>, FetchError>)
    ensures host.fetchJson(DatasetRequest(config)).Err? <==> r.Err?
    ensures host.fetchJson(DatasetRequest(config)).Ok? && !host.fetchJson(DatasetRequest(config)).value.Arr? ==>
              r == Ok([])
    ensures host.fetchJson(DatasetRequest(config)).Err? ==>
              r == Err(RequestFailed(host.fetchJson(DatasetRequest(config)).error))
    ensures host.fetchJson(DatasetRequest(config)).Ok? && host.fetchJson(DatasetRequest(config)).value.Arr? ==>
              r == Ok(KeepNormalized(host.fetchJson(DatasetRequest(config)).value.items, NormalizeWith(host.parseFloat)))
    ensures r.Ok? ==> forall a :: a in r.value ==>
              a.provider == Name && a.id != [] && CoordsPaired(a) &&
              a.price.None? && a.beds.None? && a.baths.None? && a.url.None?
  {
    match host.fetchJson(DatasetRequest(config))
    case Err(e) => Err(RequestFailed(e))
    case Ok(body) =>
      if body.Arr? then
        var kept := KeepNormalized(body.items, NormalizeWith(host.parseFloat));
        forall k | 0 <= k < |kept|
          ensures kept[k].provider == Name && kept[k].id != [] && CoordsPaired(kept[k]) &&
                  kept[k].price.None? && kept[k].beds.None? && kept[k].baths.None? && kept[k].url.None?
        {
          KeptComeFromRows(body.items, NormalizeWith(host.parseFloat), k);
        }
        Ok(kept)
      else Ok([])
  }

  /** `fetch`: build the headers, make the request, keep the rows that
      normalise. */
  method Fetch(config: AppConfig, host: Host) returns (r: Result<seq<Apartment>, FetchError>)
    ensures r == FetchResult(config, host)
  {
    var headers: map<string, string> := map[];
    if config.nycOpenDataAppToken.Some? && config.nycOpenDataAppToken.value != [] {
      headers := headers["X-App-Token" := config.nycOpenDataAppToken.value];
    }
    var params := map["$limit" := IntParam(MaxRows)];
    var raw := host.fetchJson(Request(DatasetUrl, params, headers));
    if raw.Err? {
      return Err(RequestFailed(raw.error));
    }
    if !raw.value.Arr? {
      return Ok([]);
    }
    var apartments := CollectRows(raw.value.items, NormalizeWith(host.parseFloat));
    return Ok(apartments);
  }
}
