/** The RentCast long-term rental listings provider: one search around the
    centre, one listing per returned row. */
module Rentcast {
  import opened Wrappers
  import opened Seqs
  import opened PyText
  import opened Json
  import opened Models
  import opened Http
  import opened Config
  import opened Center
  import opened Rows

  /** The provider's name in configuration. */
  const Name: string := "rentcast_rental_listings"

  const ListingsUrl: string := "https://api.rentcast.io/v1/listings/rental/long-term"

  /** The largest page the service returns. */
  const MaxLimit: int := 500

  /** The page size asked for when no positive limit is configured. */
  const DefaultPageSize: int := 100

  /** The smallest search radius, in kilometres, and the km to miles factor. */
  const MinRadiusKm: real := 0.1
  const MilesPerKm: real := 0.621371

  const ReportUrl: string := "https://app.rentcast.io/property-reports?address="

  /** The key: the configured one when non-empty, else the environment's. */
  function ApiKey(config: AppConfig, env: Option<string>): (r: Option<string>)
    ensures r.Some? ==> r.value != []
    ensures r.None? <==>
              (config.rentcastApiKey.None? || config.rentcastApiKey.value == []) && (env.None? || env.value == [])
    ensures config.rentcastApiKey.Some? && config.rentcastApiKey.value != [] ==> r == config.rentcastApiKey
    ensures (config.rentcastApiKey.None? || config.rentcastApiKey.value == []) && r.Some? ==> r == env
  {
    if config.rentcastApiKey.Some? && config.rentcastApiKey.value != [] then config.rentcastApiKey
    else if env.Some? && env.value != [] then env
    else None
  }

  /** The page size requested: the configured limit capped at 500 when the
      limit is positive, else 100; always between 1 and 500. */
  function PageSize(limit: Option<int>): (r: int)
    ensures 1 <= r <= MaxLimit
    ensures limit.Some? && limit.value > 0 ==> r <= limit.value && (r == limit.value || r == MaxLimit)
    ensures limit.None? || limit.value <= 0 ==> r == DefaultPageSize
  {
    if limit.Some? && limit.value > 0 then
      if limit.value < MaxLimit then limit.value else MaxLimit
    else DefaultPageSize
  }

  /** The search radius in miles, the radius in km raised to at least 0.1 first. */
  function RadiusMiles(radiusKm: real): (r: real)
    ensures r >= MinRadiusKm * MilesPerKm
    ensures radiusKm >= MinRadiusKm ==> r == radiusKm * MilesPerKm
    ensures radiusKm < MinRadiusKm ==> r == MinRadiusKm * MilesPerKm
  {
    (if radiusKm >= MinRadiusKm then radiusKm else MinRadiusKm) * MilesPerKm
  }

  /** One end of a range: its text, or `*` when open. */
  function Bound<T>(b: Option<T>, text: T -> string): (r: string)
    ensures b.None? ==> r == "*"
    ensures b.Some? ==> r == text(b.value)
  {
    if b.Some? then text(b.value) else "*"
  }

  /** RentCast's range syntax `"<min>:<max>"`, `*` standing for an open end;
      no parameter at all when both ends are open. */
  function RangeParam<T>(lo: Option<T>, hi: Option<T>, text: T -> string): (r: Option<string>)
    ensures r.Some? <==> lo.Some? || hi.Some?
    ensures r.Some? ==> r.value == Bound(lo, text) + ":" + Bound(hi, text)
  {
    if lo.Some? || hi.Some? then Some(Bound(lo, text) + ":" + Bound(hi, text)) else None
  }

  /** The position of the first `c` in `s`. */
  function IndexOf(s: string, c: char): (r: Option<nat>)
    ensures r.Some? ==> r.value < |s| && s[r.value] == c && c !in s[..r.value]
    ensures r.None? ==> c !in s
  {
    if s == [] then None
    else if s[0] == c then Some(0)
    else
      match IndexOf(s[1..], c)
      case None => None
      case Some(i) =>
        assert s[..i + 1] == [s[0]] + s[1..][..i];
        Some(i + 1)
  }

  /** The first `c` of `a + [c] + b` is the one after `a` when `a` has none. */
  lemma {:induction false} IndexOfFirst(a: string, c: char, b: string)
    requires c !in a
    ensures IndexOf(a + [c] + b, c) == Some(|a|)
  {
    if a != [] {
      IndexOfFirst(a[1..], c, b);
      assert (a + [c] + b)[1..] == a[1..] + [c] + b;
    }
  }

  /** One end of a price range read back. */
  function ParseBound(s: string): Option<Option<int>> {
    if s == "*" then Some(None)
    else
      match ParseInt(s)
      case Some(i) => Some(Some(i))
      case None => None
  }

  /** A price range read back: split at the first `:`, then each end. */
  function ParsePriceRange(s: string): Option<(Option<int>, Option<int>)> {
    match IndexOf(s, ':')
    case None => None
    case Some(k) =>
      match (ParseBound(s[..k]), ParseBound(s[k + 1..]))
      case (Some(lo), Some(hi)) => Some((lo, hi))
      case _ => None
  }

  /** The text of an integer bound is read back as that bound and holds no `:`. */
  lemma BoundRoundTrip(b: Option<int>)
    ensures ':' !in Bound(b, IntToString)
    ensures ParseBound(Bound(b, IntToString)) == Some(b)
  {
    if b.Some? {
      var t := IntToString(b.value);
      IntToStringRoundTrip(b.value);
      assert t != "*" by {
        assert IsDigit(t[0]) || t[0] == '-';
      }
      assert ':' !in t by {
        forall k | 0 <= k < |t| ensures t[k] != ':' {
          assert IsDigit(t[k]) || t[k] == '-';
        }
      }
    }
  }

  /** Any range parameter whose bound texts hold no `:` splits at its first
      `:` into the two ends; this covers `bedrooms`, whose ends are float
      texts. */
  lemma RangeParamSplit<T>(lo: Option<T>, hi: Option<T>, text: T -> string)
    requires lo.Some? || hi.Some?
    requires forall x :: ':' !in text(x)
    ensures var s := RangeParam(lo, hi, text).value;
            var k := |Bound(lo, text)|;
            IndexOf(s, ':') == Some(k) && s[..k] == Bound(lo, text) && s[k + 1..] == Bound(hi, text)
  {
    var a, b := Bound(lo, text), Bound(hi, text);
    assert ':' !in a;
    IndexOfFirst(a, ':', b);
    assert a + ":" + b == a + [':'] + b;
  }

  /** The `price` parameter reads back as the configured bounds. */
  lemma {:induction false} PriceRangeRoundTrip(lo: Option<int>, hi: Option<int>)
    requires lo.Some? || hi.Some?
    ensures ParsePriceRange(RangeParam(lo, hi, IntToString).value) == Some((lo, hi))
  {
    var a := Bound(lo, IntToString);
    var b := Bound(hi, IntToString);
    var s := a + ":" + b;
    BoundRoundTrip(lo);
    BoundRoundTrip(hi);
    IndexOfFirst(a, ':', b);
    assert s[..|a|] == a;
    assert s[|a| + 1..] == b;
  }

  /** The query parameters of the search. */
  function Params(config: AppConfig, center: Location, floatStr: real -> string): (p: map<string, Param>)
    ensures "latitude" in p && p["latitude"] == RealParam(center.lat)
    ensures "longitude" in p && p["longitude"] == RealParam(center.lon)
    ensures "radius" in p && p["radius"] == RealParam(RadiusMiles(config.radiusKm))
    ensures "status" in p && p["status"] == TextParam("Active")
    ensures "limit" in p && p["limit"] == IntParam(PageSize(config.limit))
    ensures "price" in p <==> config.minPrice.Some? || config.maxPrice.Some?
    ensures "price" in p ==>
              p["price"] == TextParam(RangeParam(config.minPrice, config.maxPrice, IntToString).value)
    ensures "bedrooms" in p <==> config.minBeds.Some? || config.maxBeds.Some?
    ensures "bedrooms" in p ==>
              p["bedrooms"] == TextParam(RangeParam(config.minBeds, config.maxBeds, floatStr).value)
  {
    var base := map[
      "latitude" := RealParam(center.lat),
      "longitude" := RealParam(center.lon),
      "radius" := RealParam(RadiusMiles(config.radiusKm)),
      "status" := TextParam("Active"),
      "limit" := IntParam(PageSize(config.limit))];
    var price := RangeParam(config.minPrice, config.maxPrice, IntToString);
    var beds := RangeParam(config.minBeds, config.maxBeds, floatStr);
    var withPrice := if price.Some? then base["price" := TextParam(price.value)] else base;
    if beds.Some? then withPrice["bedrooms" := TextParam(beds.value)] else withPrice
  }

  /** The one request `fetch` makes once it has a key and a centre. */
  function SearchRequest(config: AppConfig, center: Location, key: string, floatStr: real -> string): Request {
    Request(ListingsUrl, Params(config, center, floatStr), map["X-Api-Key" := key])
  }

  /** The stripped text fields of a row. */
  datatype RowText = RowText(
    formattedAddress: string,
    addressLine1: string,
    city: string,
    state: string,
    propertyType: string,
    status: string)

  /** `.strip()` raises on this field: its value is truthy and not a str. */
  predicate NotStrippable(row: Row, key: string) {
    Truthy(Get(row, key)) && !Get(row, key).Str?
  }

  /** `(row.get(key) or default).strip() or default`: the stripped text, or
      the default when the field is blank; a missing or falsy field reads
      as the stripped default. */
  function StripOr(row: Row, key: string, default: string): (r: Result<string, RowError>)
    requires default != []
    ensures r.Err? <==> NotStrippable(row, key)
    ensures r.Ok? ==> r.value != []
    ensures r.Ok? && Truthy(Get(row, key)) && Strip(Get(row, key).s) != [] ==> r.value == Strip(Get(row, key).s)
    ensures r.Ok? && Truthy(Get(row, key)) && Strip(Get(row, key).s) == [] ==> r.value == default
    ensures r.Ok? && !Truthy(Get(row, key)) ==> r.value == (if Strip(default) != [] then Strip(default) else default)
  {
    var text :- StripField(row, key, default);
    Ok(if text != [] then text else default)
  }

  /** A default with no whitespace at either end, as "New York" and "NY"
      are, is what a missing, falsy or blank field reads as. */
  lemma StripOrCleanDefault(row: Row, key: string, default: string)
    requires default != [] && !IsSpace(default[0]) && !IsSpace(default[|default| - 1])
    requires StripOr(row, key, default).Ok? && !(Truthy(Get(row, key)) && Strip(Get(row, key).s) != [])
    ensures StripOr(row, key, default).value == default
  {
    StripUnchanged(default);
  }

  /** The text fields, stripped, city and state with their defaults. Fails
      when any field that is stripped holds a truthy value that is not a str. */
  function ReadTexts(row: Row): (r: Result<RowText, RowError>)
    ensures r.Err? <==>
              NotStrippable(row, "formattedAddress") || NotStrippable(row, "addressLine1") ||
              NotStrippable(row, "city") || NotStrippable(row, "state") ||
              NotStrippable(row, "propertyType") || NotStrippable(row, "status")
    ensures r.Ok? ==> r.value.city != [] && r.value.state != []
    ensures r.Ok? ==> Ok(r.value.city) == StripOr(row, "city", DefaultCity)
    ensures r.Ok? ==> Ok(r.value.state) == StripOr(row, "state", DefaultState)
    ensures r.Ok? ==> Ok(r.value.formattedAddress) == StripField(row, "formattedAddress", "")
    ensures r.Ok? ==> Ok(r.value.addressLine1) == StripField(row, "addressLine1", "")
    ensures r.Ok? ==> Ok(r.value.propertyType) == StripField(row, "propertyType", "")
    ensures r.Ok? ==> Ok(r.value.status) == StripField(row, "status", "")
  {
    TextsOf(StripField(row, "formattedAddress", ""), StripField(row, "addressLine1", ""),
            StripOr(row, "city", DefaultCity), StripOr(row, "state", DefaultState),
            StripField(row, "propertyType", ""), StripField(row, "status", ""))
  }

  /** The six texts read in order: the first read that failed, else all of them. */
  function TextsOf(formattedAddress: Result<string, RowError>, addressLine1: Result<string, RowError>,
                   city: Result<string, RowError>, state: Result<string, RowError>,
                   propertyType: Result<string, RowError>, status: Result<string, RowError>): (r: Result<RowText, RowError>)
    ensures r.Err? <==> formattedAddress.Err? || addressLine1.Err? || city.Err? || state.Err? ||
                        propertyType.Err? || status.Err?
    ensures r.Ok? ==> r.value == RowText(formattedAddress.value, addressLine1.value, city.value, state.value,
                                         propertyType.value, status.value)
  {
    if formattedAddress.Err? then Err(formattedAddress.error)
    else if addressLine1.Err? then Err(addressLine1.error)
    else if city.Err? then Err(city.error)
    else if state.Err? then Err(state.error)
    else if propertyType.Err? then Err(propertyType.error)
    else if status.Err? then Err(status.error)
    else Ok(RowText(formattedAddress.value, addressLine1.value, city.value, state.value,
                    propertyType.value, status.value))
  }

  /** The first truthy of `id`, `listingId`, `zillowId`, `mlsId`, as text. */
  function PrimaryId(row: Row): string {
    FirstText(row, ["id", "listingId", "zillowId", "mlsId"])
  }

  /** The address bits of the fallback id, each stripped. */
  function IdBits(row: Row): seq<string> {
    [Strip(FirstText(row, ["addressLine1"])), Strip(FirstText(row, ["city"])),
     Strip(FirstText(row, ["state"])), Strip(FirstText(row, ["zipCode"]))]
  }

  function NonEmptyText(): string -> bool {
    s => s != []
  }

  /** The fallback id from address bits: the non-empty ones joined with
      `|`, or "unknown-id" when all are empty; never empty. */
  function FallbackId(bits: seq<string>): (id: string)
    ensures id != []
    ensures Filter(bits, NonEmptyText()) != [] ==> id == Join("|", Filter(bits, NonEmptyText()))
    ensures (forall i :: 0 <= i < |bits| ==> bits[i] == []) ==> id == "unknown-id"
  {
    var kept := Filter(bits, NonEmptyText());
    if forall i :: 0 <= i < |bits| ==> bits[i] == [] then
      FilterDropsAll(bits, NonEmptyText());
      "unknown-id"
    else
      var joined := Join("|", kept);
      if joined != [] then joined else "unknown-id"
  }

  /** The listing id: the primary id, else the fallback id; never empty. */
  function ListingId(row: Row): (id: string)
    ensures id != []
    ensures PrimaryId(row) != [] ==> id == PrimaryId(row)
    ensures PrimaryId(row) == [] ==> id == FallbackId(IdBits(row))
  {
    var primary := PrimaryId(row);
    if primary != [] then primary else FallbackId(IdBits(row))
  }

  /** `str(zipCode).strip() or None` when the key holds a value, else None. */
  function Zipcode(row: Row): (r: Option<string>)
    ensures r.Some? ==> !Get(row, "zipCode").Null? && r.value == Strip(PyStr(Get(row, "zipCode")))
    ensures r.Some? <==> !Get(row, "zipCode").Null? && Strip(PyStr(Get(row, "zipCode"))) != []
  {
    var v := Get(row, "zipCode");
    if v.Null? then None
    else
      var z := Strip(PyStr(v));
      if z != [] then Some(z) else None
  }

  /** The address: the formatted address when non-empty, else
      `"line1, city, state[, zip]"` when the first line is non-empty, else
      "Unknown address". */
  function Address(t: RowText, zipcode: Option<string>): (r: string)
    requires zipcode.Some? ==> zipcode.value != []
    ensures r != [] || t.formattedAddress != []
    ensures t.formattedAddress != [] ==> r == t.formattedAddress
    ensures t.formattedAddress == [] && t.addressLine1 != [] ==>
              r == t.addressLine1 + ", " + t.city + ", " + t.state +
                   (if zipcode.Some? then ", " + zipcode.value else "")
    ensures t.formattedAddress == [] && t.addressLine1 == [] ==> r == "Unknown address"
  {
    if t.formattedAddress != [] then t.formattedAddress
    else if t.addressLine1 != [] then
      var parts := [t.addressLine1, t.city, t.state];
      JoinThree(", ", t.addressLine1, t.city, t.state);
      if zipcode.Some? then
        JoinAppend(", ", parts, zipcode.value);
        Join(", ", parts + [zipcode.value])
      else Join(", ", parts)
    else "Unknown address"
  }

  /** `(lat, lon)`: both read as floats when both are present, both None when
      either is missing or does not read. */
  function Coords(row: Row, parse: string -> Option<real>): (r: (Option<real>, Option<real>))
    ensures r.0.Some? == r.1.Some?
    ensures r.0.Some? <==>
              !Get(row, "latitude").Null? && !Get(row, "longitude").Null? &&
              ToFloat(Get(row, "latitude"), parse).Some? && ToFloat(Get(row, "longitude"), parse).Some?
    ensures r.0.Some? ==>
              r.0 == ToFloat(Get(row, "latitude"), parse) && r.1 == ToFloat(Get(row, "longitude"), parse)
  {
    if !Get(row, "latitude").Null? && !Get(row, "longitude").Null? then
      FloatPair(Get(row, "latitude"), Get(row, "longitude"), parse)
    else (None, None)
  }

  /** `float(row[key])` when the key holds a value and it reads, else None. */
  function OptionalFloat(row: Row, key: string, parse: string -> Option<real>): (r: Option<real>)
    ensures r.Some? ==> r == ToFloat(Get(row, key), parse)
    ensures Get(row, key).Null? ==> r.None?
    ensures !Get(row, key).Null? ==> r == ToFloat(Get(row, key), parse)
  {
    var v := Get(row, key);
    if v.Null? then None else ToFloat(v, parse)
  }

  /** `int(float(price))`: the price truncated toward zero. */
  function Price(row: Row, parse: string -> Option<real>): (r: Option<int>)
    ensures r.Some? <==> OptionalFloat(row, "price", parse).Some?
    ensures r.Some? ==> r.value == Trunc(OptionalFloat(row, "price", parse).value)
  {
    match OptionalFloat(row, "price", parse)
    case None => None
    case Some(f) => Some(Trunc(f))
  }

  /** The title's parts: "<beds> BR", the property type and "(<status>)",
      those that are present, in that order. */
  function TitleParts(beds: Option<real>, t: RowText, formatG: real -> string): seq<string> {
    (if beds.Some? then [formatG(beds.value) + " BR"] else []) +
    (if t.propertyType != [] then [t.propertyType] else []) +
    (if t.status != [] then ["(" + t.status + ")"] else [])
  }

  /** The parts joined by spaces, case by case. */
  lemma TitleJoin(beds: Option<real>, t: RowText, formatG: real -> string)
    ensures var title := Join(" ", TitleParts(beds, t, formatG));
            var b := if beds.Some? then formatG(beds.value) + " BR" else "";
            var s := "(" + t.status + ")";
            var pt := t.propertyType;
            (beds.None? && pt == [] && t.status == [] ==> title == []) &&
            (beds.Some? && pt == [] && t.status == [] ==> title == b) &&
            (beds.None? && pt != [] && t.status == [] ==> title == pt) &&
            (beds.None? && pt == [] && t.status != [] ==> title == s) &&
            (beds.Some? && pt != [] && t.status == [] ==> title == b + " " + pt) &&
            (beds.Some? && pt == [] && t.status != [] ==> title == b + " " + s) &&
            (beds.None? && pt != [] && t.status != [] ==> title == pt + " " + s) &&
            (beds.Some? && pt != [] && t.status != [] ==> title == b + " " + pt + " " + s)
  {
    var b := if beds.Some? then formatG(beds.value) + " BR" else "";
    var s := "(" + t.status + ")";
    var pt := t.propertyType;
    var parts := TitleParts(beds, t, formatG);
    if beds.Some? && pt != [] && t.status != [] {
      assert parts == [b, pt, s];
      JoinThree(" ", b, pt, s);
    } else if beds.Some? && pt != [] {
      assert parts == [b, pt];
      JoinTwo(" ", b, pt);
    } else if beds.Some? && t.status != [] {
      assert parts == [b, s];
      JoinTwo(" ", b, s);
    } else if pt != [] && t.status != [] {
      assert parts == [pt, s];
      JoinTwo(" ", pt, s);
    } else if beds.Some? {
      assert parts == [b];
    } else if pt != [] {
      assert parts == [pt];
    } else if t.status != [] {
      assert parts == [s];
    } else {
      assert parts == [];
    }
  }

  /** The title: "<beds> BR", the property type and "(<status>)", those that
      are present, in that order and space-joined; None when none is. */
  function Title(beds: Option<real>, t: RowText, formatG: real -> string): (r: Option<string>)
    ensures r.None? <==> beds.None? && t.propertyType == [] && t.status == []
    ensures r.Some? ==> r.value != []
    ensures var b := if beds.Some? then formatG(beds.value) + " BR" else "";
            var s := "(" + t.status + ")";
            var pt := t.propertyType;
            (beds.Some? && pt == [] && t.status == [] ==> r == Some(b)) &&
            (beds.None? && pt != [] && t.status == [] ==> r == Some(pt)) &&
            (beds.None? && pt == [] && t.status != [] ==> r == Some(s)) &&
            (beds.Some? && pt != [] && t.status == [] ==> r == Some(b + " " + pt)) &&
            (beds.Some? && pt == [] && t.status != [] ==> r == Some(b + " " + s)) &&
            (beds.None? && pt != [] && t.status != [] ==> r == Some(pt + " " + s)) &&
            (beds.Some? && pt != [] && t.status != [] ==> r == Some(b + " " + pt + " " + s))
  {
    TitleJoin(beds, t, formatG);
    var title := Join(" ", TitleParts(beds, t, formatG));
    if title != [] then Some(title) else None
  }

  /** The property report link, made when the formatted address is non-empty. */
  function ReportLink(formattedAddress: string, quotePlus: string -> string): (r: Option<string>)
    ensures r.Some? <==> formattedAddress != []
    ensures r.Some? ==> r.value == ReportUrl + quotePlus(formattedAddress)
  {
    if formattedAddress != [] then Some(ReportUrl + quotePlus(formattedAddress)) else None
  }

  /** `_normalize`: one RentCast row as a listing. It fails exactly when a
      field it strips is truthy and not a str. */
  function Normalize(row: Row, host: Host): (r: Result<Apartment, RowError>)
    ensures r.Err? <==> ReadTexts(row).Err?
    ensures r.Ok? ==>
              var a := r.value;
              var t := ReadTexts(row).value;
              a.id == ListingId(row) && a.id != [] && a.provider == Name &&
              a.address == Address(t, Zipcode(row)) && a.city == t.city && a.state == t.state &&
              CoordsPaired(a) && (a.lat, a.lon) == Coords(row, host.parseFloat) &&
              a.price == Price(row, host.parseFloat) &&
              a.beds == OptionalFloat(row, "bedrooms", host.parseFloat) &&
              a.baths == OptionalFloat(row, "bathrooms", host.parseFloat) &&
              a.zipcode == Zipcode(row) && a.title == Title(a.beds, t, host.formatG) &&
              a.url == ReportLink(t.formattedAddress, host.quotePlus) &&
              (a.url.Some? <==> t.formattedAddress != []) &&
              a.neighborhood.None? && a.raw == Some(row)
  {
    var t :- ReadTexts(row);
    var zipcode := Zipcode(row);
    var (lat, lon) := Coords(row, host.parseFloat);
    var beds := OptionalFloat(row, "bedrooms", host.parseFloat);
    Ok(Apartment(
      id := ListingId(row),
      provider := Name,
      title := Title(beds, t, host.formatG),
      address := Address(t, zipcode),
      neighborhood := None,
      city := t.city,
      state := t.state,
      zipcode := zipcode,
      lat := lat,
      lon := lon,
      price := Price(row, host.parseFloat),
      beds := beds,
      baths := OptionalFloat(row, "bathrooms", host.parseFloat),
      url := ReportLink(t.formattedAddress, host.quotePlus),
      raw := Some(row)))
  }

  function NormalizeWith(host: Host): Row -> Result<Apartment, RowError> {
    row => Normalize(row, host)
  }

  /** What `fetch` returns: `[]` without a key; the centre's error; the
      request's error; `[]` for a response that is not a list; else the rows
      that normalise, in response order. */
  function FetchResult(config: AppConfig, host: Host): (r: Result<seq<Apartment>, FetchError>)
    ensures ApiKey(config, host.rentcastKeyEnv).None? ==> r == Ok([])
    ensures ApiKey(config, host.rentcastKeyEnv).Some? && ResolveCenter(config, host.geocode).Err? ==>
              r == Err(BadCenter(ResolveCenter(config, host.geocode).error))
    ensures r.Err? && r.error.RequestFailed? ==>
              ApiKey(config, host.rentcastKeyEnv).Some? && ResolveCenter(config, host.geocode).Ok? &&
              host.fetchJson(SearchRequest(config, ResolveCenter(config, host.geocode).value,
                                           ApiKey(config, host.rentcastKeyEnv).value, host.floatStr)).Err?
    ensures ApiKey(config, host.rentcastKeyEnv).Some? && ResolveCenter(config, host.geocode).Ok? ==>
              var response := host.fetchJson(SearchRequest(config, ResolveCenter(config, host.geocode).value,
                                                           ApiKey(config, host.rentcastKeyEnv).value, host.floatStr));
              (response.Err? ==> r == Err(RequestFailed(response.error))) &&
              (response.Ok? && !response.value.Arr? ==> r == Ok([])) &&
              (response.Ok? && response.value.Arr? ==> r == Ok(KeepNormalized(response.value.items, NormalizeWith(host))))
    ensures r.Ok? ==> forall a :: a in r.value ==>
              a.provider == Name && a.id != [] && a.city != [] && a.state != [] && CoordsPaired(a)
  {
    match ApiKey(config, host.rentcastKeyEnv)
    case None => Ok([])
    case Some(key) =>
      match ResolveCenter(config, host.geocode)
      case Err(e) => Err(BadCenter(e))
      case Ok(center) =>
        match host.fetchJson(SearchRequest(config, center, key, host.floatStr))
        case Err(m) => Err(RequestFailed(m))
        case Ok(body) =>
          if body.Arr? then
            var kept := KeepNormalized(body.items, NormalizeWith(host));
            forall k | 0 <= k < |kept|
              ensures kept[k].provider == Name && kept[k].id != [] && kept[k].city != [] &&
                      kept[k].state != [] && CoordsPaired(kept[k])
            {
              KeptComeFromRows(body.items, NormalizeWith(host), k);
            }
            Ok(kept)
          else Ok([])
  }

  /** Without a key nothing else is consulted: the result is `[]` whatever the
      geocoder and the HTTP helper would do. */
  lemma NoKeyNoRequest(config: AppConfig, h1: Host, h2: Host)
    requires ApiKey(config, h1.rentcastKeyEnv).None?
    requires h2.rentcastKeyEnv == h1.rentcastKeyEnv
    ensures FetchResult(config, h1) == FetchResult(config, h2) == Ok([])
  {
  }

  /** The parameter dict of `fetch`: the fixed entries, then the price and
      bedroom ranges when a bound is set. */
  method BuildParams(config: AppConfig, center: Location, floatStr: real -> string) returns (params: map<string, Param>)
    ensures params == Params(config, center, floatStr)
  {
    var requested := DefaultPageSize;
    if config.limit.Some? && config.limit.value > 0 {
      requested := if config.limit.value < MaxLimit then config.limit.value else MaxLimit;
    }
    params := map[
      "latitude" := RealParam(center.lat),
      "longitude" := RealParam(center.lon),
      "radius" := RealParam(RadiusMiles(config.radiusKm)),
      "status" := TextParam("Active"),
      "limit" := IntParam(requested)];
    if config.minPrice.Some? || config.maxPrice.Some? {
      var minVal := if config.minPrice.Some? then IntToString(config.minPrice.value) else "*";
      var maxVal := if config.maxPrice.Some? then IntToString(config.maxPrice.value) else "*";
      params := params["price" := TextParam(minVal + ":" + maxVal)];
    }
    if config.minBeds.Some? || config.maxBeds.Some? {
      var minVal := if config.minBeds.Some? then floatStr(config.minBeds.value) else "*";
      var maxVal := if config.maxBeds.Some? then floatStr(config.maxBeds.value) else "*";
      params := params["bedrooms" := TextParam(minVal + ":" + maxVal)];
    }
  }

  /** `fetch`: check the key, resolve the centre, build the parameters, make
      the request, keep the rows that normalise. */
  method Fetch(config: AppConfig, host: Host) returns (r: Result<seq<Apartment>, FetchError>)
    ensures r == FetchResult(config, host)
  {
    var apiKey := if config.rentcastApiKey.Some? && config.rentcastApiKey.value != [] then config.rentcastApiKey
                  else host.rentcastKeyEnv;
    if apiKey.None? || apiKey.value == [] {
      return Ok([]);
    }
    var center := ResolveCenter(config, host.geocode);
    if center.Err? {
      return Err(BadCenter(center.error));
    }
    var headers := map["X-Api-Key" := apiKey.value];
    var params := BuildParams(config, center.value, host.floatStr);
    var raw := host.fetchJson(Request(ListingsUrl, params, headers));
    if raw.Err? {
      return Err(RequestFailed(raw.error));
    }
    if !raw.value.Arr? {
      return Ok([]);
    }
    var apartments := CollectRows(raw.value.items, NormalizeWith(host));
    return Ok(apartments);
  }
}
