/** `AppConfig`, its defaults, its dict form, and `merge_cli_overrides`. */
module Config {
  import opened Wrappers

  /** The search configuration. */
  datatype AppConfig = AppConfig(
    centerAddress: Option<string>,
    centerLat: Option<real>,
    centerLon: Option<real>,
    radiusKm: real,
    minPrice: Option<int>,
    maxPrice: Option<int>,
    minBeds: Option<real>,
    maxBeds: Option<real>,
    providers: seq<string>,
    outputFormat: string,
    limit: Option<int>,
    nycOpenDataAppToken: Option<string>,
    rentcastApiKey: Option<string>,
    httpProxy: Option<string>,
    httpsProxy: Option<string>,
    geocoderUserAgent: string)

  /** The declared defaults: radius 3.0 km, no bounds, every provider (the
      empty list), no limit. */
  const Default: AppConfig := AppConfig(
    None, None, None, 3.0, None, None, None, None, [], "table", None,
    None, None, None, None, "nyc-apartments-scraper")

  /** The declared fields of the config. */
  datatype FieldName =
    | CenterAddress | CenterLat | CenterLon | RadiusKm | MinPrice | MaxPrice
    | MinBeds | MaxBeds | Providers | OutputFormat | Limit | NycOpenDataAppToken
    | RentcastApiKey | HttpProxy | HttpsProxy | GeocoderUserAgent

  /** The attribute name of a field: the key of its entry in the dict form. */
  function Key(f: FieldName): string {
    match f
    case CenterAddress => "center_address"
    case CenterLat => "center_lat"
    case CenterLon => "center_lon"
    case RadiusKm => "radius_km"
    case MinPrice => "min_price"
    case MaxPrice => "max_price"
    case MinBeds => "min_beds"
    case MaxBeds => "max_beds"
    case Providers => "providers"
    case OutputFormat => "output_format"
    case Limit => "limit"
    case NycOpenDataAppToken => "nyc_open_data_app_token"
    case RentcastApiKey => "rentcast_api_key"
    case HttpProxy => "http_proxy"
    case HttpsProxy => "https_proxy"
    case GeocoderUserAgent => "geocoder_user_agent"
  }

  /** The field an override key names, if any (`key in data`). */
  function FieldNamed(key: string): (r: Option<FieldName>)
    ensures r.Some? ==> Key(r.value) == key
  {
    if key == "center_address" then Some(CenterAddress)
    else if key == "center_lat" then Some(CenterLat)
    else if key == "center_lon" then Some(CenterLon)
    else if key == "radius_km" then Some(RadiusKm)
    else if key == "min_price" then Some(MinPrice)
    else if key == "max_price" then Some(MaxPrice)
    else if key == "min_beds" then Some(MinBeds)
    else if key == "max_beds" then Some(MaxBeds)
    else if key == "providers" then Some(Providers)
    else if key == "output_format" then Some(OutputFormat)
    else if key == "limit" then Some(Limit)
    else if key == "nyc_open_data_app_token" then Some(NycOpenDataAppToken)
    else if key == "rentcast_api_key" then Some(RentcastApiKey)
    else if key == "http_proxy" then Some(HttpProxy)
    else if key == "https_proxy" then Some(HttpsProxy)
    else if key == "geocoder_user_agent" then Some(GeocoderUserAgent)
    else None
  }

  /** Every field is found under its own key, so distinct fields have distinct keys. */
  lemma FieldNamedKey(f: FieldName)
    ensures FieldNamed(Key(f)) == Some(f)
  {
    match f
    case CenterAddress =>
    case CenterLat =>
    case CenterLon =>
    case RadiusKm =>
    case MinPrice =>
    case MaxPrice =>
    case MinBeds =>
    case MaxBeds =>
    case Providers =>
    case OutputFormat =>
    case Limit =>
    case NycOpenDataAppToken =>
    case RentcastApiKey =>
    case HttpProxy =>
    case HttpsProxy =>
    case GeocoderUserAgent =>
  }

  /** A value in the dict form of a config, or passed as an override. */
  datatype FieldValue =
    | NoneValue
    | Text(s: string)
    | Float(r: real)
    | Integer(i: int)
    | Texts(ss: seq<string>)

  /** The declared type of a field. */
  datatype Kind = TextKind | OptTextKind | FloatKind | OptFloatKind | OptIntKind | TextListKind

  function KindOf(f: FieldName): Kind {
    match f
    case CenterAddress => OptTextKind
    case CenterLat => OptFloatKind
    case CenterLon => OptFloatKind
    case RadiusKm => FloatKind
    case MinPrice => OptIntKind
    case MaxPrice => OptIntKind
    case MinBeds => OptFloatKind
    case MaxBeds => OptFloatKind
    case Providers => TextListKind
    case OutputFormat => TextKind
    case Limit => OptIntKind
    case NycOpenDataAppToken => OptTextKind
    case RentcastApiKey => OptTextKind
    case HttpProxy => OptTextKind
    case HttpsProxy => OptTextKind
    case GeocoderUserAgent => TextKind
  }

  function OptText(o: Option<string>): FieldValue {
    if o.Some? then Text(o.value) else NoneValue
  }

  function OptFloat(o: Option<real>): FieldValue {
    if o.Some? then Float(o.value) else NoneValue
  }

  function OptInt(o: Option<int>): FieldValue {
    if o.Some? then Integer(o.value) else NoneValue
  }

  // Reading canonical values back (the fallbacks are never reached from Lookup).
  function AsText(v: FieldValue): string { if v.Text? then v.s else "" }
  function AsOptText(v: FieldValue): Option<string> { if v.Text? then Some(v.s) else None }
  function AsFloat(v: FieldValue): real { if v.Float? then v.r else 0.0 }
  function AsOptFloat(v: FieldValue): Option<real> { if v.Float? then Some(v.r) else None }
  function AsOptInt(v: FieldValue): Option<int> { if v.Integer? then Some(v.i) else None }
  function AsTexts(v: FieldValue): seq<string> { if v.Texts? then v.ss else [] }

  /** The value of one field, in dict form. */
  function Field(c: AppConfig, f: FieldName): FieldValue {
    match f
    case CenterAddress => OptText(c.centerAddress)
    case CenterLat => OptFloat(c.centerLat)
    case CenterLon => OptFloat(c.centerLon)
    case RadiusKm => Float(c.radiusKm)
    case MinPrice => OptInt(c.minPrice)
    case MaxPrice => OptInt(c.maxPrice)
    case MinBeds => OptFloat(c.minBeds)
    case MaxBeds => OptFloat(c.maxBeds)
    case Providers => Texts(c.providers)
    case OutputFormat => Text(c.outputFormat)
    case Limit => OptInt(c.limit)
    case NycOpenDataAppToken => OptText(c.nycOpenDataAppToken)
    case RentcastApiKey => OptText(c.rentcastApiKey)
    case HttpProxy => OptText(c.httpProxy)
    case HttpsProxy => OptText(c.httpsProxy)
    case GeocoderUserAgent => Text(c.geocoderUserAgent)
  }

  /** `config.dict()`: one entry per declared field, holding its value. */
  function ToData(c: AppConfig): (d: map<FieldName, FieldValue>)
    ensures d.Keys == AllFields()
    ensures forall f :: f in d ==> d[f] == Field(c, f)
  {
    map f: FieldName | f in AllFields() :: Field(c, f)
  }

  function AllFields(): set<FieldName> {
    {CenterAddress, CenterLat, CenterLon, RadiusKm, MinPrice, MaxPrice, MinBeds, MaxBeds,
     Providers, OutputFormat, Limit, NycOpenDataAppToken, RentcastApiKey, HttpProxy,
     HttpsProxy, GeocoderUserAgent}
  }

  lemma EveryFieldListed(f: FieldName)
    ensures f in AllFields()
  {
    match f
    case CenterAddress =>
    case CenterLat =>
    case CenterLon =>
    case RadiusKm =>
    case MinPrice =>
    case MaxPrice =>
    case MinBeds =>
    case MaxBeds =>
    case Providers =>
    case OutputFormat =>
    case Limit =>
    case NycOpenDataAppToken =>
    case RentcastApiKey =>
    case HttpProxy =>
    case HttpsProxy =>
    case GeocoderUserAgent =>
  }

  /** `v` is a canonical value of the given kind. */
  predicate HasKind(kind: Kind, v: FieldValue) {
    match kind
    case TextKind => v.Text?
    case OptTextKind => v.NoneValue? || v.Text?
    case FloatKind => v.Float?
    case OptFloatKind => v.NoneValue? || v.Float?
    case OptIntKind => v.NoneValue? || v.Integer?
    case TextListKind => v.Texts?
  }

  /** pydantic's lax validation of one value for a field, giving the value in
      canonical form (an int for a float field becomes a float; an integral
      float for an int field becomes an int). A canonical value is accepted
      as it is. */
  function Canon(f: FieldName, v: FieldValue): (r: Option<FieldValue>)
    ensures r.Some? ==> HasKind(KindOf(f), r.value)
    ensures HasKind(KindOf(f), v) ==> r == Some(v)
  {
    match KindOf(f)
    case TextKind => if v.Text? then Some(v) else None
    case OptTextKind => if v.NoneValue? || v.Text? then Some(v) else None
    case FloatKind =>
      if v.Float? then Some(v)
      else if v.Integer? then Some(Float(v.i as real))
      else None
    case OptFloatKind =>
      if v.NoneValue? || v.Float? then Some(v)
      else if v.Integer? then Some(Float(v.i as real))
      else None
    case OptIntKind =>
      if v.NoneValue? || v.Integer? then Some(v)
      else if v.Float? && v.r == v.r.Floor as real then Some(Integer(v.r.Floor))
      else None
    case TextListKind => if v.Texts? then Some(v) else None
  }

  /** Every field of a config holds a value of its declared kind. */
  lemma FieldsHaveKinds(c: AppConfig, f: FieldName)
    ensures HasKind(KindOf(f), Field(c, f))
  {
  }

  /** The validated value of field `f` in `d`, or its default when absent. */
  function Lookup(d: map<FieldName, FieldValue>, f: FieldName): (r: Option<FieldValue>)
    ensures r.Some? ==> HasKind(KindOf(f), r.value)
    ensures f in d ==> r == Canon(f, d[f])
    ensures f !in d ==> r == Some(Field(Default, f))
  {
    FieldsHaveKinds(Default, f);
    if f in d then Canon(f, d[f]) else Some(Field(Default, f))
  }

  /** The validated value of `f` in `d` (None when it does not validate). */
  function ValueOf(d: map<FieldName, FieldValue>, f: FieldName): FieldValue {
    var r := Lookup(d, f);
    if r.Some? then r.value else NoneValue
  }

  /** The config whose fields hold the validated values of `d`. */
  function Build(d: map<FieldName, FieldValue>): AppConfig {
    AppConfig(
      AsOptText(ValueOf(d, CenterAddress)), AsOptFloat(ValueOf(d, CenterLat)),
      AsOptFloat(ValueOf(d, CenterLon)), AsFloat(ValueOf(d, RadiusKm)),
      AsOptInt(ValueOf(d, MinPrice)), AsOptInt(ValueOf(d, MaxPrice)),
      AsOptFloat(ValueOf(d, MinBeds)), AsOptFloat(ValueOf(d, MaxBeds)),
      AsTexts(ValueOf(d, Providers)), AsText(ValueOf(d, OutputFormat)),
      AsOptInt(ValueOf(d, Limit)), AsOptText(ValueOf(d, NycOpenDataAppToken)),
      AsOptText(ValueOf(d, RentcastApiKey)), AsOptText(ValueOf(d, HttpProxy)),
      AsOptText(ValueOf(d, HttpsProxy)), AsText(ValueOf(d, GeocoderUserAgent)))
  }

  /** The fields whose value in `d` pydantic rejects. */
  function InvalidFields(d: map<FieldName, FieldValue>): set<FieldName> {
    set f | f in AllFields() && Lookup(d, f).None?
  }

  /** `AppConfig(**d)`: the config built from a dict, or the ValidationError
      naming every field that does not validate. Absent fields take their
      defaults; keys that are not fields are ignored. */
  function FromData(d: map<FieldName, FieldValue>): (r: Result<AppConfig, set<FieldName>>)
    ensures r.Err? ==> r.error != {}
    ensures r.Err? ==> forall f :: f in r.error <==> f in AllFields() && Lookup(d, f).None?
  {
    if InvalidFields(d) == {} then Ok(Build(d)) else Err(InvalidFields(d))
  }

  /** A field that validates is stored as its canonical value. */
  lemma {:induction false} GetBuild(d: map<FieldName, FieldValue>, f: FieldName)
    requires Lookup(d, f).Some?
    ensures Field(Build(d), f) == Lookup(d, f).value
  {
    match f
    case CenterAddress =>
    case CenterLat =>
    case CenterLon =>
    case RadiusKm =>
    case MinPrice =>
    case MaxPrice =>
    case MinBeds =>
    case MaxBeds =>
    case Providers =>
    case OutputFormat =>
    case Limit =>
    case NycOpenDataAppToken =>
    case RentcastApiKey =>
    case HttpProxy =>
    case HttpsProxy =>
    case GeocoderUserAgent =>
  }

  lemma OptTextInjective(x: Option<string>, y: Option<string>, u: FieldValue, v: FieldValue)
    requires u == OptText(x) && v == OptText(y) && u == v
    ensures x == y
  {
  }

  lemma OptFloatInjective(x: Option<real>, y: Option<real>, u: FieldValue, v: FieldValue)
    requires u == OptFloat(x) && v == OptFloat(y) && u == v
    ensures x == y
  {
  }

  lemma OptIntInjective(x: Option<int>, y: Option<int>, u: FieldValue, v: FieldValue)
    requires u == OptInt(x) && v == OptInt(y) && u == v
    ensures x == y
  {
  }

  /** A config is determined by its field values. */
  lemma GetDetermines(a: AppConfig, b: AppConfig)
    requires forall f :: Field(a, f) == Field(b, f)
    ensures a == b
  {
    OptTextInjective(a.centerAddress, b.centerAddress, Field(a, CenterAddress), Field(b, CenterAddress));
    OptFloatInjective(a.centerLat, b.centerLat, Field(a, CenterLat), Field(b, CenterLat));
    OptFloatInjective(a.centerLon, b.centerLon, Field(a, CenterLon), Field(b, CenterLon));
    assert Field(a, RadiusKm) == Field(b, RadiusKm);
    OptIntInjective(a.minPrice, b.minPrice, Field(a, MinPrice), Field(b, MinPrice));
    OptIntInjective(a.maxPrice, b.maxPrice, Field(a, MaxPrice), Field(b, MaxPrice));
    OptFloatInjective(a.minBeds, b.minBeds, Field(a, MinBeds), Field(b, MinBeds));
    OptFloatInjective(a.maxBeds, b.maxBeds, Field(a, MaxBeds), Field(b, MaxBeds));
    assert Field(a, Providers) == Field(b, Providers);
    assert Field(a, OutputFormat) == Field(b, OutputFormat);
    OptIntInjective(a.limit, b.limit, Field(a, Limit), Field(b, Limit));
    OptTextInjective(a.nycOpenDataAppToken, b.nycOpenDataAppToken, Field(a, NycOpenDataAppToken), Field(b, NycOpenDataAppToken));
    OptTextInjective(a.rentcastApiKey, b.rentcastApiKey, Field(a, RentcastApiKey), Field(b, RentcastApiKey));
    OptTextInjective(a.httpProxy, b.httpProxy, Field(a, HttpProxy), Field(b, HttpProxy));
    OptTextInjective(a.httpsProxy, b.httpsProxy, Field(a, HttpsProxy), Field(b, HttpsProxy));
    assert Field(a, GeocoderUserAgent) == Field(b, GeocoderUserAgent);
  }

  /** A dict in which every field validates builds the config holding the
      validated values. */
  lemma {:induction false} FromDataValid(d: map<FieldName, FieldValue>, c: AppConfig)
    requires forall f :: Lookup(d, f) == Some(Field(c, f))
    ensures FromData(d) == Ok(c)
  {
    assert InvalidFields(d) == {};
    forall f ensures Field(Build(d), f) == Field(c, f) {
      GetBuild(d, f);
    }
    GetDetermines(Build(d), c);
  }

  /** A config survives the trip through its dict form unchanged, and a
      config built from an empty dict holds the defaults. */
  lemma DictRoundTrip(c: AppConfig)
    ensures FromData(ToData(c)) == Ok(c)
    ensures FromData(map[]) == Ok(Default)
  {
    forall f ensures Lookup(ToData(c), f) == Some(Field(c, f)) {
      EveryFieldListed(f);
      FieldsHaveKinds(c, f);
    }
    FromDataValid(ToData(c), c);
    forall f ensures Lookup(map[], f) == Some(Field(Default, f)) {
      FieldsHaveKinds(Default, f);
    }
    FromDataValid(map[], Default);
  }

  /** Two dicts whose fields validate alike build the same config. */
  lemma FromDataOnlyReadsFields(d1: map<FieldName, FieldValue>, d2: map<FieldName, FieldValue>)
    requires forall f :: Lookup(d1, f) == Lookup(d2, f)
    ensures FromData(d1) == FromData(d2)
  {
    assert InvalidFields(d1) == InvalidFields(d2);
    assert forall f :: ValueOf(d1, f) == ValueOf(d2, f);
  }

  /** The dict form of a config built from `d` holds the validated values of `d`. */
  lemma ToDataOfFromData(d: map<FieldName, FieldValue>, f: FieldName)
    requires FromData(d).Ok?
    ensures Lookup(d, f).Some? && ToData(FromData(d).value)[f] == Lookup(d, f).value
  {
    EveryFieldListed(f);
    assert f !in InvalidFields(d);
    GetBuild(d, f);
  }

  /** The overrides applied in order: a non-None value under the key of a
      field replaces that field's entry; None values and unknown keys change
      nothing. */
  function Overlay(data: map<FieldName, FieldValue>, overrides: seq<(string, FieldValue)>): (r: map<FieldName, FieldValue>)
    ensures r.Keys == data.Keys
  {
    if overrides == [] then data
    else
      var d := Overlay(data, overrides[..|overrides| - 1]);
      var (key, value) := overrides[|overrides| - 1];
      var f := FieldNamed(key);
      if value != NoneValue && f.Some? && f.value in d then d[f.value := value] else d
  }

  /** The value of the last non-None override given under the key of `f`. */
  function LastOverride(overrides: seq<(string, FieldValue)>, f: FieldName): (r: Option<FieldValue>)
    ensures r.Some? ==> r.value != NoneValue
  {
    if overrides == [] then None
    else
      var (key, value) := overrides[|overrides| - 1];
      if FieldNamed(key) == Some(f) && value != NoneValue then Some(value)
      else LastOverride(overrides[..|overrides| - 1], f)
  }

  /** Each entry ends up with its field's last non-None override, or keeps its value. */
  lemma {:induction false} OverlayField(data: map<FieldName, FieldValue>, overrides: seq<(string, FieldValue)>, f: FieldName)
    requires f in data
    ensures Overlay(data, overrides)[f] == LastOverride(overrides, f).GetOr(data[f])
  {
    if overrides != [] {
      OverlayField(data, overrides[..|overrides| - 1], f);
    }
  }

  /** Applying the same overrides twice is applying them once. */
  lemma OverlayIdempotent(data: map<FieldName, FieldValue>, overrides: seq<(string, FieldValue)>)
    ensures Overlay(Overlay(data, overrides), overrides) == Overlay(data, overrides)
  {
    var once := Overlay(data, overrides);
    var twice := Overlay(once, overrides);
    forall f | f in data ensures twice[f] == once[f] {
      OverlayField(data, overrides, f);
      OverlayField(once, overrides, f);
    }
  }

  /** What `merge_cli_overrides(base, **overrides)` returns: a new config, or
      the validation error the constructor raises. */
  function Merged(base: AppConfig, overrides: seq<(string, FieldValue)>): Result<AppConfig, set<FieldName>> {
    FromData(Overlay(ToData(base), overrides))
  }

  /** `merge_cli_overrides`: copy the base into a dict, overwrite the entries
      named by non-None overrides, build a new config from the dict. */
  method MergeCliOverrides(base: AppConfig, overrides: seq<(string, FieldValue)>) returns (r: Result<AppConfig, set<FieldName>>)
    ensures r == Merged(base, overrides)
  {
    var data := ToData(base);
    for i := 0 to |overrides|
      invariant data == Overlay(ToData(base), overrides[..i])
    {
      assert overrides[..i + 1][..i] == overrides[..i];
      var (key, value) := overrides[i];
      var f := FieldNamed(key);
      if value != NoneValue && f.Some? && f.value in data {
        data := data[f.value := value];
      }
    }
    assert overrides[..|overrides|] == overrides;
    r := FromData(data);
  }

  /** Field by field: a field with a non-None override takes the validated
      override; every other field keeps the base value. */
  lemma MergedFields(base: AppConfig, overrides: seq<(string, FieldValue)>, f: FieldName)
    requires Merged(base, overrides).Ok?
    ensures LastOverride(overrides, f).Some? ==>
              Canon(f, LastOverride(overrides, f).value) == Some(Field(Merged(base, overrides).value, f))
    ensures LastOverride(overrides, f).None? ==>
              Field(Merged(base, overrides).value, f) == Field(base, f)
  {
    var d := Overlay(ToData(base), overrides);
    EveryFieldListed(f);
    OverlayField(ToData(base), overrides, f);
    ToDataOfFromData(d, f);
    FieldsHaveKinds(base, f);
  }

  /** With only None values and unknown keys, the merge gives back the base. */
  lemma MergeWithoutOverrides(base: AppConfig, overrides: seq<(string, FieldValue)>)
    requires forall f :: LastOverride(overrides, f).None?
    ensures Merged(base, overrides) == Ok(base)
  {
    var d := Overlay(ToData(base), overrides);
    forall f | f in d ensures d[f] == ToData(base)[f] {
      OverlayField(ToData(base), overrides, f);
    }
    assert d == ToData(base);
    DictRoundTrip(base);
  }

  /** Merging the same overrides into the merged config changes nothing. */
  lemma MergeIdempotent(base: AppConfig, overrides: seq<(string, FieldValue)>)
    requires Merged(base, overrides).Ok?
    ensures Merged(Merged(base, overrides).value, overrides) == Merged(base, overrides)
  {
    var d1 := Overlay(ToData(base), overrides);
    var c := FromData(d1).value;
    var d2 := Overlay(ToData(c), overrides);
    forall f ensures Lookup(d2, f) == Lookup(d1, f) {
      EveryFieldListed(f);
      ToDataOfFromData(d1, f);
      OverlayField(ToData(base), overrides, f);
      OverlayField(ToData(c), overrides, f);
    }
    FromDataOnlyReadsFields(d2, d1);
  }
}
