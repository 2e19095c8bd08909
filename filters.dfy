/** The three listing filters and `apply_filters`, each loop proved against a
    selection function. */
module Filters {
  import opened Wrappers
  import opened Seqs
  import opened Models
  import opened Geo
  import opened Config

  /** A listing passes the price filter when it has no price, or when its
      price lies within the configured bounds, both inclusive. */
  predicate PriceOk(a: Apartment, minPrice: Option<int>, maxPrice: Option<int>) {
    match a.price
    case None => true
    case Some(p) =>
      (minPrice.None? || minPrice.value <= p) && (maxPrice.None? || p <= maxPrice.value)
  }

  /** The same test on bedrooms. */
  predicate BedsOk(a: Apartment, minBeds: Option<real>, maxBeds: Option<real>) {
    match a.beds
    case None => true
    case Some(b) =>
      (minBeds.None? || minBeds.value <= b) && (maxBeds.None? || b <= maxBeds.value)
  }

  /** A listing passes the radius filter when it has both coordinates and lies
      within the radius of the centre. */
  predicate RadiusOk(a: Apartment, distanceKm: Distance, center: Location, radiusKm: real) {
    HasCoords(a) && WithinRadius(distanceKm, center, PointOf(a), radiusKm)
  }

  function PriceTest(minPrice: Option<int>, maxPrice: Option<int>): Apartment -> bool {
    a => PriceOk(a, minPrice, maxPrice)
  }

  function BedsTest(minBeds: Option<real>, maxBeds: Option<real>): Apartment -> bool {
    a => BedsOk(a, minBeds, maxBeds)
  }

  function RadiusTest(distanceKm: Distance, center: Location, radiusKm: real): Apartment -> bool {
    a => RadiusOk(a, distanceKm, center, radiusKm)
  }

  /** What `filter_by_price` returns: the listings that pass, in input order. */
  function ByPrice(xs: seq<Apartment>, minPrice: Option<int>, maxPrice: Option<int>): (r: seq<Apartment>)
    ensures IsSubseq(r, xs)
    ensures forall a :: a in r <==> a in xs && PriceOk(a, minPrice, maxPrice)
    ensures forall a :: multiset(r)[a] == if PriceOk(a, minPrice, maxPrice) then multiset(xs)[a] else 0
    ensures forall a :: a in xs && a.price.None? ==> a in r
  {
    FilterIsSubseq(xs, PriceTest(minPrice, maxPrice));
    FilterCounts(xs, PriceTest(minPrice, maxPrice));
    Filter(xs, PriceTest(minPrice, maxPrice))
  }

  /** What `filter_by_beds` returns. */
  function ByBeds(xs: seq<Apartment>, minBeds: Option<real>, maxBeds: Option<real>): (r: seq<Apartment>)
    ensures IsSubseq(r, xs)
    ensures forall a :: a in r <==> a in xs && BedsOk(a, minBeds, maxBeds)
    ensures forall a :: multiset(r)[a] == if BedsOk(a, minBeds, maxBeds) then multiset(xs)[a] else 0
    ensures forall a :: a in xs && a.beds.None? ==> a in r
  {
    FilterIsSubseq(xs, BedsTest(minBeds, maxBeds));
    FilterCounts(xs, BedsTest(minBeds, maxBeds));
    Filter(xs, BedsTest(minBeds, maxBeds))
  }

  /** What `filter_by_radius` returns. */
  function ByRadius(xs: seq<Apartment>, distanceKm: Distance, center: Location, radiusKm: real): (r: seq<Apartment>)
    ensures IsSubseq(r, xs)
    ensures forall a :: a in r <==> a in xs && RadiusOk(a, distanceKm, center, radiusKm)
    ensures forall a :: multiset(r)[a] == if RadiusOk(a, distanceKm, center, radiusKm) then multiset(xs)[a] else 0
    ensures forall a :: a in r ==> a.lat.Some? && a.lon.Some?
  {
    FilterIsSubseq(xs, RadiusTest(distanceKm, center, radiusKm));
    FilterCounts(xs, RadiusTest(distanceKm, center, radiusKm));
    Filter(xs, RadiusTest(distanceKm, center, radiusKm))
  }

  /** `filter_by_price`: a listing without a price is kept; a priced one is
      dropped when it falls below the minimum or above the maximum. */
  method FilterByPrice(apartments: seq<Apartment>, minPrice: Option<int>, maxPrice: Option<int>) returns (result: seq<Apartment>)
    ensures result == ByPrice(apartments, minPrice, maxPrice)
  {
    result := [];
    for i := 0 to |apartments|
      invariant result == Filter(apartments[..i], PriceTest(minPrice, maxPrice))
    {
      FilterStep(apartments, i, PriceTest(minPrice, maxPrice));
      var apt := apartments[i];
      var price := apt.price;
      if price.None? {
        result := result + [apt];
        continue;
      }
      if minPrice.Some? && price.value < minPrice.value {
        continue;
      }
      if maxPrice.Some? && price.value > maxPrice.value {
        continue;
      }
      result := result + [apt];
    }
    assert apartments[..|apartments|] == apartments;
  }

  /** `filter_by_beds`. */
  method FilterByBeds(apartments: seq<Apartment>, minBeds: Option<real>, maxBeds: Option<real>) returns (result: seq<Apartment>)
    ensures result == ByBeds(apartments, minBeds, maxBeds)
  {
    result := [];
    for i := 0 to |apartments|
      invariant result == Filter(apartments[..i], BedsTest(minBeds, maxBeds))
    {
      FilterStep(apartments, i, BedsTest(minBeds, maxBeds));
      var apt := apartments[i];
      var beds := apt.beds;
      if beds.None? {
        result := result + [apt];
        continue;
      }
      if minBeds.Some? && beds.value < minBeds.value {
        continue;
      }
      if maxBeds.Some? && beds.value > maxBeds.value {
        continue;
      }
      result := result + [apt];
    }
    assert apartments[..|apartments|] == apartments;
  }

  /** `filter_by_radius`: a listing missing either coordinate is dropped; the
      others are kept when within the radius. */
  method FilterByRadius(apartments: seq<Apartment>, distanceKm: Distance, center: Location, radiusKm: real) returns (result: seq<Apartment>)
    ensures result == ByRadius(apartments, distanceKm, center, radiusKm)
  {
    result := [];
    for i := 0 to |apartments|
      invariant result == Filter(apartments[..i], RadiusTest(distanceKm, center, radiusKm))
    {
      FilterStep(apartments, i, RadiusTest(distanceKm, center, radiusKm));
      var apt := apartments[i];
      if apt.lat.None? || apt.lon.None? {
        continue;
      }
      if WithinRadius(distanceKm, center, Location(apt.lat.value, apt.lon.value), radiusKm) {
        result := result + [apt];
      }
    }
    assert apartments[..|apartments|] == apartments;
  }

  /** `result[:limit]` when the limit is set and positive, else `result`. */
  function Truncate<T>(xs: seq<T>, limit: Option<int>): (r: seq<T>)
    ensures |r| <= |xs| && r == xs[..|r|]
    ensures limit.Some? && limit.value > 0 ==> |r| == Min(limit.value, |xs|)
    ensures limit.None? || limit.value <= 0 ==> r == xs
  {
    if limit.Some? && limit.value > 0 && limit.value < |xs| then xs[..limit.value] else xs
  }

  function Min(a: int, b: int): int {
    if a <= b then a else b
  }

  /** The three stages in their fixed order: radius, then price, then beds.
      A survivor has both coordinates, lies within the radius and meets the
      price and bed bounds. */
  function Stages(xs: seq<Apartment>, config: AppConfig, distanceKm: Distance, center: Location): (r: seq<Apartment>)
    ensures IsSubseq(r, xs)
    ensures forall a :: a in r <==>
              a in xs && HasCoords(a) && distanceKm(center, PointOf(a)) <= config.radiusKm &&
              PriceOk(a, config.minPrice, config.maxPrice) && BedsOk(a, config.minBeds, config.maxBeds)
  {
    var radius := ByRadius(xs, distanceKm, center, config.radiusKm);
    var price := ByPrice(radius, config.minPrice, config.maxPrice);
    SubseqTrans(price, radius, xs);
    var beds := ByBeds(price, config.minBeds, config.maxBeds);
    SubseqTrans(beds, price, xs);
    beds
  }

  /** What `apply_filters` returns: the survivors of the three stages, cut to
      the first `min(limit, n)` when the limit is positive and left whole when
      it is None or not positive; always listings of the input, unchanged and
      in input order. */
  function Filtered(xs: seq<Apartment>, config: AppConfig, distanceKm: Distance, center: Location): (r: seq<Apartment>)
    ensures IsSubseq(r, xs)
    ensures var s := Stages(xs, config, distanceKm, center);
            (config.limit.Some? && config.limit.value > 0 ==> r == s[..Min(config.limit.value, |s|)]) &&
            (config.limit.None? || config.limit.value <= 0 ==> r == s)
  {
    var s := Stages(xs, config, distanceKm, center);
    var r := Truncate(s, config.limit);
    PrefixIsSubseq(s, |r|);
    SubseqTrans(r, s, xs);
    r
  }

  /** `apply_filters`: reassign `result` stage by stage, then slice. */
  method ApplyFilters(apartments: seq<Apartment>, config: AppConfig, distanceKm: Distance, center: Location) returns (result: seq<Apartment>)
    ensures result == Filtered(apartments, config, distanceKm, center)
  {
    result := apartments;
    result := FilterByRadius(result, distanceKm, center, config.radiusKm);
    result := FilterByPrice(result, config.minPrice, config.maxPrice);
    result := FilterByBeds(result, config.minBeds, config.maxBeds);
    if config.limit.Some? && config.limit.value > 0 {
      if config.limit.value < |result| {
        result := result[..config.limit.value];
      }
    }
  }

  /** The stages amount to one pass with the conjunction of the three tests,
      so their relative order does not change the result. */
  lemma {:induction false} StagesAsOnePass(xs: seq<Apartment>, config: AppConfig, distanceKm: Distance, center: Location)
    ensures Stages(xs, config, distanceKm, center) ==
              Filter(xs, AllTests(config, distanceKm, center))
  {
    var radius := RadiusTest(distanceKm, center, config.radiusKm);
    var price := PriceTest(config.minPrice, config.maxPrice);
    var beds := BedsTest(config.minBeds, config.maxBeds);
    var radiusPrice := (a: Apartment) => radius(a) && price(a);
    FilterFilter(xs, radius, price, radiusPrice);
    FilterFilter(xs, radiusPrice, beds, AllTests(config, distanceKm, center));
  }

  function AllTests(config: AppConfig, distanceKm: Distance, center: Location): Apartment -> bool {
    a => RadiusOk(a, distanceKm, center, config.radiusKm) &&
         PriceOk(a, config.minPrice, config.maxPrice) && BedsOk(a, config.minBeds, config.maxBeds)
  }
}
