/** `run_aggregation`: resolve the centre, fetch from every enabled provider
    with each failure isolated, deduplicate, filter, sort. */
module Aggregator {
  import opened Wrappers
  import opened Seqs
  import opened Models
  import opened Geo
  import opened Http
  import opened Config
  import opened Center
  import opened Filters
  import opened Registry
  import opened Sorting
  import HnyBuildings
  import Rentcast

  /** What one provider's `fetch(config)` returns or raises. */
  function FetchProvider(p: ProviderKind, config: AppConfig, host: Host): Result<seq<Apartment>, FetchError> {
    match p
    case HnyBuildingsProvider => HnyBuildings.FetchResult(config, host)
    case RentcastProvider => Rentcast.FetchResult(config, host)
  }

  /** `provider_cls().fetch(config)`. */
  method FetchFrom(p: ProviderKind, config: AppConfig, host: Host) returns (r: Result<seq<Apartment>, FetchError>)
    ensures r == FetchProvider(p, config, host)
  {
    match p
    case HnyBuildingsProvider => r := HnyBuildings.Fetch(config, host);
    case RentcastProvider => r := Rentcast.Fetch(config, host);
  }

  /** The outcome of each provider, in provider order. */
  function Outcomes(providers: seq<ProviderKind>, config: AppConfig, host: Host): (r: seq<Result<seq<Apartment>, FetchError>>)
    ensures |r| == |providers|
    ensures forall i :: 0 <= i < |providers| ==> r[i] == FetchProvider(providers[i], config, host)
  {
    seq(|providers|, i requires 0 <= i < |providers| => FetchProvider(providers[i], config, host))
  }

  /** What one provider adds to the list: its listings, or nothing when its
      fetch raised. */
  function Contribution<T, E>(outcome: Result<seq<T>, E>): seq<T> {
    if outcome.Ok? then outcome.value else []
  }

  /** The listings of the providers that did not raise, concatenated in
      provider order. */
  function Gather<T, E>(outcomes: seq<Result<seq<T>, E>>): seq<T> {
    if outcomes == [] then []
    else Gather(outcomes[..|outcomes| - 1]) + Contribution(outcomes[|outcomes| - 1])
  }

  /** Gathering two runs of providers is gathering each. */
  lemma {:induction false} GatherAppend<T, E>(a: seq<Result<seq<T>, E>>, b: seq<Result<seq<T>, E>>)
    ensures Gather(a + b) == Gather(a) + Gather(b)
    decreases |b|
  {
    if b == [] {
      assert a + b == a;
    } else {
      assert (a + b)[..|a + b| - 1] == a + b[..|b| - 1];
      GatherAppend(a, b[..|b| - 1]);
    }
  }

  /** One more provider adds its contribution at the end. */
  lemma GatherSnoc<T, E>(outcomes: seq<Result<seq<T>, E>>, i: nat)
    requires i < |outcomes|
    ensures Gather(outcomes[..i + 1]) == Gather(outcomes[..i]) + Contribution(outcomes[i])
  {
    assert outcomes[..i + 1][..i] == outcomes[..i];
  }

  /** Each provider's listings sit, in their own order, between those of the
      providers before it and those after it. */
  lemma GatherSplit<T, E>(outcomes: seq<Result<seq<T>, E>>, i: nat)
    requires i < |outcomes|
    ensures Gather(outcomes) == Gather(outcomes[..i]) + Contribution(outcomes[i]) + Gather(outcomes[i + 1..])
  {
    var upTo, after := outcomes[..i + 1], outcomes[i + 1..];
    assert outcomes == upTo + after;
    GatherAppend(upTo, after);
    GatherSnoc(outcomes, i);
  }

  /** A provider that raised leaves the others' listings exactly as they would
      be without it. */
  lemma FailureContributesNothing<T, E>(outcomes: seq<Result<seq<T>, E>>, i: nat)
    requires i < |outcomes| && outcomes[i].Err?
    ensures Gather(outcomes) == Gather(outcomes[..i] + outcomes[i + 1..])
  {
    GatherSplit(outcomes, i);
    GatherAppend(outcomes[..i], outcomes[i + 1..]);
  }

  /** A listing is gathered exactly when some provider that did not raise
      returned it. */
  lemma {:induction false} GatherMembers<T, E>(outcomes: seq<Result<seq<T>, E>>, a: T)
    ensures a in Gather(outcomes) <==>
              exists i :: 0 <= i < |outcomes| && outcomes[i].Ok? && a in outcomes[i].value
  {
    if outcomes != [] {
      var init := outcomes[..|outcomes| - 1];
      var n := |outcomes| - 1;
      GatherMembers(init, a);
      if a in Gather(outcomes) {
        if a in Gather(init) {
          var i :| 0 <= i < |init| && init[i].Ok? && a in init[i].value;
          assert outcomes[i] == init[i];
        } else {
          assert outcomes[n].Ok? && a in outcomes[n].value;
        }
      }
      if exists i :: 0 <= i < |outcomes| && outcomes[i].Ok? && a in outcomes[i].value {
        var i :| 0 <= i < |outcomes| && outcomes[i].Ok? && a in outcomes[i].value;
        if i < n {
          assert init[i] == outcomes[i];
        }
      }
    }
  }

  /** The keys of a list. */
  function KeysOf<T, K>(xs: seq<T>, key: T -> K): set<K> {
    if xs == [] then {} else KeysOf(xs[..|xs| - 1], key) + {key(xs[|xs| - 1])}
  }

  lemma KeysOfSnoc<T, K>(xs: seq<T>, x: T, key: T -> K)
    ensures KeysOf(xs + [x], key) == KeysOf(xs, key) + {key(x)}
  {
    assert (xs + [x])[..|xs|] == xs;
  }

  /** Each element's key is among the keys. */
  lemma {:induction false} KeyInKeysOf<T, K>(xs: seq<T>, i: int, key: T -> K)
    requires 0 <= i < |xs|
    ensures key(xs[i]) in KeysOf(xs, key)
    decreases |xs|
  {
    if i < |xs| - 1 {
      KeyInKeysOf(xs[..|xs| - 1], i, key);
    }
  }

  /** A key no element carries is not among the keys. */
  lemma {:induction false} KeyNotSeen<T, K>(xs: seq<T>, x: T, key: T -> K)
    requires forall k :: 0 <= k < |xs| ==> key(xs[k]) != key(x)
    ensures key(x) !in KeysOf(xs, key)
  {
    if xs != [] {
      KeyNotSeen(xs[..|xs| - 1], x, key);
    }
  }

  /** No two elements share a key. */
  ghost predicate DistinctKeys<T, K>(xs: seq<T>, key: T -> K) {
    forall i, j :: 0 <= i < j < |xs| ==> key(xs[i]) != key(xs[j])
  }

  /** `xs[j]` is the first element of `xs` with its key. */
  ghost predicate FirstOfKey<T, K>(xs: seq<T>, key: T -> K, j: int)
    requires 0 <= j < |xs|
  {
    forall k :: 0 <= k < j ==> key(xs[k]) != key(xs[j])
  }

  /** The deduplicated list: each element whose key was not seen before, in
      order. The aggregator's key is `DedupKey`, the pair `(provider, id)`. */
  function Dedupe<T, K(==)>(xs: seq<T>, key: T -> K): seq<T> {
    if xs == [] then []
    else
      var d := Dedupe(xs[..|xs| - 1], key);
      var last := xs[|xs| - 1];
      if key(last) in KeysOf(d, key) then d else d + [last]
  }

  lemma {:induction false} DedupeSubseq<T, K>(xs: seq<T>, key: T -> K)
    ensures IsSubseq(Dedupe(xs, key), xs)
  {
    if xs == [] {
      SubseqRefl(xs);
    } else {
      var init := xs[..|xs| - 1];
      DedupeSubseq(init, key);
      assert xs == init + [xs[|xs| - 1]];
      SubseqSnoc(Dedupe(init, key), init, xs[|xs| - 1]);
    }
  }

  lemma {:induction false} DedupeKeys<T, K>(xs: seq<T>, key: T -> K)
    ensures KeysOf(Dedupe(xs, key), key) == KeysOf(xs, key)
  {
    if xs != [] {
      var init := xs[..|xs| - 1];
      DedupeKeys(init, key);
      KeysOfSnoc(Dedupe(init, key), xs[|xs| - 1], key);
    }
  }

  lemma {:induction false} DedupeDistinct<T, K>(xs: seq<T>, key: T -> K)
    ensures DistinctKeys(Dedupe(xs, key), key)
  {
    if xs != [] {
      var d := Dedupe(xs[..|xs| - 1], key);
      var last := xs[|xs| - 1];
      DedupeDistinct(xs[..|xs| - 1], key);
      if key(last) !in KeysOf(d, key) {
        var r := d + [last];
        forall i, j | 0 <= i < j < |r| ensures key(r[i]) != key(r[j]) {
          assert r[i] == d[i];
          if j == |d| {
            KeyInKeysOf(d, i, key);
          } else {
            assert r[j] == d[j];
          }
        }
      }
    }
  }

  /** Dedupe keeps a subsequence of its input with every input key and no key
      twice. */
  lemma DedupeCorrect<T, K>(xs: seq<T>, key: T -> K)
    ensures IsSubseq(Dedupe(xs, key), xs)
    ensures KeysOf(Dedupe(xs, key), key) == KeysOf(xs, key)
    ensures DistinctKeys(Dedupe(xs, key), key)
  {
    DedupeSubseq(xs, key);
    DedupeKeys(xs, key);
    DedupeDistinct(xs, key);
  }

  /** Every element that is the first with its key is kept. */
  lemma {:induction false} DedupeKeepsEveryFirst<T, K>(xs: seq<T>, key: T -> K)
    ensures forall j :: 0 <= j < |xs| && FirstOfKey(xs, key, j) ==> xs[j] in Dedupe(xs, key)
  {
    if xs != [] {
      var n := |xs| - 1;
      var init, last := xs[..n], xs[n];
      var d := Dedupe(init, key);
      DedupeKeepsEveryFirst(init, key);
      forall j | 0 <= j < |xs| && FirstOfKey(xs, key, j) ensures xs[j] in Dedupe(xs, key) {
        if j < n {
          assert xs[j] == init[j];
          assert FirstOfKey(init, key, j) by {
            forall k | 0 <= k < j ensures key(init[k]) != key(init[j]) {
              assert init[k] == xs[k];
            }
          }
          assert xs[j] in d;
        } else {
          DedupeKeys(init, key);
          KeyNotSeen(init, last, key);
          assert Dedupe(xs, key) == d + [last];
        }
      }
    }
  }

  /** Every element dedupe keeps is the first with its key. */
  lemma {:induction false} DedupeKeepsOnlyFirsts<T, K>(xs: seq<T>, key: T -> K)
    ensures forall a :: a in Dedupe(xs, key) ==> exists j :: 0 <= j < |xs| && FirstOfKey(xs, key, j) && xs[j] == a
  {
    if xs != [] {
      var n := |xs| - 1;
      var init, last := xs[..n], xs[n];
      var d := Dedupe(init, key);
      DedupeKeepsOnlyFirsts(init, key);
      forall a | a in Dedupe(xs, key) ensures exists j :: 0 <= j < |xs| && FirstOfKey(xs, key, j) && xs[j] == a {
        if a in d {
          var j :| 0 <= j < |init| && FirstOfKey(init, key, j) && init[j] == a;
          assert xs[j] == init[j];
          assert FirstOfKey(xs, key, j) by {
            forall k | 0 <= k < j ensures key(xs[k]) != key(xs[j]) {
              assert xs[k] == init[k];
            }
          }
        } else {
          assert a == last && key(last) !in KeysOf(d, key);
          DedupeKeys(init, key);
          assert FirstOfKey(xs, key, n) by {
            forall k | 0 <= k < n ensures key(xs[k]) != key(xs[n]) {
              assert xs[k] == init[k];
              KeyInKeysOf(init, k, key);
            }
          }
        }
      }
    }
  }

  /** Dedupe keeps exactly the elements that are the first with their key. */
  lemma DedupeKeepsFirsts<T, K>(xs: seq<T>, key: T -> K)
    ensures forall j :: 0 <= j < |xs| && FirstOfKey(xs, key, j) ==> xs[j] in Dedupe(xs, key)
    ensures forall a :: a in Dedupe(xs, key) ==> exists j :: 0 <= j < |xs| && FirstOfKey(xs, key, j) && xs[j] == a
  {
    DedupeKeepsEveryFirst(xs, key);
    DedupeKeepsOnlyFirsts(xs, key);
  }

  /** The dedupe loop: grow the `seen` set and the result together. */
  method DedupeLoop(apartments: seq<Apartment>) returns (deduped: seq<Apartment>)
    ensures deduped == Dedupe(apartments, DedupKey)
  {
    var seen: set<(string, string)> := {};
    deduped := [];
    for i := 0 to |apartments|
      invariant deduped == Dedupe(apartments[..i], DedupKey)
      invariant seen == KeysOf(deduped, DedupKey)
    {
      assert apartments[..i + 1][..i] == apartments[..i];
      var apt := apartments[i];
      var key := (apt.provider, apt.id);
      if key in seen {
        continue;
      }
      KeysOfSnoc(deduped, apt, DedupKey);
      seen := seen + {key};
      deduped := deduped + [apt];
    }
    assert apartments[..|apartments|] == apartments;
  }

  /** `sort_key`: the distance to the centre, `+inf` without both
      coordinates; the price, `+inf` without one. */
  function SortKeyOf(a: Apartment, distanceKm: Distance, center: Location): (k: SortKey)
    ensures k.distance.Infinite? <==> !HasCoords(a)
    ensures HasCoords(a) ==> k.distance == Finite(distanceKm(center, PointOf(a)))
    ensures k.price.Infinite? <==> a.price.None?
    ensures a.price.Some? ==> k.price == Finite(a.price.value as real)
  {
    SortKey(
      if a.lat.None? || a.lon.None? then Infinite else Finite(distanceKm(center, Location(a.lat.value, a.lon.value))),
      if a.price.Some? then Finite(a.price.value as real) else Infinite)
  }

  function SortKeyFn(distanceKm: Distance, center: Location): Apartment -> SortKey {
    a => SortKeyOf(a, distanceKm, center)
  }

  /** The providers `run_aggregation` uses. */
  function EnabledProviders(config: AppConfig): seq<ProviderKind> {
    SelectEnabled(Scan(), Some(config.providers))
  }

  /** Every listing the enabled providers returned, before dedupe. */
  function Gathered(config: AppConfig, host: Host): seq<Apartment> {
    Gather(Outcomes(EnabledProviders(config), config, host))
  }

  /** What `run_aggregation(config)` returns, or the centre error it raises
      before any provider runs. */
  function Aggregate(config: AppConfig, host: Host): Result<seq<Apartment>, CenterError> {
    var center :- ResolveCenter(config, host.geocode);
    var filtered := Filtered(Dedupe(Gathered(config, host), DedupKey), config, host.distanceKm, center);
    Ok(StableSort(filtered, SortKeyFn(host.distanceKm, center)))
  }

  /** The provider loop: fetch from each provider in turn, extend the list
      with what it returned and go on past one that raised. */
  method FetchAll(providers: seq<ProviderKind>, config: AppConfig, host: Host) returns (apartments: seq<Apartment>)
    ensures apartments == Gather(Outcomes(providers, config, host))
  {
    ghost var outcomes := Outcomes(providers, config, host);
    apartments := [];
    for i := 0 to |providers|
      invariant apartments == Gather(outcomes[..i])
    {
      var results := FetchFrom(providers[i], config, host);
      GatherSnoc(outcomes, i);
      if results.Ok? {
        apartments := apartments + results.value;
      }
    }
    assert outcomes[..|providers|] == outcomes;
  }

  /** `run_aggregation`. */
  method RunAggregation(config: AppConfig, host: Host, cache: ProviderCache) returns (r: Result<seq<Apartment>, CenterError>)
    requires cache.Valid()
    modifies cache
    ensures cache.Valid()
    ensures r.Ok? ==> cache.discovered == Some(Scan())
    ensures r.Err? ==> cache.discovered == old(cache.discovered)
    ensures r == Aggregate(config, host)
  {
    var center := ResolveCenter(config, host.geocode);
    if center.Err? {
      return Err(center.error);
    }
    var providers := cache.Discover(Some(config.providers));
    var apartments := FetchAll(providers, config, host);
    var deduped := DedupeLoop(apartments);
    var filtered := ApplyFilters(deduped, config, host.distanceKm, center.value);
    filtered := StableSort(filtered, SortKeyFn(host.distanceKm, center.value));
    return Ok(filtered);
  }

  /** Centre resolution comes first: when it fails, that error is the result
      whatever the providers would do. */
  lemma CenterErrorFirst(config: AppConfig, host: Host)
    requires ResolveCenter(config, host.geocode).Err?
    ensures Aggregate(config, host) == Err(ResolveCenter(config, host.geocode).error)
  {
  }

  /** The output is the filtered list sorted: a permutation of it, ascending
      by `(distance, price)`, listings with equal keys in their filtered order. */
  lemma OutputSortedPermutation(config: AppConfig, host: Host)
    requires Aggregate(config, host).Ok?
    ensures var center := ResolveCenter(config, host.geocode).value;
            var key := SortKeyFn(host.distanceKm, center);
            var filtered := Filtered(Dedupe(Gathered(config, host), DedupKey), config, host.distanceKm, center);
            var out := Aggregate(config, host).value;
            multiset(out) == multiset(filtered) && SortedBy(out, key) &&
            forall k :: Filter(out, SameKey(key, k)) == Filter(filtered, SameKey(key, k))
  {
    var center := ResolveCenter(config, host.geocode).value;
    StableSortCorrect(Filtered(Dedupe(Gathered(config, host), DedupKey), config, host.distanceKm, center),
                      SortKeyFn(host.distanceKm, center));
  }

  /** Every output listing came unchanged from a provider that did not
      raise, has both coordinates within the radius, and meets the price and
      bed bounds. */
  lemma OutputMembers(config: AppConfig, host: Host, a: Apartment)
    requires Aggregate(config, host).Ok? && a in Aggregate(config, host).value
    ensures var outcomes := Outcomes(EnabledProviders(config), config, host);
            exists i :: 0 <= i < |outcomes| && outcomes[i].Ok? && a in outcomes[i].value
    ensures var center := ResolveCenter(config, host.geocode).value;
            HasCoords(a) && host.distanceKm(center, PointOf(a)) <= config.radiusKm &&
            PriceOk(a, config.minPrice, config.maxPrice) && BedsOk(a, config.minBeds, config.maxBeds)
  {
    var center := ResolveCenter(config, host.geocode).value;
    var gathered := Gathered(config, host);
    var deduped := Dedupe(gathered, DedupKey);
    var stages := Stages(deduped, config, host.distanceKm, center);
    var filtered := Filtered(deduped, config, host.distanceKm, center);
    assert a in multiset(Aggregate(config, host).value);
    assert a in filtered;
    assert a in stages by {
      PrefixIsSubseq(stages, |filtered|);
      SubseqMultiset(filtered, stages);
    }
    assert a in gathered by {
      DedupeCorrect(gathered, DedupKey);
      SubseqMultiset(deduped, gathered);
    }
    GatherMembers(Outcomes(EnabledProviders(config), config, host), a);
  }

  /** No two output listings share a `(provider, id)` key. */
  lemma OutputDistinctKeys(config: AppConfig, host: Host)
    requires Aggregate(config, host).Ok?
    ensures DistinctKeys(Aggregate(config, host).value, DedupKey)
  {
    var center := ResolveCenter(config, host.geocode).value;
    var deduped := Dedupe(Gathered(config, host), DedupKey);
    var filtered := Filtered(deduped, config, host.distanceKm, center);
    DedupeCorrect(Gathered(config, host), DedupKey);
    SubseqMultiset(filtered, deduped);
    DistinctKeysPermuted(deduped, Aggregate(config, host).value, DedupKey);
  }

  /** At most `limit` listings come out when the limit is positive, and
      every survivor of the filters when it is not. */
  lemma OutputSize(config: AppConfig, host: Host)
    requires Aggregate(config, host).Ok?
    ensures var center := ResolveCenter(config, host.geocode).value;
            var survivors := Stages(Dedupe(Gathered(config, host), DedupKey), config, host.distanceKm, center);
            var out := Aggregate(config, host).value;
            (config.limit.Some? && config.limit.value > 0 ==> |out| == Min(config.limit.value, |survivors|)) &&
            (config.limit.None? || config.limit.value <= 0 ==> multiset(out) == multiset(survivors))
  {
  }

  /** Radius filtering leaves no listing without coordinates, so no output
      listing sorts with an infinite distance. */
  lemma OutputDistancesFinite(config: AppConfig, host: Host)
    requires Aggregate(config, host).Ok?
    ensures var center := ResolveCenter(config, host.geocode).value;
            forall a :: a in Aggregate(config, host).value ==>
              SortKeyOf(a, host.distanceKm, center).distance.Finite?
  {
    forall a | a in Aggregate(config, host).value
      ensures SortKeyOf(a, host.distanceKm, ResolveCenter(config, host.geocode).value).distance.Finite?
    {
      OutputMembers(config, host, a);
    }
  }

  /** With the default configuration every discovered provider runs and
      nothing is truncated. */
  lemma DefaultsSelectAllAndKeepAll(xs: seq<Apartment>, distanceKm: Distance, center: Location)
    ensures EnabledProviders(Default) == Scan()
    ensures Filtered(xs, Default, distanceKm, center) == Stages(xs, Default, distanceKm, center)
  {
  }

  /** A list without repeated keys holds no element twice. */
  lemma {:induction false} NoRepeats<T, K>(xs: seq<T>, key: T -> K)
    requires DistinctKeys(xs, key)
    ensures forall x :: multiset(xs)[x] <= 1
  {
    if xs != [] {
      var init := xs[..|xs| - 1];
      var last := xs[|xs| - 1];
      assert xs == init + [last];
      assert DistinctKeys(init, key) by {
        forall i, j | 0 <= i < j < |init| ensures key(init[i]) != key(init[j]) {
          assert init[i] == xs[i] && init[j] == xs[j];
        }
      }
      NoRepeats(init, key);
      assert last !in init by {
        forall k | 0 <= k < |init| ensures init[k] != last {
          assert key(xs[k]) != key(xs[|xs| - 1]);
        }
      }
    }
  }

  /** An element at two positions occurs twice. */
  lemma TwoOccurrences<T>(ys: seq<T>, i: int, j: int)
    requires 0 <= i < j < |ys| && ys[i] == ys[j]
    ensures multiset(ys)[ys[i]] >= 2
  {
    assert ys == ys[..i] + [ys[i]] + ys[i + 1..j] + [ys[j]] + ys[j + 1..];
  }

  /** Taking some of the elements of a list without repeated keys, in any
      order, gives a list without repeated keys. */
  lemma DistinctKeysPermuted<T, K>(xs: seq<T>, ys: seq<T>, key: T -> K)
    requires DistinctKeys(xs, key) && multiset(ys) <= multiset(xs)
    ensures DistinctKeys(ys, key)
  {
    NoRepeats(xs, key);
    forall i, j | 0 <= i < j < |ys| ensures key(ys[i]) != key(ys[j]) {
      assert ys[i] in multiset(xs) && ys[j] in multiset(xs);
      var p :| 0 <= p < |xs| && xs[p] == ys[i];
      var q :| 0 <= q < |xs| && xs[q] == ys[j];
      if ys[i] == ys[j] {
        TwoOccurrences(ys, i, j);
      } else if p < q {
        assert key(xs[p]) != key(xs[q]);
      } else {
        assert key(xs[q]) != key(xs[p]);
      }
    }
  }

  /** The limit is applied before the sort: with a limit of one, the listing
      kept is the first survivor of the filters, even when a later survivor
      sorts strictly before it. */
  lemma LimitBeforeSort(config: AppConfig, host: Host, near: Apartment, far: Apartment)
    requires Aggregate(config, host).Ok? && config.limit == Some(1)
    requires Stages(Dedupe(Gathered(config, host), DedupKey), config, host.distanceKm,
                    ResolveCenter(config, host.geocode).value) == [far, near]
    requires var key := SortKeyFn(host.distanceKm, ResolveCenter(config, host.geocode).value);
             KeyLt(key(near), key(far))
    ensures Aggregate(config, host).value == [far]
  {
    var center := ResolveCenter(config, host.geocode).value;
    var s := [far];
    assert StableSort(s, SortKeyFn(host.distanceKm, center)) == [far] by {
      assert s[..0] == [];
    }
  }
}
