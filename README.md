# NYC apartments aggregator — a Dafny model of its core

The aggregator searches for rental apartments around a centre point in New
York City. It resolves the centre: either explicit coordinates, or an address
sent to a geocoder. It then asks every enabled listing provider for
apartments. A provider that raises is logged and skipped. The results are
concatenated in provider order and deduplicated by `(provider, id)`, keeping
the first occurrence. Three filters run in a fixed order (radius, price,
beds), then an optional limit. Finally the list is sorted stably by
`(distance to the centre, price)`, with a missing value counting as `+inf`.

Two providers feed it:

- **Housing New York Units by Building**, a NYC Open Data dataset. It sends one
  request, optionally with an app-token header, and yields one listing per
  building row.
- **RentCast long-term rentals**. It needs an API key and builds a search
  request from the configuration: page size, radius in miles, and
  `"min:max"` price and bedroom ranges with `*` for an open bound.

Each provider normalises its rows into the shared `Apartment` record. It
skips rows that are not objects and rows whose normalisation raises.
Providers are discovered once per process and cached. The configuration's
provider list acts as an allow-list. `merge_cli_overrides` builds a new
configuration from a base and the command-line overrides.

The Dafny modules follow the source files:

| module | file | models |
|---|---|---|
| `Filters` | `filters.dfy` | `filters.py`: the three filter loops, `apply_filters` |
| `Center` | `center.dfy` | `aggregator.py`: `resolve_center` |
| `Aggregator` | `aggregator.dfy` | `aggregator.py`: `run_aggregation`, dedupe, `sort_key` |
| `Sorting` | `sorting.dfy` | Python's stable `list.sort` on `(distance, price)` tuples |
| `Registry` | `registry.dfy` | `providers/base.py`: the cache and `discover_providers` |
| `HnyBuildings` | `hny.dfy` | `providers/nyc_open_data_hny_buildings.py` |
| `Rentcast` | `rentcast.dfy` | `providers/rentcast_rental_listings.py` |
| `Rows` | `rows.dfy` | the skip-bad-rows loop both providers share |
| `Config` | `config.dfy` | `config.py`: `AppConfig`, its defaults, `merge_cli_overrides` |
| `Models`, `Geo`, `Http` | `models.dfy`, `geo.dfy`, `http.dfy` | the record types, distance/geocoder types, request and collaborator bundle |
| `Json`, `PyText`, `Seqs`, `Wrappers` | `json.dfy`, `pytext.dfy`, `seqs.dfy`, `wrappers.dfy` | Python truthiness, `or`-chains, `str()`, `float()`, `int()`, `.strip()`, `.join()`; subsequences; `Option`/`Result` |

Calls into code outside the core go through the `Http.Host` value passed to
every operation, so the model never defines their behaviour. That value holds:

- the geocoder and the haversine distance;
- `fetch_json`;
- Python's float parser, `format(x, "g")`, `str(float)` and `quote_plus`;
- the `RENTCAST_API_KEY` environment variable.

Each is treated as a fixed function of its arguments. Python exceptions
become `Result` errors:

- `Center.CenterError`: `ValueError` for a missing centre and `RuntimeError`
  for a failed geocode;
- `Http.FetchError`: what a provider's `fetch` raises;
- `Json.RowError`: what `_normalize` raises;
- the set of invalid fields: pydantic's `ValidationError`.

Each loop of the source is a `method`, proved equal to a recursive
specification function. The properties are proved about those functions:

- `FilterByPrice`, `FilterByBeds`, `FilterByRadius` and `ApplyFilters`;
- `FetchAll` and `DedupeLoop` inside `RunAggregation`;
- both providers' `Fetch`, `CollectRows` and RentCast's `BuildParams`;
- `MergeCliOverrides`;
- `ProviderCache.Discover`.

The process-wide discovery cache is the class `Registry.ProviderCache`. Its
field is reassigned only on the first call.

## Model

| member | source | states |
|---|---|---|
| `Filters.ByPrice` | NYC_Scraper/nyc_apartments/src/nyc_apartments/filters.py:10-25 | the survivors are a subsequence of the input; a listing survives iff it has no price, or its price lies within both optional bounds, each inclusive; every survivor keeps all its occurrences and every other listing none; an unpriced listing always survives |
| `Filters.FilterByPrice` | NYC_Scraper/nyc_apartments/src/nyc_apartments/filters.py:10-25 | the loop with its `continue` branches returns exactly `ByPrice` of its input |
| `Filters.ByBeds` | NYC_Scraper/nyc_apartments/src/nyc_apartments/filters.py:28-42 | the same shape for beds: a subsequence; survives iff beds are missing or within the inclusive optional bounds, with all its occurrences; missing beds always survive |
| `Filters.FilterByBeds` | NYC_Scraper/nyc_apartments/src/nyc_apartments/filters.py:28-42 | the loop returns exactly `ByBeds` of its input |
| `Filters.ByRadius` | NYC_Scraper/nyc_apartments/src/nyc_apartments/filters.py:45-55 | a subsequence; survives iff both coordinates are present and the distance from the centre is at most the radius, with all its occurrences; no survivor lacks a coordinate |
| `Filters.FilterByRadius` | NYC_Scraper/nyc_apartments/src/nyc_apartments/filters.py:45-55 | the loop returns exactly `ByRadius` of its input |
| `Filters.Truncate` | NYC_Scraper/nyc_apartments/src/nyc_apartments/filters.py:69-70 | the result is a prefix of the list: `min(limit, n)` long for a positive limit, the whole list for no limit or a limit `<= 0` |
| `Filters.Stages` | NYC_Scraper/nyc_apartments/src/nyc_apartments/filters.py:64-67 | radius, then price, then beds: a subsequence whose members are exactly the listings with both coordinates within the radius that meet the price and bed bounds |
| `Filters.StagesAsOnePass` | NYC_Scraper/nyc_apartments/src/nyc_apartments/filters.py:64-67 | the three passes equal one pass with the conjunction of the three tests |
| `Filters.Filtered` | NYC_Scraper/nyc_apartments/src/nyc_apartments/filters.py:58-73 | a subsequence of the input; the first `min(limit, survivors)` survivors for a positive limit, all survivors otherwise |
| `Filters.ApplyFilters` | NYC_Scraper/nyc_apartments/src/nyc_apartments/filters.py:58-73 | reassigning `result` stage by stage and slicing computes `Filtered` |
| `Center.ResolveCenter` | NYC_Scraper/nyc_apartments/src/nyc_apartments/aggregator.py:15-28 | both coordinates set: exactly those; missing-centre error iff not both coordinates and the address is None or empty; geocode-failure error, naming the address, iff the geocoder returns None; otherwise the geocoded location |
| `Center.CoordsNeedNoGeocoder` | NYC_Scraper/nyc_apartments/src/nyc_apartments/aggregator.py:16-17 | with both coordinates set the result does not depend on the geocoder |
| `Center.MissingCenterNeedsNoGeocoder` | NYC_Scraper/nyc_apartments/src/nyc_apartments/aggregator.py:19-22 | without coordinates or address the missing-centre error comes whatever the geocoder |
| `Aggregator.FetchFrom` | NYC_Scraper/nyc_apartments/src/nyc_apartments/aggregator.py:39-42 | instantiating a provider class and calling `fetch` gives that provider's modelled outcome |
| `Aggregator.GatherAppend` | NYC_Scraper/nyc_apartments/src/nyc_apartments/aggregator.py:37-45 | gathering the providers of two runs in sequence is concatenating each run's gathered list |
| `Aggregator.GatherSplit` | NYC_Scraper/nyc_apartments/src/nyc_apartments/aggregator.py:37-45 | each provider's listings sit contiguously, in its own order, after those of the earlier providers and before those of the later ones |
| `Aggregator.FailureContributesNothing` | NYC_Scraper/nyc_apartments/src/nyc_apartments/aggregator.py:41-45 | a provider that raised contributes nothing: the list is what the other providers alone give |
| `Aggregator.GatherMembers` | NYC_Scraper/nyc_apartments/src/nyc_apartments/aggregator.py:37-45 | a listing is gathered iff some provider that did not raise returned it |
| `Aggregator.FetchAll` | NYC_Scraper/nyc_apartments/src/nyc_apartments/aggregator.py:37-45 | the provider loop with `try`/`except` computes the gathered list of all outcomes |
| `Aggregator.DedupeCorrect` | NYC_Scraper/nyc_apartments/src/nyc_apartments/aggregator.py:47-55 | the deduplicated list is a subsequence of the input, has exactly the input's set of `(provider, id)` keys, and no key twice |
| `Aggregator.DedupeKeepsFirsts` | NYC_Scraper/nyc_apartments/src/nyc_apartments/aggregator.py:47-55 | a listing is kept iff it is the first with its key |
| `Aggregator.DedupeLoop` | NYC_Scraper/nyc_apartments/src/nyc_apartments/aggregator.py:48-55 | the `seen`-set loop computes the deduplicated list; `seen` is always the kept listings' key set |
| `Aggregator.SortKeyOf` | NYC_Scraper/nyc_apartments/src/nyc_apartments/aggregator.py:60-69 | infinite distance iff a coordinate is missing, else the distance from the centre; infinite price iff there is no price, else the price |
| `Aggregator.RunAggregation` | NYC_Scraper/nyc_apartments/src/nyc_apartments/aggregator.py:31-72 | returns the aggregate; the provider cache is filled when the centre resolves and untouched when it does not |
| `Aggregator.CenterErrorFirst` | NYC_Scraper/nyc_apartments/src/nyc_apartments/aggregator.py:31-34 | a centre error is the result before discovery or any fetch, whatever the providers would do |
| `Aggregator.OutputSortedPermutation` | NYC_Scraper/nyc_apartments/src/nyc_apartments/aggregator.py:57-72 | the output is a permutation of the filtered list, ascending by `(distance, price)`, and listings with equal keys keep their filtered order |
| `Aggregator.OutputMembers` | NYC_Scraper/nyc_apartments/src/nyc_apartments/aggregator.py:31-72 | every output listing was returned unchanged by a provider that did not raise, has both coordinates within the radius, and meets the price and bed bounds |
| `Aggregator.OutputDistinctKeys` | NYC_Scraper/nyc_apartments/src/nyc_apartments/aggregator.py:47-72 | no two output listings share a `(provider, id)` key |
| `Aggregator.OutputSize` | NYC_Scraper/nyc_apartments/src/nyc_apartments/aggregator.py:57-72 | for a positive limit the output has `min(limit, survivors)` listings; without one it is a permutation of all survivors |
| `Aggregator.OutputDistancesFinite` | NYC_Scraper/nyc_apartments/src/nyc_apartments/aggregator.py:57-69 | after radius filtering no output listing has an infinite distance key |
| `Aggregator.DefaultsSelectAllAndKeepAll` | NYC_Scraper/nyc_apartments/src/nyc_apartments/config.py:24-41 | with the default configuration every discovered provider runs and nothing is truncated |
| `Aggregator.LimitBeforeSort` | NYC_Scraper/nyc_apartments/src/nyc_apartments/aggregator.py:57-71 | the limit is applied before sorting: with limit 1 the output is the first filter survivor even when the second survivor sorts strictly before it |
| `Sorting.KeyOrder` | NYC_Scraper/nyc_apartments/src/nyc_apartments/aggregator.py:69-71 | tuple comparison of `(distance, price)` keys with `+inf` is a total order |
| `Sorting.StableSort` | NYC_Scraper/nyc_apartments/src/nyc_apartments/aggregator.py:71 | the sorted list has the input's length and elements |
| `Sorting.StableSortCorrect` | NYC_Scraper/nyc_apartments/src/nyc_apartments/aggregator.py:71 | the sort yields an ascending permutation of its input in which the elements of each key keep their input order |
| `Registry.Scan` | NYC_Scraper/nyc_apartments/src/nyc_apartments/providers/base.py:24-48 | the discovered classes: no class twice and no two with one name |
| `Registry.ScanFindsEvery` | NYC_Scraper/nyc_apartments/src/nyc_apartments/providers/base.py:42-46 | every provider class of the package is discovered |
| `Registry.SelectEnabled` | NYC_Scraper/nyc_apartments/src/nyc_apartments/providers/base.py:65-69 | a subsequence of the discovered list; all of it for None or no names; otherwise exactly the discovered providers whose name is listed, in discovery order; never a provider twice |
| `Registry.SelectReadsOnlyKnownNames` | NYC_Scraper/nyc_apartments/src/nyc_apartments/providers/base.py:68-69 | only which discovered providers are named matters, not the order of the names |
| `Registry.UnknownNameIgnored` | NYC_Scraper/nyc_apartments/src/nyc_apartments/providers/base.py:68-69 | a name no provider has changes nothing |
| `Registry.RepeatedNameIgnored` | NYC_Scraper/nyc_apartments/src/nyc_apartments/providers/base.py:68-69 | naming a provider twice selects it once |
| `Registry.ProviderCache.constructor` | NYC_Scraper/nyc_apartments/src/nyc_apartments/providers/base.py:51 | the cache starts empty |
| `Registry.ProviderCache.Discover` | NYC_Scraper/nyc_apartments/src/nyc_apartments/providers/base.py:54-69 | fills the cache on the first call and never changes it after; returns the enabled selection of the discovered list, so equal names give equal results |
| `HnyBuildings.Headers` | NYC_Scraper/nyc_apartments/src/nyc_apartments/providers/nyc_open_data_hny_buildings.py:29-31 | `X-App-Token` is present iff a non-empty token is configured, holds that token, and is the only header |
| `HnyBuildings.ListingId` | NYC_Scraper/nyc_apartments/src/nyc_apartments/providers/nyc_open_data_hny_buildings.py:52-71 | building id, else project id, else the three stripped address bits joined with two `|` including empty bits; never empty, so `"unknown-id"` is unreachable |
| `HnyBuildings.StreetAddress` | NYC_Scraper/nyc_apartments/src/nyc_apartments/providers/nyc_open_data_hny_buildings.py:83-84 | the non-empty of house number and street joined by a space, or `"Unknown address"` |
| `HnyBuildings.Address` | NYC_Scraper/nyc_apartments/src/nyc_apartments/providers/nyc_open_data_hny_buildings.py:73-86 | the street address, followed by `", "` and the borough iff the borough is non-empty; never empty |
| `HnyBuildings.Zipcode` | NYC_Scraper/nyc_apartments/src/nyc_apartments/providers/nyc_open_data_hny_buildings.py:88 | a zipcode iff `postcode` or `zip` is truthy, and then non-empty; a truthy `postcode` gives its text, otherwise a truthy `zip` gives its text |
| `HnyBuildings.LocationPair` | NYC_Scraper/nyc_apartments/src/nyc_apartments/providers/nyc_open_data_hny_buildings.py:100-103 | a pair iff `location` is a dict whose `coordinates` is a list of exactly two items; the pair is those two items in list order |
| `HnyBuildings.Coords` | NYC_Scraper/nyc_apartments/src/nyc_apartments/providers/nyc_open_data_hny_buildings.py:90-108 | both or neither; the `latitude`/`longitude` keys win when both are present; otherwise the location's two coordinates in `[lon, lat]` order, both parsing or neither kept |
| `HnyBuildings.OptionalText` | NYC_Scraper/nyc_apartments/src/nyc_apartments/providers/nyc_open_data_hny_buildings.py:110-117 | a falsy value gives None, a str gives itself, any other truthy value is a validation error |
| `HnyBuildings.Normalize` | NYC_Scraper/nyc_apartments/src/nyc_apartments/providers/nyc_open_data_hny_buildings.py:51-126 | fails iff project name or neighbourhood is truthy and not a str; otherwise id, address, zipcode and coordinates as above, the title and neighbourhood as the optional texts of `project_name` and of the first neighbourhood column, the provider name, default city and state, no price, beds, baths or url, and the row kept as raw |
| `HnyBuildings.FetchResult` | NYC_Scraper/nyc_apartments/src/nyc_apartments/providers/nyc_open_data_hny_buildings.py:28-49 | the request error iff the request fails; `[]` for a non-list body; for a list, exactly the rows that normalise, in response order; every listing has the provider name, a non-empty id, paired coordinates and no price, beds, baths or url |
| `HnyBuildings.Fetch` | NYC_Scraper/nyc_apartments/src/nyc_apartments/providers/nyc_open_data_hny_buildings.py:28-49 | filling the headers, requesting and collecting rows computes `FetchResult` |
| `Rentcast.ApiKey` | NYC_Scraper/nyc_apartments/src/nyc_apartments/providers/rentcast_rental_listings.py:28-29 | a non-empty configured key wins, else the environment variable; None iff neither is non-empty |
| `Rentcast.PageSize` | NYC_Scraper/nyc_apartments/src/nyc_apartments/providers/rentcast_rental_listings.py:41-44 | always in `1..500`; `min(limit, 500)` for a positive limit, 100 otherwise |
| `Rentcast.RadiusMiles` | NYC_Scraper/nyc_apartments/src/nyc_apartments/providers/rentcast_rental_listings.py:38 | the radius in km raised to 0.1 when below it, times 0.621371: `radius_km * 0.621371` from 0.1 km up, `0.1 * 0.621371` below |
| `Rentcast.RangeParam` | NYC_Scraper/nyc_apartments/src/nyc_apartments/providers/rentcast_rental_listings.py:57-65 | a range parameter exists iff at least one bound is set, and it is then `<min or *>:<max or *>` |
| `Rentcast.BoundRoundTrip` | NYC_Scraper/nyc_apartments/src/nyc_apartments/providers/rentcast_rental_listings.py:58-59 | a bound's text is `*` or the integer's decimal text, contains no `:`, and reads back as the bound |
| `Rentcast.RangeParamSplit` | NYC_Scraper/nyc_apartments/src/nyc_apartments/providers/rentcast_rental_listings.py:57-65 | for any bound text free of `:` (as for the bedroom floats), the parameter splits at its first `:` into exactly the lower and the upper end |
| `Rentcast.PriceRangeRoundTrip` | NYC_Scraper/nyc_apartments/src/nyc_apartments/providers/rentcast_rental_listings.py:57-60 | the `"min:max"` text splits at its one `:` back into the two bounds |
| `Rentcast.Params` | NYC_Scraper/nyc_apartments/src/nyc_apartments/providers/rentcast_rental_listings.py:46-65 | centre latitude and longitude, radius in miles, `status` Active and the page size; `price` and `bedrooms` present iff a bound is set, each the range text |
| `Rentcast.BuildParams` | NYC_Scraper/nyc_apartments/src/nyc_apartments/providers/rentcast_rental_listings.py:48-65 | building the dict entry by entry gives `Params` |
| `Rentcast.StripOr` | NYC_Scraper/nyc_apartments/src/nyc_apartments/providers/rentcast_rental_listings.py:105-106 | raises iff the value is truthy and not a str; otherwise the stripped value when non-empty, the default when the stripped value is blank, and the stripped default (or the default, when that strips to nothing) when the value is missing or falsy; never empty |
| `Rentcast.StripOrCleanDefault` | NYC_Scraper/nyc_apartments/src/nyc_apartments/providers/rentcast_rental_listings.py:105-106 | with a default that has no whitespace at either end, as `"New York"` and `"NY"`, a missing, falsy or blank value reads as exactly the default |
| `Rentcast.ReadTexts` | NYC_Scraper/nyc_apartments/src/nyc_apartments/providers/rentcast_rental_listings.py:103-106 | raises iff one of the six stripped fields is truthy and not a str; otherwise address, address line, property type and status are their stripped values (or `""`), and city and state are read as by `StripOr` with `"New York"` and `"NY"`, so never empty |
| `Rentcast.FallbackId` | NYC_Scraper/nyc_apartments/src/nyc_apartments/providers/rentcast_rental_listings.py:94-100 | the non-empty address bits joined with `|`, or `"unknown-id"` when all are empty; never empty |
| `Rentcast.ListingId` | NYC_Scraper/nyc_apartments/src/nyc_apartments/providers/rentcast_rental_listings.py:85-100 | the first truthy of `id`, `listingId`, `zillowId`, `mlsId`, else the fallback id; never empty |
| `Rentcast.Zipcode` | NYC_Scraper/nyc_apartments/src/nyc_apartments/providers/rentcast_rental_listings.py:107-109 | a zipcode iff `zipCode` is present and not None and its stripped text is non-empty, and then that text |
| `Rentcast.Address` | NYC_Scraper/nyc_apartments/src/nyc_apartments/providers/rentcast_rental_listings.py:111-119 | the formatted address when non-empty; else `"line1, city, state"` plus `", zip"` when there is a zipcode; else `"Unknown address"` |
| `Rentcast.Coords` | NYC_Scraper/nyc_apartments/src/nyc_apartments/providers/rentcast_rental_listings.py:121-128 | both or neither: both only when both keys are non-None and both parse |
| `Rentcast.OptionalFloat` | NYC_Scraper/nyc_apartments/src/nyc_apartments/providers/rentcast_rental_listings.py:138-150 | None for a missing key; otherwise exactly the parsed float, or None when it does not parse |
| `Rentcast.Price` | NYC_Scraper/nyc_apartments/src/nyc_apartments/providers/rentcast_rental_listings.py:131-136 | a price iff the value parses as a float, and then that float truncated toward zero |
| `Rentcast.Title` | NYC_Scraper/nyc_apartments/src/nyc_apartments/providers/rentcast_rental_listings.py:152-162 | None iff there are no beds, no property type and no status; otherwise the present parts joined by single spaces in the order `"<beds> BR"`, property type, `"(<status>)"`, one case per combination of present parts |
| `Rentcast.TitleJoin` | NYC_Scraper/nyc_apartments/src/nyc_apartments/providers/rentcast_rental_listings.py:155-162 | joining the title parts with single spaces gives, for each of the eight combinations of present beds, property type and status, the present parts in order, and the empty text when none is present |
| `Rentcast.ReportLink` | NYC_Scraper/nyc_apartments/src/nyc_apartments/providers/rentcast_rental_listings.py:164-170 | a url iff the formatted address is non-empty, and then the report address followed by the encoded formatted address |
| `Rentcast.Normalize` | NYC_Scraper/nyc_apartments/src/nyc_apartments/providers/rentcast_rental_listings.py:83-188 | fails iff a stripped text field is not a str; otherwise the id, address, city and state as above; coordinates, price, beds, baths, zipcode, title and url as read by `Coords`, `Price`, `OptionalFloat`, `Zipcode`, `Title` and `ReportLink`; the provider name, paired coordinates, a url iff there is a formatted address, no neighbourhood, and the row kept as raw |
| `Rentcast.FetchResult` | NYC_Scraper/nyc_apartments/src/nyc_apartments/providers/rentcast_rental_listings.py:25-81 | `[]` without a key; the centre error when it cannot be resolved; with key and centre, the request error iff the request fails, `[]` for a non-list body, else exactly the rows that normalise in response order; every listing has the provider name, a non-empty id, city and state, and paired coordinates |
| `Rentcast.NoKeyNoRequest` | NYC_Scraper/nyc_apartments/src/nyc_apartments/providers/rentcast_rental_listings.py:28-31 | without a key the result is `[]` whatever the geocoder and the HTTP helper would do |
| `Rentcast.Fetch` | NYC_Scraper/nyc_apartments/src/nyc_apartments/providers/rentcast_rental_listings.py:25-81 | the method with its early returns computes `FetchResult` |
| `Rows.KeepNormalized` | NYC_Scraper/nyc_apartments/src/nyc_apartments/providers/nyc_open_data_hny_buildings.py:39-49 | at most one listing per item; every object row that normalises contributes its listing |
| `Rows.KeptComeFromRows` | NYC_Scraper/nyc_apartments/src/nyc_apartments/providers/nyc_open_data_hny_buildings.py:39-49 | every kept listing is the normalisation of some object row of the response |
| `Rows.KeepNormalizedAppend` | NYC_Scraper/nyc_apartments/src/nyc_apartments/providers/rentcast_rental_listings.py:71-81 | the rows are processed in response order: the result for two runs of rows is the concatenation |
| `Rows.KeepNormalizedAllGood` | NYC_Scraper/nyc_apartments/src/nyc_apartments/providers/rentcast_rental_listings.py:71-81 | when every row is an object that normalises, the result is their listings, one per row, in order |
| `Rows.CollectRows` | NYC_Scraper/nyc_apartments/src/nyc_apartments/providers/rentcast_rental_listings.py:71-81 | the skip-on-error loop computes `KeepNormalized` |
| `Json.OrChain` | NYC_Scraper/nyc_apartments/src/nyc_apartments/providers/nyc_open_data_hny_buildings.py:53-58 | `a or b or …`: truthy iff some operand is; otherwise the last operand |
| `Json.OrChainPicksFirstTruthy` | NYC_Scraper/nyc_apartments/src/nyc_apartments/providers/nyc_open_data_hny_buildings.py:53-58 | the value is the first truthy operand |
| `Json.PyStr` | NYC_Scraper/nyc_apartments/src/nyc_apartments/providers/nyc_open_data_hny_buildings.py:59 | `str(v)` is empty iff `v` is the empty string |
| `Json.FirstText` | NYC_Scraper/nyc_apartments/src/nyc_apartments/providers/nyc_open_data_hny_buildings.py:59 | `str(row.get(k1) or … or "")` is non-empty iff one of the keys holds a truthy value, and is then the text of the first key whose value is truthy |
| `Json.ToFloat` | NYC_Scraper/nyc_apartments/src/nyc_apartments/providers/nyc_open_data_hny_buildings.py:94-99 | a number gives itself; None, a list or a dict raises |
| `Json.FloatPair` | NYC_Scraper/nyc_apartments/src/nyc_apartments/providers/nyc_open_data_hny_buildings.py:94-99 | two conversions in one `try`: both values when both parse, otherwise neither |
| `Json.StripField` | NYC_Scraper/nyc_apartments/src/nyc_apartments/providers/rentcast_rental_listings.py:103-104 | `(row.get(k) or default).strip()`: raises iff the value is truthy and not a str; otherwise the stripped value or the stripped default |
| `Json.Trunc` | NYC_Scraper/nyc_apartments/src/nyc_apartments/providers/rentcast_rental_listings.py:134 | `int(x)` truncates toward zero |
| `PyText.Strip` | NYC_Scraper/nyc_apartments/src/nyc_apartments/providers/nyc_open_data_hny_buildings.py:67-69 | no whitespace at either end of the result; empty iff the text is all whitespace; the result is a contiguous slice of the text with only whitespace before and after it |
| `PyText.StripUnchanged` | NYC_Scraper/nyc_apartments/src/nyc_apartments/providers/nyc_open_data_hny_buildings.py:67-69 | stripping a text with no whitespace at either end leaves it unchanged |
| `PyText.Join` | NYC_Scraper/nyc_apartments/src/nyc_apartments/providers/nyc_open_data_hny_buildings.py:71 | the joined text is empty iff every part is empty and there is at most one part or the separator is empty |
| `PyText.IntToStringRoundTrip` | NYC_Scraper/nyc_apartments/src/nyc_apartments/providers/rentcast_rental_listings.py:58-59 | `str(i)` reads back as `i` |
| `Config.FieldNamed` | NYC_Scraper/nyc_apartments/src/nyc_apartments/config.py:97 | a key is recognised only as the field whose attribute name it is |
| `Config.FieldNamedKey` | NYC_Scraper/nyc_apartments/src/nyc_apartments/config.py:97 | every field's own attribute name is recognised as that field |
| `Config.Canon` | NYC_Scraper/nyc_apartments/src/nyc_apartments/config.py:12-60 | a value that validates has its field's declared type; a value of that type validates as itself |
| `Config.FieldsHaveKinds` | NYC_Scraper/nyc_apartments/src/nyc_apartments/config.py:12-60 | every field of a config holds a value of its declared type |
| `Config.Lookup` | NYC_Scraper/nyc_apartments/src/nyc_apartments/config.py:99 | a field given in the dict is its validated value (None when it does not validate), an absent one takes its default; a value has the declared type |
| `Config.FromData` | NYC_Scraper/nyc_apartments/src/nyc_apartments/config.py:99 | the constructor raises exactly when some declared field does not validate, and the error names exactly the declared fields that do not validate |
| `Config.GetBuild` | NYC_Scraper/nyc_apartments/src/nyc_apartments/config.py:99 | a field that validates is stored as its validated value |
| `Config.GetDetermines` | NYC_Scraper/nyc_apartments/src/nyc_apartments/config.py:12-60 | two configs that agree on every declared field are equal |
| `Config.FromDataValid` | NYC_Scraper/nyc_apartments/src/nyc_apartments/config.py:99 | a dict that validates to a config's fields builds exactly that config |
| `Config.DictRoundTrip` | NYC_Scraper/nyc_apartments/src/nyc_apartments/config.py:24-99 | `AppConfig(**c.dict()) == c`, and `AppConfig()` is the defaults: radius 3.0 km, no bounds, no providers, no limit |
| `Config.FromDataOnlyReadsFields` | NYC_Scraper/nyc_apartments/src/nyc_apartments/config.py:99 | the constructor depends only on the validated values of the declared fields |
| `Config.ToDataOfFromData` | NYC_Scraper/nyc_apartments/src/nyc_apartments/config.py:95-99 | the dict of a constructed config holds the validated input values |
| `Config.Overlay` | NYC_Scraper/nyc_apartments/src/nyc_apartments/config.py:96-98 | overriding adds no key and removes none |
| `Config.LastOverride` | NYC_Scraper/nyc_apartments/src/nyc_apartments/config.py:96-98 | the override that takes effect for a field is never None |
| `Config.OverlayField` | NYC_Scraper/nyc_apartments/src/nyc_apartments/config.py:96-98 | each entry ends with its field's last non-None override, else its base value; None values and unknown keys change nothing |
| `Config.OverlayIdempotent` | NYC_Scraper/nyc_apartments/src/nyc_apartments/config.py:96-98 | overlaying the same overrides twice equals once |
| `Config.MergeCliOverrides` | NYC_Scraper/nyc_apartments/src/nyc_apartments/config.py:88-99 | the copy-and-overwrite loop followed by the constructor computes the merge of base and overrides |
| `Config.MergedFields` | NYC_Scraper/nyc_apartments/src/nyc_apartments/config.py:95-99 | a field with a non-None override takes the validated override; every other field keeps its base value |
| `Config.MergeWithoutOverrides` | NYC_Scraper/nyc_apartments/src/nyc_apartments/config.py:96-98 | with only None values and unknown keys the merge is the base |
| `Config.MergeIdempotent` | NYC_Scraper/nyc_apartments/src/nyc_apartments/config.py:95-99 | merging the same overrides into the merged config changes nothing |

## Left out

- The haversine formula and the geocoder: both are `Http.Host` fields. The model assumes nothing about distances (no symmetry, no zero self-distance). It does not model the Nominatim singleton or its user agent.
- The geocoder is a fixed function, so RentCast's second call to `resolve_center` returns the first call's answer. A live service could answer differently the second time.
- `fetch_json`'s session, proxies, retries and back-off: it is one `Host` function returning a decoded body or an error message.
- Package reflection in `_iter_provider_classes`: discovery is the fixed list of the two provider modules in file-name order.
- Storage, formatters and the command-line interface: I/O and rendering, outside the core.
- Loading the configuration from the environment and `.env` files. `AppConfig` is built only from the defaults and explicit values. Only RentCast's direct read of `RENTCAST_API_KEY` is modelled, as a `Host` field.
- Floating point:
  - Floats are exact reals, with no rounding, `inf` or `nan`.
  - A JSON number is its real value plus its `str()` text.
  - Float parsing, `format(x, "g")`, `str(float)` and `quote_plus` are `Host` functions.
- `Rentcast.Price`: does not model the `OverflowError` that `int(float("inf"))` raises (infinities are not represented). Such a row would be skipped by the row loop.
- `str()` of a nested list or dict: it is a placeholder text that is never empty. Only its non-emptiness matters here.
- pydantic validation:
  - String-to-number coercion and the `HttpUrl` check on `url`, including its length limit, are not modelled. The url is kept as text.
  - A `ValidationError` is modelled only as the set of the invalid fields' names.
- Logging of provider failures and discovered providers.
- The `raw` payload is carried as the input row and never interpreted.
- `list.sort`: modelled as a pure stable insertion sort with the same result. Its in-place rearrangement and its algorithm (Timsort) are not modelled.
- `_DISCOVERED` is a global. Here it is one `ProviderCache` object passed to `RunAggregation`; the model does not capture aliasing across threads.
