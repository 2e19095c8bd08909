/** `discover_providers`: the provider classes found once per process, and
    the allow-list applied to them. */
module Registry {
  import opened Wrappers
  import opened Seqs
  import HnyBuildings
  import Rentcast

  /** The provider classes of the package. */
  datatype ProviderKind = HnyBuildingsProvider | RentcastProvider {
    /** The class's `name` attribute. */
    function Name(): string {
      match this
      case HnyBuildingsProvider => HnyBuildings.Name
      case RentcastProvider => Rentcast.Name
    }
  }

  /** `_iter_provider_classes`: the package's modules are visited in
      file-name order, one provider class in each; no class twice and no two
      classes with one name. */
  function Scan(): (r: seq<ProviderKind>)
    ensures Distinct(r)
    ensures forall i, j :: 0 <= i < j < |r| ==> r[i].Name() != r[j].Name()
  {
    [HnyBuildingsProvider, RentcastProvider]
  }

  /** Every provider class is discovered. */
  lemma ScanFindsEvery(p: ProviderKind)
    ensures p in Scan()
  {
    match p
    case HnyBuildingsProvider => assert Scan()[0] == p;
    case RentcastProvider => assert Scan()[1] == p;
  }

  function NameIn(enabled: set<string>): ProviderKind -> bool {
    (p: ProviderKind) => p.Name() in enabled
  }

  /** The list `discover_providers(enabled_names)` returns for the discovered
      list: all of it when the names are None or empty, else the providers
      whose name is listed, in discovery order. */
  function SelectEnabled(discovered: seq<ProviderKind>, enabledNames: Option<seq<string>>): (r: seq<ProviderKind>)
    ensures IsSubseq(r, discovered)
    ensures enabledNames.None? || enabledNames.value == [] ==> r == discovered
    ensures enabledNames.Some? && enabledNames.value != [] ==>
              forall p :: p in r <==> p in discovered && p.Name() in enabledNames.value
    ensures Distinct(discovered) ==> Distinct(r)
  {
    if enabledNames.None? || enabledNames.value == [] then
      SubseqRefl(discovered);
      discovered
    else
      var keep := NameIn(set n | n in enabledNames.value);
      FilterIsSubseq(discovered, keep);
      FilterDistinct(discovered, keep);
      Filter(discovered, keep)
  }

  /** Only which discovered providers are named matters: the order of the
      names, repeats, and names no provider has change nothing. */
  lemma SelectReadsOnlyKnownNames(discovered: seq<ProviderKind>, names1: seq<string>, names2: seq<string>)
    requires names1 != [] && names2 != []
    requires forall i :: 0 <= i < |discovered| ==>
               (discovered[i].Name() in names1 <==> discovered[i].Name() in names2)
    ensures SelectEnabled(discovered, Some(names1)) == SelectEnabled(discovered, Some(names2))
  {
    FilterCongruent(discovered, NameIn(set n | n in names1), NameIn(set n | n in names2));
  }

  /** A name that matches no provider is silently ignored. */
  lemma UnknownNameIgnored(discovered: seq<ProviderKind>, names: seq<string>, unknown: string)
    requires names != []
    requires forall i :: 0 <= i < |discovered| ==> discovered[i].Name() != unknown
    ensures SelectEnabled(discovered, Some(names + [unknown])) == SelectEnabled(discovered, Some(names))
  {
    SelectReadsOnlyKnownNames(discovered, names + [unknown], names);
  }

  /** Naming a provider twice does not select it twice. */
  lemma RepeatedNameIgnored(discovered: seq<ProviderKind>, names: seq<string>, k: nat)
    requires k < |names|
    ensures SelectEnabled(discovered, Some(names + [names[k]])) == SelectEnabled(discovered, Some(names))
  {
    SelectReadsOnlyKnownNames(discovered, names + [names[k]], names);
  }

  /** The process-wide cache of discovered providers: empty until the first
      call, then the scan's result for good. */
  class ProviderCache {
    var discovered: Option<seq<ProviderKind>>

    ghost predicate Valid()
      reads this
    {
      discovered.None? || discovered.value == Scan()
    }

    constructor()
      ensures Valid() && discovered.None?
    {
      discovered := None;
    }

    /** `discover_providers`: fill the cache on the first call, then select
        the enabled providers from it. */
    method Discover(enabledNames: Option<seq<string>>) returns (r: seq<ProviderKind>)
      requires Valid()
      modifies this
      ensures Valid() && discovered == Some(Scan())
      ensures old(discovered).Some? ==> discovered == old(discovered)
      ensures r == SelectEnabled(Scan(), enabledNames)
    {
      if discovered.None? {
        discovered := Some(Scan());
      }
      var all := discovered.value;
      if enabledNames.None? || enabledNames.value == [] {
        return all;
      }
      var enabled := set n | n in enabledNames.value;
      r := [];
      for i := 0 to |all|
        invariant r == Filter(all[..i], NameIn(enabled))
      {
        assert all[..i + 1][..i] == all[..i];
        if all[i].Name() in enabled {
          r := r + [all[i]];
        }
      }
      assert all[..|all|] == all;
    }
  }
}
