/** The loop both providers run over an upstream response: keep the rows that
    are JSON objects and normalise without raising, in their original order. */
module Rows {
  import opened Wrappers
  import opened Json

  /** What the provider loop returns for the response items `items`. */
  function KeepNormalized<T>(items: seq<Value>, normalize: Row -> Result<T, RowError>): (r: seq<T>)
    ensures |r| <= |items|
    ensures forall i :: 0 <= i < |items| && items[i].Obj? && normalize(items[i].fields).Ok?
                        ==> normalize(items[i].fields).value in r
  {
    if items == [] then []
    else
      var init := KeepNormalized(items[..|items| - 1], normalize);
      var last := items[|items| - 1];
      assert forall i :: 0 <= i < |items| - 1 ==> items[i] == items[..|items| - 1][i];
      if last.Obj? && normalize(last.fields).Ok? then init + [normalize(last.fields).value] else init
  }

  /** Every kept record is the normalisation of some dict item. */
  lemma {:induction false} KeptComeFromRows<T>(items: seq<Value>, normalize: Row -> Result<T, RowError>, k: nat)
    requires k < |KeepNormalized(items, normalize)|
    ensures exists i :: 0 <= i < |items| && items[i].Obj?
                        && normalize(items[i].fields) == Ok(KeepNormalized(items, normalize)[k])
  {
    var init := items[..|items| - 1];
    var last := items[|items| - 1];
    if k < |KeepNormalized(init, normalize)| {
      KeptComeFromRows(init, normalize, k);
      var i :| 0 <= i < |init| && init[i].Obj? && normalize(init[i].fields) == Ok(KeepNormalized(init, normalize)[k]);
      assert items[i] == init[i];
    } else {
      assert items[|items| - 1] == last;
    }
  }

  /** Skipping rows never reorders the survivors: the responses of two halves
      are kept independently. */
  lemma {:induction false} KeepNormalizedAppend<T>(a: seq<Value>, b: seq<Value>, normalize: Row -> Result<T, RowError>)
    ensures KeepNormalized(a + b, normalize) == KeepNormalized(a, normalize) + KeepNormalized(b, normalize)
    decreases |b|
  {
    if b == [] {
      assert a + b == a;
    } else {
      assert (a + b)[..|a + b| - 1] == a + b[..|b| - 1];
      KeepNormalizedAppend(a, b[..|b| - 1], normalize);
    }
  }

  /** A response whose every item is a dict that normalises loses nothing. */
  lemma {:induction false} KeepNormalizedAllGood<T>(items: seq<Value>, normalize: Row -> Result<T, RowError>)
    requires forall i :: 0 <= i < |items| ==> items[i].Obj? && normalize(items[i].fields).Ok?
    ensures |KeepNormalized(items, normalize)| == |items|
    ensures forall i :: 0 <= i < |items| ==> KeepNormalized(items, normalize)[i] == normalize(items[i].fields).value
  {
    if items != [] {
      KeepNormalizedAllGood(items[..|items| - 1], normalize);
    }
  }

  /** The loop of the providers' `fetch`: skip non-dict items and rows whose
      normalisation raises, append the rest. */
  method CollectRows<T>(items: seq<Value>, normalize: Row -> Result<T, RowError>) returns (apartments: seq<T>)
    ensures apartments == KeepNormalized(items, normalize)
  {
    apartments := [];
    for i := 0 to |items|
      invariant apartments == KeepNormalized(items[..i], normalize)
    {
      assert items[..i + 1][..i] == items[..i];
      var item := items[i];
      if !item.Obj? {
        continue;
      }
      var row := normalize(item.fields);
      if row.Err? {
        continue;
      }
      apartments := apartments + [row.value];
    }
    assert items[..|items|] == items;
  }
}
