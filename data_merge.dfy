/**
  Merging a sequence of `Data` maps into one: maps are applied left to
  right and a later map overwrites an earlier one on a shared key.
 */
module DataMerge {
  import opened Types

  /** The reference definition: the merge of all maps but the last, updated
      with the last one. */
  function Merge(ds: seq<Data>): Data
  {
    if ds == [] then map[] else Merge(ds[..|ds| - 1]) + ds[|ds| - 1]
  }

  /** The merged key set is exactly the union of the inputs' key sets. */
  lemma {:induction false} MergeKeys(ds: seq<Data>, key: string)
    ensures key in Merge(ds) <==> exists i :: 0 <= i < |ds| && key in ds[i]
  {
    if ds != [] {
      var init := ds[..|ds| - 1];
      MergeKeys(init, key);
      if key in Merge(init) {
        var i :| 0 <= i < |init| && key in init[i];
        assert ds[i] == init[i];
      }
      if exists i :: 0 <= i < |ds| && key in ds[i] {
        var i :| 0 <= i < |ds| && key in ds[i];
        if i < |init| {
          assert init[i] == ds[i];
        }
      }
    }
  }

  /** Each key holds the value of the last input map that contains it. */
  lemma {:induction false} MergeLastWriter(ds: seq<Data>, i: nat, key: string)
    requires i < |ds| && key in ds[i]
    requires forall j :: i < j < |ds| ==> key !in ds[j]
    ensures key in Merge(ds) && Merge(ds)[key] == ds[i][key]
  {
    var init := ds[..|ds| - 1];
    if i < |ds| - 1 {
      assert key !in ds[|ds| - 1];
      forall j | i < j < |init| ensures key !in init[j] {
        assert init[j] == ds[j];
      }
      MergeLastWriter(init, i, key);
    }
  }

  /** Merging one map gives that map back. */
  lemma MergeSingle(m: Data)
    ensures Merge([m]) == m
  {
  }

  /** The merge folds left to right: merging a concatenation is merging the
      first part and then the second on top of it. In particular
      `Merge(s + [m]) == Merge([Merge(s), m])`. */
  lemma {:induction false} MergeAppend(s: seq<Data>, t: seq<Data>)
    ensures Merge(s + t) == Merge(s) + Merge(t)
  {
    if t == [] {
      assert s + t == s;
    } else {
      var init := t[..|t| - 1];
      assert (s + t)[..|s + t| - 1] == s + init;
      MergeAppend(s, init);
    }
  }

  /** Models joinData: a fresh map filled by copying every input map in
      turn, key by key, in whatever order the map is walked. The inputs are
      only read. */
  method JoinData(data: seq<Data>) returns (result: Data)
    ensures result == Merge(data)
  {
    result := map[];
    if |data| != 0 {
      for n := 0 to |data|
        invariant result == Merge(data[..n])
      {
        var someMap := data[n];
        var pending := someMap.Keys;
        while pending != {}
          invariant pending <= someMap.Keys
          invariant result.Keys == Merge(data[..n]).Keys + (someMap.Keys - pending)
          invariant forall k :: k in result ==>
            result[k] == if k in someMap && k !in pending then someMap[k] else Merge(data[..n])[k]
          decreases pending
        {
          var key :| key in pending;
          result := result[key := someMap[key]];
          pending := pending - {key};
        }
        assert data[..n + 1][..n] == data[..n];
      }
      assert data[..|data|] == data;
    }
  }
}
