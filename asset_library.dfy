/** AssetLibrary.cs: the loaded assets, the identifiers they define and the assets changed
    since the last save. */
module Library {
  import opened Wrappers
  import opened Strings
  import opened Linq
  import opened Identifiers
  import opened AssetUtils
  import opened Assets

  const AssetsDirName := "pw-assets"

  /** What `AddAsset` reports for an asset without identifier. */
  const InvalidAssetMessage := "Attempted to add an asset which has an invalid identifier (or no identifier at all)."

  /** `IsValidAssetsDirectory`: the directory's name ends in `pw-assets`, compared ordinally. */
  function IsValidAssetsDirectory(dir: string): (b: bool)
    ensures b <==> |dir| >= |AssetsDirName| && dir[|dir| - |AssetsDirName|..] == AssetsDirName
  {
    EndsWith(dir, AssetsDirName)
  }

  /** The checks `Load` makes before touching the file system: the error it stops with, if any. */
  function LoadDirectoryError(assetsDirectory: Option<string>): (r: Option<string>)
    ensures r.None? <==> assetsDirectory.Some? && IsValidAssetsDirectory(assetsDirectory.value)
    ensures assetsDirectory.None? ==> r == Some("No assets directory was set.")
    ensures assetsDirectory.Some? && r.Some? ==>
      r.value == "Input directory '" + assetsDirectory.value + "' is not a valid Prego Wars 'assets' directory."
  {
    match assetsDirectory
    case None => Some("No assets directory was set.")
    case Some(dir) =>
      if IsValidAssetsDirectory(dir) then None
      else Some("Input directory '" + dir + "' is not a valid Prego Wars 'assets' directory.")
  }

  /** The objects the given asset references point at. */
  function Objects(xs: seq<Asset>): set<object>
  {
    set a | a in xs :: Obj(a)
  }

  /** The identifier of each asset, in order. */
  function KeysOf(xs: seq<Asset>): (keys: seq<Option<Identifier>>)
    reads Objects(xs)
    ensures |keys| == |xs|
    ensures forall k :: 0 <= k < |xs| ==> keys[k] == IdOf(xs[k])
  {
    if xs == [] then [] else [IdOf(xs[0])] + KeysOf(xs[1..])
  }

  /** `GroupBy(key).Select(group => group.First())`: for each key not in `seen`, in order of
      first occurrence, the first asset that has it. */
  function FirstPerKey(xs: seq<Asset>, keys: seq<Option<Identifier>>, seen: set<Option<Identifier>>)
    : (r: (seq<Asset>, seq<Option<Identifier>>))
    requires |xs| == |keys|
    ensures |r.0| == |r.1|
    ensures r.1 == Except(keys, seen)
    ensures forall i :: 0 <= i < |r.0| ==> r.1[i] in keys && r.0[i] == xs[FirstIndex(keys, r.1[i])]
    decreases |xs|
  {
    if xs == [] then ([], [])
    else if keys[0] in seen then
      assert Except(keys, seen) == Except(keys[1..], seen);
      var inner := FirstPerKey(xs[1..], keys[1..], seen);
      FirstPerKeyShift(xs, keys, inner.0, inner.1);
      inner
    else
      assert Except(keys, seen) == [keys[0]] + Except(keys[1..], seen + {keys[0]});
      var inner := FirstPerKey(xs[1..], keys[1..], seen + {keys[0]});
      FirstPerKeyShift(xs, keys, inner.0, inner.1);
      ([xs[0]] + inner.0, [keys[0]] + inner.1)
  }

  /** The first occurrences found in the tail are the first occurrences in the whole. */
  lemma FirstPerKeyShift(xs: seq<Asset>, keys: seq<Option<Identifier>>, ys: seq<Asset>, ks: seq<Option<Identifier>>)
    requires |xs| == |keys| > 0 && |ys| == |ks|
    requires forall i :: 0 <= i < |ks| ==> ks[i] != keys[0] && ks[i] in keys[1..] && ys[i] == xs[1..][FirstIndex(keys[1..], ks[i])]
    ensures forall i :: 0 <= i < |ks| ==> ks[i] in keys && ys[i] == xs[FirstIndex(keys, ks[i])]
  {
    forall i | 0 <= i < |ks|
      ensures ks[i] in keys && ys[i] == xs[FirstIndex(keys, ks[i])]
    {
      assert FirstIndex(keys, ks[i]) == 1 + FirstIndex(keys[1..], ks[i]);
    }
  }

  /** `RemoveAll(a => a.Identifier == identifier)`: the assets without that identifier, in order. */
  function Without(xs: seq<Asset>, id: Identifier): (r: seq<Asset>)
    reads Objects(xs)
    ensures forall i :: 0 <= i < |r| ==> r[i] in xs && IdOf(r[i]) != Some(id)
    ensures forall k :: 0 <= k < |xs| && IdOf(xs[k]) != Some(id) ==> xs[k] in r
    ensures NoDuplicates(xs) ==> NoDuplicates(r)
    ensures |r| <= |xs|
  {
    if xs == [] then []
    else
      var rest := Without(xs[1..], id);
      assert forall k :: 1 <= k < |xs| ==> xs[k] == xs[1..][k - 1];
      if IdOf(xs[0]) == Some(id) then rest else [xs[0]] + rest
  }

  /** `Without` keeps the original order: it distributes over concatenation. */
  lemma {:induction false} WithoutAppend(xs: seq<Asset>, ys: seq<Asset>, id: Identifier)
    ensures Without(xs + ys, id) == Without(xs, id) + Without(ys, id)
    decreases |xs|
  {
    if xs == [] {
      assert xs + ys == ys;
    } else {
      WithoutAppend(xs[1..], ys, id);
      var zs := xs + ys;
      assert zs[0] == xs[0] && zs[1..] == xs[1..] + ys;
      if IdOf(xs[0]) == Some(id) {
        assert Without(zs, id) == Without(zs[1..], id);
        assert Without(xs, id) == Without(xs[1..], id);
      } else {
        assert Without(zs, id) == [xs[0]] + Without(zs[1..], id);
        assert Without(xs, id) == [xs[0]] + Without(xs[1..], id);
        AppendAssoc([xs[0]], Without(xs[1..], id), Without(ys, id));
      }
    }
  }

  /** The dependencies of each asset state, in order. */
  function DependencyLists(vs: seq<AssetValue>): (ds: seq<seq<Identifier>>)
    ensures |ds| == |vs|
    ensures forall k :: 0 <= k < |vs| ==> ds[k] == Dependencies(vs[k])
  {
    if vs == [] then [] else [Dependencies(vs[0])] + DependencyLists(vs[1..])
  }

  /** The assets whose dependency lists `ds` name `id`, in order. */
  function DependingOn(xs: seq<Asset>, ds: seq<seq<Identifier>>, id: Identifier): (r: seq<Asset>)
    requires |xs| == |ds| && NoDuplicates(xs)
    ensures forall i :: 0 <= i < |r| ==> r[i] in xs
    ensures forall k :: 0 <= k < |xs| ==> (xs[k] in r <==> id in ds[k])
  {
    if xs == [] then []
    else
      var rest := DependingOn(xs[1..], ds[1..], id);
      assert forall k :: 1 <= k < |xs| ==> xs[k] == xs[1..][k - 1] && ds[k] == ds[1..][k - 1] && xs[k] != xs[0];
      if id in ds[0] then [xs[0]] + rest else rest
  }

  /** A single asset is kept exactly when its dependencies name the identifier. */
  lemma DependingOnSingle(x: Asset, d: seq<Identifier>, id: Identifier)
    ensures DependingOn([x], [d], id) == if id in d then [x] else []
  {
    assert [x][1..] == [] && [d][1..] == [];
  }

  /** The selection keeps the original order and multiplicity: it distributes over
      concatenation. */
  lemma {:induction false} DependingOnAppend(xs: seq<Asset>, ds: seq<seq<Identifier>>, ys: seq<Asset>,
                                             es: seq<seq<Identifier>>, id: Identifier)
    requires |xs| == |ds| && |ys| == |es| && NoDuplicates(xs + ys)
    ensures NoDuplicates(xs) && NoDuplicates(ys)
    ensures DependingOn(xs + ys, ds + es, id) == DependingOn(xs, ds, id) + DependingOn(ys, es, id)
    decreases |xs|
  {
    var zs, cs := xs + ys, ds + es;
    assert forall i :: 0 <= i < |xs| ==> zs[i] == xs[i];
    assert forall i :: 0 <= i < |ys| ==> zs[|xs| + i] == ys[i];
    if xs == [] {
      assert zs == ys && cs == es;
    } else {
      assert zs[0] == xs[0] && zs[1..] == xs[1..] + ys;
      assert cs[0] == ds[0] && cs[1..] == ds[1..] + es;
      DependingOnAppend(xs[1..], ds[1..], ys, es, id);
      if id in ds[0] {
        assert DependingOn(zs, cs, id) == [xs[0]] + DependingOn(zs[1..], cs[1..], id);
        assert DependingOn(xs, ds, id) == [xs[0]] + DependingOn(xs[1..], ds[1..], id);
        AppendAssoc([xs[0]], DependingOn(xs[1..], ds[1..], id), DependingOn(ys, es, id));
      } else {
        assert DependingOn(zs, cs, id) == DependingOn(zs[1..], cs[1..], id);
        assert DependingOn(xs, ds, id) == DependingOn(xs[1..], ds[1..], id);
      }
    }
  }

  /** The lookup `ResolveMaterials` makes: the first material whose identifier is `id`. */
  function FindMaterial(xs: seq<Asset>, id: Identifier): (r: Option<Asset>)
    reads Objects(xs)
    ensures r.Some? <==> exists k :: 0 <= k < |xs| && xs[k].MaterialAsset? && IdOf(xs[k]) == Some(id)
    ensures r.Some? ==> r.value in xs && r.value.MaterialAsset? && IdOf(r.value) == Some(id)
    ensures r.Some? ==> exists k :: (0 <= k < |xs| && r.value == xs[k] && xs[k].MaterialAsset? && IdOf(xs[k]) == Some(id) &&
      forall j :: 0 <= j < k ==> !(xs[j].MaterialAsset? && IdOf(xs[j]) == Some(id)))
  {
    if xs == [] then None
    else if xs[0].MaterialAsset? && IdOf(xs[0]) == Some(id) then Some(xs[0])
    else
      assert forall k :: 1 <= k < |xs| ==> xs[k] == xs[1..][k - 1];
      FindMaterial(xs[1..], id)
  }

  /** `ResolveMaterials`: the material found for each identifier, skipping the ones not found. */
  function ResolveAll(xs: seq<Asset>, ids: seq<Identifier>): (r: seq<Asset>)
    reads Objects(xs)
    ensures |r| <= |ids|
    ensures forall i :: 0 <= i < |r| ==> r[i] in xs && r[i].MaterialAsset? && IdOf(r[i]).Some? && IdOf(r[i]).value in ids
    ensures forall j :: 0 <= j < |ids| && FindMaterial(xs, ids[j]).Some? ==> FindMaterial(xs, ids[j]).value in r
    ensures |r| == |ids| <==> forall j :: 0 <= j < |ids| ==> FindMaterial(xs, ids[j]).Some?
  {
    if ids == [] then []
    else
      var found := FindMaterial(xs, ids[0]);
      var rest := ResolveAll(xs, ids[1..]);
      assert forall j :: 1 <= j < |ids| ==> ids[j] == ids[1..][j - 1];
      if found.Some? then [found.value] + rest else rest
  }

  /** One identifier yields the material found for it, or nothing. */
  lemma ResolveAllSingle(xs: seq<Asset>, id: Identifier)
    ensures ResolveAll(xs, [id]) == if FindMaterial(xs, id).Some? then [FindMaterial(xs, id).value] else []
  {
    assert [id][1..] == [];
  }

  /** The resolution keeps the order and multiplicity of the requested identifiers: it
      distributes over concatenation. */
  lemma {:induction false} ResolveAllAppend(xs: seq<Asset>, a: seq<Identifier>, b: seq<Identifier>)
    ensures ResolveAll(xs, a + b) == ResolveAll(xs, a) + ResolveAll(xs, b)
    decreases |a|
  {
    var ab := a + b;
    if a == [] {
      assert ab == b;
    } else {
      assert ab[0] == a[0] && ab[1..] == a[1..] + b;
      ResolveAllAppend(xs, a[1..], b);
      var found := FindMaterial(xs, a[0]);
      if found.Some? {
        assert ResolveAll(xs, ab) == [found.value] + ResolveAll(xs, ab[1..]);
        assert ResolveAll(xs, a) == [found.value] + ResolveAll(xs, a[1..]);
        AppendAssoc([found.value], ResolveAll(xs, a[1..]), ResolveAll(xs, b));
      } else {
        assert ResolveAll(xs, ab) == ResolveAll(xs, ab[1..]);
        assert ResolveAll(xs, a) == ResolveAll(xs, a[1..]);
      }
    }
  }

  /** The distinct author names of the identifiers present. */
  function Authors(keys: seq<Option<Identifier>>): (names: seq<string>)
    ensures NoDuplicates(names)
    ensures forall id :: Some(id) in keys ==> id.authorName in names
    ensures forall i :: 0 <= i < |names| ==> exists id :: Some(id) in keys && id.authorName == names[i]
  {
    var all := AuthorList(keys);
    var names := Distinct(all);
    forall i | 0 <= i < |names| ensures exists id :: Some(id) in keys && id.authorName == names[i] {
      assert names[i] in all;
    }
    names
  }

  function AuthorList(keys: seq<Option<Identifier>>): (names: seq<string>)
    ensures forall id :: Some(id) in keys ==> id.authorName in names
    ensures forall n :: n in names ==> exists id :: Some(id) in keys && id.authorName == n
  {
    if keys == [] then []
    else
      var rest := AuthorList(keys[1..]);
      assert forall x :: x in keys <==> x == keys[0] || x in keys[1..];
      if keys[0].Some? then [keys[0].value.authorName] + rest else rest
  }

  /** The listed assets live in `R` and no object belongs to two of them. */
  ghost predicate Owned(xs: seq<Asset>, R: set<object>)
    reads R
  {
    (forall k :: 0 <= k < |xs| ==> Obj(xs[k]) in R && Footprint(xs[k]) <= R) &&
    Disjoint(Footprints(xs, R))
  }

  /** No object is in two of the sets. */
  ghost predicate Disjoint(fps: seq<set<object>>)
  {
    forall i, j :: 0 <= i < |fps| && 0 <= j < |fps| && i != j ==> fps[i] !! fps[j]
  }

  /** An asset whose objects lie outside `R` can join the owned assets. */
  lemma OwnedSnoc(xs: seq<Asset>, R: set<object>, a: Asset)
    requires Owned(xs, R) && Footprint(a) !! R
    ensures Owned(xs + [a], R + Footprint(a))
  {
    var fps, fp := Footprints(xs, R), Footprint(a);
    var ys, S := xs + [a], R + Footprint(a);
    forall k | 0 <= k < |ys| ensures Obj(ys[k]) in S && Footprint(ys[k]) <= S {
      if k < |xs| {
        assert ys[k] == xs[k];
      }
    }
    assert Footprints(ys, S) == fps + [fp];
  }

  lemma OwnedDistinct(xs: seq<Asset>, R: set<object>)
    requires Owned(xs, R)
    ensures NoDuplicates(xs)
  {
    var fps := Footprints(xs, R);
    forall i, j | 0 <= i < j < |xs| ensures xs[i] != xs[j] {
      assert Obj(xs[i]) in fps[i] && Obj(xs[j]) in fps[j];
    }
  }

  /** A duplicate-free selection from owned assets is owned. */
  lemma OwnedSelection(xs: seq<Asset>, ys: seq<Asset>, R: set<object>)
    requires Owned(xs, R) && NoDuplicates(ys)
    requires forall i :: 0 <= i < |ys| ==> ys[i] in xs
    ensures Owned(ys, R)
  {
    SelectionWithin(xs, ys, R);
    var fps, gps := Footprints(xs, R), Footprints(ys, R);
    forall i, j | 0 <= i < |ys| && 0 <= j < |ys| && i != j
      ensures gps[i] !! gps[j]
    {
      SelectionApart(xs, ys, R, fps, i, j);
    }
  }

  lemma SelectionWithin(xs: seq<Asset>, ys: seq<Asset>, R: set<object>)
    requires Owned(xs, R)
    requires forall i :: 0 <= i < |ys| ==> ys[i] in xs
    ensures forall k :: 0 <= k < |ys| ==> Obj(ys[k]) in R && Footprint(ys[k]) <= R
  {
    forall k | 0 <= k < |ys|
      ensures Obj(ys[k]) in R && Footprint(ys[k]) <= R
    {
      var a :| 0 <= a < |xs| && xs[a] == ys[k];
    }
  }

  lemma SelectionApart(xs: seq<Asset>, ys: seq<Asset>, R: set<object>, fps: seq<set<object>>, i: nat, j: nat)
    requires Owned(xs, R) && fps == Footprints(xs, R) && NoDuplicates(ys)
    requires i < |ys| && j < |ys| && i != j && ys[i] in xs && ys[j] in xs
    ensures Footprint(ys[i]) !! Footprint(ys[j])
  {
    var a :| 0 <= a < |xs| && xs[a] == ys[i];
    var b :| 0 <= b < |xs| && xs[b] == ys[j];
    assert fps[a] == Footprint(ys[i]) && fps[b] == Footprint(ys[j]);
  }

  /** The identifiers the assets carry. */
  function IdentifierSet(xs: seq<Asset>): set<Identifier>
    reads Objects(xs)
  {
    set k | 0 <= k < |xs| && IdOf(xs[k]).Some? :: IdOf(xs[k]).value
  }

  /** The identifiers the assets carry, gathered one asset at a time. */
  method IdentifiersOf(xs: seq<Asset>) returns (ids: set<Identifier>)
    ensures ids == IdentifierSet(xs)
  {
    ids := {};
    for i := 0 to |xs|
      invariant ids == set k | 0 <= k < i && IdOf(xs[k]).Some? :: IdOf(xs[k]).value
    {
      var id := IdOf(xs[i]);
      if id.Some? {
        ids := ids + {id.value};
      }
    }
  }

  /** The footprint of each asset, in order. */
  function Footprints(xs: seq<Asset>, ghost R: set<object>): (fps: seq<set<object>>)
    requires forall k :: 0 <= k < |xs| ==> Obj(xs[k]) in R
    reads R
    ensures |fps| == |xs|
    ensures forall k :: 0 <= k < |xs| ==> fps[k] == Footprint(xs[k])
  {
    if xs == [] then [] else [Footprint(xs[0])] + Footprints(xs[1..], R)
  }

  /** The state of each asset, in order. */
  function ValuesOf(xs: seq<Asset>, ghost R: set<object>): (vs: seq<AssetValue>)
    requires forall k :: 0 <= k < |xs| ==> Obj(xs[k]) in R && Footprint(xs[k]) <= R
    reads R
    ensures |vs| == |xs|
    ensures forall k :: 0 <= k < |xs| ==> vs[k] == Value(xs[k])
  {
    if xs == [] then [] else [Value(xs[0])] + ValuesOf(xs[1..], R)
  }

  /** One asset after the library's `RefactorIdentifier(from, to)`: renamed to `to` if it was
      `from`, then its own dependencies on `from` rewritten. */
  function Retargeted(v: AssetValue, from: Identifier, to: Identifier): (r: AssetValue)
    ensures ValueIdentifier(r) == if ValueIdentifier(v) == Some(from) then Some(to) else ValueIdentifier(v)
  {
    var renamed := if ValueIdentifier(v) == Some(from) then WithIdentifier(v, Some(to)) else v;
    Refactored(renamed, from, to).0
  }

  /** A retargeted asset depends on `to` in place of `from`, and on all else it depended on. */
  lemma RetargetedDependencies(v: AssetValue, from: Identifier, to: Identifier)
    ensures forall id :: id in Dependencies(Retargeted(v, from, to)) <==>
      (id in Dependencies(v) && id != from) || (id == to && from in Dependencies(v))
  {
    var renamed := if ValueIdentifier(v) == Some(from) then WithIdentifier(v, Some(to)) else v;
    RefactoredDependencies(renamed, from, to);
    assert Dependencies(renamed) == Dependencies(v);
  }

  /** What the loop of `RefactorIdentifier` appends to the pending changes for one asset: the
      asset once for its identifier and once for its dependencies. */
  function Recorded(a: Asset, v: AssetValue, from: Identifier, to: Identifier): (r: seq<Asset>)
    ensures forall i :: 0 <= i < |r| ==> r[i] == a
    ensures |r| == (if ValueIdentifier(v) == Some(from) then 1 else 0) + (if from in Dependencies(v) then 1 else 0)
  {
    (if ValueIdentifier(v) == Some(from) then [a] else []) + (if from in Dependencies(v) then [a] else [])
  }

  lemma RecordedNonEmpty(a: Asset, v: AssetValue, from: Identifier, to: Identifier)
    requires ValueIdentifier(v) == Some(from) || from in Dependencies(v)
    ensures |Recorded(a, v, from, to)| > 0 && Recorded(a, v, from, to)[0] == a
  {
  }

  /** Every asset after `RefactorIdentifier(from, to)`. */
  function RetargetAll(vs: seq<AssetValue>, from: Identifier, to: Identifier): (r: seq<AssetValue>)
    ensures |r| == |vs|
    ensures forall k :: 0 <= k < |vs| ==> r[k] == Retargeted(vs[k], from, to)
  {
    seq(|vs|, k requires 0 <= k < |vs| => Retargeted(vs[k], from, to))
  }

  /** After `RefactorIdentifier(from, to)` with distinct identifiers no asset is `from` or
      depends on it. */
  lemma RetargetAllClears(vs: seq<AssetValue>, from: Identifier, to: Identifier)
    requires from != to
    ensures forall k :: 0 <= k < |vs| ==>
      ValueIdentifier(RetargetAll(vs, from, to)[k]) != Some(from) && from !in Dependencies(RetargetAll(vs, from, to)[k])
  {
    forall k | 0 <= k < |vs|
      ensures from !in Dependencies(RetargetAll(vs, from, to)[k])
    {
      RetargetedDependencies(vs[k], from, to);
    }
  }

  /** Everything `RefactorIdentifier(from, to)` appends to the pending changes, in order. */
  function RecordAll(xs: seq<Asset>, vs: seq<AssetValue>, from: Identifier, to: Identifier): seq<Asset>
    requires |xs| == |vs|
  {
    if xs == [] then []
    else
      var n := |xs| - 1;
      RecordAll(xs[..n], vs[..n], from, to) + Recorded(xs[n], vs[n], from, to)
  }

  /** Only the assets themselves are recorded. */
  lemma {:induction false} RecordAllWithin(xs: seq<Asset>, vs: seq<AssetValue>, from: Identifier, to: Identifier)
    requires |xs| == |vs|
    ensures forall i :: 0 <= i < |RecordAll(xs, vs, from, to)| ==> RecordAll(xs, vs, from, to)[i] in xs
  {
    if xs != [] {
      var n := |xs| - 1;
      RecordAllWithin(xs[..n], vs[..n], from, to);
      var init := RecordAll(xs[..n], vs[..n], from, to);
      var last := Recorded(xs[n], vs[n], from, to);
      var r := init + last;
      forall i | 0 <= i < |r| ensures r[i] in xs {
        if i < |init| {
          assert r[i] == init[i] && init[i] in xs[..n];
        } else {
          assert r[i] == last[i - |init|] == xs[n];
        }
      }
    }
  }

  /** Every asset whose identifier is `from`, or that depends on `from`, is recorded. */
  lemma {:induction false} RecordAllIncludes(xs: seq<Asset>, vs: seq<AssetValue>, from: Identifier, to: Identifier, k: nat)
    requires |xs| == |vs| && k < |xs|
    requires ValueIdentifier(vs[k]) == Some(from) || from in Dependencies(vs[k])
    ensures xs[k] in RecordAll(xs, vs, from, to)
    decreases |xs|
  {
    var n := |xs| - 1;
    if k < n {
      var xs', vs' := xs[..n], vs[..n];
      assert xs'[k] == xs[k] && vs'[k] == vs[k];
      RecordAllIncludes(xs', vs', from, to, k);
      RecordAllGrows(xs, vs, from, to, xs'[k]);
    } else {
      RecordAllLast(xs, vs, from, to, k);
    }
  }

  lemma RecordAllGrows(xs: seq<Asset>, vs: seq<AssetValue>, from: Identifier, to: Identifier, a: Asset)
    requires |xs| == |vs| && |xs| > 0
    requires a in RecordAll(xs[..|xs| - 1], vs[..|xs| - 1], from, to)
    ensures a in RecordAll(xs, vs, from, to)
  {
  }

  lemma RecordAllLast(xs: seq<Asset>, vs: seq<AssetValue>, from: Identifier, to: Identifier, k: nat)
    requires |xs| == |vs| && k == |xs| - 1
    requires ValueIdentifier(vs[k]) == Some(from) || from in Dependencies(vs[k])
    ensures xs[k] in RecordAll(xs, vs, from, to)
  {
    RecordedNonEmpty(xs[k], vs[k], from, to);
  }

  lemma RecordedAs(a: Asset, v: AssetValue, from: Identifier, to: Identifier, renamed: bool, changed: bool)
    requires renamed <==> ValueIdentifier(v) == Some(from)
    requires changed <==> from in Dependencies(v)
    ensures Recorded(a, v, from, to) == (if renamed then [a] else []) + (if changed then [a] else [])
  {
  }

  lemma RecordAllSnoc(xs: seq<Asset>, vs: seq<AssetValue>, from: Identifier, to: Identifier, i: nat)
    requires |xs| == |vs| && i < |xs|
    ensures RecordAll(xs[..i + 1], vs[..i + 1], from, to) ==
      RecordAll(xs[..i], vs[..i], from, to) + Recorded(xs[i], vs[i], from, to)
  {
    assert xs[..i + 1][..i] == xs[..i] && vs[..i + 1][..i] == vs[..i];
  }

  /** The identifier changes the first loop of `RefactorAuthorName` collects: for each asset
      by `oldName`, its identifier before and after. */
  function RenamePairs(vs: seq<AssetValue>, oldName: string, newName: string): (r: seq<(Identifier, Identifier)>)
    ensures forall p :: p in r ==> p.0.authorName == oldName && p.1 == MutateAuthorName(p.0, newName)
    ensures forall k :: 0 <= k < |vs| && AuthorRenamed(vs[k], oldName, newName).1 ==>
      (ValueIdentifier(vs[k]).value, ValueIdentifier(AuthorRenamed(vs[k], oldName, newName).0).value) in r
  {
    if vs == [] then []
    else
      var n := |vs| - 1;
      var init := RenamePairs(vs[..n], oldName, newName);
      assert forall k :: 0 <= k < n ==> vs[k] == vs[..n][k];
      var (v', changed) := AuthorRenamed(vs[n], oldName, newName);
      if changed then init + [(ValueIdentifier(vs[n]).value, ValueIdentifier(v').value)] else init
  }

  /** Every asset after the first loop of `RefactorAuthorName`. */
  function RenameAll(vs: seq<AssetValue>, oldName: string, newName: string): (r: seq<AssetValue>)
    ensures |r| == |vs|
    ensures forall k :: 0 <= k < |vs| ==> r[k] == AuthorRenamed(vs[k], oldName, newName).0
  {
    if vs == [] then [] else [AuthorRenamed(vs[0], oldName, newName).0] + RenameAll(vs[1..], oldName, newName)
  }

  /** The assets the first loop of `RefactorAuthorName` records as changed, in order. */
  function RenamedAssets(xs: seq<Asset>, vs: seq<AssetValue>, oldName: string, newName: string): (r: seq<Asset>)
    requires |xs| == |vs|
    ensures forall i :: 0 <= i < |r| ==> r[i] in xs
    ensures forall k :: 0 <= k < |xs| && AuthorRenamed(vs[k], oldName, newName).1 ==> xs[k] in r
  {
    if xs == [] then []
    else
      var n := |xs| - 1;
      var init := RenamedAssets(xs[..n], vs[..n], oldName, newName);
      assert forall k :: 0 <= k < n ==> xs[k] == xs[..n][k] && vs[k] == vs[..n][k];
      if AuthorRenamed(vs[n], oldName, newName).1 then init + [xs[n]] else init
  }

  /** Extending the first loop of `RefactorAuthorName` by one asset. */
  lemma RenameSnoc(xs: seq<Asset>, vs: seq<AssetValue>, oldName: string, newName: string, i: nat)
    requires |xs| == |vs| && i < |xs|
    ensures RenamePairs(vs[..i + 1], oldName, newName) ==
      RenamePairs(vs[..i], oldName, newName) +
      (if AuthorRenamed(vs[i], oldName, newName).1
       then [(ValueIdentifier(vs[i]).value, ValueIdentifier(AuthorRenamed(vs[i], oldName, newName).0).value)]
       else [])
    ensures RenamedAssets(xs[..i + 1], vs[..i + 1], oldName, newName) ==
      RenamedAssets(xs[..i], vs[..i], oldName, newName) + (if AuthorRenamed(vs[i], oldName, newName).1 then [xs[i]] else [])
  {
    assert xs[..i + 1][..i] == xs[..i] && vs[..i + 1][..i] == vs[..i];
  }

  /** An identifier set to what it already is changes nothing. */
  lemma WithOwnIdentifier(v: AssetValue)
    ensures WithIdentifier(v, ValueIdentifier(v)) == v
  {
  }

  /** The assets after `RefactorIdentifier` has been called for each pair in turn. */
  function RetargetSeq(vs: seq<AssetValue>, pairs: seq<(Identifier, Identifier)>): (r: seq<AssetValue>)
    ensures |r| == |vs|
  {
    if pairs == [] then vs
    else
      var n := |pairs| - 1;
      RetargetAll(RetargetSeq(vs, pairs[..n]), pairs[n].0, pairs[n].1)
  }

  /** The pending changes those calls append, in order. */
  function RecordSeq(xs: seq<Asset>, vs: seq<AssetValue>, pairs: seq<(Identifier, Identifier)>): (r: seq<Asset>)
    requires |xs| == |vs|
  {
    if pairs == [] then []
    else
      var n := |pairs| - 1;
      RecordSeq(xs, vs, pairs[..n]) + RecordAll(xs, RetargetSeq(vs, pairs[..n]), pairs[n].0, pairs[n].1)
  }

  /** The defined identifiers after those calls. */
  function RedefineSeq(defined: set<Identifier>, pairs: seq<(Identifier, Identifier)>): set<Identifier>
  {
    if pairs == [] then defined
    else
      var n := |pairs| - 1;
      RedefineSeq(defined, pairs[..n]) - {pairs[n].0} + {pairs[n].1}
  }

  /** Extending the second loop of `RefactorAuthorName` by one pair. */
  lemma SeqStep(xs: seq<Asset>, vs: seq<AssetValue>, defined: set<Identifier>, pairs: seq<(Identifier, Identifier)>, j: nat)
    requires |xs| == |vs| && j < |pairs|
    ensures RetargetSeq(vs, pairs[..j + 1]) == RetargetAll(RetargetSeq(vs, pairs[..j]), pairs[j].0, pairs[j].1)
    ensures RecordSeq(xs, vs, pairs[..j + 1]) ==
      RecordSeq(xs, vs, pairs[..j]) + RecordAll(xs, RetargetSeq(vs, pairs[..j]), pairs[j].0, pairs[j].1)
    ensures RedefineSeq(defined, pairs[..j + 1]) == RedefineSeq(defined, pairs[..j]) - {pairs[j].0} + {pairs[j].1}
  {
    assert pairs[..j + 1][..j] == pairs[..j];
  }

  /** No asset's identifier is by `name`. */
  predicate NoneBy(vs: seq<AssetValue>, name: string)
  {
    forall k :: 0 <= k < |vs| ==> ValueIdentifier(vs[k]).None? || ValueIdentifier(vs[k]).value.authorName != name
  }

  lemma RetargetAllKeepsAuthorOut(vs: seq<AssetValue>, from: Identifier, to: Identifier, name: string)
    requires NoneBy(vs, name) && to.authorName != name
    ensures NoneBy(RetargetAll(vs, from, to), name)
  {
    var r := RetargetAll(vs, from, to);
    forall k | 0 <= k < |r|
      ensures ValueIdentifier(r[k]).None? || ValueIdentifier(r[k]).value.authorName != name
    {
      assert r[k] == Retargeted(vs[k], from, to);
    }
  }

  lemma {:induction false} RetargetSeqKeepsAuthorOut(vs: seq<AssetValue>, pairs: seq<(Identifier, Identifier)>,
                                                     oldName: string, newName: string)
    requires oldName != newName && NoneBy(vs, oldName)
    requires forall p :: p in pairs ==> p.1.authorName == newName
    ensures NoneBy(RetargetSeq(vs, pairs), oldName)
  {
    if pairs != [] {
      var n := |pairs| - 1;
      assert forall p :: p in pairs[..n] ==> p in pairs;
      RetargetSeqKeepsAuthorOut(vs, pairs[..n], oldName, newName);
      assert pairs[n] in pairs;
      RetargetAllKeepsAuthorOut(RetargetSeq(vs, pairs[..n]), pairs[n].0, pairs[n].1, oldName);
    }
  }

  /** No asset depends on the old identifier of any pair. */
  predicate NoDependencyOn(vs: seq<AssetValue>, pairs: seq<(Identifier, Identifier)>)
  {
    forall p, k :: p in pairs && 0 <= k < |vs| ==> p.0 !in Dependencies(vs[k])
  }

  /** One `RefactorIdentifier(from, to)` call clears the dependencies on `from` and adds none
      on an identifier by `oldName` when `to` is not by `oldName`. */
  lemma RetargetAllKeepsClear(vs: seq<AssetValue>, pairs: seq<(Identifier, Identifier)>,
                              from: Identifier, to: Identifier, oldName: string)
    requires NoDependencyOn(vs, pairs) && from.authorName == oldName && to.authorName != oldName
    requires forall p :: p in pairs ==> p.0.authorName == oldName
    ensures NoDependencyOn(RetargetAll(vs, from, to), pairs + [(from, to)])
  {
    var r := RetargetAll(vs, from, to);
    forall p, k | p in pairs + [(from, to)] && 0 <= k < |r|
      ensures p.0 !in Dependencies(r[k])
    {
      var id := p.0;
      assert id.authorName == oldName by {
        assert p in pairs || p == (from, to);
      }
      assert id != to;
      assert id != from ==> id !in Dependencies(vs[k]);
      assert r[k] == Retargeted(vs[k], from, to);
      RetargetedDependencies(vs[k], from, to);
    }
  }

  /** The second loop of `RefactorAuthorName` leaves no asset depending on an identifier it
      renamed away. */
  lemma {:induction false} RetargetSeqClears(vs: seq<AssetValue>, pairs: seq<(Identifier, Identifier)>,
                                             oldName: string, newName: string)
    requires oldName != newName
    requires forall p :: p in pairs ==> p.0.authorName == oldName && p.1.authorName == newName
    ensures NoDependencyOn(RetargetSeq(vs, pairs), pairs)
  {
    if pairs != [] {
      var n := |pairs| - 1;
      assert forall p :: p in pairs[..n] ==> p in pairs;
      RetargetSeqClears(vs, pairs[..n], oldName, newName);
      assert pairs[n] in pairs;
      RetargetAllKeepsClear(RetargetSeq(vs, pairs[..n]), pairs[..n], pairs[n].0, pairs[n].1, oldName);
      assert pairs[..n] + [(pairs[n].0, pairs[n].1)] == pairs;
    }
  }

  /** When every pair renames an identifier by `oldName` to one by `newName`, each new
      identifier ends up defined and each old one does not. */
  lemma {:induction false} RedefineSeqReplaces(defined: set<Identifier>, pairs: seq<(Identifier, Identifier)>,
                                               oldName: string, newName: string)
    requires oldName != newName
    requires forall p :: p in pairs ==> p.0.authorName == oldName && p.1.authorName == newName
    ensures forall p :: p in pairs ==> p.1 in RedefineSeq(defined, pairs) && p.0 !in RedefineSeq(defined, pairs)
  {
    if pairs != [] {
      var n := |pairs| - 1;
      assert forall p :: p in pairs[..n] ==> p in pairs;
      RedefineSeqReplaces(defined, pairs[..n], oldName, newName);
      assert pairs[n] in pairs;
      assert forall p :: p in pairs ==> p in pairs[..n] || p == pairs[n];
    }
  }

  /** `RefactorAuthorName(oldName, newName)` with `oldName != newName`: afterwards no asset is
      by `oldName`, every identifier the first loop renamed is replaced by its new form in
      the defined identifiers, and no asset depends on any identifier it renamed. */
  lemma AuthorNameRefactored(vs: seq<AssetValue>, defined: set<Identifier>, oldName: string, newName: string)
    requires oldName != newName
    ensures var pairs := RenamePairs(vs, oldName, newName);
      var r := RetargetSeq(RenameAll(vs, oldName, newName), pairs);
      (forall k :: 0 <= k < |r| ==> ValueIdentifier(r[k]).None? || ValueIdentifier(r[k]).value.authorName != oldName) &&
      (forall p :: p in pairs ==> p.1 in RedefineSeq(defined, pairs) && p.0 !in RedefineSeq(defined, pairs)) &&
      NoDependencyOn(r, pairs)
  {
    var pairs := RenamePairs(vs, oldName, newName);
    var renamed := RenameAll(vs, oldName, newName);
    forall k | 0 <= k < |renamed|
      ensures ValueIdentifier(renamed[k]).None? || ValueIdentifier(renamed[k]).value.authorName != oldName
    {
      assert renamed[k] == AuthorRenamed(vs[k], oldName, newName).0;
    }
    RetargetSeqKeepsAuthorOut(renamed, pairs, oldName, newName);
    RedefineSeqReplaces(defined, pairs, oldName, newName);
    RetargetSeqClears(renamed, pairs, oldName, newName);
  }

  /** The body of the loop of `RefactorIdentifier` on one asset: whether the asset was renamed
      and whether its dependencies changed, each of which records it once. */
  method RetargetAsset(a: Asset, from: Identifier, to: Identifier) returns (renamed: bool, changed: bool)
    modifies Footprint(a)
    ensures Footprint(a) == old(Footprint(a))
    ensures Value(a) == Retargeted(old(Value(a)), from, to)
    ensures renamed <==> ValueIdentifier(old(Value(a))) == Some(from)
    ensures changed <==> from in Dependencies(old(Value(a)))
  {
    renamed := IdOf(a) == Some(from);
    if renamed {
      Assets.SetIdentifier(a, Some(to));
    }
    changed := Assets.RefactorIdentifier(a, from, to);
  }

  /** `RetargetAsset` on the `i`th of owned assets, whose states are `vs`: the others keep
      their state. */
  method RetargetIn(xs: seq<Asset>, ghost R: set<object>, i: nat, from: Identifier, to: Identifier, ghost vs: seq<AssetValue>)
    returns (renamed: bool, changed: bool)
    requires Owned(xs, R) && i < |xs| && vs == ValuesOf(xs, R)
    modifies Footprint(xs[i])
    ensures Owned(xs, R)
    ensures Value(xs[i]) == Retargeted(vs[i], from, to)
    ensures forall k :: 0 <= k < |xs| && k != i ==> Value(xs[k]) == vs[k]
    ensures renamed <==> ValueIdentifier(vs[i]) == Some(from)
    ensures changed <==> from in Dependencies(vs[i])
  {
    ghost var fps := Footprints(xs, R);
    assert forall k :: 0 <= k < |xs| && k != i ==> fps[k] !! fps[i];
    renamed, changed := RetargetAsset(xs[i], from, to);
    forall k | 0 <= k < |xs| && k != i
      ensures Footprint(xs[k]) == fps[k] && Value(xs[k]) == vs[k]
    {
      assert Obj(xs[k]) in fps[k];
    }
    assert Footprints(xs, R) == fps;
  }

  /** The states of owned assets, given one by one. */
  lemma ValuesOfAre(xs: seq<Asset>, R: set<object>, vs: seq<AssetValue>)
    requires Owned(xs, R) && |vs| == |xs|
    requires forall k :: 0 <= k < |xs| ==> Value(xs[k]) == vs[k]
    ensures ValuesOf(xs, R) == vs
  {
  }

  /** `IAsset.RefactorAuthorName(from, to)` on an asset, within its footprint. */
  method RenameAsset(a: Asset, from: string, to: string) returns (changed: bool)
    modifies Footprint(a)
    ensures Footprint(a) == old(Footprint(a))
    ensures Value(a) == AuthorRenamed(old(Value(a)), from, to).0
    ensures changed == AuthorRenamed(old(Value(a)), from, to).1
  {
    changed := Assets.RefactorAuthorName(a, from, to);
  }

  /** A loop over owned assets has turned the first `i` of `before` into those of `target`
      and left the others as they were. */
  ghost predicate Reached(xs: seq<Asset>, R: set<object>, i: nat, before: seq<AssetValue>, target: seq<AssetValue>)
    reads R
  {
    Owned(xs, R) && i <= |xs| == |before| == |target| &&
    ValuesOf(xs, R) == target[..i] + before[i..]
  }

  lemma ReachedStart(xs: seq<Asset>, R: set<object>)
    requires Owned(xs, R)
    ensures Reached(xs, R, 0, ValuesOf(xs, R), ValuesOf(xs, R))
  {
    var vs := ValuesOf(xs, R);
    assert vs[..0] + vs[0..] == vs;
  }

  lemma ReachedEnd(xs: seq<Asset>, R: set<object>, before: seq<AssetValue>, target: seq<AssetValue>)
    requires Reached(xs, R, |xs|, before, target)
    ensures ValuesOf(xs, R) == target
    ensures xs[..|xs|] == xs && before[..|xs|] == before
  {
    assert target[..|xs|] + before[|xs|..] == target;
  }

  /** Replacing the `i`th value moves the boundary between done and not yet done by one. */
  lemma SpliceStep(before: seq<AssetValue>, target: seq<AssetValue>, i: nat)
    requires i < |before| == |target|
    ensures (target[..i] + before[i..])[i] == before[i]
    ensures (target[..i] + before[i..])[i := target[i]] == target[..i + 1] + before[i + 1..]
  {
  }

  /** The loop of `RefactorIdentifier` over the owned assets, returning what it records. */
  method RetargetLoop(xs: seq<Asset>, ghost R: set<object>, from: Identifier, to: Identifier) returns (recorded: seq<Asset>)
    requires Owned(xs, R)
    modifies R
    ensures Owned(xs, R)
    ensures ValuesOf(xs, R) == RetargetAll(old(ValuesOf(xs, R)), from, to)
    ensures recorded == RecordAll(xs, old(ValuesOf(xs, R)), from, to)
  {
    ghost var before := ValuesOf(xs, R);
    ghost var target := RetargetAll(before, from, to);
    ReachedStart(xs, R);
    recorded := [];
    for i := 0 to |xs|
      invariant Reached(xs, R, i, before, target)
      invariant recorded == RecordAll(xs[..i], before[..i], from, to)
    {
      var a := xs[i];
      var renamed, changed := RetargetStep(xs, R, i, from, to, before);
      RecordAllSnoc(xs, before, from, to, i);
      RecordedAs(a, before[i], from, to, renamed, changed);
      recorded := recorded + ((if renamed then [a] else []) + (if changed then [a] else []));
    }
    ReachedEnd(xs, R, before, target);
  }

  /** The first loop of `RefactorAuthorName` over the owned assets, returning the assets it
      records and the identifier changes it collects. */
  method RenameLoop(xs: seq<Asset>, ghost R: set<object>, oldName: string, newName: string)
    returns (renamedAssets: seq<Asset>, pairs: seq<(Identifier, Identifier)>)
    requires Owned(xs, R)
    modifies R
    ensures Owned(xs, R)
    ensures ValuesOf(xs, R) == RenameAll(old(ValuesOf(xs, R)), oldName, newName)
    ensures renamedAssets == RenamedAssets(xs, old(ValuesOf(xs, R)), oldName, newName)
    ensures pairs == RenamePairs(old(ValuesOf(xs, R)), oldName, newName)
  {
    ghost var before := ValuesOf(xs, R);
    ghost var target := RenameAll(before, oldName, newName);
    ReachedStart(xs, R);
    renamedAssets, pairs := [], [];
    for i := 0 to |xs|
      invariant Reached(xs, R, i, before, target)
      invariant renamedAssets == RenamedAssets(xs[..i], before[..i], oldName, newName)
      invariant pairs == RenamePairs(before[..i], oldName, newName)
    {
      renamedAssets, pairs := RenameStep(xs, R, i, oldName, newName, before, renamedAssets, pairs);
    }
    ReachedEnd(xs, R, before, target);
  }

  /** One turn of the loop of `RefactorIdentifier`: the asset at `i` is retargeted; whether
      it was renamed and whether its dependencies changed decide what the turn records. */
  method RetargetStep(xs: seq<Asset>, ghost R: set<object>, i: nat, from: Identifier, to: Identifier,
                      ghost before: seq<AssetValue>) returns (renamed: bool, changed: bool)
    requires i < |xs| && Reached(xs, R, i, before, RetargetAll(before, from, to))
    modifies Footprint(xs[i])
    ensures Reached(xs, R, i + 1, before, RetargetAll(before, from, to))
    ensures renamed <==> ValueIdentifier(before[i]) == Some(from)
    ensures changed <==> from in Dependencies(before[i])
  {
    ghost var target := RetargetAll(before, from, to);
    ghost var vs := target[..i] + before[i..];
    SpliceStep(before, target, i);
    renamed, changed := RetargetIn(xs, R, i, from, to, vs);
    ValuesOfAre(xs, R, vs[i := target[i]]);
  }

  /** One turn of the first loop of `RefactorAuthorName`: the asset at `i` moves to the new
      author and, if renamed, is recorded with its identifier before and after. */
  method RenameStep(xs: seq<Asset>, ghost R: set<object>, i: nat, oldName: string, newName: string,
                    ghost before: seq<AssetValue>, renamedAssets: seq<Asset>, pairs: seq<(Identifier, Identifier)>)
    returns (renamedAssets': seq<Asset>, pairs': seq<(Identifier, Identifier)>)
    requires i < |xs| && Reached(xs, R, i, before, RenameAll(before, oldName, newName))
    requires renamedAssets == RenamedAssets(xs[..i], before[..i], oldName, newName)
    requires pairs == RenamePairs(before[..i], oldName, newName)
    modifies Footprint(xs[i])
    ensures Reached(xs, R, i + 1, before, RenameAll(before, oldName, newName))
    ensures renamedAssets' == RenamedAssets(xs[..i + 1], before[..i + 1], oldName, newName)
    ensures pairs' == RenamePairs(before[..i + 1], oldName, newName)
  {
    var a := xs[i];
    RenameSnoc(xs, before, oldName, newName, i);
    ghost var target := RenameAll(before, oldName, newName);
    ghost var vs := target[..i] + before[i..];
    SpliceStep(before, target, i);
    var change := RenameAt(xs, R, i, oldName, newName, vs);
    ValuesOfAre(xs, R, vs[i := target[i]]);
    if change.Some? {
      renamedAssets', pairs' := renamedAssets + [a], pairs + [change.value];
    } else {
      renamedAssets', pairs' := renamedAssets, pairs;
    }
  }

  /** The body of the first loop of `RefactorAuthorName` on the asset at `i`, but for recording
      the change: an asset without identifier is skipped, and a renamed one yields its
      identifier before and after. The other assets keep their state. */
  method RenameAt(xs: seq<Asset>, ghost R: set<object>, i: nat, oldName: string, newName: string, ghost vs: seq<AssetValue>)
    returns (change: Option<(Identifier, Identifier)>)
    requires Owned(xs, R) && i < |xs| && vs == ValuesOf(xs, R)
    modifies Footprint(xs[i])
    ensures Owned(xs, R)
    ensures Value(xs[i]) == AuthorRenamed(vs[i], oldName, newName).0
    ensures forall k :: 0 <= k < |xs| && k != i ==> Value(xs[k]) == vs[k]
    ensures change.Some? <==> AuthorRenamed(vs[i], oldName, newName).1
    ensures change.Some? ==> ValueIdentifier(vs[i]).Some? && ValueIdentifier(Value(xs[i])).Some?
    ensures change.Some? ==> change.value == (ValueIdentifier(vs[i]).value, ValueIdentifier(Value(xs[i])).value)
  {
    var a := xs[i];
    if IdOf(a).None? {
      WithOwnIdentifier(Value(a));
      return None;
    }
    var oldIdentifier := IdOf(a).value;
    var changed := RenameIn(xs, R, i, oldName, newName, vs);
    change := if changed then Some((oldIdentifier, IdOf(a).value)) else None;
  }

  /** `RenameAsset` on the `i`th of owned assets, whose states are `vs`: the others keep
      their state. */
  method RenameIn(xs: seq<Asset>, ghost R: set<object>, i: nat, oldName: string, newName: string, ghost vs: seq<AssetValue>)
    returns (changed: bool)
    requires Owned(xs, R) && i < |xs| && vs == ValuesOf(xs, R)
    modifies Footprint(xs[i])
    ensures Owned(xs, R)
    ensures Value(xs[i]) == AuthorRenamed(vs[i], oldName, newName).0
    ensures changed == AuthorRenamed(vs[i], oldName, newName).1
    ensures forall k :: 0 <= k < |xs| && k != i ==> Value(xs[k]) == vs[k]
  {
    ghost var fps := Footprints(xs, R);
    assert forall k :: 0 <= k < |xs| && k != i ==> fps[k] !! fps[i];
    changed := RenameAsset(xs[i], oldName, newName);
    forall k | 0 <= k < |xs| && k != i
      ensures Footprint(xs[k]) == fps[k] && Value(xs[k]) == vs[k]
    {
      assert Obj(xs[k]) in fps[k];
    }
    assert Footprints(xs, R) == fps;
  }

  /** `AssetLibrary`. `Repr` holds the objects of the loaded assets; it exists only for the proofs. */
  class AssetLibrary {
    var authorName: string
    var assetsDirectory: Option<string>
    var definedIdentifiers: set<Identifier>
    var changesToSave: seq<Asset>
    var assets: seq<Asset>
    ghost var Repr: set<object>

    /** The loaded assets live in `Repr`, apart from the library itself, and share no object. */
    ghost predicate Valid()
      reads this, Repr
    {
      this !in Repr && Owned(assets, Repr)
    }

    /** `AssetLibrary(assetsDirectory)`. */
    constructor (assetsDirectory: string)
      ensures Valid() && fresh(this)
      ensures this.assetsDirectory == Some(assetsDirectory)
      ensures assets == [] && changesToSave == [] && definedIdentifiers == {}
    {
      this.authorName := "";
      this.assetsDirectory := Some(assetsDirectory);
      definedIdentifiers := {};
      changesToSave := [];
      assets := [];
      Repr := {};
    }

    /** The state of every loaded asset, in order. */
    function Values(): (vs: seq<AssetValue>)
      requires Valid()
      reads this, Repr
      ensures |vs| == |assets|
      ensures forall k :: 0 <= k < |assets| ==> vs[k] == Value(assets[k])
    {
      ValuesOf(assets, Repr)
    }

    /** `Changes`: one entry per identifier, the first recorded, in the order recorded. */
    function Changes(): (r: seq<Asset>)
      reads this, Objects(changesToSave)
      ensures forall i :: 0 <= i < |r| ==> r[i] in changesToSave
      ensures KeysOf(r) == Distinct(KeysOf(changesToSave))
      ensures forall i :: 0 <= i < |r| ==>
        (IdOf(r[i]) in KeysOf(changesToSave) && r[i] == changesToSave[FirstIndex(KeysOf(changesToSave), IdOf(r[i]))])
    {
      var keys := KeysOf(changesToSave);
      var (r, rKeys) := FirstPerKey(changesToSave, keys, {});
      forall i | 0 <= i < |r| ensures r[i] in changesToSave && IdOf(r[i]) == rKeys[i] {
        var k := FirstIndex(keys, rKeys[i]);
        assert r[i] == changesToSave[k];
      }
      assert KeysOf(r) == rKeys;
      r
    }

    /** `ExistingAuthorNames`. */
    function ExistingAuthorNames(): (names: seq<string>)
      reads this, Objects(assets)
      ensures NoDuplicates(names)
      ensures forall k :: 0 <= k < |assets| && IdOf(assets[k]).Some? ==> IdOf(assets[k]).value.authorName in names
      ensures forall i :: 0 <= i < |names| ==> exists id :: Some(id) in KeysOf(assets) && id.authorName == names[i]
    {
      var keys := KeysOf(assets);
      var names := Authors(keys);
      assert forall k :: 0 <= k < |assets| ==> keys[k] in keys;
      names
    }

    /** `GetAssetsThatDependOn`: nothing for an asset without identifier, otherwise exactly the
        loaded assets that depend on its identifier, in order. */
    function GetAssetsThatDependOn(asset: Asset): (r: seq<Asset>)
      requires Valid()
      reads this, Repr, Obj(asset)
      ensures IdOf(asset).None? ==> r == []
      ensures forall i :: 0 <= i < |r| ==> r[i] in assets
      ensures IdOf(asset).Some? ==> forall k :: 0 <= k < |assets| ==>
        (assets[k] in r <==> IdOf(asset).value in Dependencies(Value(assets[k])))
      ensures IdOf(asset).Some? ==> (NoDuplicates(assets) && |DependencyLists(Values())| == |assets| &&
        r == DependingOn(assets, DependencyLists(Values()), IdOf(asset).value))
    {
      OwnedDistinct(assets, Repr);
      match IdOf(asset)
      case None => []
      case Some(id) => DependingOn(assets, DependencyLists(Values()), id)
    }

    /** `ResolveMaterials`. */
    function ResolveMaterials(ids: seq<Identifier>): (r: seq<Asset>)
      reads this, Objects(assets)
      ensures forall i :: 0 <= i < |r| ==> r[i] in assets && r[i].MaterialAsset? && IdOf(r[i]).Some? && IdOf(r[i]).value in ids
      ensures forall j :: 0 <= j < |ids| && FindMaterial(assets, ids[j]).Some? ==> FindMaterial(assets, ids[j]).value in r
      ensures r == ResolveAll(assets, ids)
    {
      ResolveAll(assets, ids)
    }

    /** `HasIdentifier`. */
    function HasIdentifier(id: Identifier): (b: bool)
      reads this
      ensures b <==> id in definedIdentifiers
    {
      id in definedIdentifiers
    }

    /** `SetAssetsDirectory`; `None` stands for a null directory. */
    method SetAssetsDirectory(newDirectory: Option<string>)
      modifies this
      ensures assetsDirectory == newDirectory
      ensures assets == old(assets) && changesToSave == old(changesToSave) && definedIdentifiers == old(definedIdentifiers)
      ensures authorName == old(authorName) && Repr == old(Repr)
    {
      assetsDirectory := newDirectory;
    }

    /** `AddAsset`: an asset with an identifier is appended to the assets and the changes and its
        identifier defined; one without is refused and nothing changes. */
    method AddAsset(asset: Asset) returns (r: Result<()>)
      requires Valid()
      requires Footprint(asset) !! Repr && this !in Footprint(asset)
      modifies this
      ensures Valid()
      ensures r.Ok? <==> old(IdOf(asset)).Some?
      ensures r.Ok? ==> assets == old(assets) + [asset] && changesToSave == old(changesToSave) + [asset]
      ensures r.Ok? ==> definedIdentifiers == old(definedIdentifiers) + {old(IdOf(asset)).value}
      ensures r.Ok? ==> HasIdentifier(old(IdOf(asset)).value)
      ensures r.Ok? ==> Repr == old(Repr) + Footprint(asset)
      ensures r.Err? ==> r.error == InvalidAssetMessage
      ensures r.Err? ==> assets == old(assets) && changesToSave == old(changesToSave)
      ensures r.Err? ==> definedIdentifiers == old(definedIdentifiers) && Repr == old(Repr)
      ensures Values() == old(Values()) + if r.Ok? then [Value(asset)] else []
      ensures authorName == old(authorName) && assetsDirectory == old(assetsDirectory)
    {
      var id := IdOf(asset);
      if id.Some? {
        Append(asset, id.value);
        return Ok(());
      }
      return Err(InvalidAssetMessage);
    }

    /** The successful path of `AddAsset`. */
    method Append(asset: Asset, id: Identifier)
      requires Valid()
      requires Footprint(asset) !! Repr && this !in Footprint(asset)
      modifies this
      ensures Valid()
      ensures assets == old(assets) + [asset] && changesToSave == old(changesToSave) + [asset]
      ensures definedIdentifiers == old(definedIdentifiers) + {id} && Repr == old(Repr) + Footprint(asset)
      ensures Values() == old(Values()) + [Value(asset)]
      ensures authorName == old(authorName) && assetsDirectory == old(assetsDirectory)
    {
      ghost var before := Values();
      OwnedSnoc(assets, Repr, asset);
      assets := assets + [asset];
      definedIdentifiers := definedIdentifiers + {id};
      changesToSave := changesToSave + [asset];
      Repr := Repr + Footprint(asset);
      ValuesOfAre(assets, Repr, before + [Value(asset)]);
    }

    /** `AssetChanged`: records one more pending change. */
    method AssetChanged(asset: Asset)
      requires Valid()
      modifies this
      ensures Valid()
      ensures changesToSave == old(changesToSave) + [asset]
      ensures assets == old(assets) && definedIdentifiers == old(definedIdentifiers) && Repr == old(Repr)
      ensures authorName == old(authorName) && assetsDirectory == old(assetsDirectory)
    {
      changesToSave := changesToSave + [asset];
      assert unchanged(Repr);
    }

    /** `ClearChanges`: forgets the pending changes and nothing else. */
    method ClearChanges()
      requires Valid()
      modifies this
      ensures Valid()
      ensures changesToSave == [] && Changes() == []
      ensures assets == old(assets) && definedIdentifiers == old(definedIdentifiers) && Repr == old(Repr)
      ensures authorName == old(authorName) && assetsDirectory == old(assetsDirectory)
    {
      changesToSave := [];
      assert unchanged(Repr);
    }

    /** `ClearAssets`: forgets the assets and their identifiers, but not the pending changes. */
    method ClearAssets()
      requires Valid()
      modifies this
      ensures Valid()
      ensures assets == [] && definedIdentifiers == {}
      ensures changesToSave == old(changesToSave) && Repr == old(Repr)
      ensures authorName == old(authorName) && assetsDirectory == old(assetsDirectory)
    {
      assets := [];
      definedIdentifiers := {};
      assert unchanged(Repr);
    }

    /** `RemoveByIdentifier`: drops the pending changes with that identifier and undefines it;
        then, when no loaded asset has it, fails (`First` throws) with the assets untouched,
        and otherwise drops every asset that has it, keeping the others in order (`Without`). */
    method RemoveByIdentifier(id: Identifier) returns (r: Result<()>)
      requires Valid()
      modifies this
      ensures Valid() && Repr == old(Repr)
      ensures changesToSave == old(Without(changesToSave, id))
      ensures definedIdentifiers == old(definedIdentifiers) - {id}
      ensures r.Err? <==> Some(id) !in old(KeysOf(assets))
      ensures r.Err? ==> assets == old(assets)
      ensures r.Ok? ==> assets == old(Without(assets, id))
      ensures authorName == old(authorName) && assetsDirectory == old(assetsDirectory)
    {
      var keptChanges := Without(changesToSave, id);
      var keys := KeysOf(assets);
      var remaining := Without(assets, id);
      OwnedDistinct(assets, Repr);
      if Some(id) !in keys {
        Store(keptChanges, definedIdentifiers - {id}, assets);
        return Err("Sequence contains no matching element");
      }
      Store(keptChanges, definedIdentifiers - {id}, remaining);
      return Ok(());
    }

    /** Replaces the pending changes, the defined identifiers and the assets, the new
        assets being a duplicate-free selection of the current ones. */
    method Store(changes: seq<Asset>, defined: set<Identifier>, kept: seq<Asset>)
      requires Valid()
      requires NoDuplicates(kept) && forall i :: 0 <= i < |kept| ==> kept[i] in assets
      modifies this
      ensures Valid() && Repr == old(Repr)
      ensures changesToSave == changes && definedIdentifiers == defined && assets == kept
      ensures authorName == old(authorName) && assetsDirectory == old(assetsDirectory)
    {
      OwnedSelection(assets, kept, Repr);
      changesToSave := changes;
      definedIdentifiers := defined;
      assets := kept;
      assert unchanged(Repr);
    }

    /** `RemoveAsset`: removes by the asset's identifier; an asset without one is refused. */
    method RemoveAsset(assetToRemove: Asset) returns (r: Result<()>)
      requires Valid()
      modifies this
      ensures Valid() && Repr == old(Repr)
      ensures old(IdOf(assetToRemove)).None? ==> r == Err("Error: Cannot remove asset; has no identifier.")
      ensures old(IdOf(assetToRemove)).None? ==>
        assets == old(assets) && changesToSave == old(changesToSave) && definedIdentifiers == old(definedIdentifiers)
      ensures old(IdOf(assetToRemove)).Some? ==>
        definedIdentifiers == old(definedIdentifiers) - {old(IdOf(assetToRemove)).value}
      ensures old(IdOf(assetToRemove)).Some? ==> !HasIdentifier(old(IdOf(assetToRemove)).value)
      ensures old(IdOf(assetToRemove)).Some? ==>
        changesToSave == old(Without(changesToSave, IdOf(assetToRemove).value))
      ensures old(IdOf(assetToRemove)).Some? ==>
        (r.Err? <==> Some(old(IdOf(assetToRemove)).value) !in old(KeysOf(assets)))
      ensures old(IdOf(assetToRemove)).Some? && r.Err? ==> assets == old(assets)
      ensures old(IdOf(assetToRemove)).Some? && r.Ok? ==> assets == old(Without(assets, IdOf(assetToRemove).value))
      ensures authorName == old(authorName) && assetsDirectory == old(assetsDirectory)
    {
      var id := IdOf(assetToRemove);
      if id.None? {
        return Err("Error: Cannot remove asset; has no identifier.");
      }
      r := RemoveByIdentifier(id.value);
    }

    /** `RefactorIdentifier(from, to)`: `from` is undefined and `to` defined; every asset is
        renamed to `to` if it was `from` and has its dependencies on `from` rewritten, and the
        pending changes record each asset once per kind of change, in order. */
    method RefactorIdentifier(from: Identifier, to: Identifier)
      requires Valid()
      modifies this, Repr
      ensures Valid() && Repr == old(Repr) && assets == old(assets)
      ensures definedIdentifiers == old(definedIdentifiers) - {from} + {to}
      ensures Values() == RetargetAll(old(Values()), from, to)
      ensures changesToSave == old(changesToSave) + RecordAll(assets, old(Values()), from, to)
      ensures authorName == old(authorName) && assetsDirectory == old(assetsDirectory)
    {
      var recorded := RetargetLoop(assets, Repr, from, to);
      Note(definedIdentifiers - {from} + {to}, changesToSave + recorded);
    }

    /** `RefactorAuthorName(oldName, newName)`: every asset by `oldName` moves to `newName` and is
        recorded as changed; then `RefactorIdentifier` is applied to each renamed identifier,
        in order. With distinct names no asset is left by `oldName` (`AuthorNameRefactored`). */
    method RefactorAuthorName(oldName: string, newName: string)
      requires Valid()
      modifies this, Repr
      ensures Valid() && Repr == old(Repr) && assets == old(assets)
      ensures Values() == RetargetSeq(RenameAll(old(Values()), oldName, newName), RenamePairs(old(Values()), oldName, newName))
      ensures changesToSave == old(changesToSave) + RenamedAssets(assets, old(Values()), oldName, newName) +
        RecordSeq(assets, RenameAll(old(Values()), oldName, newName), RenamePairs(old(Values()), oldName, newName))
      ensures definedIdentifiers == RedefineSeq(old(definedIdentifiers), RenamePairs(old(Values()), oldName, newName))
      ensures oldName != newName ==> NoneBy(Values(), oldName)
      ensures oldName != newName ==> NoDependencyOn(Values(), RenamePairs(old(Values()), oldName, newName))
      ensures authorName == old(authorName) && assetsDirectory == old(assetsDirectory)
    {
      ghost var before := Values();
      var renamedAssets, pairs := RenameLoop(assets, Repr, oldName, newName);
      Note(definedIdentifiers, changesToSave + renamedAssets);
      ApplyRenames(pairs);
      if oldName != newName {
        AuthorNameRefactored(before, old(definedIdentifiers), oldName, newName);
      }
    }

    /** The second loop of `RefactorAuthorName`: `RefactorIdentifier` for each pair, in order. */
    method ApplyRenames(pairs: seq<(Identifier, Identifier)>)
      requires Valid()
      modifies this, Repr
      ensures Valid() && Repr == old(Repr) && assets == old(assets)
      ensures Values() == RetargetSeq(old(Values()), pairs)
      ensures changesToSave == old(changesToSave) + RecordSeq(assets, old(Values()), pairs)
      ensures definedIdentifiers == RedefineSeq(old(definedIdentifiers), pairs)
      ensures authorName == old(authorName) && assetsDirectory == old(assetsDirectory)
    {
      ghost var before := Values();
      for j := 0 to |pairs|
        invariant Valid() && Repr == old(Repr) && assets == old(assets)
        invariant authorName == old(authorName) && assetsDirectory == old(assetsDirectory)
        invariant Values() == RetargetSeq(before, pairs[..j])
        invariant changesToSave == old(changesToSave) + RecordSeq(assets, before, pairs[..j])
        invariant definedIdentifiers == RedefineSeq(old(definedIdentifiers), pairs[..j])
      {
        ApplyRename(pairs, j, before, old(changesToSave), old(definedIdentifiers));
      }
      assert pairs[..|pairs|] == pairs;
    }

    /** One turn of that loop. */
    method ApplyRename(pairs: seq<(Identifier, Identifier)>, j: nat, ghost before: seq<AssetValue>,
                       ghost changes0: seq<Asset>, ghost defined0: set<Identifier>)
      requires Valid() && j < |pairs| && |before| == |assets|
      requires Values() == RetargetSeq(before, pairs[..j])
      requires changesToSave == changes0 + RecordSeq(assets, before, pairs[..j])
      requires definedIdentifiers == RedefineSeq(defined0, pairs[..j])
      modifies this, Repr
      ensures Valid() && Repr == old(Repr) && assets == old(assets)
      ensures authorName == old(authorName) && assetsDirectory == old(assetsDirectory)
      ensures Values() == RetargetSeq(before, pairs[..j + 1])
      ensures changesToSave == changes0 + RecordSeq(assets, before, pairs[..j + 1])
      ensures definedIdentifiers == RedefineSeq(defined0, pairs[..j + 1])
    {
      SeqStep(assets, before, defined0, pairs, j);
      AppendAssoc(changes0, RecordSeq(assets, before, pairs[..j]),
                  RecordAll(assets, RetargetSeq(before, pairs[..j]), pairs[j].0, pairs[j].1));
      RefactorIdentifier(pairs[j].0, pairs[j].1);
    }

    /** Replaces the defined identifiers and the pending changes; the assets keep their state. */
    method Note(defined: set<Identifier>, changes: seq<Asset>)
      requires Valid()
      modifies this
      ensures Valid() && Repr == old(Repr) && assets == old(assets) && Values() == old(Values())
      ensures definedIdentifiers == defined && changesToSave == changes
      ensures authorName == old(authorName) && assetsDirectory == old(assetsDirectory)
    {
      definedIdentifiers := defined;
      changesToSave := changes;
      assert unchanged(Repr);
    }

    /** The loop of `Load` that registers the identifier of every loaded asset. */
    method RegisterIdentifiers()
      requires Valid()
      modifies this
      ensures Valid()
      ensures definedIdentifiers == old(definedIdentifiers + IdentifierSet(assets))
      ensures assets == old(assets) && changesToSave == old(changesToSave) && Repr == old(Repr)
      ensures authorName == old(authorName) && assetsDirectory == old(assetsDirectory)
    {
      var ids := IdentifiersOf(assets);
      Note(definedIdentifiers + ids, changesToSave);
    }
  }
}
