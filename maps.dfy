/** Map.cs: a playable map, made of map blocks. */
module Maps {
  import opened Wrappers
  import opened Strings
  import opened Linq
  import opened Json
  import opened Identifiers
  import opened AssetUtils
  import MapBlocks

  /** `MapInfo`; a C# `null` name or description is `None`. The workshop metadata is not modelled. */
  datatype MapInfo = MapInfo(name: Option<string>, description: Option<string>, deathPlaneY: real)

  /** The state of a `Map` as a value. */
  datatype MapValue = MapValue(identifier: Option<Identifier>, info: MapInfo, blocks: seq<MapBlocks.MapBlock>,
                               jsonFilePath: string)

  /** `string.IsNullOrWhiteSpace` on a nullable string. */
  predicate Blank(s: Option<string>)
  {
    s.None? || IsNullOrWhiteSpace(s.value)
  }

  /** `IsFilledOut`: a valid identifier, a name and a description (the NaN and infinity tests
      on the death plane have no counterpart on reals). */
  function IsFilledOut(v: MapValue): (b: bool)
    ensures b ==> v.identifier.Some? && v.identifier.value.authorName != [] && v.identifier.value.assetName != []
    ensures b ==> v.info.name.Some? && v.info.name.value != [] && v.info.description.Some? && v.info.description.value != []
    ensures b <==> (v.identifier.Some? && IsValid(v.identifier.value) &&
      Serialize(v)[1].1.fields[0].1.JString? && !IsNullOrWhiteSpace(Serialize(v)[1].1.fields[0].1.s) &&
      Serialize(v)[1].1.fields[1].1.JString? && !IsNullOrWhiteSpace(Serialize(v)[1].1.fields[1].1.s))
  {
    v.identifier.Some? && IsValid(v.identifier.value) && !Blank(v.info.name) && !Blank(v.info.description)
  }

  /** `blocks.SelectMany(block => block.GetAllDependedAssets)`. */
  function BlockDependencies(blocks: seq<MapBlocks.MapBlock>): (deps: seq<Identifier>)
    ensures forall id :: id in deps <==> exists k :: 0 <= k < |blocks| && id in MapBlocks.DependedAssets(blocks[k])
  {
    if blocks == [] then []
    else
      var rest := BlockDependencies(blocks[1..]);
      assert forall k :: 1 <= k < |blocks| ==> blocks[k] == blocks[1..][k - 1];
      MapBlocks.DependedAssets(blocks[0]) + rest
  }

  /** `GetAllDependedAssets`: every identifier some block depends on, once each. */
  function DependedAssets(v: MapValue): (deps: seq<Identifier>)
    ensures NoDuplicates(deps)
    ensures forall id :: id in deps <==> id in BlockDependencies(v.blocks)
  {
    var all := BlockDependencies(v.blocks);
    var deps := Distinct(all);
    forall id ensures id in deps <==> id in all {
      if id in deps {
        var k :| 0 <= k < |deps| && deps[k] == id;
      }
      if id in all {
        var k :| 0 <= k < |all| && all[k] == id;
      }
    }
    deps
  }

  /** The blocks after each has had its `RefactorIdentifier(from, to)` called, in order, and
      whether any call reported a change (`|`, so no call is skipped). */
  function RefactorBlocks(blocks: seq<MapBlocks.MapBlock>, from: Identifier, to: Identifier)
    : (r: (seq<MapBlocks.MapBlock>, bool))
    ensures |r.0| == |blocks|
    ensures forall k :: 0 <= k < |blocks| ==> r.0[k] == MapBlocks.RefactorIdentifier(blocks[k], from, to).0
    ensures r.1 <==> exists k :: 0 <= k < |blocks| && from in MapBlocks.DependedAssets(blocks[k])
  {
    if blocks == [] then ([], false)
    else
      var (init, changedBefore) := RefactorBlocks(blocks[..|blocks| - 1], from, to);
      var (last, changedLast) := MapBlocks.RefactorIdentifier(blocks[|blocks| - 1], from, to);
      (init + [last], changedBefore || changedLast)
  }

  /** After `RefactorIdentifier(from, to)` the map depends on `to` in place of `from`, and on
      everything else it depended on before. */
  lemma RefactorRewritesDependencies(blocks: seq<MapBlocks.MapBlock>, from: Identifier, to: Identifier)
    ensures forall id :: id in BlockDependencies(RefactorBlocks(blocks, from, to).0) <==>
      (id in BlockDependencies(blocks) && id != from) || (id == to && from in BlockDependencies(blocks))
  {
    var after := RefactorBlocks(blocks, from, to).0;
    forall k | 0 <= k < |blocks|
      ensures MapBlocks.DependedAssets(after[k]) == Replace(MapBlocks.DependedAssets(blocks[k]), from, to)
    {
      MapBlocks.RefactorRewritesDependencies(blocks[k], from, to);
    }
    forall id
      ensures id in BlockDependencies(after) <==>
        (id in BlockDependencies(blocks) && id != from) || (id == to && from in BlockDependencies(blocks))
    {
      DependencyRewritten(blocks, after, from, to, id);
    }
  }

  /** One identifier of `RefactorRewritesDependencies`, for blocks whose dependencies have
      each been rewritten. */
  lemma DependencyRewritten(blocks: seq<MapBlocks.MapBlock>, after: seq<MapBlocks.MapBlock>,
                            from: Identifier, to: Identifier, id: Identifier)
    requires |after| == |blocks|
    requires forall k :: 0 <= k < |blocks| ==>
      MapBlocks.DependedAssets(after[k]) == Replace(MapBlocks.DependedAssets(blocks[k]), from, to)
    ensures id in BlockDependencies(after) <==>
      (id in BlockDependencies(blocks) && id != from) || (id == to && from in BlockDependencies(blocks))
  {
    if id in BlockDependencies(after) {
      var k :| 0 <= k < |after| && id in MapBlocks.DependedAssets(after[k]);
      ReplaceMembership(MapBlocks.DependedAssets(blocks[k]), from, to, id);
    }
    if id in BlockDependencies(blocks) && id != from {
      var k :| 0 <= k < |blocks| && id in MapBlocks.DependedAssets(blocks[k]);
      ReplaceMembership(MapBlocks.DependedAssets(blocks[k]), from, to, id);
    }
    if id == to && from in BlockDependencies(blocks) {
      var k :| 0 <= k < |blocks| && from in MapBlocks.DependedAssets(blocks[k]);
      ReplaceMembership(MapBlocks.DependedAssets(blocks[k]), from, to, id);
    }
  }

  /** The same, for the map as a whole: `RefactorIdentifier` reports a change exactly when the
      map depended on `from`. */
  lemma RefactorMapDependencies(v: MapValue, from: Identifier, to: Identifier)
    ensures var deps := DependedAssets(v);
      var r := RefactorBlocks(v.blocks, from, to);
      (r.1 <==> from in deps) &&
      forall id :: id in DependedAssets(v.(blocks := r.0)) <==> (id in deps && id != from) || (id == to && from in deps)
  {
    var blockDeps := BlockDependencies(v.blocks);
    var r := RefactorBlocks(v.blocks, from, to);
    RefactorRewritesDependencies(v.blocks, from, to);
    assert r.1 <==> from in blockDeps by {
      if r.1 {
        var k :| 0 <= k < |v.blocks| && from in MapBlocks.DependedAssets(v.blocks[k]);
      }
      if from in blockDeps {
        var k :| 0 <= k < |v.blocks| && from in MapBlocks.DependedAssets(v.blocks[k]);
      }
    }
    var after := BlockDependencies(r.0);
    var deps, deps' := DependedAssets(v), DependedAssets(v.(blocks := r.0));
    assert from in deps <==> from in blockDeps;
    forall id
      ensures id in deps' <==> (id in deps && id != from) || (id == to && from in deps)
    {
      assert id in deps' <==> id in after;
      assert id in deps <==> id in blockDeps;
      assert id in after <==> (id in blockDeps && id != from) || (id == to && from in blockDeps);
    }
  }

  /** `from token in json where token.Type == JTokenType.Object`: the object entries, in order. */
  function ObjectEntries(items: seq<Json>): (objs: seq<seq<(string, Json)>>)
    ensures |objs| <= |items|
    ensures forall k :: 0 <= k < |objs| ==> JObject(objs[k]) in items
    ensures forall k :: 0 <= k < |items| && items[k].JObject? ==> items[k].fields in objs
  {
    if items == [] then []
    else
      var rest := ObjectEntries(items[1..]);
      assert forall k :: 1 <= k < |items| ==> items[k] == items[1..][k - 1];
      if items[0].JObject? then [items[0].fields] + rest else rest
  }

  /** The filter keeps the original order: it distributes over concatenation. */
  lemma {:induction false} ObjectEntriesAppend(a: seq<Json>, b: seq<Json>)
    ensures ObjectEntries(a + b) == ObjectEntries(a) + ObjectEntries(b)
  {
    if a != [] {
      assert (a + b)[0] == a[0];
      assert (a + b)[1..] == a[1..] + b;
      ObjectEntriesAppend(a[1..], b);
    } else {
      assert a + b == b;
    }
  }

  /** `select MapBlockConverter.ReadJson(...)` then `ToArray()`: the first failure aborts. */
  function ReadBlocks(objs: seq<seq<(string, Json)>>): (r: Result<seq<MapBlocks.MapBlock>>)
    ensures r.Ok? <==> forall k :: 0 <= k < |objs| ==> MapBlocks.ReadJson(objs[k]).Ok?
    ensures r.Ok? ==> |r.value| == |objs| && forall k :: 0 <= k < |objs| ==> MapBlocks.ReadJson(objs[k]) == Ok(r.value[k])
  {
    if objs == [] then Ok([])
    else
      match MapBlocks.ReadJson(objs[0])
      case Err(e) => Err(e)
      case Ok(b) =>
        var rest := ReadBlocks(objs[1..]);
        assert forall k :: 1 <= k < |objs| ==> objs[k] == objs[1..][k - 1];
        if rest.Err? then Err(rest.error) else Ok([b] + rest.value)
  }

  /** Each block as its serialized object. */
  function SerializeBlocks(blocks: seq<MapBlocks.MapBlock>): (items: seq<Json>)
    ensures |items| == |blocks|
    ensures forall k :: 0 <= k < |blocks| ==> items[k] == JObject(MapBlocks.Serialize(blocks[k]))
  {
    if blocks == [] then [] else [JObject(MapBlocks.Serialize(blocks[0]))] + SerializeBlocks(blocks[1..])
  }

  /** `Serialize`: the identifier (the default one when unset), the map info, then the blocks
      in order, one object each. */
  function Serialize(v: MapValue): (j: seq<(string, Json)>)
    ensures Keys(j) == ["identifier", "map", "blocks"]
    ensures j[2].1 == JArray(SerializeBlocks(v.blocks))
    ensures j[1].1.JObject? && Keys(j[1].1.fields) == ["name", "description", "death_plane"]
    ensures j[1].1.fields[0].1 == NullableString(v.info.name) && j[1].1.fields[1].1 == NullableString(v.info.description)
    ensures j[1].1.fields[2].1 == JNumber(v.info.deathPlaneY)
    ensures j[0].1.JString? && (v.identifier.Some? && WellFormed(v.identifier.value) ==> TryParse(j[0].1.s) == v.identifier)
  {
    var id := if v.identifier.Some? then v.identifier.value else DefaultIdentifier;
    assert v.identifier.Some? && WellFormed(id) ==> TryParse(ToString(id)) == Some(id) by {
      if v.identifier.Some? && WellFormed(id) { ParseToString(id); }
    }
    [("identifier", JString(ToString(id))),
     ("map", JObject([("name", NullableString(v.info.name)),
                      ("description", NullableString(v.info.description)),
                      ("death_plane", JNumber(v.info.deathPlaneY))])),
     ("blocks", JArray(SerializeBlocks(v.blocks)))]
  }

  /** The object entries of the written `blocks` array are the serialized blocks, in order. */
  lemma {:induction false} ObjectEntriesOfSerialized(blocks: seq<MapBlocks.MapBlock>)
    ensures var objs := ObjectEntries(SerializeBlocks(blocks));
      |objs| == |blocks| && forall k :: 0 <= k < |blocks| ==> objs[k] == MapBlocks.Serialize(blocks[k])
  {
    if blocks != [] {
      ObjectEntriesOfSerialized(blocks[1..]);
      var items := SerializeBlocks(blocks);
      assert items[1..] == SerializeBlocks(blocks[1..]);
      var objs := ObjectEntries(items);
      assert objs == [MapBlocks.Serialize(blocks[0])] + ObjectEntries(items[1..]);
      forall k | 1 <= k < |blocks|
        ensures objs[k] == MapBlocks.Serialize(blocks[k])
      {
        assert blocks[k] == blocks[1..][k - 1];
      }
    }
  }

  /** Loading the written `blocks` array gives back the same blocks in the same order. */
  lemma ReadSerializedBlocks(blocks: seq<MapBlocks.MapBlock>)
    requires forall k :: 0 <= k < |blocks| ==> MapBlocks.Readable(blocks[k])
    ensures ReadBlocks(ObjectEntries(SerializeBlocks(blocks))) == Ok(blocks)
  {
    var objs := ObjectEntries(SerializeBlocks(blocks));
    ObjectEntriesOfSerialized(blocks);
    ReadEachSerialized(blocks);
    ReadBlocksOf(objs, blocks);
  }

  lemma ReadEachSerialized(blocks: seq<MapBlocks.MapBlock>)
    requires forall k :: 0 <= k < |blocks| ==> MapBlocks.Readable(blocks[k])
    ensures forall k :: 0 <= k < |blocks| ==> MapBlocks.ReadJson(MapBlocks.Serialize(blocks[k])) == Ok(blocks[k])
  {
    forall k | 0 <= k < |blocks|
      ensures MapBlocks.ReadJson(MapBlocks.Serialize(blocks[k])) == Ok(blocks[k])
    {
      MapBlocks.ReadSerialized(blocks[k]);
    }
  }

  lemma ReadBlocksOf(objs: seq<seq<(string, Json)>>, blocks: seq<MapBlocks.MapBlock>)
    requires |objs| == |blocks|
    requires forall k :: 0 <= k < |blocks| ==> MapBlocks.ReadJson(objs[k]) == Ok(blocks[k])
    ensures ReadBlocks(objs) == Ok(blocks)
  {
    var r := ReadBlocks(objs);
    assert r.Ok?;
    assert r.value == blocks;
  }

  /** `GetAllReferencedFiles`: the JSON file alone, or nothing when the path is empty. */
  function ReferencedFiles(v: MapValue): (files: seq<string>)
    ensures v.jsonFilePath == [] ==> files == []
    ensures v.jsonFilePath != [] ==> files == [v.jsonFilePath]
  {
    if v.jsonFilePath == [] then [] else [v.jsonFilePath]
  }

  /** `Map`. */
  class Map {
    var identifier: Option<Identifier>
    var info: MapInfo
    var blocks: array<MapBlocks.MapBlock>
    var jsonFilePath: string

    function Value(): MapValue
      reads this, blocks
    {
      MapValue(identifier, info, blocks[..], jsonFilePath)
    }

    /** `Validate`: identifier, name and description, each failing with one message; the
        blocks are not looked at, so it accepts exactly the filled-out maps. */
    method Validate(errorMessages: seq<string>) returns (ok: bool, errors: seq<string>)
      ensures ok <==> IsFilledOut(Value())
      ensures ok ==> errors == errorMessages
      ensures identifier.None? ==> errors == errorMessages + ["Map does not have an identifier defined."]
      ensures identifier.Some? && !IsValid(identifier.value) ==>
        errors == errorMessages + ["Map " + ToString(identifier.value) + " has invalid identifier."]
      ensures identifier.Some? && IsValid(identifier.value) && Blank(info.name) ==>
        errors == errorMessages + ["Map " + ToString(identifier.value) + ": Name is empty."]
      ensures identifier.Some? && IsValid(identifier.value) && !Blank(info.name) && Blank(info.description) ==>
        errors == errorMessages + ["Map " + ToString(identifier.value) + ": Description is empty."]
    {
      if identifier.None? {
        return false, errorMessages + ["Map does not have an identifier defined."];
      }
      if !IsValid(identifier.value) {
        return false, errorMessages + ["Map " + ToString(identifier.value) + " has invalid identifier."];
      }
      if Blank(info.name) {
        return false, errorMessages + ["Map " + ToString(identifier.value) + ": Name is empty."];
      }
      if Blank(info.description) {
        return false, errorMessages + ["Map " + ToString(identifier.value) + ": Description is empty."];
      }
      return true, errorMessages;
    }

    /** `LoadBlocksFromJSON`: the object entries of `json`, read in order into a new array;
        when one cannot be read the exception leaves `blocks` as it was. */
    method LoadBlocksFromJson(json: seq<Json>) returns (r: Result<()>)
      modifies this
      ensures identifier == old(identifier) && info == old(info) && jsonFilePath == old(jsonFilePath)
      ensures r.Ok? <==> ReadBlocks(ObjectEntries(json)).Ok?
      ensures r.Ok? ==> fresh(blocks) && blocks[..] == ReadBlocks(ObjectEntries(json)).value
      ensures r.Err? ==> blocks == old(blocks)
    {
      var read := ReadBlocks(ObjectEntries(json));
      if read.Err? {
        return Err(read.error);
      }
      var loaded := read.value;
      var a := new MapBlocks.MapBlock[|loaded|](i requires 0 <= i < |loaded| => loaded[i]);
      assert a[..] == loaded;
      blocks := a;
      r := Ok(());
    }

    /** `RefactorIdentifier`: every block in turn, each stored back into its slot. */
    method RefactorIdentifier(from: Identifier, to: Identifier) returns (changed: bool)
      modifies blocks
      ensures (blocks[..], changed) == RefactorBlocks(old(blocks[..]), from, to)
    {
      changed := false;
      for i := 0 to blocks.Length
        invariant blocks[..i] == RefactorBlocks(old(blocks[..i]), from, to).0
        invariant changed == RefactorBlocks(old(blocks[..i]), from, to).1
        invariant blocks[i..] == old(blocks[i..])
      {
        var (block, blockChanged) := MapBlocks.RefactorIdentifier(blocks[i], from, to);
        blocks[i] := block;
        changed := changed || blockChanged;
        assert old(blocks[..i + 1])[..i] == old(blocks[..i]);
      }
      assert blocks[..] == blocks[..blocks.Length];
      assert old(blocks[..]) == old(blocks[..blocks.Length]);
    }

    /** `RefactorAuthorName`: renames the author of the map's own identifier when it is `from`. */
    method RefactorAuthorName(from: string, to: string) returns (changed: bool)
      modifies this
      ensures blocks == old(blocks)
      ensures (identifier, changed) == RenameAuthor(old(identifier), from, to)
      ensures Value() == old(Value()).(identifier := identifier)
    {
      if identifier.None? {
        return false;
      }
      var id := identifier.value;
      if id.authorName == from {
        identifier := Some(MutateAuthorName(id, to));
        return true;
      }
      return false;
    }

    /** The `Identifier` property's setter. */
    method SetIdentifier(id: Option<Identifier>)
      modifies this
      ensures blocks == old(blocks)
      ensures Value() == old(Value()).(identifier := id)
    {
      identifier := id;
    }
  }
}
