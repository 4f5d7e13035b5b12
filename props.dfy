/** Prop.cs: a model placed in maps, with the materials applied to its slots. */
module Props {
  import opened Wrappers
  import opened Strings
  import opened Paths
  import opened Linq
  import opened Json
  import opened Identifiers
  import opened AssetUtils
  import opened AssetExtensionMethods

  /** `SUPPORTED_MODEL_TYPES`. */
  const SupportedModelTypes: seq<string> := ["OBJ", "STL", "GLB", "GLTF", "DAE", "FBX"]

  /** `IsModelFileAllowed`: a blank path is refused; otherwise the last path component needs
      an extension and the whole path must end with a supported type, ignoring case. */
  function IsModelFileAllowed(file: string): (b: bool)
    ensures IsNullOrWhiteSpace(file) ==> !b
    ensures b ==> GetExtension(file) != [] && EndsWithAnyIgnoreCase(file, SupportedModelTypes)
    ensures (!IsNullOrWhiteSpace(file) && GetExtension(file) != [] &&
             EndsWithAnyIgnoreCase(file, SupportedModelTypes)) ==> b
  {
    if IsNullOrWhiteSpace(file) then false
    else
      var extension := GetExtension(file);
      extension != [] && EndsWithAnyIgnoreCase(file, SupportedModelTypes)
  }

  /** `PropProperties`; `material` and `materials` are the two ways of naming materials. */
  datatype PropProperties = PropProperties(name: string, modelFilePath: string, baseScale: real,
                                           material: Option<Identifier>, materials: Option<seq<Identifier>>)
  {
    /** `Materials`: the materials by slot, starting from slot 0. */
    function Materials(): (ms: seq<Identifier>)
      ensures material.Some? ==> ms == [material.value]
      ensures material.None? ==> ms == if materials.Some? then materials.value else []
    {
      if material.Some? then [material.value]
      else if materials.Some? then materials.value
      else []
    }
  }

  /** The state of a `Prop` as a value. */
  datatype PropValue = PropValue(identifier: Option<Identifier>, properties: PropProperties, jsonFilePath: string)

  /** `GetAllDependedAssets`: a prop depends on exactly its materials. */
  function DependedAssets(v: PropValue): (deps: seq<Identifier>)
    ensures forall m :: m in deps <==> m in v.properties.Materials()
  {
    v.properties.Materials()
  }

  /** The identifiers of `ms` that are not defined, in their order in `ms`. */
  function UndefinedOf(ms: seq<Identifier>, defined: set<Identifier>): (u: seq<Identifier>)
    ensures forall i :: 0 <= i < |u| ==> u[i] in ms && u[i] !in defined
    ensures forall k :: 0 <= k < |ms| && ms[k] !in defined ==> ms[k] in u
    ensures u == [] <==> forall k :: 0 <= k < |ms| ==> ms[k] in defined
    ensures |u| <= |ms|
  {
    if ms == [] then []
    else
      var last := ms[|ms| - 1];
      var rest := UndefinedOf(ms[..|ms| - 1], defined);
      assert forall k :: 0 <= k < |ms| - 1 ==> ms[k] == ms[..|ms| - 1][k];
      rest + (if last in defined then [] else [last])
  }

  /** The message `ValidateIdentifier` records for each undefined identifier of `ms`, in order. */
  function UndefinedMessages(ms: seq<Identifier>, caller: Identifier, defined: set<Identifier>): (msgs: seq<string>)
    ensures msgs == [] <==> forall k :: 0 <= k < |ms| ==> ms[k] in defined
    ensures |msgs| == |UndefinedOf(ms, defined)| <= |ms|
    ensures forall i :: 0 <= i < |msgs| ==> msgs[i] == UndefinedIdentifierMessage(UndefinedOf(ms, defined)[i], caller)
  {
    if ms == [] then []
    else
      var last := ms[|ms| - 1];
      var init := ms[..|ms| - 1];
      assert forall k :: 0 <= k < |ms| - 1 ==> ms[k] == init[k];
      assert UndefinedOf(ms, defined) == UndefinedOf(init, defined) + (if last in defined then [] else [last]);
      UndefinedMessages(init, caller, defined)
        + (if last in defined then [] else [UndefinedIdentifierMessage(last, caller)])
  }

  /** Every undefined identifier of `ms` is reported. */
  lemma UndefinedReported(ms: seq<Identifier>, caller: Identifier, defined: set<Identifier>)
    ensures forall k :: 0 <= k < |ms| && ms[k] !in defined ==> UndefinedIdentifierMessage(ms[k], caller) in UndefinedMessages(ms, caller, defined)
  {
    var u, msgs := UndefinedOf(ms, defined), UndefinedMessages(ms, caller, defined);
    forall k | 0 <= k < |ms| && ms[k] !in defined
      ensures UndefinedIdentifierMessage(ms[k], caller) in msgs
    {
      var i :| 0 <= i < |u| && u[i] == ms[k];
      assert msgs[i] == UndefinedIdentifierMessage(u[i], caller);
    }
  }

  /** Every check `Validate` makes, as one conjunction; `existingFiles` are the files on disk. */
  predicate Acceptable(v: PropValue, defined: set<Identifier>, existingFiles: set<string>)
  {
    && v.identifier.Some? && IsValid(v.identifier.value)
    && v.properties.baseScale != 0.0
    && v.properties.material.Some? != v.properties.materials.Some?
    && IsModelFileAllowed(v.properties.modelFilePath)
    && GetSubFile(v.jsonFilePath, v.properties.modelFilePath) in existingFiles
    && forall k :: 0 <= k < |v.properties.Materials()| ==> v.properties.Materials()[k] in defined
  }

  /** `IsFilledOut` as written: the branch for a `materials` array returns before the
      model file is looked for. */
  function IsFilledOut(v: PropValue, defined: set<Identifier>, existingFiles: set<string>): (b: bool)
    ensures IsFilledOutChecked(v, defined, existingFiles) ==> b
    ensures b && !IsFilledOutChecked(v, defined, existingFiles) ==>
      v.properties.materials.Some? && GetSubFile(v.jsonFilePath, v.properties.modelFilePath) !in existingFiles
  {
    var p := v.properties;
    if v.identifier.None? || !IsValid(v.identifier.value) then false
    else if p.material.Some? == p.materials.Some? then false
    else if IsNullOrWhiteSpace(p.name) || IsNullOrWhiteSpace(p.modelFilePath) then false
    else if !IsModelFileAllowed(p.modelFilePath) || p.baseScale == 0.0 then false
    else if p.material.Some? then
      p.material.value in defined && GetSubFile(v.jsonFilePath, p.modelFilePath) in existingFiles
    else
      assert p.Materials() == p.materials.value;
      forall k :: 0 <= k < |p.materials.value| ==> p.materials.value[k] in defined
  }

  /** `IsFilledOut` with the model-file check made on both branches: a filled-out prop is
      exactly one that passes `Validate` and has a name. */
  function IsFilledOutChecked(v: PropValue, defined: set<Identifier>, existingFiles: set<string>): (b: bool)
    ensures b <==> Acceptable(v, defined, existingFiles) && !IsNullOrWhiteSpace(v.properties.name)
  {
    var p := v.properties;
    if v.identifier.None? || !IsValid(v.identifier.value) then false
    else if p.material.Some? == p.materials.Some? then false
    else if IsNullOrWhiteSpace(p.name) || IsNullOrWhiteSpace(p.modelFilePath) then false
    else if !IsModelFileAllowed(p.modelFilePath) || p.baseScale == 0.0 then false
    else if p.material.Some? && p.material.value !in defined then
      assert p.Materials()[0] !in defined;
      false
    else if exists k :: 0 <= k < |p.Materials()| && p.Materials()[k] !in defined then false
    else GetSubFile(v.jsonFilePath, p.modelFilePath) in existingFiles
  }

  /** The two agree except on a prop that names its materials by array and whose model file
      is missing: there the code as written still reports the prop as filled out. */
  lemma IsFilledOutSkipsModelCheck()
    ensures var v := PropValue(Some(Identifier("a", AssetType.Prop, "b")),
                               PropProperties("n", "m.obj", 1.0, None, Some([])), "d\\p.json");
      IsFilledOut(v, {}, {}) && !IsFilledOutChecked(v, {}, {})
  {
    SampleModelFileAllowed();
    SampleNamesNotBlank();
  }

  lemma SampleModelFileAllowed()
    ensures IsModelFileAllowed("m.obj")
  {
    SampleExtension();
    SampleEndsWithObj();
    SampleNamesNotBlank();
  }

  lemma SampleExtension()
    ensures GetExtension("m.obj") != []
  {
    var file := "m.obj";
    assert file[1] == '.' && file[2] == 'o' && file[3] == 'b' && file[4] == 'j';
    assert ExtensionBefore(file, 2) == file[1..];
    assert ExtensionBefore(file, 3) == ExtensionBefore(file, 2);
    assert ExtensionBefore(file, 4) == ExtensionBefore(file, 3);
    assert ExtensionBefore(file, 5) == ExtensionBefore(file, 4);
  }

  lemma SampleEndsWithObj()
    ensures EndsWithAnyIgnoreCase("m.obj", SupportedModelTypes)
  {
    var file := "m.obj";
    assert ToUpper(file[2]) == 'O' && ToUpper(file[3]) == 'B' && ToUpper(file[4]) == 'J';
    assert EndsWithIgnoreCase(file, SupportedModelTypes[0]);
  }

  lemma SampleNamesNotBlank()
    ensures !IsNullOrWhiteSpace("a") && !IsNullOrWhiteSpace("b") && !IsNullOrWhiteSpace("n") && !IsNullOrWhiteSpace("m.obj")
  {
    assert !IsWhiteSpace("a"[0]) && !IsWhiteSpace("b"[0]) && !IsWhiteSpace("n"[0]) && !IsWhiteSpace("m.obj"[0]);
  }

  /** Wherever the written `IsFilledOut` also checks the model file, it is the checked one. */
  lemma IsFilledOutAgreesWithSingleMaterial(v: PropValue, defined: set<Identifier>, existingFiles: set<string>)
    requires v.properties.material.Some? || GetSubFile(v.jsonFilePath, v.properties.modelFilePath) in existingFiles
    ensures IsFilledOut(v, defined, existingFiles) == IsFilledOutChecked(v, defined, existingFiles)
  {
    var p := v.properties;
    if p.material.Some? && p.materials.None? {
      assert p.Materials() == [p.material.value];
    } else if p.material.None? && p.materials.Some? {
      assert p.Materials() == p.materials.value;
    }
  }

  /** `GetAllReferencedFiles`: the JSON file and, when there is one, the model file located
      beside it with the string overload of `GetSubFile`. */
  function ReferencedFiles(v: PropValue): (files: seq<string>)
    ensures files == [] <==> v.jsonFilePath == []
    ensures files != [] ==> files[0] == v.jsonFilePath && |files| <= 2
    ensures |files| == 2 <==> v.jsonFilePath != [] && v.properties.modelFilePath != []
    ensures |files| == 2 ==> files[1] == GetSubFileOfPath(v.jsonFilePath, v.properties.modelFilePath)
  {
    if v.jsonFilePath == [] then []
    else if v.properties.modelFilePath == [] then [v.jsonFilePath]
    else [v.jsonFilePath, GetSubFileOfPath(v.jsonFilePath, v.properties.modelFilePath)]
  }

  /** Identifiers written as their text. */
  function IdentifierStrings(ids: seq<Identifier>): (items: seq<Json>)
    ensures |items| == |ids|
    ensures forall k :: 0 <= k < |ids| ==> items[k] == JString(ToString(ids[k]))
  {
    if ids == [] then [] else [JString(ToString(ids[0]))] + IdentifierStrings(ids[1..])
  }

  /** `Serialize`: the identifier (the default one when unset) and the properties, with the
      materials always written as a `materials` array, even for a single `material`. */
  function Serialize(v: PropValue): (j: seq<(string, Json)>)
    ensures Keys(j) == ["identifier", "prop"]
    ensures j[1].1.JObject? && Keys(j[1].1.fields) == ["name", "model", "base_scale", "materials"]
    ensures j[1].1.fields[3].1 == JArray(IdentifierStrings(v.properties.Materials()))
    ensures j[1].1.fields[0].1 == JString(v.properties.name) && j[1].1.fields[1].1 == JString(v.properties.modelFilePath)
    ensures j[1].1.fields[2].1 == JNumber(v.properties.baseScale)
    ensures j[0].1.JString? && (v.identifier.Some? && WellFormed(v.identifier.value) ==> TryParse(j[0].1.s) == v.identifier)
  {
    var p := v.properties;
    var id := if v.identifier.Some? then v.identifier.value else DefaultIdentifier;
    assert v.identifier.Some? && WellFormed(id) ==> TryParse(ToString(id)) == Some(id) by {
      if v.identifier.Some? && WellFormed(id) { ParseToString(id); }
    }
    [("identifier", JString(ToString(id))),
     ("prop", JObject([("name", JString(p.name)),
                       ("model", JString(p.modelFilePath)),
                       ("base_scale", JNumber(p.baseScale)),
                       ("materials", JArray(IdentifierStrings(p.Materials())))]))]
  }

  /** The written material names parse back, slot by slot, to the prop's materials. */
  lemma SerializedMaterialsParse(v: PropValue)
    requires forall k :: 0 <= k < |v.properties.Materials()| ==> WellFormed(v.properties.Materials()[k])
    ensures var items := Serialize(v)[1].1.fields[3].1.items;
      |items| == |v.properties.Materials()| &&
      forall k :: 0 <= k < |items| ==> items[k].JString? && TryParse(items[k].s) == Some(v.properties.Materials()[k])
  {
    var ms := v.properties.Materials();
    forall k | 0 <= k < |ms| {
      ParseToString(ms[k]);
    }
  }

  /** The prop after its own `RefactorIdentifier(from, to)`, and the call's result: the single
      material is rewritten when set, otherwise every slot of the array holding `from`. */
  function Refactored(v: PropValue, from: Identifier, to: Identifier): (r: (PropValue, bool))
    ensures r.1 <==> from in v.properties.Materials()
    ensures r.0.properties.Materials() == Replace(v.properties.Materials(), from, to)
    ensures r.0.identifier == v.identifier && r.0.jsonFilePath == v.jsonFilePath
    ensures r.0.properties.material.Some? == v.properties.material.Some?
    ensures r.0.properties.materials.Some? == v.properties.materials.Some?
    ensures r.0.properties.(material := None, materials := None) == v.properties.(material := None, materials := None)
  {
    var p := v.properties;
    if p.material.Some? then
      if p.material.value == from then (v.(properties := p.(material := Some(to))), true) else (v, false)
    else if p.materials.Some? then
      (v.(properties := p.(materials := Some(Replace(p.materials.value, from, to)))), from in p.materials.value)
    else (v, false)
  }

  /** `materialIdentifiers.Aggregate(true, (current, m) => current & ValidateIdentifier(m, ...))`:
      every identifier is validated, so every undefined one is reported. */
  method ValidateAll(ids: seq<Identifier>, caller: Identifier, defined: set<Identifier>, errorMessages: seq<string>)
    returns (ok: bool, errors: seq<string>)
    ensures errors == errorMessages + UndefinedMessages(ids, caller, defined)
    ensures ok <==> forall k :: 0 <= k < |ids| ==> ids[k] in defined
  {
    ok, errors := true, errorMessages;
    for i := 0 to |ids|
      invariant errors == errorMessages + UndefinedMessages(ids[..i], caller, defined)
      invariant ok <==> forall k :: 0 <= k < i ==> ids[k] in defined
    {
      var valid;
      ghost var before := errors;
      valid, errors := ValidateIdentifier(ids[i], caller, defined, errors);
      ok := ok && valid;
      ValidateStep(ids, i, caller, defined, errorMessages, before, errors);
    }
    assert ids[..|ids|] == ids;
  }

  /** One more identifier validated: the messages stay `UndefinedMessages` of the prefix. */
  lemma ValidateStep(ids: seq<Identifier>, i: nat, caller: Identifier, defined: set<Identifier>,
                     errorMessages: seq<string>, before: seq<string>, after: seq<string>)
    requires i < |ids| && before == errorMessages + UndefinedMessages(ids[..i], caller, defined)
    requires after == before + if ids[i] in defined then [] else [UndefinedIdentifierMessage(ids[i], caller)]
    ensures after == errorMessages + UndefinedMessages(ids[..i + 1], caller, defined)
  {
    var added := if ids[i] in defined then [] else [UndefinedIdentifierMessage(ids[i], caller)];
    UndefinedSnoc(ids, i, caller, defined);
    AppendAssoc(errorMessages, UndefinedMessages(ids[..i], caller, defined), added);
  }

  lemma UndefinedSnoc(ids: seq<Identifier>, i: nat, caller: Identifier, defined: set<Identifier>)
    requires i < |ids|
    ensures UndefinedMessages(ids[..i + 1], caller, defined) ==
      UndefinedMessages(ids[..i], caller, defined) + (if ids[i] in defined then [] else [UndefinedIdentifierMessage(ids[i], caller)])
  {
    assert ids[..i + 1][..i] == ids[..i];
  }

  /** The messages `Validate` records when one of its first checks fails. */
  function InvalidIdentifierMessage(id: Identifier): string
  {
    "Prop " + ToString(id) + " has invalid identifier."
  }

  function BaseScaleZeroMessage(id: Identifier): string
  {
    "Prop " + ToString(id) + ": Base scale is zero; model will not be visible and can't be scaled to be visible."
  }

  function BothMaterialFieldsMessage(id: Identifier): string
  {
    "Prop " + ToString(id) + ": Both 'material' and 'materials' fields cannot be set."
  }

  function NoMaterialsMessage(id: Identifier): string
  {
    "Prop " + ToString(id) + ": No materials set."
  }

  /** The loop of `Prop.RefactorIdentifier` over the `materials` array: every slot holding
      `from` is set to `to`, and the result says whether any was. */
  method ReplaceIn(slots: array<Identifier>, from: Identifier, to: Identifier) returns (anyChanges: bool)
    modifies slots
    ensures slots[..] == Replace(old(slots[..]), from, to)
    ensures anyChanges <==> from in old(slots[..])
  {
    anyChanges := false;
    for i := 0 to slots.Length
      invariant forall k :: 0 <= k < i ==> slots[k] == if old(slots[k]) == from then to else old(slots[k])
      invariant forall k :: i <= k < slots.Length ==> slots[k] == old(slots[k])
      invariant anyChanges <==> exists k :: 0 <= k < i && old(slots[k]) == from
    {
      if slots[i] == from {
        slots[i] := to;
        anyChanges := true;
      }
    }
    assert slots[..] == Replace(old(slots[..]), from, to);
    assert anyChanges <==> from in old(slots[..]) by {
      if from in old(slots[..]) {
        var k :| 0 <= k < slots.Length && old(slots[..])[k] == from;
        assert old(slots[k]) == from;
      }
    }
  }

  /** `Prop`; the fields of its `PropProperties` struct are fields of the object here, and the
      `materials` array is shared with whoever else holds it. */
  class Prop {
    var identifier: Option<Identifier>
    var name: string
    var modelFilePath: string
    var baseScale: real
    var material: Option<Identifier>
    var materials: array?<Identifier>
    var jsonFilePath: string

    function Properties(): PropProperties
      reads this, materials
    {
      PropProperties(name, modelFilePath, baseScale, material,
                     if materials == null then None else Some(materials[..]))
    }

    function Value(): PropValue
      reads this, materials
    {
      PropValue(identifier, Properties(), jsonFilePath)
    }

    /** `ValidateModel`: the model file's extension and presence, then every material, each
        checked and reported even after one has failed (`&`, not `&&`). */
    method ValidateModel(defined: set<Identifier>, existingFiles: set<string>, errorMessages: seq<string>)
      returns (ok: bool, errors: seq<string>)
      ensures identifier.None? ==> !ok && errors == errorMessages + ["Prop does not have an identifier defined."]
      ensures identifier.Some? && !IsModelFileAllowed(modelFilePath) ==>
        !ok && errors == errorMessages + ["Unsupported model extension: " + GetExtension(modelFilePath)]
      ensures identifier.Some? && IsModelFileAllowed(modelFilePath) &&
              GetSubFile(jsonFilePath, modelFilePath) !in existingFiles ==>
        !ok && errors == errorMessages + ["Prop " + ToString(identifier.value) + ": Model file \"" + modelFilePath + "\" not found."]
      ensures identifier.Some? && IsModelFileAllowed(modelFilePath) &&
              GetSubFile(jsonFilePath, modelFilePath) in existingFiles ==>
        && errors == errorMessages + UndefinedMessages(Properties().Materials(), identifier.value, defined)
        && (ok <==> forall k :: 0 <= k < |Properties().Materials()| ==> Properties().Materials()[k] in defined)
    {
      if identifier.None? {
        return false, errorMessages + ["Prop does not have an identifier defined."];
      }
      if !IsModelFileAllowed(modelFilePath) {
        var extension := GetExtension(modelFilePath);
        return false, errorMessages + ["Unsupported model extension: " + extension];
      }
      var modelPath := GetSubFile(jsonFilePath, modelFilePath);
      if modelPath !in existingFiles {
        return false, errorMessages + ["Prop " + ToString(identifier.value) + ": Model file \"" + modelFilePath + "\" not found."];
      }
      ok, errors := ValidateAll(Properties().Materials(), identifier.value, defined, errorMessages);
    }

    /** `Validate`: the identifier, the base scale and the material rule, each failing with
        one message, then `ValidateModel`. It accepts exactly the `Acceptable` props and
        only ever appends to the message list. */
    method Validate(defined: set<Identifier>, existingFiles: set<string>, errorMessages: seq<string>)
      returns (ok: bool, errors: seq<string>)
      ensures ok <==> Acceptable(Value(), defined, existingFiles)
      ensures errorMessages <= errors
      ensures ok ==> errors == errorMessages
      ensures identifier.None? ==> errors == errorMessages + ["Prop does not have an identifier defined."]
      ensures identifier.Some? && !IsValid(identifier.value) ==>
        errors == errorMessages + [InvalidIdentifierMessage(identifier.value)]
      ensures identifier.Some? && IsValid(identifier.value) && baseScale == 0.0 ==>
        errors == errorMessages + [BaseScaleZeroMessage(identifier.value)]
      ensures identifier.Some? && IsValid(identifier.value) && baseScale != 0.0 && material.Some? && materials != null ==>
        errors == errorMessages + [BothMaterialFieldsMessage(identifier.value)]
      ensures identifier.Some? && IsValid(identifier.value) && baseScale != 0.0 && material.None? && materials == null ==>
        errors == errorMessages + [NoMaterialsMessage(identifier.value)]
    {
      if identifier.None? {
        return false, errorMessages + ["Prop does not have an identifier defined."];
      }
      if !IsValid(identifier.value) {
        return false, errorMessages + [InvalidIdentifierMessage(identifier.value)];
      }
      if baseScale == 0.0 {
        return false, errorMessages + [BaseScaleZeroMessage(identifier.value)];
      }
      var hasMaterial := material.Some?;
      var hasMaterials := materials != null;
      if hasMaterial && hasMaterials {
        return false, errorMessages + [BothMaterialFieldsMessage(identifier.value)];
      }
      if !hasMaterial && !hasMaterials {
        return false, errorMessages + [NoMaterialsMessage(identifier.value)];
      }
      ok, errors := ValidateShaped(defined, existingFiles, errorMessages);
    }

    /** The part of `Validate` after the identifier, base-scale and material checks passed. */
    method ValidateShaped(defined: set<Identifier>, existingFiles: set<string>, errorMessages: seq<string>)
      returns (ok: bool, errors: seq<string>)
      requires identifier.Some? && IsValid(identifier.value) && baseScale != 0.0
      requires material.Some? != (materials != null)
      ensures ok <==> Acceptable(Value(), defined, existingFiles)
      ensures errorMessages <= errors
      ensures ok ==> errors == errorMessages
    {
      ok, errors := ValidateModel(defined, existingFiles, errorMessages);
      assert ok ==> UndefinedMessages(Properties().Materials(), identifier.value, defined) == [];
    }

    /** `RefactorIdentifier`: rewrites the single material, or the `materials` array in place. */
    method RefactorIdentifier(from: Identifier, to: Identifier) returns (changed: bool)
      modifies this, materials
      ensures materials == old(materials)
      ensures (Value(), changed) == Refactored(old(Value()), from, to)
    {
      if material.Some? {
        if material.value == from {
          material := Some(to);
          return true;
        }
        return false;
      }
      if materials != null {
        changed := ReplaceIn(materials, from, to);
        return;
      }
      return false;
    }

    /** `RefactorAuthorName`: renames the author of the prop's own identifier when it is `from`. */
    method RefactorAuthorName(from: string, to: string) returns (changed: bool)
      modifies this
      ensures materials == old(materials)
      ensures (identifier, changed) == RenameAuthor(old(identifier), from, to)
      ensures Value() == old(Value()).(identifier := identifier)
    {
      if identifier.None? {
        return false;
      }
      var id := identifier.value;
      if id.authorName == from {
        identifier := Some(MutateAuthorName(id, to));
        return true;
      }
      return false;
    }

    /** The `Identifier` property's setter. */
    method SetIdentifier(id: Option<Identifier>)
      modifies this
      ensures materials == old(materials)
      ensures Value() == old(Value()).(identifier := id)
    {
      identifier := id;
    }
  }
}
