/** Material.cs: the surface applied to blocks and prop slots, either a colour or a texture. */
module Materials {
  import opened Wrappers
  import opened Strings
  import opened Json
  import opened Identifiers
  import opened AssetUtils
  import opened AssetExtensionMethods

  /** `SUPPORTED_TEXTURE_TYPES`. */
  const SupportedTextureTypes: seq<string> := ["PNG", "JPG"]

  /** `IsTextureFileAllowed`: a name without any '.' is refused; otherwise it must end with a
      supported type, ignoring case. */
  function IsTextureFileAllowed(file: string): (b: bool)
    ensures '.' !in file ==> !b
    ensures b <==> '.' in file && EndsWithAnyIgnoreCase(file, SupportedTextureTypes)
  {
    if '.' !in file then false
    else EndsWithAnyIgnoreCase(file, SupportedTextureTypes)
  }

  /** `default(MaterialColor)`; a colour is kept as the JSON it was read from, and the
      default one is written here as a JSON null. */
  const DefaultColor: Json := JNull

  /** `MaterialProperties`; a C# `null` name or texture is `None`. */
  datatype MaterialProperties = MaterialProperties(name: Option<string>, texture: Option<string>, alpha: real,
                                                   color: Json, roughness: real, metallic: real)

  /** `MaterialProperties.Serialize`: name, roughness, metallic and alpha, then the colour when
      there is no texture and the texture otherwise, never both. */
  function SerializeProperties(p: MaterialProperties): (j: seq<(string, Json)>)
    ensures |j| == 5 && j[0].0 == "name" && j[1].0 == "roughness" && j[2].0 == "metallic" && j[3].0 == "alpha"
    ensures Get(j, "color").Some? <==> p.texture.None?
    ensures Get(j, "texture").Some? <==> p.texture.Some?
    ensures p.texture.None? ==> Get(j, "color") == Some(p.color)
    ensures p.texture.Some? ==> Get(j, "texture") == Some(JString(p.texture.value))
  {
    var part := [("name", NullableString(p.name)),
                 ("roughness", JNumber(p.roughness)),
                 ("metallic", JNumber(p.metallic)),
                 ("alpha", JNumber(p.alpha))];
    if p.texture.None? then
      var j := part + [("color", p.color)];
      GetAt(j, "color", 4);
      j
    else
      var j := part + [("texture", JString(p.texture.value))];
      GetAt(j, "texture", 4);
      j
  }

  /** A number property with a default for when it is absent. */
  function ReadNumber(fields: seq<(string, Json)>, key: string, default: real): Result<real>
  {
    match Get(fields, key)
    case None => Ok(default)
    case Some(JNumber(n)) => Ok(n)
    case Some(_) => Err("Property '" + key + "' is not a number.")
  }

  /** `MaterialPropertiesConverter.ReadJson`: absent name, alpha, roughness and metallic take
      the defaults "unset", 1.0, 0.75 and 0.0; a `texture` property, even a null one, is taken
      and the colour left at its default; without one, `color` is required. */
  function ReadProperties(fields: seq<(string, Json)>): (r: Result<MaterialProperties>)
    ensures Get(fields, "texture").None? && Get(fields, "color").None? ==> r.Err?
    ensures r.Ok? && Get(fields, "texture").None? ==> r.value.texture.None? && Some(r.value.color) == Get(fields, "color")
    ensures r.Ok? && Get(fields, "texture").Some? ==> r.value.color == DefaultColor
  {
    var name := match Get(fields, "name")
      case None => Ok(Some("unset"))
      case Some(JNull) => Ok(None)
      case Some(JString(s)) => Ok(Some(s))
      case Some(_) => Err("Property 'name' is not a string.");
    var alpha := ReadNumber(fields, "alpha", 1.0);
    var roughness := ReadNumber(fields, "roughness", 0.75);
    var metallic := ReadNumber(fields, "metallic", 0.0);
    if name.Err? then Err(name.error)
    else if alpha.Err? then Err(alpha.error)
    else if roughness.Err? then Err(roughness.error)
    else if metallic.Err? then Err(metallic.error)
    else
      match Get(fields, "texture")
      case Some(JString(t)) => Ok(MaterialProperties(name.value, Some(t), alpha.value, DefaultColor, roughness.value, metallic.value))
      case Some(JNull) => Ok(MaterialProperties(name.value, None, alpha.value, DefaultColor, roughness.value, metallic.value))
      case Some(_) => Err("Property 'texture' is not a string.")
      case None =>
        match Get(fields, "color")
        case None => Err("Missing 'color' or 'texture' property in material definition.")
        case Some(c) => Ok(MaterialProperties(name.value, None, alpha.value, c, roughness.value, metallic.value))
  }

  /** Round trip: what `Serialize` writes reads back unchanged, except that a textured
      material's colour is not written and so comes back as the default. */
  lemma ReadSerializedProperties(p: MaterialProperties)
    ensures ReadProperties(SerializeProperties(p)) == Ok(p) <==> p.texture.None? || p.color == DefaultColor
  {
    ReadSerializedAs(p);
  }

  /** What `ReadProperties` makes of `SerializeProperties(p)`: `p` itself, with the default
      colour when there is a texture. */
  lemma ReadSerializedAs(p: MaterialProperties)
    ensures ReadProperties(SerializeProperties(p)) == Ok(if p.texture.None? then p else p.(color := DefaultColor))
  {
    SerializedFields(p);
    ReadFieldsAs(SerializeProperties(p), p);
  }

  /** `ReadProperties` on any properties that hold what `SerializeProperties(p)` writes. */
  lemma ReadFieldsAs(fields: seq<(string, Json)>, p: MaterialProperties)
    requires Get(fields, "name") == Some(NullableString(p.name))
    requires Get(fields, "roughness") == Some(JNumber(p.roughness))
    requires Get(fields, "metallic") == Some(JNumber(p.metallic))
    requires Get(fields, "alpha") == Some(JNumber(p.alpha))
    requires p.texture.None? ==> Get(fields, "texture").None? && Get(fields, "color") == Some(p.color)
    requires p.texture.Some? ==> Get(fields, "texture") == Some(JString(p.texture.value))
    ensures ReadProperties(fields) == Ok(if p.texture.None? then p else p.(color := DefaultColor))
  {
    var name: Result<Option<string>> := Ok(p.name);
    assert name == match Get(fields, "name")
      case None => Ok(Some("unset"))
      case Some(JNull) => Ok(None)
      case Some(JString(s)) => Ok(Some(s))
      case Some(_) => Err("Property 'name' is not a string.");
    assert ReadNumber(fields, "alpha", 1.0) == Ok(p.alpha);
    assert ReadNumber(fields, "roughness", 0.75) == Ok(p.roughness);
    assert ReadNumber(fields, "metallic", 0.0) == Ok(p.metallic);
  }

  /** The four leading properties `SerializeProperties` writes are the ones `Get` finds. */
  lemma SerializedFields(p: MaterialProperties)
    ensures Get(SerializeProperties(p), "name") == Some(NullableString(p.name))
    ensures Get(SerializeProperties(p), "roughness") == Some(JNumber(p.roughness))
    ensures Get(SerializeProperties(p), "metallic") == Some(JNumber(p.metallic))
    ensures Get(SerializeProperties(p), "alpha") == Some(JNumber(p.alpha))
  {
    var j := SerializeProperties(p);
    GetAt(j, "name", 0);
    GetAt(j, "roughness", 1);
    GetAt(j, "metallic", 2);
    GetAt(j, "alpha", 3);
  }

  /** The state of a `Material` as a value. */
  datatype MaterialValue = MaterialValue(identifier: Option<Identifier>, properties: MaterialProperties, jsonFilePath: string)

  /** `GetAllReferencedFiles`: the JSON file and, when set, the texture beside it. */
  function ReferencedFiles(v: MaterialValue): (files: seq<string>)
    ensures files == [] <==> v.jsonFilePath == []
    ensures files != [] ==> files[0] == v.jsonFilePath && |files| <= 2
    ensures |files| == 2 <==> v.jsonFilePath != [] && v.properties.texture.Some? && v.properties.texture.value != []
    ensures |files| == 2 ==> files[1] == GetSubFileOfPath(v.jsonFilePath, v.properties.texture.value)
  {
    if v.jsonFilePath == [] then []
    else if v.properties.texture.None? || v.properties.texture.value == [] then [v.jsonFilePath]
    else [v.jsonFilePath, GetSubFileOfPath(v.jsonFilePath, v.properties.texture.value)]
  }

  /** `Serialize`: the identifier (the default one when unset) and the properties. */
  function Serialize(v: MaterialValue): (j: seq<(string, Json)>)
    ensures Keys(j) == ["identifier", "material"]
    ensures j[1].1 == JObject(SerializeProperties(v.properties))
    ensures j[0].1.JString? && (v.identifier.Some? && WellFormed(v.identifier.value) ==> TryParse(j[0].1.s) == v.identifier)
  {
    var id := if v.identifier.Some? then v.identifier.value else DefaultIdentifier;
    assert v.identifier.Some? && WellFormed(id) ==> TryParse(ToString(id)) == Some(id) by {
      if v.identifier.Some? && WellFormed(id) { ParseToString(id); }
    }
    [("identifier", JString(ToString(id))), ("material", JObject(SerializeProperties(v.properties)))]
  }

  /** Every check `Validate` makes, as one conjunction. */
  predicate Acceptable(v: MaterialValue, existingFiles: set<string>)
  {
    && v.identifier.Some? && IsValid(v.identifier.value)
    && v.properties.name.Some? && !IsNullOrWhiteSpace(v.properties.name.value)
    && (v.properties.texture.Some? ==>
          IsTextureFileAllowed(v.properties.texture.value) &&
          GetSubFile(v.jsonFilePath, v.properties.texture.value) in existingFiles)
  }

  /** `Material`. */
  class Material {
    var identifier: Option<Identifier>
    var properties: MaterialProperties
    var jsonFilePath: string

    function Value(): MaterialValue
      reads this
    {
      MaterialValue(identifier, properties, jsonFilePath)
    }

    /** `ValidateTexture`, which `Validate` calls only for a material with a texture. */
    method ValidateTexture(existingFiles: set<string>, errorMessages: seq<string>) returns (ok: bool, errors: seq<string>)
      requires identifier.Some? && properties.texture.Some?
      ensures ok <==> IsTextureFileAllowed(properties.texture.value) &&
                      GetSubFile(jsonFilePath, properties.texture.value) in existingFiles
      ensures !IsTextureFileAllowed(properties.texture.value) ==>
        errors == errorMessages + ["Material " + ToString(identifier.value) + ": Unsupported texture extension \""
                                   + Paths.GetExtension(properties.texture.value) + "\""]
      ensures IsTextureFileAllowed(properties.texture.value) && !ok ==>
        errors == errorMessages + ["Material " + ToString(identifier.value) + ": Texture file \""
                                   + properties.texture.value + "\" not found."]
      ensures ok ==> errors == errorMessages
    {
      var texture := properties.texture.value;
      if !IsTextureFileAllowed(texture) {
        return false, errorMessages + ["Material " + ToString(identifier.value) + ": Unsupported texture extension \""
                                       + Paths.GetExtension(texture) + "\""];
      }
      var texturePath := GetSubFile(jsonFilePath, texture);
      if texturePath !in existingFiles {
        return false, errorMessages + ["Material " + ToString(identifier.value) + ": Texture file \""
                                       + texture + "\" not found."];
      }
      return true, errorMessages;
    }

    /** `Validate`: identifier, name and texture, each failing with one message; it accepts
        exactly the `Acceptable` materials. The alpha adjustment it ends with is not modelled. */
    method Validate(existingFiles: set<string>, errorMessages: seq<string>) returns (ok: bool, errors: seq<string>)
      ensures ok <==> Acceptable(Value(), existingFiles)
      ensures ok ==> errors == errorMessages
      ensures !ok ==> |errors| == |errorMessages| + 1 && errorMessages <= errors
      ensures identifier.None? ==> errors == errorMessages + ["Material does not have an identifier defined."]
      ensures identifier.Some? && !IsValid(identifier.value) ==>
        errors == errorMessages + ["Material " + ToString(identifier.value) + " has invalid identifier."]
      ensures identifier.Some? && IsValid(identifier.value) &&
              (properties.name.None? || IsNullOrWhiteSpace(properties.name.value)) ==>
        errors == errorMessages + ["Material " + ToString(identifier.value) + " has no name."]
    {
      if identifier.None? {
        return false, errorMessages + ["Material does not have an identifier defined."];
      }
      if !IsValid(identifier.value) {
        return false, errorMessages + ["Material " + ToString(identifier.value) + " has invalid identifier."];
      }
      if properties.name.None? || IsNullOrWhiteSpace(properties.name.value) {
        return false, errorMessages + ["Material " + ToString(identifier.value) + " has no name."];
      }
      if properties.texture.Some? {
        ok, errors := ValidateTexture(existingFiles, errorMessages);
        if !ok {
          return;
        }
      }
      return true, errorMessages;
    }

    /** `RefactorIdentifier`: a material depends on nothing, so nothing is rewritten. */
    method RefactorIdentifier(from: Identifier, to: Identifier) returns (changed: bool)
      ensures !changed
    {
      return false;
    }

    /** `RefactorAuthorName`: renames the author of the material's own identifier when it is `from`. */
    method RefactorAuthorName(from: string, to: string) returns (changed: bool)
      modifies this
      ensures (identifier, changed) == RenameAuthor(old(identifier), from, to)
      ensures Value() == old(Value()).(identifier := identifier)
    {
      if identifier.None? {
        return false;
      }
      var id := identifier.value;
      if id.authorName == from {
        identifier := Some(MutateAuthorName(id, to));
        return true;
      }
      return false;
    }

    /** The `Identifier` property's setter. */
    method SetIdentifier(id: Option<Identifier>)
      modifies this
      ensures Value() == old(Value()).(identifier := id)
    {
      identifier := id;
    }
  }
}
