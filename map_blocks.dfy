/** MapBlock.cs and its four implementations: the pieces a map is built from, the tag
    dispatch that reads them, their single dependency and their JSON form. A block's
    `transform` and a text's `color` are carried as the JSON they were read from. */
module MapBlocks {
  import opened Wrappers
  import opened Json
  import opened Identifiers
  import opened Linq

  /** `MapBlockType`, in declaration order. */
  datatype MapBlockType = block | prop | entity | text

  /** `MapBlockType.ToString()`. */
  function BlockTypeName(t: MapBlockType): string
  {
    match t
    case block => "block"
    case prop => "prop"
    case entity => "entity"
    case text => "text"
  }

  /** `Enum.TryParse<MapBlockType>`, restricted to the exact member names. */
  function ParseBlockType(s: string): (r: Option<MapBlockType>)
    ensures r.Some? <==> s == "block" || s == "prop" || s == "entity" || s == "text"
    ensures r.Some? ==> BlockTypeName(r.value) == s
  {
    if s == "block" then Some(block)
    else if s == "prop" then Some(prop)
    else if s == "entity" then Some(entity)
    else if s == "text" then Some(text)
    else None
  }

  /** Every member name parses back to its member. */
  lemma ParseBlockTypeName(t: MapBlockType)
    ensures ParseBlockType(BlockTypeName(t)) == Some(t)
  {
  }

  /** `ShapeType`, in declaration order. */
  datatype ShapeType = sphere | capsule | cylinder | cube | plane | quad

  function ShapeName(s: ShapeType): string
  {
    match s
    case sphere => "sphere"
    case capsule => "capsule"
    case cylinder => "cylinder"
    case cube => "cube"
    case plane => "plane"
    case quad => "quad"
  }

  function ParseShape(s: string): (r: Option<ShapeType>)
    ensures r.Some? ==> ShapeName(r.value) == s
    ensures forall t: ShapeType :: s == ShapeName(t) ==> r == Some(t)
  {
    if s == "sphere" then Some(sphere)
    else if s == "capsule" then Some(capsule)
    else if s == "cylinder" then Some(cylinder)
    else if s == "cube" then Some(cube)
    else if s == "plane" then Some(plane)
    else if s == "quad" then Some(quad)
    else None
  }

  /** `MapBlockTextInfo`: the text shown, the optional wrap distance and the colour. */
  datatype TextInfo = TextInfo(content: Option<string>, wrap: Option<real>, color: Json)

  /** One block of a map; the constructor is the C# subclass. */
  datatype MapBlock =
    | BlockBlock(transform: Json, shape: ShapeType, material: Identifier, effects: Option<seq<Json>>)
    | PropBlock(transform: Json, prop: Identifier)
    | EntityBlock(transform: Json, entityName: Option<string>)
    | TextBlock(transform: Json, textInfo: TextInfo)

  /** `ImplementationType`: the tag each subclass reports. */
  function ImplementationType(b: MapBlock): (t: MapBlockType)
    ensures t == block <==> b.BlockBlock?
    ensures t == prop <==> b.PropBlock?
    ensures t == entity <==> b.EntityBlock?
    ensures t == text <==> b.TextBlock?
  {
    match b
    case BlockBlock(_, _, _, _) => block
    case PropBlock(_, _) => prop
    case EntityBlock(_, _) => entity
    case TextBlock(_, _) => text
  }

  /** `GetAllDependedAssets`: a block depends on its material, a prop block on its prop,
      entities and texts on nothing. */
  function DependedAssets(b: MapBlock): (deps: seq<Identifier>)
    ensures |deps| <= 1
    ensures deps != [] <==> b.BlockBlock? || b.PropBlock?
    ensures b.BlockBlock? ==> deps == [b.material]
    ensures b.PropBlock? ==> deps == [b.prop]
  {
    match b
    case BlockBlock(_, _, material, _) => [material]
    case PropBlock(_, p) => [p]
    case EntityBlock(_, _) => []
    case TextBlock(_, _) => []
  }

  /** `RefactorIdentifier(from, to)`: the block after the call, and the call's result.
      Only a block's material or a prop block's prop can change, and only when it is `from`. */
  function RefactorIdentifier(b: MapBlock, from: Identifier, to: Identifier): (r: (MapBlock, bool))
    ensures r.1 <==> from in DependedAssets(b)
    ensures !r.1 ==> r.0 == b
    ensures r.1 && b.BlockBlock? ==> r.0 == b.(material := to)
    ensures r.1 && b.PropBlock? ==> r.0 == b.(prop := to)
  {
    match b
    case BlockBlock(_, _, material, _) =>
      if material == from then (b.(material := to), true) else (b, false)
    case PropBlock(_, p) =>
      if p == from then (b.(prop := to), true) else (b, false)
    case EntityBlock(_, _) => (b, false)
    case TextBlock(_, _) => (b, false)
  }

  /** Refactoring keeps the kind, the transform and everything but the dependency, and the
      new dependency list is the old one with `from` replaced by `to`. */
  lemma RefactorRewritesDependencies(b: MapBlock, from: Identifier, to: Identifier)
    ensures var (b', _) := RefactorIdentifier(b, from, to);
      && ImplementationType(b') == ImplementationType(b)
      && b'.transform == b.transform
      && DependedAssets(b') == Replace(DependedAssets(b), from, to)
  {
  }

  /** `MapBlockTextInfo.Serialize`: content, colour, then `wrap` as its value or an explicit null. */
  function SerializeTextInfo(info: TextInfo): (j: seq<(string, Json)>)
    ensures Keys(j) == ["content", "color", "wrap"]
    ensures Get(j, "wrap") == Some(if ShouldWrapText(info) then JNumber(info.wrap.value) else JNull)
  {
    var j := [("content", NullableString(info.content)),
              ("color", info.color),
              ("wrap", if info.wrap.Some? then JNumber(info.wrap.value) else JNull)];
    GetAt(j, "wrap", 2);
    j
  }

  /** `MapBlockTextInfo.ShouldWrapText`. */
  function ShouldWrapText(info: TextInfo): (b: bool)
    ensures b <==> info.wrap.Some?
  {
    info.wrap.Some?
  }

  /** `Serialize`: `type` and `transform` first, then the subclass's own fields; a block's
      `effects` only when there are some. */
  function Serialize(b: MapBlock): (j: seq<(string, Json)>)
    ensures |j| >= 2 && j[0] == ("type", JString(BlockTypeName(ImplementationType(b))))
    ensures j[1] == ("transform", b.transform)
    ensures Get(j, "effects").Some? <==> b.BlockBlock? && b.effects.Some? && b.effects.value != []
    ensures Get(j, "effects").Some? ==> Get(j, "effects").value == JArray(b.effects.value)
  {
    var head := [("type", JString(BlockTypeName(ImplementationType(b)))), ("transform", b.transform)];
    match b
    case BlockBlock(_, shape, material, effects) =>
      var fields := head + [("shape", JString(ShapeName(shape))), ("material", JString(ToString(material)))];
      if effects.Some? && |effects.value| > 0 then
        var j := fields + [("effects", JArray(effects.value))];
        GetAt(j, "effects", 4);
        j
      else
        fields
    case PropBlock(_, p) => head + [("prop", JString(ToString(p)))]
    case EntityBlock(_, name) => head + [("entity", NullableString(name))]
    case TextBlock(_, info) => head + [("text", JObject(SerializeTextInfo(info)))]
  }

  /** An identifier-valued property read through `IdentifierJsonConverter`; an absent one
      keeps `default(Identifier)`. */
  function ReadIdentifierField(fields: seq<(string, Json)>, key: string): (r: Result<Identifier>)
    ensures Get(fields, key) == Some(JNull) ==> r.Err?
    ensures Get(fields, key).None? ==> r == Ok(DefaultIdentifier)
    ensures r.Ok? && Get(fields, key).Some? ==>
      Get(fields, key).value.JString? && TryParse(Get(fields, key).value.s) == Some(r.value)
  {
    match Get(fields, key)
    case None => Ok(DefaultIdentifier)
    case Some(JNull) => Identifiers.ReadJson(None)
    case Some(JString(s)) => Identifiers.ReadJson(Some(s))
    case Some(_) => Err("Identifier at '" + key + "' is not a string.")
  }

  /** A nullable string property: absent or null reads as `null`. */
  function ReadNullableString(fields: seq<(string, Json)>, key: string): Result<Option<string>>
  {
    match Get(fields, key)
    case None => Ok(None)
    case Some(JNull) => Ok(None)
    case Some(JString(s)) => Ok(Some(s))
    case Some(_) => Err("Property '" + key + "' is not a string.")
  }

  /** `json.ToObject<MapBlockTextInfo>()`. */
  function ReadTextInfo(t: Option<Json>): Result<TextInfo>
  {
    match t
    case None => Ok(TextInfo(None, None, JNull))
    case Some(JObject(fields)) =>
      var content := ReadNullableString(fields, "content");
      if content.Err? then Err(content.error)
      else
        var wrap := ReadWrap(fields);
        if wrap.Err? then Err(wrap.error)
        else Ok(TextInfo(content.value, wrap.value, ReadColor(fields)))
    case Some(_) => Err("Property 'text' is not an object.")
  }

  /** The nullable `wrap` number of a text block: absent or null reads as `null`. */
  function ReadWrap(fields: seq<(string, Json)>): Result<Option<real>>
  {
    match Get(fields, "wrap")
    case None => Ok(None)
    case Some(JNull) => Ok(None)
    case Some(JNumber(n)) => Ok(Some(n))
    case Some(_) => Err("Property 'wrap' is not a number.")
  }

  /** The `color` token of a text block, kept as it is; absent reads as `null`. */
  function ReadColor(fields: seq<(string, Json)>): Json
  {
    match Get(fields, "color") case None => JNull case Some(c) => c
  }

  /** The `shape` property through `StringEnumConverter`; absent means the first member. */
  function ReadShape(fields: seq<(string, Json)>): Result<ShapeType>
  {
    match Get(fields, "shape")
    case None => Ok(sphere)
    case Some(JString(s)) => (match ParseShape(s) case Some(t) => Ok(t) case None => Err("Invalid shape '" + s + "'."))
    case Some(_) => Err("Property 'shape' is not a string.")
  }

  /** The `effects` property, declared `Required.DisallowNull`: it may be absent but not null. */
  function ReadEffects(fields: seq<(string, Json)>): Result<Option<seq<Json>>>
  {
    match Get(fields, "effects")
    case None => Ok(None)
    case Some(JArray(items)) => Ok(Some(items))
    case Some(JNull) => Err("Property 'effects' may not be null.")
    case Some(_) => Err("Property 'effects' is not an array.")
  }

  /** `json.ToObject<MapBlockBlock>()`. */
  function ReadBlockBlock(fields: seq<(string, Json)>, transform: Json): Result<MapBlock>
  {
    var shape := ReadShape(fields);
    var material := ReadIdentifierField(fields, "material");
    var effects := ReadEffects(fields);
    if shape.Err? then Err(shape.error)
    else if material.Err? then Err(material.error)
    else if effects.Err? then Err(effects.error)
    else Ok(BlockBlock(transform, shape.value, material.value, effects.value))
  }

  /** `MapBlockConverter.ReadJson`: a missing or unknown `type` is an error; otherwise the
      tag alone chooses which subclass the object is read as. */
  function ReadJson(fields: seq<(string, Json)>): (r: Result<MapBlock>)
    ensures Get(fields, "type").None? ==> r.Err?
    ensures r.Ok? ==> Get(fields, "type") == Some(JString(BlockTypeName(ImplementationType(r.value))))
    ensures forall s :: Get(fields, "type") == Some(JString(s)) && ParseBlockType(s).None? ==> r.Err?
  {
    match Get(fields, "type")
    case None => Err("Map block is missing block type.")
    case Some(tag) =>
      var typeString := if tag.JString? then tag.s else "";
      match ParseBlockType(typeString)
      case None => Err("Invalid MapBlockType: '" + typeString + "'")
      case Some(t) =>
        if !tag.JString? then Err("Invalid MapBlockType.")
        else
          var transform := match Get(fields, "transform") case None => JNull case Some(x) => x;
          ReadAs(t, fields, transform)
  }

  /** The object read as the subclass `t` names, with the transform already read. */
  function ReadAs(t: MapBlockType, fields: seq<(string, Json)>, transform: Json): (r: Result<MapBlock>)
    ensures r.Ok? ==> ImplementationType(r.value) == t
  {
    match t
    case block => ReadBlockBlock(fields, transform)
    case prop =>
      var p := ReadIdentifierField(fields, "prop");
      if p.Err? then Err(p.error) else Ok(PropBlock(transform, p.value))
    case entity =>
      var name := ReadNullableString(fields, "entity");
      if name.Err? then Err(name.error) else Ok(EntityBlock(transform, name.value))
    case text =>
      var info := ReadTextInfo(Get(fields, "text"));
      if info.Err? then Err(info.error) else Ok(TextBlock(transform, info.value))
  }

  /** The blocks `Serialize` writes in a form `ReadJson` gives back: identifiers that parse
      and no empty `effects` array (which is dropped on write). */
  predicate Readable(b: MapBlock)
  {
    match b
    case BlockBlock(_, _, material, effects) => WellFormed(material) && effects != Some([])
    case PropBlock(_, p) => WellFormed(p)
    case EntityBlock(_, _) => true
    case TextBlock(_, _) => true
  }

  /** Round trip: reading what `Serialize` wrote gives the block back. */
  lemma ReadSerialized(b: MapBlock)
    requires Readable(b)
    ensures ReadJson(Serialize(b)) == Ok(b)
  {
    var j := Serialize(b);
    GetAt(j, "type", 0);
    GetAt(j, "transform", 1);
    ParseBlockTypeName(ImplementationType(b));
    ReadSerializedAs(b);
  }

  lemma ReadSerializedAs(b: MapBlock)
    requires Readable(b)
    ensures ReadAs(ImplementationType(b), Serialize(b), b.transform) == Ok(b)
  {
    var j := Serialize(b);
    match b
    case BlockBlock(_, _, _, _) => ReadSerializedBlock(b);
    case PropBlock(_, p) =>
      GetAt(j, "prop", 2);
      ReadPrintedIdentifier(j, "prop", p);
    case EntityBlock(_, _) =>
      GetAt(j, "entity", 2);
      assert ReadNullableString(j, "entity") == Ok(b.entityName);
    case TextBlock(_, info) => ReadSerializedText(b);
  }

  lemma ReadSerializedBlock(b: MapBlock)
    requires b.BlockBlock? && Readable(b)
    ensures ReadBlockBlock(Serialize(b), b.transform) == Ok(b)
  {
    var j := Serialize(b);
    ReadSerializedShape(b);
    GetAt(j, "material", 3);
    ReadPrintedIdentifier(j, "material", b.material);
    ReadSerializedEffects(b);
  }

  lemma ReadSerializedShape(b: MapBlock)
    requires b.BlockBlock?
    ensures ReadShape(Serialize(b)) == Ok(b.shape)
  {
    GetAt(Serialize(b), "shape", 2);
  }

  lemma ReadSerializedEffects(b: MapBlock)
    requires b.BlockBlock? && b.effects != Some([])
    ensures ReadEffects(Serialize(b)) == Ok(b.effects)
  {
  }

  /** A property holding a well-formed identifier's text reads back as that identifier. */
  lemma ReadPrintedIdentifier(fields: seq<(string, Json)>, key: string, id: Identifier)
    requires WellFormed(id) && Get(fields, key) == Some(JString(ToString(id)))
    ensures ReadIdentifierField(fields, key) == Ok(id)
  {
    ParseToString(id);
  }

  lemma ReadSerializedText(b: MapBlock)
    requires b.TextBlock?
    ensures ReadTextInfo(Get(Serialize(b), "text")) == Ok(b.textInfo)
  {
    GetAt(Serialize(b), "text", 2);
    ReadSerializedTextInfo(b.textInfo);
  }

  lemma ReadSerializedTextInfo(info: TextInfo)
    ensures ReadTextInfo(Some(JObject(SerializeTextInfo(info)))) == Ok(info)
  {
    var t := SerializeTextInfo(info);
    GetAt(t, "content", 0);
    GetAt(t, "color", 1);
    assert ReadNullableString(t, "content") == Ok(info.content);
    assert ReadWrap(t) == Ok(info.wrap);
    assert ReadColor(t) == info.color;
  }
}
