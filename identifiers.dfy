/** Identifier.cs and AssetType.cs: the `author.type.name` key that names every asset. */
module Identifiers {
  import opened Wrappers
  import opened Strings

  /** The three asset kinds, in declaration order (material = 0, prop = 1, map = 2). */
  datatype AssetType = Material | Prop | Map

  /** The enum's underlying value, which `CompareTo` orders by. */
  function Ordinal(t: AssetType): (n: nat)
    ensures n < 3
    ensures t == Material <==> n == 0
  {
    match t
    case Material => 0
    case Prop => 1
    case Map => 2
  }

  /** `AssetType.ToString()`: the member's name. */
  function TypeName(t: AssetType): string
  {
    match t
    case Material => "material"
    case Prop => "prop"
    case Map => "map"
  }

  /** `Enum.TryParse<AssetType>`, restricted to the exact (case-sensitive) member names. */
  function ParseAssetType(s: string): (r: Option<AssetType>)
    ensures r.Some? <==> (s == "material" || s == "prop" || s == "map")
    ensures r.Some? ==> TypeName(r.value) == s
  {
    if s == "material" then Some(Material)
    else if s == "prop" then Some(Prop)
    else if s == "map" then Some(Map)
    else None
  }

  lemma ParseTypeName(t: AssetType)
    ensures ParseAssetType(TypeName(t)) == Some(t)
    ensures '.' !in TypeName(t) && TypeName(t) != []
  {
  }

  datatype Identifier = Identifier(authorName: string, assetType: AssetType, assetName: string)

  /** `default(Identifier)`: null strings (read as empty) and the first enum member. */
  const DefaultIdentifier := Identifier("", Material, "")

  /** `Identifier.TryParse`: split on '.', dropping empty pieces; exactly three pieces are
      needed and the middle one must name an asset type. */
  function TryParse(input: string): (r: Option<Identifier>)
    ensures |SplitRemoveEmpty(input, '.')| != 3 ==> r.None?
    ensures |SplitRemoveEmpty(input, '.')| == 3 && ParseAssetType(SplitRemoveEmpty(input, '.')[1]).None? ==> r.None?
    ensures r.Some? ==> ToString(r.value) == Join3(SplitRemoveEmpty(input, '.'))
    ensures r.Some? ==> WellFormed(r.value)
  {
    FromParts(SplitRemoveEmpty(input, '.'))
  }

  /** The checks `TryParse` makes on the pieces of its input. */
  function FromParts(parts: seq<string>): Option<Identifier>
  {
    if |parts| != 3 then None
    else
      match ParseAssetType(parts[1])
      case None => None
      case Some(t) => Some(Identifier(parts[0], t, parts[2]))
  }

  /** Three pieces joined by dots. */
  function Join3(parts: seq<string>): string
    requires |parts| == 3
  {
    parts[0] + "." + parts[1] + "." + parts[2]
  }

  /** `Identifier.ToString()`: `author.type.name`. */
  function ToString(id: Identifier): string
  {
    id.authorName + "." + TypeName(id.assetType) + "." + id.assetName
  }

  /** The text of an identifier starts with the author and a dot, ends with a dot and the
      asset name, and has the type name in between. */
  lemma ToStringLayout(id: Identifier)
    ensures var s := ToString(id);
      && |s| == |id.authorName| + |TypeName(id.assetType)| + |id.assetName| + 2
      && s[..|id.authorName|] == id.authorName && s[|id.authorName|] == '.'
      && s[|id.authorName| + 1..|s| - |id.assetName| - 1] == TypeName(id.assetType)
      && s[|s| - |id.assetName| - 1..] == "." + id.assetName
  {
    var a, t, n := id.authorName, TypeName(id.assetType), id.assetName;
    var s := ToString(id);
    assert s == a + ("." + t + "." + n);
    assert s == (a + "." + t) + ("." + n);
    assert s == (a + ".") + t + ("." + n);
  }

  /** `Identifier.ToStringRoot()`: `author.type.`, the prefix locked while editing a name. */
  function ToStringRoot(id: Identifier): (r: string)
    ensures ToString(id) == r + id.assetName
    ensures |r| < |ToString(id)| <==> id.assetName != []
    ensures r[..|id.authorName|] == id.authorName && r[|r| - 1] == '.'
  {
    id.authorName + "." + TypeName(id.assetType) + "."
  }

  /** `Identifier.IsValid`: neither the author nor the asset name is blank. */
  predicate IsValid(id: Identifier)
    ensures IsValid(id) ==> id.authorName != [] && id.assetName != []
  {
    !IsNullOrWhiteSpace(id.authorName) && !IsNullOrWhiteSpace(id.assetName)
  }

  /** `Identifier.MutateAuthorName`: the same identifier under another author. */
  function MutateAuthorName(id: Identifier, newAuthorName: string): (r: Identifier)
    ensures r.authorName == newAuthorName
    ensures r.assetType == id.assetType && r.assetName == id.assetName
    ensures ToString(r) == newAuthorName + ToString(id)[|id.authorName|..]
  {
    var r := Identifier(newAuthorName, id.assetType, id.assetName);
    assert ToString(id)[|id.authorName|..] == "." + TypeName(id.assetType) + "." + id.assetName;
    r
  }

  /** `string.Compare(a, b, StringComparison.Ordinal)`, reduced to its sign. */
  function CompareOrdinal(a: string, b: string): (c: int)
    ensures -1 <= c <= 1
    ensures c == 0 <==> a == b
  {
    if a == [] && b == [] then 0
    else if a == [] then -1
    else if b == [] then 1
    else if a[0] < b[0] then -1
    else if b[0] < a[0] then 1
    else
      var c := CompareOrdinal(a[1..], b[1..]);
      assert c == 0 ==> a == [a[0]] + a[1..] == [b[0]] + b[1..] == b;
      c
  }

  lemma {:induction false} CompareOrdinalAntisymmetric(a: string, b: string)
    ensures CompareOrdinal(a, b) == -CompareOrdinal(b, a)
    decreases |a|
  {
    if a != [] && b != [] && a[0] == b[0] {
      CompareOrdinalAntisymmetric(a[1..], b[1..]);
    }
  }

  lemma {:induction false} CompareOrdinalTransitive(a: string, b: string, c: string)
    requires CompareOrdinal(a, b) < 0 && CompareOrdinal(b, c) < 0
    ensures CompareOrdinal(a, c) < 0
    decreases |a|
  {
    if a != [] && b != [] && c != [] && a[0] == b[0] && b[0] == c[0] {
      CompareOrdinalTransitive(a[1..], b[1..], c[1..]);
    }
  }

  /** `Identifier.CompareTo`: author (ordinal), then asset type (enum order), then
      asset name (ordinal); only the sign of the result is modelled. */
  function CompareTo(x: Identifier, y: Identifier): (c: int)
    ensures -1 <= c <= 1
    ensures c == 0 <==> x == y
  {
    var byAuthor := CompareOrdinal(x.authorName, y.authorName);
    if byAuthor != 0 then byAuthor
    else if Ordinal(x.assetType) < Ordinal(y.assetType) then -1
    else if Ordinal(y.assetType) < Ordinal(x.assetType) then 1
    else CompareOrdinal(x.assetName, y.assetName)
  }

  lemma CompareToAntisymmetric(x: Identifier, y: Identifier)
    ensures CompareTo(x, y) == -CompareTo(y, x)
  {
    CompareOrdinalAntisymmetric(x.authorName, y.authorName);
    CompareOrdinalAntisymmetric(x.assetName, y.assetName);
  }

  lemma CompareToTransitive(x: Identifier, y: Identifier, z: Identifier)
    requires CompareTo(x, y) < 0 && CompareTo(y, z) < 0
    ensures CompareTo(x, z) < 0
  {
    CompareOrdinalAntisymmetric(x.authorName, y.authorName);
    CompareOrdinalAntisymmetric(y.authorName, z.authorName);
    CompareOrdinalAntisymmetric(x.authorName, z.authorName);
    if CompareOrdinal(x.authorName, y.authorName) < 0 && CompareOrdinal(y.authorName, z.authorName) < 0 {
      CompareOrdinalTransitive(x.authorName, y.authorName, z.authorName);
    } else if CompareOrdinal(x.authorName, y.authorName) == 0 && CompareOrdinal(y.authorName, z.authorName) == 0
              && x.assetType == y.assetType && y.assetType == z.assetType {
      CompareOrdinalTransitive(x.assetName, y.assetName, z.assetName);
    }
  }

  /** A strict total order: of two identifiers, exactly one is smaller unless they are equal. */
  lemma CompareToTotal(x: Identifier, y: Identifier)
    ensures x == y || (CompareTo(x, y) < 0) != (CompareTo(y, x) < 0)
  {
    CompareToAntisymmetric(x, y);
  }

  /** Author and name are non-empty and free of dots: the identifiers `TryParse` yields. */
  predicate WellFormed(id: Identifier)
  {
    id.authorName != [] && '.' !in id.authorName && id.assetName != [] && '.' !in id.assetName
  }

  /** Round trip: a well-formed identifier parses back from its textual form. */
  lemma ParseToString(id: Identifier)
    requires WellFormed(id)
    ensures TryParse(ToString(id)) == Some(id)
  {
    var a, t, n := id.authorName, TypeName(id.assetType), id.assetName;
    ParseTypeName(id.assetType);
    SplitToString(id);
    var parts := [a, t, n];
    assert parts[0] == a && parts[1] == t && parts[2] == n;
    NonEmptyOfNonEmpty(parts);
  }

  /** The textual form of a well-formed identifier splits into its three parts. */
  lemma SplitToString(id: Identifier)
    requires WellFormed(id)
    ensures SplitOn(ToString(id), '.') == [id.authorName, TypeName(id.assetType), id.assetName]
  {
    var a, t, n := id.authorName, TypeName(id.assetType), id.assetName;
    ParseTypeName(id.assetType);
    assert ToString(id) == a + ['.'] + (t + ['.'] + n);
    SplitOnConcat(a, t + ['.'] + n, '.');
    SplitOnConcat(t, n, '.');
  }

  lemma {:induction false} NonEmptyOfNonEmpty(parts: seq<string>)
    requires forall k :: 0 <= k < |parts| ==> parts[k] != []
    ensures NonEmpty(parts) == parts
  {
    if parts != [] {
      NonEmptyOfNonEmpty(parts[1..]);
    }
  }

  /** A doubled dot reads like a single one. */
  lemma DoubledDotIgnored(a: string, b: string)
    ensures TryParse(a + ".." + b) == TryParse(a + "." + b)
  {
    assert a + ".." + b == a + ['.'] + ([] + ['.'] + b);
    SplitOnConcat(a, [] + ['.'] + b, '.');
    SplitOnConcat([], b, '.');
    assert a + "." + b == a + ['.'] + b;
    SplitOnConcat(a, b, '.');
    DropEmptyPiece(SplitOn(a, '.'), SplitOn(b, '.'));
    assert SplitOn(a, '.') + ([[]] + SplitOn(b, '.')) == SplitOn(a, '.') + [[]] + SplitOn(b, '.');
    assert SplitRemoveEmpty(a + ".." + b, '.') == SplitRemoveEmpty(a + "." + b, '.');
  }

  /** A leading or a trailing dot is ignored. */
  lemma OuterDotsIgnored(s: string)
    ensures TryParse("." + s) == TryParse(s)
    ensures TryParse(s + ".") == TryParse(s)
  {
    assert "." + s == [] + ['.'] + s;
    SplitOnConcat([], s, '.');
    DropEmptyPiece([], SplitOn(s, '.'));
    assert [] + [[]] + SplitOn(s, '.') == [[]] + SplitOn(s, '.');
    assert [] + SplitOn(s, '.') == SplitOn(s, '.');
    assert SplitRemoveEmpty("." + s, '.') == SplitRemoveEmpty(s, '.');
    assert s + "." == s + ['.'] + [];
    SplitOnConcat(s, [], '.');
    DropEmptyPiece(SplitOn(s, '.'), []);
    assert SplitOn(s, '.') + [[]] + [] == SplitOn(s, '.') + [[]];
    assert SplitOn(s, '.') + [] == SplitOn(s, '.');
    assert SplitRemoveEmpty(s + ".", '.') == SplitRemoveEmpty(s, '.');
  }

  lemma DropEmptyPiece(p: seq<string>, q: seq<string>)
    ensures NonEmpty(p + [[]] + q) == NonEmpty(p + q)
  {
    var e: seq<string> := [[]];
    assert NonEmpty(e) == [] by {
      assert e[1..] == [];
    }
    NonEmptyConcat(p, e);
    assert NonEmpty(p + e) == NonEmpty(p) + [];
    assert NonEmpty(p) + [] == NonEmpty(p);
    NonEmptyConcat(p + e, q);
    NonEmptyConcat(p, q);
  }

  /** `IdentifierJsonConverter.ReadJson`: a JSON null or an unparsable string is an error. */
  function ReadJson(value: Option<string>): (r: Result<Identifier>)
    ensures r.Ok? <==> value.Some? && TryParse(value.value).Some?
    ensures r.Ok? ==> Some(r.value) == TryParse(value.value)
  {
    match value
    case None => Err("Identifier was null and could not be parsed.")
    case Some(input) =>
      match TryParse(input)
      case Some(id) => Ok(id)
      case None => Err("Identifier ('" + input + "') could not be parsed. Use the format 'name.assetType.assetName'")
  }
}
