/** IAsset.cs: the interface every asset kind implements, as a sum over the three classes. */
module Assets {
  import opened Wrappers
  import opened Identifiers
  import opened AssetUtils
  import Props
  import Materials
  import Maps
  import MapBlocks
  import opened Linq

  /** A reference to an asset object; two entries are the same asset when they wrap the
      same object. */
  datatype Asset = PropAsset(prop: Props.Prop) | MaterialAsset(material: Materials.Material) | MapAsset(mapAsset: Maps.Map)

  /** The state of an asset, as a value. */
  datatype AssetValue = PropV(p: Props.PropValue) | MaterialV(m: Materials.MaterialValue) | MapV(mp: Maps.MapValue)

  /** The object the reference points at. */
  function Obj(a: Asset): object
  {
    match a
    case PropAsset(p) => p
    case MaterialAsset(m) => m
    case MapAsset(mp) => mp
  }

  /** The objects an asset's state lives in: the asset object and the array it owns. */
  function Footprint(a: Asset): (fp: set<object>)
    reads Obj(a)
    ensures Obj(a) in fp
  {
    match a
    case PropAsset(p) => if p.materials == null then {p} else {p, p.materials}
    case MaterialAsset(m) => {m}
    case MapAsset(mp) => {mp, mp.blocks}
  }

  /** `IAsset.Identifier` (the getter). */
  function IdOf(a: Asset): Option<Identifier>
    reads Obj(a)
  {
    match a
    case PropAsset(p) => p.identifier
    case MaterialAsset(m) => m.identifier
    case MapAsset(mp) => mp.identifier
  }

  function ValueIdentifier(v: AssetValue): Option<Identifier>
  {
    match v
    case PropV(p) => p.identifier
    case MaterialV(m) => m.identifier
    case MapV(mp) => mp.identifier
  }

  function Value(a: Asset): (v: AssetValue)
    reads Footprint(a)
    ensures ValueIdentifier(v) == IdOf(a)
    ensures a.PropAsset? <==> v.PropV?
    ensures a.MaterialAsset? <==> v.MaterialV?
  {
    match a
    case PropAsset(p) => PropV(p.Value())
    case MaterialAsset(m) => MaterialV(m.Value())
    case MapAsset(mp) => MapV(mp.Value())
  }

  /** `IAsset.GetAllDependedAssets`: a material depends on nothing. */
  function Dependencies(v: AssetValue): (deps: seq<Identifier>)
    ensures v.MaterialV? ==> deps == []
  {
    match v
    case PropV(p) => Props.DependedAssets(p)
    case MaterialV(_) => []
    case MapV(mp) => Maps.DependedAssets(mp)
  }

  /** A prop depends on exactly its materials, a map on exactly what its blocks depend on. */
  lemma DependenciesAre(v: AssetValue)
    ensures v.PropV? ==> forall id :: id in Dependencies(v) <==> id in v.p.properties.Materials()
    ensures v.MapV? ==> forall id :: id in Dependencies(v) <==> id in Maps.BlockDependencies(v.mp.blocks)
  {
  }

  /** The `Identifier` setter. */
  function WithIdentifier(v: AssetValue, id: Option<Identifier>): (r: AssetValue)
    ensures ValueIdentifier(r) == id
  {
    match v
    case PropV(p) => PropV(p.(identifier := id))
    case MaterialV(m) => MaterialV(m.(identifier := id))
    case MapV(mp) => MapV(mp.(identifier := id))
  }

  /** `IAsset.RefactorIdentifier(from, to)` on the asset's state: every dependency on `from`
      now names `to`, and the result says whether the asset depended on `from`. */
  function Refactored(v: AssetValue, from: Identifier, to: Identifier): (r: (AssetValue, bool))
    ensures ValueIdentifier(r.0) == ValueIdentifier(v)
    ensures r.1 <==> from in Dependencies(v)
  {
    match v
    case PropV(p) =>
      PropRefactorDependencies(p, from, to);
      var (p', changed) := Props.Refactored(p, from, to);
      (PropV(p'), changed)
    case MaterialV(m) => (v, false)
    case MapV(mp) =>
      MapRefactorDependencies(mp, from, to);
      var (blocks', changed) := Maps.RefactorBlocks(mp.blocks, from, to);
      (MapV(mp.(blocks := blocks')), changed)
  }

  /** After `RefactorIdentifier(from, to)` the asset depends on `to` in place of `from`, and on
      everything else it depended on. */
  lemma RefactoredDependencies(v: AssetValue, from: Identifier, to: Identifier)
    ensures forall id :: id in Dependencies(Refactored(v, from, to).0) <==>
      (id in Dependencies(v) && id != from) || (id == to && from in Dependencies(v))
  {
    match v
    case PropV(p) => PropRefactorDependencies(p, from, to);
    case MaterialV(m) =>
    case MapV(mp) => MapRefactorDependencies(mp, from, to);
  }

  lemma PropRefactorDependencies(p: Props.PropValue, from: Identifier, to: Identifier)
    ensures var deps := Props.DependedAssets(p);
      var r := Props.Refactored(p, from, to);
      (r.1 <==> from in deps) &&
      forall id :: id in Props.DependedAssets(r.0) <==> (id in deps && id != from) || (id == to && from in deps)
  {
    forall id {
      ReplaceMembership(p.properties.Materials(), from, to, id);
    }
  }

  lemma MapRefactorDependencies(mp: Maps.MapValue, from: Identifier, to: Identifier)
    ensures var deps := Maps.DependedAssets(mp);
      var r := Maps.RefactorBlocks(mp.blocks, from, to);
      (r.1 <==> from in deps) &&
      forall id :: id in Maps.DependedAssets(mp.(blocks := r.0)) <==> (id in deps && id != from) || (id == to && from in deps)
  {
    Maps.RefactorMapDependencies(mp, from, to);
  }

  /** `IAsset.RefactorAuthorName(from, to)` on the asset's state. */
  function AuthorRenamed(v: AssetValue, from: string, to: string): (r: (AssetValue, bool))
    ensures (ValueIdentifier(r.0), r.1) == RenameAuthor(ValueIdentifier(v), from, to)
    ensures r.0 == WithIdentifier(v, ValueIdentifier(r.0))
  {
    var (id, changed) := RenameAuthor(ValueIdentifier(v), from, to);
    (WithIdentifier(v, id), changed)
  }

  /** Sets the identifier of whichever asset `a` is. */
  method SetIdentifier(a: Asset, id: Option<Identifier>)
    modifies Obj(a)
    ensures Footprint(a) == old(Footprint(a))
    ensures Value(a) == WithIdentifier(old(Value(a)), id)
  {
    match a
    case PropAsset(p) => p.SetIdentifier(id);
    case MaterialAsset(m) => m.SetIdentifier(id);
    case MapAsset(mp) => mp.SetIdentifier(id);
  }

  /** Calls the asset's own `RefactorIdentifier`. */
  method RefactorIdentifier(a: Asset, from: Identifier, to: Identifier) returns (changed: bool)
    modifies Footprint(a)
    ensures Footprint(a) == old(Footprint(a))
    ensures (Value(a), changed) == Refactored(old(Value(a)), from, to)
  {
    match a
    case PropAsset(p) =>
      changed := p.RefactorIdentifier(from, to);
    case MaterialAsset(m) =>
      changed := m.RefactorIdentifier(from, to);
    case MapAsset(mp) =>
      changed := mp.RefactorIdentifier(from, to);
  }

  /** Calls the asset's own `RefactorAuthorName`. */
  method RefactorAuthorName(a: Asset, from: string, to: string) returns (changed: bool)
    modifies Obj(a)
    ensures Footprint(a) == old(Footprint(a))
    ensures (Value(a), changed) == AuthorRenamed(old(Value(a)), from, to)
  {
    match a
    case PropAsset(p) =>
      changed := p.RefactorAuthorName(from, to);
    case MaterialAsset(m) =>
      changed := m.RefactorAuthorName(from, to);
    case MapAsset(mp) =>
      changed := mp.RefactorAuthorName(from, to);
  }
}
