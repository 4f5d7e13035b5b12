# PWAssetEditor asset core, in Dafny

PWAssetEditor is an editor for the assets of a game: **materials** (a colour or a texture),
**props** (a 3D model with materials in its slots) and **maps** (a list of map blocks: solid
blocks, placed props, entities and texts). Every asset is named by an `Identifier`
`author.type.name`. All loaded assets sit in an `AssetLibrary`. The library knows which
identifiers are defined and which assets have changes still to save. It can also rename an
identifier or an author across every asset that uses it.

This project models that core:

- `wrappers.dfy`: `Option` and `Result`.
- `strings.dfy`, `paths.dfy`, `linq.dfy`, `json.dfy`: the .NET string, `System.IO.Path`, LINQ
  and JSON-token operations the core calls, written out as functions with their own contracts.
- `identifiers.dfy`: `Identifier` and `AssetType`. This covers parsing, printing, ordering,
  validity, author renaming and the JSON converter's reader.
- `asset_utils.dfy`: `AssetUtils.ValidateIdentifier`, `CanTruncatePath` and `TruncatePath`
  (a `while` loop over path segments), plus `AssetExtensionMethods.GetSubFile` (both
  overloads) and `GetDirectory`.
- `map_blocks.dfy`: the four map-block kinds as one sum type. It covers their dependencies and
  refactoring, their serialized form and the tag-dispatching reader. Reading back what
  `Serialize` wrote gives the block again.
- `props.dfy`, `materials.dfy`, `maps.dfy`: the three asset kinds as classes. These are the
  fields the source updates in place. A prop's `materials` and a map's `blocks` are arrays
  rewritten slot by slot. Each class has a value view (`Value()`), and its methods are proved
  against pure functions of that value.
- `assets.dfy`: the `IAsset` interface as a sum `Asset` over the three classes. It dispatches
  `Identifier`, `GetAllDependedAssets`, `RefactorIdentifier` and `RefactorAuthorName`.
- `asset_library.dfy`: the `AssetLibrary` class. Its fields are `assets`,
  `definedIdentifiers` and `changesToSave`. Each operation's `ensures` gives the whole new
  state. The refactoring loops are proved against the functions `RetargetAll`, `RecordAll`,
  `RenameAll`, `RenamePairs` and `RetargetSeq`, and lemmas state what those functions
  guarantee.

Where the code and its documentation disagree, the model follows the code:

- `AssetLibrary.Changes` is documented as sorted by identifier. The code keeps the first
  entry recorded for each identifier, in the order recorded (`AssetLibrary.Changes`,
  `FirstPerKey`).
- `Map.Validate` does not look at the blocks.
- `RemoveByIdentifier` is not a precondition-guarded operation. It first drops the pending
  changes and undefines the identifier. Then `First()` throws when no asset has the
  identifier. The model returns that failure as `Err`, with the earlier updates kept.

## Model

| member | source | states |
|---|---|---|
| Identifiers.Ordinal | PWAssetEditor/Library/Asset/AssetType.cs:3-16 | the enum order: material is 0, below prop and map, all below 3 |
| Identifiers.ParseAssetType | PWAssetEditor/Library/Identifier.cs:50 | only the three member names parse, each to the member that prints as it |
| Identifiers.ParseTypeName | PWAssetEditor/Library/Identifier.cs:50-53 | every type name parses back to its type and holds no dot |
| Identifiers.TryParse | PWAssetEditor/Library/Identifier.cs:40-59 | fails unless there are exactly three non-empty dot-separated pieces and the middle one names a type; a result prints as those pieces joined and is well formed |
| Identifiers.ParseToString | PWAssetEditor/Library/Identifier.cs:40-68 | round trip: an identifier whose author and name are non-empty and dot-free parses back from its text |
| Identifiers.DoubledDotIgnored | PWAssetEditor/Library/Identifier.cs:42 | `a..b` parses exactly as `a.b` |
| Identifiers.OuterDotsIgnored | PWAssetEditor/Library/Identifier.cs:42 | a leading or a trailing dot does not change the parse |
| Identifiers.ToStringRoot | PWAssetEditor/Library/Identifier.cs:65-72 | the root followed by the asset name is the full text; it is a proper prefix exactly when the name is non-empty, starts with the author and ends in a dot |
| Identifiers.ToStringLayout | PWAssetEditor/Library/Identifier.cs:65-68 | the text is the author, a dot, the type name, a dot and the asset name, its length the sum of theirs plus two |
| Identifiers.IsValid | PWAssetEditor/Library/Identifier.cs:95-97 | a valid identifier has a non-empty author and asset name |
| Identifiers.MutateAuthorName | PWAssetEditor/Library/Identifier.cs:98-101 | only the author changes; the text is the new author followed by the old text after the old author |
| Identifiers.CompareOrdinal | PWAssetEditor/Library/Identifier.cs:105 | a sign in -1..1 that is 0 exactly for equal strings |
| Identifiers.CompareOrdinalAntisymmetric | PWAssetEditor/Library/Identifier.cs:105 | swapping the arguments negates the ordinal comparison |
| Identifiers.CompareOrdinalTransitive | PWAssetEditor/Library/Identifier.cs:105 | the ordinal string order is transitive |
| Identifiers.CompareTo | PWAssetEditor/Library/Identifier.cs:103-112 | a sign in -1..1 that is 0 exactly when the identifiers are equal (`Equals`) |
| Identifiers.CompareToAntisymmetric | PWAssetEditor/Library/Identifier.cs:103-112 | `CompareTo(x, y) == -CompareTo(y, x)` |
| Identifiers.CompareToTransitive | PWAssetEditor/Library/Identifier.cs:103-112 | the identifier order is transitive |
| Identifiers.CompareToTotal | PWAssetEditor/Library/Identifier.cs:103-112 | of two distinct identifiers exactly one is smaller |
| Identifiers.ReadJson | PWAssetEditor/Library/Identifier.cs:117-128 | succeeds exactly for a non-null string that parses, with the parsed identifier |
| Linq.Except | PWAssetEditor/Library/IAsset.cs:549 | the elements outside the excluded set, all of them, each once, in the order of their first occurrence |
| Linq.Distinct | PWAssetEditor/Library/Asset/Map.cs:118-120 | the same elements, each once, in the order of their first occurrence |
| Linq.Replace | PWAssetEditor/Library/Asset/Prop.cs:509-514 | same length; each slot holding `from` becomes `to`, the others are kept |
| Linq.ReplaceMembership | PWAssetEditor/Library/Asset/Prop.cs:509-514 | after the replacement `from` is gone, `to` is present when `from` was, and nothing else enters or leaves |
| Paths.GetDirectoryName | PWAssetEditor/Library/IAsset.cs:456 | the text before the last `\` separator (no separator follows it), or empty when there is none |
| Paths.GetExtension | PWAssetEditor/Library/Asset/Prop.cs:44 | a non-empty extension is a dot and at least one more character, ends the path, and holds no dot or separator after its first character |
| Paths.Combine | PWAssetEditor/Library/IAsset.cs:475 | the result is empty exactly when every part is |
| Paths.CombineOnto | PWAssetEditor/Library/IAsset.cs:475 | the text so far is a prefix of the result, which is empty exactly when that text and every part are |
| Paths.CombinePlainSegments | PWAssetEditor/Library/IAsset.cs:475 | combining non-empty segments that end in no separator joins them with one separator each |
| AssetUtils.ValidateIdentifier | PWAssetEditor/Library/IAsset.cs:411-419 | true exactly for a defined identifier; otherwise exactly one message is appended |
| AssetUtils.RenameAuthor | PWAssetEditor/Library/Asset/Prop.cs:521-535 | renames exactly an identifier by `from`, reports whether it did, and with `from != to` leaves no identifier by `from` |
| AssetUtils.CanTruncatePath | PWAssetEditor/Library/IAsset.cs:424-441 | false when either path is empty; otherwise true exactly when the file path starts, ignoring case, with the asset path's directory |
| AssetUtils.CommonPrefixLength | PWAssetEditor/Library/IAsset.cs:465-469 | the length of a common prefix that cannot be extended |
| AssetUtils.CommonPrefixUnique | PWAssetEditor/Library/IAsset.cs:465-469 | any common prefix that cannot be extended has that length |
| AssetUtils.TruncatedSegments | PWAssetEditor/Library/IAsset.cs:460-475 | the kept segments are a suffix of the file's segments, what precedes them is a prefix of the directory's, and a file below the directory keeps exactly its extra segments |
| AssetUtils.TruncatePath | PWAssetEditor/Library/IAsset.cs:445-476 | empty for an empty file path; the file path itself when the asset path or its directory is empty; otherwise the combined segments after the longest common prefix |
| AssetExtensionMethods.SubFileSegments | PWAssetEditor/Library/IAsset.cs:546-549 | the directory segments first, then exactly the file segments not among them, each once |
| AssetExtensionMethods.GetSubFileOfPath | PWAssetEditor/Library/IAsset.cs:535-553 | the file unchanged when the JSON path or its directory is empty; otherwise those segments combined with a separator always added to the first |
| AssetExtensionMethods.GetSubFile | PWAssetEditor/Library/IAsset.cs:498-520 | as above, but the first segment gets a separator only when it ends, ordinally, in ':', where it agrees with the string overload |
| AssetExtensionMethods.GetDirectory | PWAssetEditor/Library/IAsset.cs:560-564 | empty for an empty JSON path or one with no `\` separator; otherwise the text before the last separator |
| MapBlocks.ParseBlockType | PWAssetEditor/Library/MapBlocks/MapBlock.cs:52-53 | only the four tag names parse, each to the kind that prints as it |
| MapBlocks.ParseBlockTypeName | PWAssetEditor/Library/MapBlocks/MapBlock.cs:36-42 | every one of the four kinds parses back from its name |
| MapBlocks.ParseShape | PWAssetEditor/Library/MapBlocks/MapBlockBlock.cs:61-70 | a shape name parses to exactly its shape |
| MapBlocks.ImplementationType | PWAssetEditor/Library/MapBlocks/MapBlock.cs:11 | each of the four kinds reports its own tag, and no other kind reports it |
| MapBlocks.DependedAssets | PWAssetEditor/Library/MapBlocks/MapBlockBlock.cs:23 | a block depends on exactly its material, a prop block on exactly its prop, entities and texts on nothing |
| MapBlocks.RefactorIdentifier | PWAssetEditor/Library/MapBlocks/MapBlockBlock.cs:13-22 | reports a change exactly when the block depends on `from`; then only that field becomes `to`, otherwise the block is unchanged |
| MapBlocks.RefactorRewritesDependencies | PWAssetEditor/Library/MapBlocks/MapBlockProp.cs:11-21 | the refactored block keeps its kind and depends on the dependencies with `from` replaced by `to` |
| MapBlocks.SerializeTextInfo | PWAssetEditor/Library/MapBlocks/MapBlockText.cs:37-53 | writes content, color, wrap; `wrap` is the number when set and an explicit null otherwise |
| MapBlocks.ShouldWrapText | PWAssetEditor/Library/MapBlocks/MapBlockText.cs:59 | a text wraps exactly when it has a wrap distance |
| MapBlocks.Serialize | PWAssetEditor/Library/MapBlocks/MapBlockBlock.cs:24-36 | `type` (the kind's tag) and `transform` first; `effects` appears exactly for a block with non-empty effects, passed through unchanged |
| MapBlocks.ReadIdentifierField | PWAssetEditor/Library/MapBlocks/MapBlockBlock.cs:47-48 | a null identifier is an error, an absent one the default identifier, a read one the parse of the string |
| MapBlocks.ReadJson | PWAssetEditor/Library/MapBlocks/MapBlock.cs:46-68 | a missing or unknown `type` is an error; a block read carries the tag it was read with |
| MapBlocks.ReadAs | PWAssetEditor/Library/MapBlocks/MapBlock.cs:55-67 | the block built is of the kind the tag names |
| MapBlocks.ReadSerialized | PWAssetEditor/Library/MapBlocks/MapBlock.cs:46-68 | round trip: reading a serialized block gives the block back |
| MapBlocks.ReadSerializedTextInfo | PWAssetEditor/Library/MapBlocks/MapBlockText.cs:37-53 | round trip of the text info, an absent wrap included |
| MapBlocks.ReadSerializedEffects | PWAssetEditor/Library/MapBlocks/MapBlockBlock.cs:33-34 | effects that are absent or non-empty read back as written |
| Props.IsModelFileAllowed | PWAssetEditor/Library/Asset/Prop.cs:39-47 | false for a blank path; otherwise true exactly when there is an extension and the path ends, ignoring case, in a supported model type |
| Props.PropProperties.Materials | PWAssetEditor/Library/Asset/Prop.cs:566-568 | `[material]` when the single material is set, else the array, else nothing |
| Props.DependedAssets | PWAssetEditor/Library/Asset/Prop.cs:220 | a prop depends on exactly its materials |
| Props.UndefinedOf | PWAssetEditor/Library/Asset/Prop.cs:158-162 | the undefined identifiers of the list, each drawn from it, with every undefined one included |
| Props.UndefinedMessages | PWAssetEditor/Library/Asset/Prop.cs:158-162 | one message per undefined material, in list order (the `i`th names the `i`th undefined identifier); none exactly when every material is defined |
| Props.UndefinedReported | PWAssetEditor/Library/Asset/Prop.cs:158-162 | every undefined material has its message among them |
| Props.ValidateStep | PWAssetEditor/Library/Asset/Prop.cs:160-162 | one more identifier validated keeps the messages equal to those of the longer prefix |
| Props.ValidateAll | PWAssetEditor/Library/Asset/Prop.cs:158-162 | every material is checked with no short cut: one message per undefined material, in order, and success exactly when all are defined |
| Props.IsFilledOut | PWAssetEditor/Library/Asset/Prop.cs:447-492 | as written: every prop filled out when checked is filled out, and the only others have a `materials` array and a missing model file |
| Props.IsFilledOutChecked | PWAssetEditor/Library/Asset/Prop.cs:447-492 | a prop is filled out exactly when it passes every check of `Validate` and has a name |
| Props.IsFilledOutSkipsModelCheck | PWAssetEditor/Library/Asset/Prop.cs:479-490 | a prop with a `materials` array and a missing model file counts as filled out as written, but not when checked |
| Props.IsFilledOutAgreesWithSingleMaterial | PWAssetEditor/Library/Asset/Prop.cs:472-490 | with a single material, or with the model file present, the written and the checked versions agree |
| Props.ReferencedFiles | PWAssetEditor/Library/Asset/Prop.cs:201-219 | nothing without a JSON path; otherwise that path, then the model file located beside it when one is set |
| Props.IdentifierStrings | PWAssetEditor/Library/Asset/Prop.cs:235-240 | each identifier written as its text, slot by slot |
| Props.Serialize | PWAssetEditor/Library/Asset/Prop.cs:225-243 | keys `identifier`, `prop`; the prop object holds the name, the model path, the base scale and the materials written by slot; a well-formed identifier's text parses back to it |
| Props.SerializedMaterialsParse | PWAssetEditor/Library/Asset/Prop.cs:235-240 | the written material names parse back to the prop's materials |
| Props.Refactored | PWAssetEditor/Library/Asset/Prop.cs:493-520 | a change is reported exactly when `from` is among the materials, which become them with `from` replaced by `to`; which field holds them and everything else is kept |
| Props.ReplaceIn | PWAssetEditor/Library/Asset/Prop.cs:506-517 | the array in place: each slot holding `from` becomes `to`, and the result says whether any did |
| Props.Prop.ValidateModel | PWAssetEditor/Library/Asset/Prop.cs:126-163 | the model file's extension, its presence, then every material, each failure with its message |
| Props.Prop.Validate | PWAssetEditor/Library/Asset/Prop.cs:84-124 | succeeds exactly when every check passes, adding nothing; a missing or invalid identifier, a zero base scale, or both or neither material field each fail with their one message |
| Props.Prop.ValidateShaped | PWAssetEditor/Library/Asset/Prop.cs:105-123 | after the first checks, success exactly when the rest pass, only adding messages |
| Props.Prop.RefactorIdentifier | PWAssetEditor/Library/Asset/Prop.cs:493-520 | the prop's new state and result are those of `Props.Refactored`, the array rewritten in place |
| Props.Prop.RefactorAuthorName | PWAssetEditor/Library/Asset/Prop.cs:521-535 | the identifier and result are `RenameAuthor`'s; nothing else changes |
| Props.Prop.SetIdentifier | PWAssetEditor/Library/Asset/Prop.cs:193-197 | only the identifier changes |
| Materials.IsTextureFileAllowed | PWAssetEditor/Library/Asset/Material.cs:26-33 | false without a dot; otherwise true exactly when the name ends, ignoring case, in a supported texture type |
| Materials.SerializeProperties | PWAssetEditor/Library/Asset/Material.cs:384-400 | name, roughness, metallic, alpha, then `color` exactly when there is no texture and `texture` exactly when there is one |
| Materials.ReadProperties | PWAssetEditor/Library/Asset/Material.cs:457-484 | neither texture nor colour is an error; the colour read is kept without a texture and the default with one |
| Materials.ReadSerializedProperties | PWAssetEditor/Library/Asset/Material.cs:384-400 | the round trip gives back the properties exactly when there is no texture or the colour is the default |
| Materials.ReadSerializedAs | PWAssetEditor/Library/Asset/Material.cs:384-400 | what the round trip gives back: the properties, with the colour reset to the default when textured |
| Materials.ReadFieldsAs | PWAssetEditor/Library/Asset/Material.cs:461-481 | any object holding the serialized fields reads as that round trip |
| Materials.ReferencedFiles | PWAssetEditor/Library/Asset/Material.cs:137-155 | nothing without a JSON path; otherwise that path, then the texture located beside it when one is set |
| Materials.Serialize | PWAssetEditor/Library/Asset/Material.cs:178-185 | keys `identifier`, `material`, the second holding the serialized properties; a well-formed identifier's text parses back to it |
| Materials.Material.ValidateTexture | PWAssetEditor/Library/Asset/Material.cs:85-104 | success exactly when the texture type is allowed and the file exists, each failure with its message |
| Materials.Material.Validate | PWAssetEditor/Library/Asset/Material.cs:52-84 | success exactly when every check passes, adding nothing; otherwise exactly one message for the first failing check |
| Materials.Material.RefactorIdentifier | PWAssetEditor/Library/Asset/Material.cs:360-363 | never reports a change and changes nothing |
| Materials.Material.RefactorAuthorName | PWAssetEditor/Library/Asset/Material.cs:364-378 | the identifier and result are `RenameAuthor`'s; nothing else changes |
| Materials.Material.SetIdentifier | PWAssetEditor/Library/Asset/Material.cs:129-133 | only the identifier changes |
| Maps.BlockDependencies | PWAssetEditor/Library/Asset/Map.cs:118-119 | exactly what some block depends on |
| Maps.DependedAssets | PWAssetEditor/Library/Asset/Map.cs:118-120 | the same identifiers, each once |
| Maps.RefactorBlocks | PWAssetEditor/Library/Asset/Map.cs:200-204 | every block refactored in order, with no short cut; a change is reported exactly when some block depends on `from` |
| Maps.RefactorRewritesDependencies | PWAssetEditor/Library/Asset/Map.cs:200-204 | after the refactoring the blocks depend on `to` in place of `from`, and on everything else as before |
| Maps.RefactorMapDependencies | PWAssetEditor/Library/Asset/Map.cs:200-204 | the same for the map's duplicate-free dependency list |
| Maps.ObjectEntries | PWAssetEditor/Library/Asset/Map.cs:67-69 | exactly the object-typed entries |
| Maps.ObjectEntriesAppend | PWAssetEditor/Library/Asset/Map.cs:67-69 | the filter keeps the original order |
| Maps.ReadBlocks | PWAssetEditor/Library/Asset/Map.cs:70-71 | succeeds exactly when every object reads, giving one block per object in order |
| Maps.SerializeBlocks | PWAssetEditor/Library/Asset/Map.cs:138-143 | one serialized object per block, in block order |
| Maps.IsFilledOut | PWAssetEditor/Library/Asset/Map.cs:192-198 | a filled-out map has an identifier with a non-empty author and name, and a non-empty name and description; it holds exactly when the identifier is valid and the written name and description are non-blank strings |
| Maps.Serialize | PWAssetEditor/Library/Asset/Map.cs:127-145 | keys `identifier`, `map`, `blocks`; the map object holds the name, the description (null when unset) and the death plane, the last the serialized blocks; a well-formed identifier's text parses back to it |
| Maps.ReadSerializedBlocks | PWAssetEditor/Library/Asset/Map.cs:65-72 | loading the written blocks array gives the same blocks in the same order |
| Maps.ReferencedFiles | PWAssetEditor/Library/Asset/Map.cs:110-117 | nothing for an empty JSON path, otherwise exactly that path |
| Maps.Map.Validate | PWAssetEditor/Library/Asset/Map.cs:37-64 | success exactly when `IsFilledOut`: a valid identifier, a name and a description, with one message for the first failure; blocks are not checked |
| Maps.Map.LoadBlocksFromJson | PWAssetEditor/Library/Asset/Map.cs:65-72 | on success the blocks are a new array of the object entries read in order; on failure they are unchanged |
| Maps.Map.RefactorIdentifier | PWAssetEditor/Library/Asset/Map.cs:200-204 | the blocks in place and the result are those of `RefactorBlocks` |
| Maps.Map.RefactorAuthorName | PWAssetEditor/Library/Asset/Map.cs:205-219 | the identifier and result are `RenameAuthor`'s; nothing else changes |
| Maps.Map.SetIdentifier | PWAssetEditor/Library/Asset/Map.cs:102-106 | only the identifier changes |
| Assets.Dependencies | PWAssetEditor/Library/IAsset.cs:83-86 | a material depends on nothing |
| Assets.DependenciesAre | PWAssetEditor/Library/IAsset.cs:83-86 | a prop depends on exactly its materials and a map on exactly what its blocks depend on |
| Assets.WithIdentifier | PWAssetEditor/Library/IAsset.cs:68-71 | the setter sets the identifier |
| Assets.Refactored | PWAssetEditor/Library/IAsset.cs:34-41 | keeps the identifier and reports a change exactly when the asset depends on `from` |
| Assets.RefactoredDependencies | PWAssetEditor/Library/IAsset.cs:34-41 | afterwards the asset depends on `to` in place of `from`, and on everything else as before |
| Assets.AuthorRenamed | PWAssetEditor/Library/IAsset.cs:42-48 | only the identifier changes, as `RenameAuthor` says |
| Assets.SetIdentifier | PWAssetEditor/Library/IAsset.cs:71 | the asset's state with the new identifier |
| Assets.RefactorIdentifier | PWAssetEditor/Library/IAsset.cs:41 | the asset's new state and result are `Refactored`'s |
| Assets.RefactorAuthorName | PWAssetEditor/Library/IAsset.cs:48 | the asset's new state and result are `AuthorRenamed`'s |
| Library.IsValidAssetsDirectory | PWAssetEditor/Library/AssetLibrary.cs:163-167 | true exactly when the path ends, ordinally, in `pw-assets` |
| Library.LoadDirectoryError | PWAssetEditor/Library/AssetLibrary.cs:345-362 | no error exactly for a set, valid directory; the message for an unset one |
| Library.FirstPerKey | PWAssetEditor/Library/AssetLibrary.cs:52-55 | the keys not yet seen, each once, with the first asset that has each |
| Library.FirstPerKeyShift | PWAssetEditor/Library/AssetLibrary.cs:52-55 | a first occurrence in the tail, with another key at the head, is a first occurrence in the whole |
| Library.Without | PWAssetEditor/Library/AssetLibrary.cs:260-264 | exactly the assets without that identifier, with no duplicates when there were none |
| Library.WithoutAppend | PWAssetEditor/Library/AssetLibrary.cs:260-264 | the removal keeps the original order: it distributes over concatenation |
| Library.DependingOn | PWAssetEditor/Library/AssetLibrary.cs:97-103 | exactly the assets whose dependencies name the identifier |
| Library.DependingOnSingle | PWAssetEditor/Library/AssetLibrary.cs:97-103 | one asset is kept exactly when its dependencies name the identifier |
| Library.DependingOnAppend | PWAssetEditor/Library/AssetLibrary.cs:97-103 | the selection keeps order and multiplicity, like `Where`: it distributes over concatenation |
| Library.FindMaterial | PWAssetEditor/Library/AssetLibrary.cs:111-114 | the first material with that identifier, as `FirstOrDefault` gives; found exactly when one is loaded |
| Library.ResolveAll | PWAssetEditor/Library/AssetLibrary.cs:109-118 | only materials with requested identifiers; every material found is included; nothing is skipped exactly when all are found |
| Library.ResolveAllSingle | PWAssetEditor/Library/AssetLibrary.cs:109-118 | one identifier yields the material found for it, or nothing |
| Library.ResolveAllAppend | PWAssetEditor/Library/AssetLibrary.cs:109-118 | the result follows the order and multiplicity of the requested identifiers: it distributes over concatenation |
| Library.Authors | PWAssetEditor/Library/AssetLibrary.cs:59-62 | exactly the authors of the identifiers, each once |
| Library.Retargeted | PWAssetEditor/Library/AssetLibrary.cs:293-303 | an asset with identifier `from` is renamed `to`, others keep theirs |
| Library.RetargetedDependencies | PWAssetEditor/Library/AssetLibrary.cs:293-303 | a retargeted asset depends on `to` in place of `from` |
| Library.Recorded | PWAssetEditor/Library/AssetLibrary.cs:295-302 | the asset is recorded once if renamed and once more if its dependencies changed |
| Library.RetargetAll | PWAssetEditor/Library/AssetLibrary.cs:293-303 | every asset retargeted, in place |
| Library.RetargetAllClears | PWAssetEditor/Library/AssetLibrary.cs:290-303 | with `from != to`, afterwards no asset is `from` or depends on it |
| Library.RecordAllWithin | PWAssetEditor/Library/AssetLibrary.cs:293-303 | only loaded assets are recorded |
| Library.RecordAllIncludes | PWAssetEditor/Library/AssetLibrary.cs:293-303 | every asset that was `from` or depended on it is recorded |
| Library.RenamePairs | PWAssetEditor/Library/AssetLibrary.cs:313-327 | one pair (old, new identifier) per asset whose author was renamed, with the new one the old under the new author |
| Library.RenameAll | PWAssetEditor/Library/AssetLibrary.cs:315-327 | every asset with its author renamed |
| Library.RenamedAssets | PWAssetEditor/Library/AssetLibrary.cs:315-327 | every renamed asset is recorded, and only loaded ones |
| Library.RetargetSeq | PWAssetEditor/Library/AssetLibrary.cs:331-336 | one state per asset after the per-pair refactorings |
| Library.RetargetAllKeepsAuthorOut | PWAssetEditor/Library/AssetLibrary.cs:310-337 | a refactoring to an identifier by another author brings no asset back to `name` |
| Library.RetargetSeqKeepsAuthorOut | PWAssetEditor/Library/AssetLibrary.cs:310-337 | nor does a sequence of them |
| Library.RedefineSeqReplaces | PWAssetEditor/Library/AssetLibrary.cs:310-337 | each renamed identifier's new form is defined and its old form is not |
| Library.RetargetAllKeepsClear | PWAssetEditor/Library/AssetLibrary.cs:293-303 | a refactoring from an identifier by the old author to one by another author clears the dependencies on `from` and brings back none on identifiers already cleared |
| Library.RetargetSeqClears | PWAssetEditor/Library/AssetLibrary.cs:331-336 | after the second loop no asset depends on any identifier it renamed away |
| Library.AuthorNameRefactored | PWAssetEditor/Library/AssetLibrary.cs:310-337 | with distinct names, afterwards no asset is by the old author, every renamed identifier is replaced by its new form among the defined ones, and no asset depends on an old form |
| Library.RetargetAsset | PWAssetEditor/Library/AssetLibrary.cs:295-302 | one asset retargeted; the results say whether it was renamed and whether it depended on `from` |
| Library.RetargetIn | PWAssetEditor/Library/AssetLibrary.cs:293-303 | the same on one of the loaded assets, the others keeping their state |
| Library.RenameAsset | PWAssetEditor/Library/AssetLibrary.cs:317-326 | one asset's author renamed, reporting whether it was |
| Library.RenameIn | PWAssetEditor/Library/AssetLibrary.cs:317-326 | the same on one of the loaded assets, the others keeping their state |
| Library.RenameAt | PWAssetEditor/Library/AssetLibrary.cs:317-326 | also gives the (old, new) identifier pair exactly when the asset was renamed |
| Library.RetargetLoop | PWAssetEditor/Library/AssetLibrary.cs:293-303 | the loop: all assets become `RetargetAll` of their states and the recorded changes are `RecordAll` |
| Library.RetargetStep | PWAssetEditor/Library/AssetLibrary.cs:293-303 | one turn of that loop advances its invariant by one asset |
| Library.RenameLoop | PWAssetEditor/Library/AssetLibrary.cs:315-327 | the first loop of `RefactorAuthorName`: states `RenameAll`, recorded assets `RenamedAssets`, pairs `RenamePairs` |
| Library.RenameStep | PWAssetEditor/Library/AssetLibrary.cs:315-327 | one turn of that loop advances its invariant by one asset |
| Library.AssetLibrary.constructor | PWAssetEditor/Library/AssetLibrary.cs:134-140 | an empty library with the given directory |
| Library.AssetLibrary.Changes | PWAssetEditor/Library/AssetLibrary.cs:52-55 | recorded assets only, one per distinct identifier, in the order first recorded, each the first recorded for its identifier |
| Library.AssetLibrary.ExistingAuthorNames | PWAssetEditor/Library/AssetLibrary.cs:59-62 | exactly the authors of the loaded identifiers, each once |
| Library.AssetLibrary.GetAssetsThatDependOn | PWAssetEditor/Library/AssetLibrary.cs:97-103 | nothing for an asset without identifier; otherwise exactly the loaded assets depending on its identifier, in load order (`DependingOn` over the loaded assets) |
| Library.AssetLibrary.ResolveMaterials | PWAssetEditor/Library/AssetLibrary.cs:109-118 | loaded materials with requested identifiers, every one found included; exactly `ResolveAll` over the loaded assets, so in request order |
| Library.AssetLibrary.HasIdentifier | PWAssetEditor/Library/AssetLibrary.cs:278-281 | true exactly for a defined identifier; `AddAsset` makes it true and `RemoveAsset` false |
| Library.AssetLibrary.SetAssetsDirectory | PWAssetEditor/Library/AssetLibrary.cs:173-176 | only the directory changes |
| Library.AssetLibrary.AddAsset | PWAssetEditor/Library/AssetLibrary.cs:190-206 | with an identifier: appended to the assets and the changes, identifier defined; without one: refused and nothing changes |
| Library.AssetLibrary.Append | PWAssetEditor/Library/AssetLibrary.cs:195-197 | the successful path of `AddAsset` |
| Library.AssetLibrary.AssetChanged | PWAssetEditor/Library/AssetLibrary.cs:211-214 | appends one change and nothing else |
| Library.AssetLibrary.ClearChanges | PWAssetEditor/Library/AssetLibrary.cs:219-222 | empties the changes and nothing else |
| Library.AssetLibrary.ClearAssets | PWAssetEditor/Library/AssetLibrary.cs:226-230 | empties the assets and the defined identifiers, keeps the changes |
| Library.AssetLibrary.RemoveByIdentifier | PWAssetEditor/Library/AssetLibrary.cs:258-273 | changes without the identifier, identifier undefined; fails exactly when no asset has it, and otherwise keeps exactly the other assets in order |
| Library.AssetLibrary.RemoveAsset | PWAssetEditor/Library/AssetLibrary.cs:243-253 | an asset without identifier is refused with its message and nothing changes; otherwise its identifier is undefined, its pending changes are dropped in order, and it is removed from the loaded assets in order, failing exactly when none carries the identifier |
| Library.AssetLibrary.RefactorIdentifier | PWAssetEditor/Library/AssetLibrary.cs:288-304 | `from` undefined and `to` defined; assets become `RetargetAll`, the changes grow by `RecordAll` |
| Library.AssetLibrary.RefactorAuthorName | PWAssetEditor/Library/AssetLibrary.cs:310-337 | the first loop then a `RefactorIdentifier` per pair; with distinct names no asset is left by the old author and none depends on a renamed identifier's old form |
| Library.AssetLibrary.ApplyRenames | PWAssetEditor/Library/AssetLibrary.cs:331-336 | the second loop: each pair refactored in turn |
| Library.AssetLibrary.ApplyRename | PWAssetEditor/Library/AssetLibrary.cs:333-335 | one turn of that loop |
| Library.AssetLibrary.RegisterIdentifiers | PWAssetEditor/Library/AssetLibrary.cs:436-442 | every loaded asset's identifier is defined, nothing else changes |

## Left out

- The WinForms user interface: every form and designer file, the control builders in
  `AssetUtils` and the `CreateEditControls` methods. `CreateIdentifierDropDown`'s sorted
  list is part of that.
- Background-worker progress reporting and cancellation.
- File-system access. File existence is the parameter `existingFiles`. The
  directory enumeration and file reads of `Load`, `LoadMap`, `LoadProp` and `LoadMaterial`
  are not modelled; only `Load`'s early checks are (`LoadDirectoryError`). The `File.Delete`
  in `RemoveByIdentifier`, `Cleanup` and the default assets directory are not modelled.
- Newtonsoft's JSON machinery: parsing, duplicate keys, `ToObject`, converter plumbing. JSON
  is an abstract token tree. `MaterialPropertiesConverter.WriteJson`
  (PWAssetEditor/Library/Asset/Material.cs:433-456) is not modelled. It writes a different
  shape from `SerializeProperties`: no name, and the alpha clamped into the colour.
- Floating point. Numbers are `real`, with no NaN and no infinity. `MaterialColor`,
  `BlockVector3` and `BlockTransform` are kept as raw JSON tokens.
- Materials.Material.Validate: does not snap or clamp `alpha`, so the model's `Validate`
  changes nothing.
- Maps.IsFilledOut: drops the NaN and infinity tests on the map's numbers.
- AssetUtils.CanTruncatePath: takes `Path.GetFullPath` as the identity, never failing, and a
  root path's missing directory as the empty string.
- The `JsonFilePath` getters that build a default path from the containing library.
- The static flag behind `Prop.ValidateModel`'s one-time warning dialog, and the
  partially-supported model-type check that only feeds it.
- Identifiers.ParseAssetType and MapBlocks.ParseBlockType: accept only the exact, case-sensitive
  member names. `Enum.TryParse` also accepts numbers, surrounding white space and
  comma-separated names.
- MapBlocks.ParseShape and MapBlocks.ReadShape: accept only the exact, case-sensitive shape
  names. Newtonsoft's `StringEnumConverter` (MapBlockBlock.cs:61) also matches names without
  regard to case and accepts integer values.
- Null strings: C# strings that may be null are modelled as strings that are never null, with
  "" where the source leaves a field unset. So `default(Identifier)` has an empty author and
  name, where in C# both are null and `string.Compare(null, "")` is -1. `Props.Serialize`
  writes "" for an unset name or model path where Prop.cs:231-232 writes a JSON null.
  `Identifiers.CompareOrdinal` returns only the sign of .NET's result, not the difference of
  the first unequal characters; every caller uses only the sign.
- `Material.IsFilledOut`, `GetAssetsOfType`, `GetAssetsOfEnumType` and the typed
  `Maps`/`Props`/`Materials` views: they are plain filters with no property of their own
  beyond the validation the model proves.
- The workshop metadata in `MapInfo`.
- Aliasing of map blocks: blocks are values stored in the map's array, so one block object
  shared by two maps is not represented.
- Library.AssetLibrary.RefactorIdentifier and Library.AssetLibrary.RefactorAuthorName: the
  pending changes are appended once the loop has finished rather than interleaved with it.
  The resulting list is the same.
- Library.AssetLibrary.RegisterIdentifiers: gathers the identifiers before adding them,
  where `Load` adds each as it goes.
- Library.AssetLibrary.AddAsset: requires the new asset's objects to lie outside the
  library's own, so one asset object can never be listed twice. The program can do that.
  Editing a loaded asset's identifier and declining the refactor leaves the new identifier
  undefined, so PWAssetEditor/SingleAssetCreator.cs:102-120 adds the same object again.
  The source then lists it twice: it is validated twice and `GetAssetsThatDependOn`
  returns it twice. The model cannot represent that state.
- AssetExtensionMethods.GetDirectory and Paths.GetDirectoryName: only `\` separates
  directories; `/` does not, although the documentation example at
  PWAssetEditor/Library/IAsset.cs:486-492 uses it. A file at a drive root gives `C:` where
  .NET gives `C:\`, and doubled separators are not collapsed.
- Paths.Combine: does not restart at a rooted later part, as `Path.Combine` does; the core
  only combines segments produced by splitting on the separator.
- Strings.ToUpper: ASCII letters only; other letters keep their case.
- Library.IsValidAssetsDirectory and AssetExtensionMethods.GetSubFile: test the suffix
  (`pw-assets`, and `:` on the first segment) ordinally. The source calls
  `string.EndsWith(string)` (AssetLibrary.cs:166, IAsset.cs:516), which compares by the
  current culture and skips ignorable code points. So a name ending in a soft hyphen or a
  zero-width joiner after the suffix passes there and fails here.
- Identifiers.CompareOrdinal: compares Unicode scalar values, where .NET compares UTF-16 code
  units. The two orders differ only for characters beyond the Basic Multilingual Plane.

## Findings

| source | as written | input that shows it | evidently intended | confidence | as-written member | corrected member |
|---|---|---|---|---|---|---|
| PWAssetEditor/Library/Asset/Prop.cs:479-490 | `IsFilledOut` returns from the `materials` branch before the model file's existence is checked | identifier `a.prop.b`, name `n`, model `m.obj`, base scale 1, no single material, an empty `materials` array, JSON path `d\p.json`, no defined identifiers, no existing files: filled out as written | the model-file check applies to both branches, as in `Validate` | not executed | Props.IsFilledOutSkipsModelCheck | Props.IsFilledOutChecked |
