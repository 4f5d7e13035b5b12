/** `AssetUtils`: identifier validation against a library's defined identifiers and the
    segment arithmetic that makes a file path relative to an asset's directory. */
module AssetUtils {
  import opened Wrappers
  import opened Strings
  import opened Paths
  import opened Identifiers

  /** The message `ValidateIdentifier` records for an identifier nobody defines. */
  function UndefinedIdentifierMessage(input: Identifier, caller: Identifier): string
  {
    "Undefined identifier '" + ToString(input) + "' in asset " + ToString(caller) + "."
  }

  /** `ValidateIdentifier`: `defined` is the containing library's `definedIdentifiers`;
      the error list is passed in and the (possibly extended) list handed back. */
  method ValidateIdentifier(input: Identifier, caller: Identifier, defined: set<Identifier>,
                            errorMessages: seq<string>)
    returns (ok: bool, errors: seq<string>)
    ensures ok <==> input in defined
    ensures ok ==> errors == errorMessages
    ensures !ok ==> errors == errorMessages + [UndefinedIdentifierMessage(input, caller)]
  {
    if input in defined {
      return true, errorMessages;
    }
    errors := errorMessages + [UndefinedIdentifierMessage(input, caller)];
    ok := false;
  }

  /** The identifier an asset keeps after its `RefactorAuthorName(from, to)`, and that call's
      result: renamed exactly when its author is `from` (ordinal comparison), so a renamed
      asset never keeps the old author. */
  function RenameAuthor(id: Option<Identifier>, from: string, to: string): (r: (Option<Identifier>, bool))
    ensures r.1 <==> id.Some? && id.value.authorName == from
    ensures r.1 ==> r.0 == Some(MutateAuthorName(id.value, to))
    ensures !r.1 ==> r.0 == id
    ensures from != to && r.0.Some? ==> r.0.value.authorName != from
  {
    match id
    case None => (None, false)
    case Some(i) =>
      if i.authorName == from then (Some(MutateAuthorName(i, to)), true) else (id, false)
  }

  /** `CanTruncatePath`, with `Path.GetFullPath` taken as the identity on the
      already-absolute paths the editor passes. */
  function CanTruncatePath(assetPath: string, filePath: string): (b: bool)
    ensures assetPath == [] || filePath == [] ==> !b
    ensures b <==> assetPath != [] && filePath != [] &&
                   StartsWithIgnoreCase(filePath, GetDirectoryName(assetPath))
  {
    if assetPath == [] || filePath == [] then false
    else StartsWithIgnoreCase(filePath, GetDirectoryName(assetPath))
  }

  /** Length of the longest common prefix of two segment lists. */
  function CommonPrefixLength(a: seq<string>, b: seq<string>): (n: nat)
    ensures n <= |a| && n <= |b|
    ensures a[..n] == b[..n]
    ensures n < |a| && n < |b| ==> a[n] != b[n]
  {
    if a == [] || b == [] || a[0] != b[0] then 0
    else
      var m := CommonPrefixLength(a[1..], b[1..]);
      assert a[..m + 1] == [a[0]] + a[1..][..m];
      assert b[..m + 1] == [b[0]] + b[1..][..m];
      1 + m
  }

  /** Any length that is a common prefix and cannot be extended is the longest one. */
  lemma CommonPrefixUnique(a: seq<string>, b: seq<string>, n: nat)
    requires n <= |a| && n <= |b| && a[..n] == b[..n]
    requires n < |a| && n < |b| ==> a[n] != b[n]
    ensures n == CommonPrefixLength(a, b)
  {
  }

  /** The segments `TruncatePath` keeps: those after the shared prefix. They are a suffix of
      `fileParts`, and exactly the extra segments when `fileParts` extends `dirParts`. */
  function TruncatedSegments(dirParts: seq<string>, fileParts: seq<string>): (t: seq<string>)
    ensures |t| <= |fileParts| && fileParts == fileParts[..|fileParts| - |t|] + t
    ensures fileParts[..|fileParts| - |t|] <= dirParts
    ensures dirParts <= fileParts ==> t == fileParts[|dirParts|..]
  {
    var n := CommonPrefixLength(dirParts, fileParts);
    assert fileParts == fileParts[..n] + fileParts[n..];
    assert dirParts <= fileParts ==> n == |dirParts| by {
      if dirParts <= fileParts {
        CommonPrefixUnique(dirParts, fileParts, |dirParts|);
      }
    }
    fileParts[n..]
  }

  /** `TruncatePath`: the segments of `filePath` left after the longest run of segments it
      shares with the asset's directory, joined again with `Path.Combine`. */
  method TruncatePath(assetPath: string, filePath: string) returns (r: string)
    ensures filePath == [] ==> r == []
    ensures filePath != [] && (assetPath == [] || GetDirectoryName(assetPath) == []) ==> r == filePath
    ensures filePath != [] && assetPath != [] && GetDirectoryName(assetPath) != [] ==>
      r == Combine(TruncatedSegments(SplitOn(GetDirectoryName(assetPath), DirectorySeparatorChar),
                                     SplitOn(filePath, DirectorySeparatorChar)))
  {
    if filePath == [] {
      return "";
    }
    if assetPath == [] {
      return filePath;
    }
    var directory := GetDirectoryName(assetPath);
    if directory == [] {
      return filePath;
    }
    var assetPathParts := SplitOn(directory, DirectorySeparatorChar);
    var filePathParts := SplitOn(filePath, DirectorySeparatorChar);
    var commonParts := 0;
    while commonParts < |assetPathParts| && commonParts < |filePathParts| &&
          assetPathParts[commonParts] == filePathParts[commonParts]
      invariant commonParts <= |assetPathParts| && commonParts <= |filePathParts|
      invariant assetPathParts[..commonParts] == filePathParts[..commonParts]
      decreases |assetPathParts| - commonParts
    {
      assert assetPathParts[..commonParts + 1] == assetPathParts[..commonParts] + [assetPathParts[commonParts]];
      assert filePathParts[..commonParts + 1] == filePathParts[..commonParts] + [filePathParts[commonParts]];
      commonParts := commonParts + 1;
    }
    CommonPrefixUnique(assetPathParts, filePathParts, commonParts);
    r := Combine(filePathParts[commonParts..]);
  }
}

/** `AssetExtensionMethods`: locating a file relative to an asset's JSON file. */
module AssetExtensionMethods {
  import opened Strings
  import opened Paths
  import opened Linq

  /** `parts0.Concat(parts1.Except(parts0.Intersect(parts1)))`: the directory segments,
      then the file segments that are not directory segments, each once. */
  function SubFileSegments(dirParts: seq<string>, fileParts: seq<string>): (s: seq<string>)
    ensures |dirParts| <= |s| && s[..|dirParts|] == dirParts
    ensures forall x :: x in s[|dirParts|..] <==> x in fileParts && x !in dirParts
    ensures NoDuplicates(s[|dirParts|..])
  {
    var intersection := set x | x in dirParts && x in fileParts;
    var extra := Except(fileParts, intersection);
    assert (dirParts + extra)[|dirParts|..] == extra;
    dirParts + extra
  }

  /** The segments of `file` to append below the directory of `jsonFilePath`, or `None`
      when that path or its directory is empty (the callers then return `file` as is). */
  function SubFilePlan(jsonFilePath: string, file: string): (p: seq<string>)
    requires jsonFilePath != [] && GetDirectoryName(jsonFilePath) != []
    ensures |p| >= 1
  {
    SubFileSegments(SplitOn(GetDirectoryName(jsonFilePath), DirectorySeparatorChar),
                    SplitOn(file, DirectorySeparatorChar))
  }

  /** `string.GetSubFile(file)`: the first segment (the drive) always gets a separator. */
  function GetSubFileOfPath(assetJsonFilePath: string, file: string): (r: string)
    ensures assetJsonFilePath == [] || GetDirectoryName(assetJsonFilePath) == [] ==> r == file
    ensures assetJsonFilePath != [] && GetDirectoryName(assetJsonFilePath) != [] ==>
      var p := SubFilePlan(assetJsonFilePath, file);
      r == Combine(p[0 := p[0] + [DirectorySeparatorChar]])
  {
    if assetJsonFilePath == [] then file
    else if GetDirectoryName(assetJsonFilePath) == [] then file
    else
      var finalPath := SubFilePlan(assetJsonFilePath, file);
      Combine(finalPath[0 := finalPath[0] + [DirectorySeparatorChar]])
  }

  /** `IAsset.GetSubFile(file)` for an asset whose `JsonFilePath` is `jsonFilePath`: the first
      segment gets a separator only when it is a drive letter ending in ':', so the two
      overloads agree exactly on such paths. */
  function GetSubFile(jsonFilePath: string, file: string): (r: string)
    ensures jsonFilePath == [] || GetDirectoryName(jsonFilePath) == [] ==> r == file
    ensures jsonFilePath != [] && GetDirectoryName(jsonFilePath) != [] ==>
      var p := SubFilePlan(jsonFilePath, file);
      && (EndsWith(p[0], ":") ==> r == GetSubFileOfPath(jsonFilePath, file))
      && (!EndsWith(p[0], ":") ==> r == Combine(p))
  {
    if jsonFilePath == [] then file
    else
      var directoryName := GetDirectoryName(jsonFilePath);
      if directoryName == [] then file
      else
        var finalPath := SubFilePlan(jsonFilePath, file);
        if EndsWith(finalPath[0], ":") then Combine(finalPath[0 := finalPath[0] + [DirectorySeparatorChar]])
        else Combine(finalPath)
  }

  /** `IAsset.GetDirectory()`: the directory of the asset's JSON file, "" when it has none. */
  function GetDirectory(jsonFilePath: string): (r: string)
    ensures jsonFilePath == [] ==> r == []
    ensures r != [] ==> r + [DirectorySeparatorChar] <= jsonFilePath
    ensures DirectorySeparatorChar !in jsonFilePath ==> r == []
    ensures DirectorySeparatorChar in jsonFilePath ==>
      r + [DirectorySeparatorChar] <= jsonFilePath && DirectorySeparatorChar !in jsonFilePath[|r| + 1..]
  {
    if jsonFilePath == [] then "" else GetDirectoryName(jsonFilePath)
  }
}
