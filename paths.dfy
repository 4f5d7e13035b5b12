/** The parts of `System.IO.Path` the asset core calls, on Windows, for paths that are
    already in normal form: the separator, `GetDirectoryName`, `GetExtension` and
    `Combine`. */
module Paths {
  import opened Strings

  /** `Path.DirectorySeparatorChar` on Windows. */
  const DirectorySeparatorChar: char := '\\'

  /** The characters after which `Path.Combine` adds no separator and at which
      `Path.GetExtension` stops looking: '\', '/' and the volume separator ':'. */
  predicate EndsComponent(c: char)
  {
    c == '\\' || c == '/' || c == ':'
  }

  /** `Path.GetDirectoryName`: everything before the last separator, or "" when there is none. */
  function GetDirectoryName(path: string): (r: string)
    ensures DirectorySeparatorChar in path ==> r + [DirectorySeparatorChar] <= path
    ensures DirectorySeparatorChar in path ==> DirectorySeparatorChar !in path[|r| + 1..]
    ensures DirectorySeparatorChar !in path ==> r == ""
  {
    if DirectorySeparatorChar in path then path[..LastIndexOf(path, DirectorySeparatorChar)] else ""
  }

  /** `Path.GetExtension`: from the last '.' of the last component to the end, or "" when
      that component has no '.' or ends with it. */
  function GetExtension(path: string): (r: string)
    ensures r != [] ==> |r| >= 2 && r[0] == '.' && EndsWith(path, r)
    ensures r != [] ==> forall k :: 1 <= k < |r| ==> !EndsComponent(r[k]) && r[k] != '.'
  {
    ExtensionBefore(path, |path|)
  }

  /** The extension found by scanning `path[..i]` from its end, when `path[i..]` holds
      neither '.' nor a separator. */
  function ExtensionBefore(path: string, i: nat): (r: string)
    requires i <= |path|
    requires forall k :: i <= k < |path| ==> !EndsComponent(path[k]) && path[k] != '.'
    ensures r != [] ==> 2 <= |r| <= |path| && r[0] == '.' && r == path[|path| - |r|..]
    ensures r != [] ==> forall k :: 1 <= k < |r| ==> !EndsComponent(r[k]) && r[k] != '.'
    decreases i
  {
    if i == 0 then ""
    else if path[i - 1] == '.' then (if i == |path| then "" else path[i - 1..])
    else if EndsComponent(path[i - 1]) then ""
    else ExtensionBefore(path, i - 1)
  }

  /** `Path.Combine(params string[])`: empty parts are skipped and a separator is put
      between two parts unless the text so far already ends with a separator or ':'. */
  function Combine(parts: seq<string>): (r: string)
    ensures r == [] <==> forall k :: 0 <= k < |parts| ==> parts[k] == []
  {
    CombineOnto("", parts)
  }

  function CombineOnto(acc: string, parts: seq<string>): (r: string)
    ensures acc <= r
    ensures r == [] <==> acc == [] && forall k :: 0 <= k < |parts| ==> parts[k] == []
    decreases |parts|
  {
    if parts == [] then acc
    else if parts[0] == [] then CombineOnto(acc, parts[1..])
    else if acc == [] || EndsComponent(acc[|acc| - 1]) then CombineOnto(acc + parts[0], parts[1..])
    else CombineOnto(acc + [DirectorySeparatorChar] + parts[0], parts[1..])
  }

  /** Combining segments that are non-empty and free of separators is joining them with
      one separator each. */
  lemma {:induction false} CombinePlainSegments(acc: string, parts: seq<string>)
    requires acc != [] && !EndsComponent(acc[|acc| - 1])
    requires forall k :: 0 <= k < |parts| ==> parts[k] != [] && !EndsComponent(parts[k][|parts[k]| - 1])
    ensures CombineOnto(acc, parts) == acc + JoinWithSeparator(parts)
    decreases |parts|
  {
    if parts != [] {
      CombineStep(acc, parts);
      var tail := parts[1..];
      assert forall k :: 0 <= k < |tail| ==> tail[k] == parts[k + 1];
      CombinePlainSegments(acc + [DirectorySeparatorChar] + parts[0], tail);
      JoinStep(acc, parts);
    }
  }

  lemma CombineStep(acc: string, parts: seq<string>)
    requires acc != [] && !EndsComponent(acc[|acc| - 1])
    requires parts != [] && parts[0] != [] && !EndsComponent(parts[0][|parts[0]| - 1])
    ensures var next := acc + [DirectorySeparatorChar] + parts[0];
      !EndsComponent(next[|next| - 1]) && CombineOnto(acc, parts) == CombineOnto(next, parts[1..])
  {
    var next := acc + [DirectorySeparatorChar] + parts[0];
    assert next[|next| - 1] == parts[0][|parts[0]| - 1];
  }

  lemma JoinStep(acc: string, parts: seq<string>)
    requires parts != []
    ensures acc + JoinWithSeparator(parts) == acc + [DirectorySeparatorChar] + parts[0] + JoinWithSeparator(parts[1..])
  {
    var head := [DirectorySeparatorChar] + parts[0];
    var rest := JoinWithSeparator(parts[1..]);
    assert JoinWithSeparator(parts) == head + rest;
    AppendAssoc(acc, head, rest);
    AppendAssoc(acc, [DirectorySeparatorChar], parts[0]);
  }

  /** Each segment preceded by one separator. */
  function JoinWithSeparator(parts: seq<string>): string
  {
    if parts == [] then "" else [DirectorySeparatorChar] + parts[0] + JoinWithSeparator(parts[1..])
  }
}
