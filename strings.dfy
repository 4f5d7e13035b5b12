/** The few .NET string operations the asset core relies on: white-space tests,
    ordinal and ordinal-ignore-case suffix tests, and `String.Split` on one
    separator character (with and without `RemoveEmptyEntries`). */
module Strings {

  /** `char.IsWhiteSpace`: the Unicode space separators plus the control
      characters TAB, LF, VT, FF, CR and NEL. */
  predicate IsWhiteSpace(c: char)
  {
    c == ' ' || c == '\t' || c == '\n' || c == '\U{000B}' || c == '\U{000C}' || c == '\r'
    || c == '\U{0085}' || c == '\U{00A0}' || c == '\U{1680}' || ('\U{2000}' <= c <= '\U{200A}')
    || c == '\U{2028}' || c == '\U{2029}' || c == '\U{202F}' || c == '\U{205F}' || c == '\U{3000}'
  }

  /** `string.IsNullOrWhiteSpace`; a C# `null` string is modelled as the empty string. */
  predicate IsNullOrWhiteSpace(s: string)
  {
    forall i :: 0 <= i < |s| ==> IsWhiteSpace(s[i])
  }

  /** Upper-casing used by `StringComparison.OrdinalIgnoreCase` (ASCII letters only). */
  function ToUpper(c: char): (u: char)
    ensures 'a' <= c <= 'z' ==> u as int == c as int - 32
    ensures !('a' <= c <= 'z') ==> u == c
  {
    if 'a' <= c <= 'z' then (c as int - 32) as char else c
  }

  /** `s.EndsWith(suffix, StringComparison.Ordinal)`. */
  predicate EndsWith(s: string, suffix: string)
  {
    |suffix| <= |s| && s[|s| - |suffix|..] == suffix
  }

  /** `s.EndsWith(suffix, StringComparison.OrdinalIgnoreCase)`. */
  predicate EndsWithIgnoreCase(s: string, suffix: string)
  {
    |suffix| <= |s| &&
    forall i :: 0 <= i < |suffix| ==> ToUpper(s[|s| - |suffix| + i]) == ToUpper(suffix[i])
  }

  /** `types.Any(type => file.EndsWith(type, StringComparison.OrdinalIgnoreCase))`. */
  predicate EndsWithAnyIgnoreCase(file: string, types: seq<string>)
  {
    exists k :: 0 <= k < |types| && EndsWithIgnoreCase(file, types[k])
  }

  /** `s.StartsWith(prefix, StringComparison.OrdinalIgnoreCase)`. */
  predicate StartsWithIgnoreCase(s: string, prefix: string)
  {
    |prefix| <= |s| && forall i :: 0 <= i < |prefix| ==> ToUpper(s[i]) == ToUpper(prefix[i])
  }

  /** Position of the first occurrence of `c` in `s`. */
  function IndexOf(s: string, c: char): (i: nat)
    requires c in s
    ensures i < |s| && s[i] == c && c !in s[..i]
  {
    if s[0] == c then 0 else 1 + IndexOf(s[1..], c)
  }

  /** Position of the last occurrence of `c` in `s`. */
  function LastIndexOf(s: string, c: char): (i: nat)
    requires c in s
    ensures i < |s| && s[i] == c && c !in s[i + 1..]
  {
    if s[|s| - 1] == c then |s| - 1 else LastIndexOf(s[..|s| - 1], c)
  }

  /** `s.Split(sep)`: the pieces between separators, empty pieces included. */
  function SplitOn(s: string, sep: char): (parts: seq<string>)
    ensures |parts| >= 1
    ensures forall k :: 0 <= k < |parts| ==> sep !in parts[k]
    decreases |s|
  {
    if sep !in s then [s]
    else
      var i := IndexOf(s, sep);
      [s[..i]] + SplitOn(s[i + 1..], sep)
  }

  /** The pieces that are not empty, in order. */
  function NonEmpty(parts: seq<string>): (r: seq<string>)
    ensures forall k :: 0 <= k < |r| ==> r[k] != [] && r[k] in parts
    ensures forall p :: p in parts && p != [] ==> p in r
  {
    if parts == [] then []
    else (if parts[0] == [] then [] else [parts[0]]) + NonEmpty(parts[1..])
  }

  /** `s.Split(new[] { sep }, StringSplitOptions.RemoveEmptyEntries)`. */
  function SplitRemoveEmpty(s: string, sep: char): (parts: seq<string>)
    ensures forall k :: 0 <= k < |parts| ==> parts[k] != [] && sep !in parts[k]
  {
    NonEmpty(SplitOn(s, sep))
  }

  /** Splitting at a separator that is placed between two strings splits each of them. */
  lemma {:induction false} SplitOnConcat(a: string, b: string, sep: char)
    ensures SplitOn(a + [sep] + b, sep) == SplitOn(a, sep) + SplitOn(b, sep)
    decreases |a|
  {
    var s := a + [sep] + b;
    if sep !in a {
      assert s[|a|] == sep && s[..|a|] == a;
      assert IndexOf(s, sep) == |a|;
      assert s[|a| + 1..] == b;
    } else {
      var i := IndexOf(a, sep);
      assert s[..i] == a[..i];
      assert s[i] == sep;
      assert IndexOf(s, sep) == i;
      assert s[i + 1..] == a[i + 1..] + [sep] + b;
      SplitOnConcat(a[i + 1..], b, sep);
    }
  }

  lemma {:induction false} NonEmptyConcat(p: seq<string>, q: seq<string>)
    ensures NonEmpty(p + q) == NonEmpty(p) + NonEmpty(q)
    decreases |p|
  {
    if p == [] {
      assert p + q == q;
    } else {
      assert (p + q)[1..] == p[1..] + q;
      NonEmptyConcat(p[1..], q);
    }
  }

  lemma AppendAssoc<T>(a: seq<T>, b: seq<T>, c: seq<T>)
    ensures (a + b) + c == a + (b + c)
  {
  }
}
