/**
 * The parts of .NET's `String`, `Char` and `Path` that the tool relies on:
 * `String.IsNullOrWhiteSpace`, `String.ToLowerInvariant`, `Path.GetExtension`,
 * `Path.GetFileName` and the decimal rendering of an integer in an
 * interpolated string. Strings are sequences of characters.
 */
module Text {
  import opened Wrappers

  /** `Char.IsWhiteSpace`: the characters with Unicode's White_Space property. */
  predicate IsWhiteSpace(c: char) {
    c == ' ' || '\t' <= c <= '\r' || c == '\U{0085}' || c == '\U{00A0}' || c == '\U{1680}'
    || '\U{2000}' <= c <= '\U{200A}' || c == '\U{2028}' || c == '\U{2029}'
    || c == '\U{202F}' || c == '\U{205F}' || c == '\U{3000}'
  }

  /** `String.IsNullOrWhiteSpace` of a string that is present: it is empty or holds only white space. */
  predicate IsBlank(s: string) {
    forall i :: 0 <= i < |s| ==> IsWhiteSpace(s[i])
  }

  /** `String.IsNullOrWhiteSpace` of a string that may be `null`. */
  predicate IsNullOrWhiteSpace(s: Option<string>) {
    s.None? || IsBlank(s.value)
  }

  /** `Char.ToLowerInvariant` on the letters A to Z; every other character is kept. */
  function ToLowerChar(c: char): char {
    if 'A' <= c <= 'Z' then (c as int - 'A' as int + 'a' as int) as char else c
  }

  function ToLowerInvariant(s: string): string {
    seq(|s|, i requires 0 <= i < |s| => ToLowerChar(s[i]))
  }

  predicate EndsWith(s: string, suffix: string) {
    |suffix| <= |s| && s[|s| - |suffix|..] == suffix
  }

  /** `Path.IsDirectorySeparator` as on Windows. */
  predicate IsDirectorySeparator(c: char) {
    c == '\\' || c == '/'
  }

  /**
   * `Path.GetExtension` scans `path` backwards from position `i`: the last
   * '.' before any directory separator starts the extension, unless it is
   * the final character.
   */
  function ExtensionFrom(path: string, i: nat): (ext: string)
    requires i <= |path|
    requires forall k :: i <= k < |path| ==> path[k] != '.' && !IsDirectorySeparator(path[k])
    ensures ext == [] || (2 <= |ext| <= |path| && ext == path[|path| - |ext|..] && ext[0] == '.')
    ensures forall k :: 1 <= k < |ext| ==> ext[k] != '.' && !IsDirectorySeparator(ext[k])
    decreases i
  {
    if i == 0 then []
    else if path[i - 1] == '.' then (if i == |path| then [] else path[i - 1..])
    else if IsDirectorySeparator(path[i - 1]) then []
    else ExtensionFrom(path, i - 1)
  }

  function GetExtension(path: string): string {
    ExtensionFrom(path, |path|)
  }

  /** A '.' that is neither last nor followed by another '.' or a separator starts the extension. */
  lemma {:induction false} ExtensionFromDot(path: string, i: nat, p: nat)
    requires p + 1 < |path| && path[p] == '.'
    requires p < i <= |path|
    requires forall k :: p < k < |path| ==> path[k] != '.' && !IsDirectorySeparator(path[k])
    ensures ExtensionFrom(path, i) == path[p..]
    decreases i
  {
    if i - 1 != p {
      ExtensionFromDot(path, i - 1, p);
    }
  }

  /** `Path.GetFileName` of a present path: what follows the last directory separator. */
  function GetFileName(path: string): (name: string)
    ensures |name| <= |path| && name == path[|path| - |name|..]
    ensures forall k :: 0 <= k < |name| ==> !IsDirectorySeparator(name[k])
    ensures |name| == |path| || IsDirectorySeparator(path[|path| - |name| - 1])
    decreases |path|
  {
    if path == [] then []
    else if IsDirectorySeparator(path[|path| - 1]) then []
    else GetFileName(path[..|path| - 1]) + [path[|path| - 1]]
  }

  function DigitChar(d: nat): char
    requires d < 10
  {
    "0123456789"[d]
  }

  function NatToString(n: nat): string
    decreases n
  {
    if n < 10 then [DigitChar(n)] else NatToString(n / 10) + [DigitChar(n % 10)]
  }

  /** `Int32.ToString()` as an interpolated string renders it. */
  function IntToString(i: int): string {
    if i < 0 then "-" + NatToString(-i) else NatToString(i)
  }
}
