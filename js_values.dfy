/**
 * JavaScript value conventions shared by the model: optional values
 * (`undefined`/`null` versus present), the truthiness of strings that the
 * `a || b` fallbacks rely on, the white-space set of `String.prototype.trim`,
 * and `String.prototype.startsWith`; and the facts about cutting strings
 * at a marker character that reading a built string back relies on.
 */
module JsValues {

  /** A value that may be `undefined` or `null` (None) or present (Some). */
  datatype Option<+T> = None | Some(value: T)

  /** A string value is truthy in JavaScript exactly when it is present and non-empty. */
  predicate Truthy(o: Option<string>) {
    o.Some? && o.value != ""
  }

  /** `o || fallback` where the fallback is a plain string. */
  function OrElse(o: Option<string>, fallback: string): (r: string)
    ensures Truthy(o) ==> r == o.value
    ensures !Truthy(o) ==> r == fallback
    ensures r == "" ==> fallback == ""
  {
    if Truthy(o) then o.value else fallback
  }

  /** `o || fallback` where the fallback may itself be absent. */
  function OrElseOpt(o: Option<string>, fallback: Option<string>): (r: Option<string>)
    ensures Truthy(o) ==> r == o
    ensures !Truthy(o) ==> r == fallback
  {
    if Truthy(o) then o else fallback
  }

  /**
   * The characters `trim` removes: the WhiteSpace code points (tab, vertical
   * tab, form feed, space, no-break space, byte-order mark and the Unicode
   * space separators) and the LineTerminator code points.
   */
  predicate IsJsWhitespace(c: char) {
    c == '\U{0009}' || c == '\U{000B}' || c == '\U{000C}' || c == '\U{0020}' ||
    c == '\U{00A0}' || c == '\U{FEFF}' ||
    c == '\U{1680}' || ('\U{2000}' <= c <= '\U{200A}') || c == '\U{202F}' ||
    c == '\U{205F}' || c == '\U{3000}' ||
    c == '\U{000A}' || c == '\U{000D}' || c == '\U{2028}' || c == '\U{2029}'
  }

  /** `s.trim()` with its leading white space removed. */
  function TrimStart(s: string): (r: string)
    ensures |r| <= |s| && r == s[|s| - |r|..]
    ensures r != [] ==> !IsJsWhitespace(r[0])
    ensures forall i :: 0 <= i < |s| - |r| ==> IsJsWhitespace(s[i])
  {
    if s != [] && IsJsWhitespace(s[0]) then TrimStart(s[1..]) else s
  }

  /** `s.trim() === ""`: every character of `s` is white space. */
  predicate TrimsToEmpty(s: string) {
    TrimStart(s) == ""
  }

  lemma {:induction false} TrimsToEmptyIffAllWhitespace(s: string)
    ensures TrimsToEmpty(s) <==> forall i :: 0 <= i < |s| ==> IsJsWhitespace(s[i])
  {
    if s != [] && IsJsWhitespace(s[0]) {
      TrimsToEmptyIffAllWhitespace(s[1..]);
      assert forall i :: 1 <= i < |s| ==> s[i] == s[1..][i - 1];
    }
  }

  /** `s.startsWith(prefix)`. */
  predicate StartsWith(s: string, prefix: string) {
    |prefix| <= |s| && s[..|prefix|] == prefix
  }

  /** Position of the first occurrence of `m` in `s`. */
  function IndexOf(s: string, m: char): (k: nat)
    requires m in s
    ensures k < |s| && s[k] == m
    ensures forall i :: 0 <= i < k ==> s[i] != m
  {
    if s[0] == m then 0 else 1 + IndexOf(s[1..], m)
  }

  /** A marker placed right after a marker-free string is that marker's first occurrence. */
  lemma {:induction false} IndexOfAfter(a: string, r: string, m: char)
    requires forall i :: 0 <= i < |a| ==> a[i] != m
    ensures m in a + [m] + r && IndexOf(a + [m] + r, m) == |a|
  {
    var s := a + [m] + r;
    assert s[|a|] == m;
    if a != [] {
      assert s[1..] == a[1..] + [m] + r;
      IndexOfAfter(a[1..], r, m);
    }
  }

  /** Two strings cut at the first occurrence of a marker agree on both sides of the cut. */
  lemma CutAtMarker(a: string, b: string, r1: string, r2: string, m: char)
    requires forall i :: 0 <= i < |a| ==> a[i] != m
    requires forall i :: 0 <= i < |b| ==> b[i] != m
    requires a + [m] + r1 == b + [m] + r2
    ensures a == b && r1 == r2
  {
    var s := a + [m] + r1;
    IndexOfAfter(a, r1, m);
    IndexOfAfter(b, r2, m);
    assert a == s[..|a|] == b;
    assert r1 == s[|a| + 1..] == r2;
  }

  /** Two strings that agree after the same prefix agree. */
  lemma DropPrefix(p: string, x: string, y: string)
    requires p + x == p + y
    ensures x == y
  {
    assert x == (p + x)[|p|..];
    assert y == (p + y)[|p|..];
  }
}
