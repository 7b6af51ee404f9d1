/** The pieces of JavaScript string semantics the pages rely on: the
    `String.prototype.trim` test of the status page and the `value || fallback`
    defaulting of query parameters. */
module JsSemantics {

  datatype Option<T> = None | Some(value: T)

  /** The characters `String.prototype.trim` strips: the ECMAScript WhiteSpace
      set (tab, vertical tab, form feed, space, no-break space, byte order mark
      and the Unicode space separators) and the LineTerminator set. */
  predicate IsTrimmable(c: char) {
    || c in {'\t', '\n', '\U{000B}', '\U{000C}', '\r', ' ', '\U{00A0}', '\U{1680}'}
    || c in {'\U{2028}', '\U{2029}', '\U{202F}', '\U{205F}', '\U{3000}', '\U{FEFF}'}
    || '\U{2000}' <= c <= '\U{200A}'
  }

  /** Every character of `s` is one that trimming strips. */
  predicate IsBlank(s: string) {
    forall i :: 0 <= i < |s| ==> IsTrimmable(s[i])
  }

  /** The index of the first character at or after `from` that trimming
      keeps, or `|s|` when there is none. */
  function SkipBlanks(s: string, from: nat): (k: nat)
    requires from <= |s|
    ensures from <= k <= |s|
    ensures forall m :: from <= m < k ==> IsTrimmable(s[m])
    ensures k < |s| ==> !IsTrimmable(s[k])
    decreases |s| - from
  {
    if from < |s| && IsTrimmable(s[from]) then SkipBlanks(s, from + 1) else from
  }

  /** The index just past the last character before `upto` that trimming
      keeps, or `floor` when there is none from `floor` on. */
  function SkipBlanksBack(s: string, floor: nat, upto: nat): (k: nat)
    requires floor <= upto <= |s|
    ensures floor <= k <= upto
    ensures forall m :: k <= m < upto ==> IsTrimmable(s[m])
    ensures floor < k ==> !IsTrimmable(s[k - 1])
    decreases upto
  {
    if floor < upto && IsTrimmable(s[upto - 1]) then SkipBlanksBack(s, floor, upto - 1) else upto
  }

  /** `s.trim()`: `s` with its blank prefix and blank suffix removed. It is
      empty exactly when `s` consists of trimmable characters only, and
      otherwise neither starts nor ends with one. */
  function Trim(s: string): (r: string)
    ensures |r| <= |s|
    ensures r == [] <==> IsBlank(s)
    ensures r != [] ==> !IsTrimmable(r[0]) && !IsTrimmable(r[|r| - 1])
    ensures exists i, j :: 0 <= i <= j <= |s| && r == s[i..j] && IsBlank(s[..i]) && IsBlank(s[j..])
  {
    var i := SkipBlanks(s, 0);
    var j := SkipBlanksBack(s, i, |s|);
    assert IsBlank(s[..i]) by {
      forall m | 0 <= m < i ensures IsTrimmable(s[..i][m]) {
        assert s[..i][m] == s[m];
      }
    }
    assert IsBlank(s[j..]) by {
      forall m | 0 <= m < |s| - j ensures IsTrimmable(s[j..][m]) {
        assert s[j..][m] == s[j + m];
      }
    }
    assert i == j ==> i == |s|;
    s[i..j]
  }

  /** `value || fallback` for a possibly missing string: a missing value and
      the empty string (both falsy) give the fallback. */
  function OrElse(value: Option<string>, fallback: string): (r: string)
    ensures r == fallback || (value.Some? && r == value.value)
    ensures value.Some? && value.value != "" ==> r == value.value
    ensures r == "" ==> fallback == ""
  {
    if value.Some? && value.value != "" then value.value else fallback
  }
}
