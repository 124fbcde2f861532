/** The few pieces of JavaScript value semantics the views rely on: properties
    that may be a string, `undefined` or `null`; truthiness and `||`; template
    stringification; `String.prototype.replace` with a one-character pattern;
    `slice(-n)`; and `trim`. */
module Js {

  datatype Option<+T> = None | Some(value: T)

  datatype Result<+T, +E> = Success(value: T) | Failure(error: E)

  /** A record property that the backend sends as a string, or leaves
      `undefined`, or sets to `null`. */
  datatype JsStr = Undefined | Null | Str(s: string)

  /** Only a non-empty string is truthy. */
  predicate Truthy(v: JsStr)
  {
    v.Str? && v.s != ""
  }

  /** A number property is truthy when present and non-zero (NaN is not modelled). */
  predicate NumTruthy(v: Option<real>)
  {
    v.Some? && v.value != 0.0
  }

  /** `v || fallback` for a string literal `fallback`. */
  function OrElse(v: JsStr, fallback: string): string
  {
    if Truthy(v) then v.s else fallback
  }

  /** `a || b` for two string properties. */
  function Or(a: JsStr, b: JsStr): JsStr
  {
    if Truthy(a) then a else b
  }

  /** `v || 0` for a numeric property. */
  function OrZero(v: Option<real>): real
  {
    if NumTruthy(v) then v.value else 0.0
  }

  /** How `${v}` prints a string property. */
  function Template(v: JsStr): string
  {
    match v
    case Undefined => "undefined"
    case Null => "null"
    case Str(s) => s
  }

  /** Index of the first occurrence of `c` in `s`, or `|s|` when there is none. */
  function FirstIndexOf(s: string, c: char): (i: nat)
    ensures i <= |s|
    ensures forall j :: 0 <= j < i ==> s[j] != c
    ensures i < |s| ==> s[i] == c
  {
    if s == [] then 0
    else if s[0] == c then 0
    else 1 + FirstIndexOf(s[1..], c)
  }

  /** `s.replace(pat, rep)` with one-character string arguments: only the first
      occurrence of `pat` is replaced. */
  function ReplaceFirst(s: string, pat: char, rep: char): (r: string)
    ensures |r| == |s|
    ensures forall j :: 0 <= j < |s| ==> r[j] == (if j == FirstIndexOf(s, pat) then rep else s[j])
  {
    if s == [] then []
    else if s[0] == pat then [rep] + s[1..]
    else [s[0]] + ReplaceFirst(s[1..], pat, rep)
  }

  /** `s.slice(-n)` for a positive `n`: the last `n` characters, or all of `s`
      when it is shorter. */
  function SliceLast(s: string, n: nat): (r: string)
    requires n > 0
    ensures |r| == if |s| < n then |s| else n
    ensures r == s[|s| - |r|..]
  {
    if |s| < n then s else s[|s| - n..]
  }

  /** The characters `String.prototype.trim` removes: ECMAScript WhiteSpace
      and LineTerminator. */
  predicate IsWhiteSpace(c: char)
  {
    || c == ' ' || c == '\t' || c == '\n' || c == '\r'
    || c == '\U{000B}' || c == '\U{000C}' || c == '\U{00A0}' || c == '\U{1680}'
    || ('\U{2000}' <= c <= '\U{200A}')
    || c == '\U{2028}' || c == '\U{2029}' || c == '\U{202F}' || c == '\U{205F}'
    || c == '\U{3000}' || c == '\U{FEFF}'
  }

  /** `s` with its leading white space removed. */
  function TrimStart(s: string): (r: string)
    ensures |r| <= |s| && r == s[|s| - |r|..]
    ensures forall i :: 0 <= i < |s| - |r| ==> IsWhiteSpace(s[i])
    ensures r != [] ==> !IsWhiteSpace(r[0])
  {
    if s != [] && IsWhiteSpace(s[0]) then TrimStart(s[1..]) else s
  }

  /** `s` with its trailing white space removed. */
  function TrimEnd(s: string): (r: string)
    ensures |r| <= |s| && r == s[..|r|]
    ensures forall i :: |r| <= i < |s| ==> IsWhiteSpace(s[i])
    ensures r != [] ==> !IsWhiteSpace(r[|r| - 1])
  {
    if s != [] && IsWhiteSpace(s[|s| - 1]) then TrimEnd(s[..|s| - 1]) else s
  }

  /** `s.trim()`. */
  function Trim(s: string): string
  {
    TrimEnd(TrimStart(s))
  }

  /** A string trims to the empty string exactly when every character in it is
      white space. */
  lemma TrimEmptyIffBlank(s: string)
    ensures Trim(s) == "" <==> forall i :: 0 <= i < |s| ==> IsWhiteSpace(s[i])
  {
    var t := TrimStart(s);
    if t != [] {
      assert !IsWhiteSpace(t[0]) && s[|s| - |t|] == t[0];
    }
  }
}
