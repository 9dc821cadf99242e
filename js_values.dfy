/**
 * The JavaScript values the app inspects: untyped classifier output and parsed
 * TSV rows, together with the two string built-ins it applies to them
 * (`toUpperCase` and `trim`).
 */
module JsValues {

  /** A JSON-like JavaScript value. Numbers are modelled as reals. */
  datatype JsValue =
    | JUndefined
    | JNull
    | JBool(b: bool)
    | JNumber(n: real)
    | JString(s: string)
    | JArray(elems: seq<JsValue>)
    | JObject(props: map<string, JsValue>)

  /** `v && typeof v === "object"`: a non-null object, arrays included. */
  predicate IsTruthyObject(v: JsValue) {
    v.JArray? || v.JObject?
  }

  /** Property read `v.key`; `undefined` when `v` has no such own property. */
  function Prop(v: JsValue, key: string): (p: JsValue)
    ensures !v.JObject? ==> p == JUndefined
    ensures v.JObject? && key in v.props ==> p == v.props[key]
  {
    if v.JObject? && key in v.props then v.props[key] else JUndefined
  }

  // ---------------------------------------------------------------------------
  // String.prototype.toUpperCase, restricted to ASCII letters

  predicate IsLowerAscii(c: char) { 'a' <= c <= 'z' }

  function UpperChar(c: char): (u: char)
    ensures !IsLowerAscii(u)
    ensures !IsLowerAscii(c) ==> u == c
  {
    if IsLowerAscii(c) then (c as int - 'a' as int + 'A' as int) as char else c
  }

  /** No character of `s` is a lower-case ASCII letter. */
  predicate IsUpperCase(s: string) {
    forall i :: 0 <= i < |s| ==> !IsLowerAscii(s[i])
  }

  /** `s.toUpperCase()` on ASCII letters; every other character is kept. */
  function ToUpperCase(s: string): (u: string)
    ensures |u| == |s|
    ensures forall i :: 0 <= i < |s| && !IsLowerAscii(s[i]) ==> u[i] == s[i]
    ensures forall i :: 0 <= i < |s| && IsLowerAscii(s[i]) ==> u[i] as int == s[i] as int - 32
    ensures IsUpperCase(u)
    ensures IsUpperCase(s) ==> u == s
  {
    seq(|s|, i requires 0 <= i < |s| => UpperChar(s[i]))
  }

  /** The classifier's lower-case labels become the polar labels the app compares against. */
  lemma PolarLabelsUpperCase()
    ensures ToUpperCase("negative") == "NEGATIVE"
    ensures ToUpperCase("positive") == "POSITIVE"
    ensures ToUpperCase("Negative") == "NEGATIVE"
  {
  }

  /** Upper-casing twice is upper-casing once. */
  lemma ToUpperCaseIdempotent(s: string)
    ensures ToUpperCase(ToUpperCase(s)) == ToUpperCase(s)
  {
  }

  // ---------------------------------------------------------------------------
  // String.prototype.trim

  /** ECMAScript WhiteSpace and LineTerminator code points, which `trim` strips. */
  predicate IsJsWhitespace(c: char) {
    || c == '\t' || c == '\n' || c == '\U{000B}' || c == '\U{000C}' || c == '\r'
    || c == ' ' || c == '\U{00A0}' || c == '\U{1680}'
    || ('\U{2000}' <= c <= '\U{200A}')
    || c == '\U{2028}' || c == '\U{2029}' || c == '\U{202F}' || c == '\U{205F}'
    || c == '\U{3000}' || c == '\U{FEFF}'
  }

  /** Every character of `s` is whitespace (vacuously true of ""). */
  predicate IsBlank(s: string) {
    forall i :: 0 <= i < |s| ==> IsJsWhitespace(s[i])
  }

  /** Drops the longest whitespace prefix. */
  function TrimStart(s: string): (t: string)
    ensures |t| <= |s| && t == s[|s| - |t|..]
    ensures IsBlank(s[..|s| - |t|])
    ensures t == [] || !IsJsWhitespace(t[0])
  {
    if s == [] || !IsJsWhitespace(s[0]) then s
    else
      var t := TrimStart(s[1..]);
      assert s[..|s| - |t|] == [s[0]] + s[1..][..|s| - 1 - |t|];
      t
  }

  /** Drops the longest whitespace suffix. */
  function TrimEnd(s: string): (t: string)
    ensures |t| <= |s| && t == s[..|t|]
    ensures IsBlank(s[|t|..])
    ensures t == [] || !IsJsWhitespace(t[|t| - 1])
  {
    if s == [] || !IsJsWhitespace(s[|s| - 1]) then s
    else
      var t := TrimEnd(s[..|s| - 1]);
      assert s[|t|..] == s[..|s| - 1][|t|..] + [s[|s| - 1]];
      t
  }

  /** `s.trim()`: whitespace removed from both ends. */
  function Trim(s: string): string {
    TrimEnd(TrimStart(s))
  }

  /** `s.trim() !== ""` exactly when `s` has a non-whitespace character. */
  lemma TrimEmptyIffBlank(s: string)
    ensures Trim(s) == "" <==> IsBlank(s)
  {
  }
}
