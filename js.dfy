/** The small part of JavaScript's string and number semantics the handlers rely on:
    reading a form field, String.prototype.trim, ASCII toLowerCase and the result of Number(...). */
module Js {

  datatype Option<+T> = None | Some(value: T)

  /** The characters trim() removes: ECMAScript WhiteSpace (TAB, VT, FF, ZWNBSP and the space
      separators) and LineTerminator (LF, CR, LS, PS). */
  predicate IsTrimmable(c: char) {
    c == ' ' || c == '\t' || c == '\n' || c == '\r' || c == '\U{000B}' || c == '\U{000C}'
    || c == '\U{00A0}' || c == '\U{1680}' || ('\U{2000}' <= c <= '\U{200A}')
    || c == '\U{2028}' || c == '\U{2029}' || c == '\U{202F}' || c == '\U{205F}'
    || c == '\U{3000}' || c == '\U{FEFF}'
  }

  /** The number of leading trimmable characters of `s`. */
  function LeadingTrimmable(s: string): (i: nat)
    ensures i <= |s|
    ensures forall k :: 0 <= k < i ==> IsTrimmable(s[k])
    ensures i < |s| ==> !IsTrimmable(s[i])
  {
    if s != [] && IsTrimmable(s[0]) then 1 + LeadingTrimmable(s[1..]) else 0
  }

  /** Where the trailing run of trimmable characters of `s` starts, looking no further left than `lo`. */
  function TrailingStart(s: string, lo: nat): (j: nat)
    requires lo <= |s|
    ensures lo <= j <= |s|
    ensures forall k :: j <= k < |s| ==> IsTrimmable(s[k])
    ensures j > lo ==> !IsTrimmable(s[j - 1])
  {
    if |s| > lo && IsTrimmable(s[|s| - 1]) then TrailingStart(s[..|s| - 1], lo) else |s|
  }

  /** String.prototype.trim: the slice of `s` left after removing its leading and trailing
      trimmable characters. */
  function Trim(s: string): (r: string)
    ensures |r| <= |s|
    ensures exists i, j | 0 <= i <= j <= |s| ::
              r == s[i..j] && (forall k :: 0 <= k < i ==> IsTrimmable(s[k])) && (forall k :: j <= k < |s| ==> IsTrimmable(s[k]))
    ensures r == [] <==> forall i :: 0 <= i < |s| ==> IsTrimmable(s[i])
    ensures r != [] ==> !IsTrimmable(r[0]) && !IsTrimmable(r[|r| - 1])
  {
    var i := LeadingTrimmable(s);
    var j := TrailingStart(s, i);
    s[i..j]
  }

  /** Trimming an already trimmed string changes nothing. */
  lemma TrimIdempotent(s: string)
    ensures Trim(Trim(s)) == Trim(s)
  {
    var r := Trim(s);
    assert LeadingTrimmable(r) == 0;
    assert TrailingStart(r, 0) == |r|;
  }

  function LowerChar(c: char): (d: char)
    ensures !('A' <= d <= 'Z')
    ensures 'a' <= d <= 'z' <==> 'a' <= c <= 'z' || 'A' <= c <= 'Z'
    ensures !('A' <= c <= 'Z') ==> d == c
    ensures 'A' <= c <= 'Z' ==> d as int == c as int + 32
  {
    if 'A' <= c <= 'Z' then (c as int + 32) as char else c
  }

  /** toLowerCase restricted to ASCII letters; every other character is kept. */
  function LowerAscii(s: string): (r: string)
    ensures |r| == |s|
    ensures forall i :: 0 <= i < |s| ==> r[i] == LowerChar(s[i])
  {
    if s == [] then [] else [LowerChar(s[0])] + LowerAscii(s[1..])
  }

  /** `String(formData.get(key) || '')`: a missing field reads as the empty string. */
  function FieldText(field: Option<string>): (t: string)
    ensures t == "" <==> field.None? || field == Some("")
    ensures field.Some? ==> t == field.value
  {
    match field
    case None => ""
    case Some(t) => t
  }

  /** A JavaScript number as far as these handlers can tell them apart. */
  datatype Number = NaN | Finite(value: real) | Infinity | NegInfinity

  /** `n < k` for a JavaScript number; every comparison with NaN is false. */
  predicate LessThan(n: Number, k: real) {
    match n
    case Finite(v) => v < k
    case NegInfinity => true
    case _ => false
  }

  /** `n > k` for a JavaScript number. */
  predicate GreaterThan(n: Number, k: real) {
    match n
    case Finite(v) => v > k
    case Infinity => true
    case _ => false
  }

  /** `Number(formData.get(key) || fallback)`: an absent or empty field gives the fallback, any other
      text goes through the string-to-number conversion `toNumber`. */
  function NumberField(field: Option<string>, fallback: real, toNumber: string -> Number): (n: Number)
    ensures FieldText(field) == "" ==> n == Finite(fallback)
    ensures FieldText(field) != "" ==> n == toNumber(FieldText(field))
  {
    var t := FieldText(field);
    if t == "" then Finite(fallback) else toNumber(t)
  }
}
