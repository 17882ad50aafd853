/**
 * The few JavaScript string operations the model relies on: UTF-16 code units
 * (what `length` and `charCodeAt` count) and `String.prototype.trim`.
 */
module JsStrings {

  /** The UTF-16 code units of one Unicode scalar value. */
  function CodeUnits(c: char): (u: seq<int>)
    ensures 1 <= |u| <= 2
    ensures forall k :: 0 <= k < |u| ==> 0 <= u[k] < 0x1_0000
    ensures |u| == 1 <==> (c as int) < 0x1_0000
    ensures (c as int) < 0x1_0000 ==> u == [c as int]
    ensures (c as int) >= 0x1_0000 ==>
      && 0xD800 <= u[0] < 0xDC00 && 0xDC00 <= u[1] < 0xE000
      && (u[0] - 0xD800) * 0x400 + (u[1] - 0xDC00) + 0x1_0000 == c as int
  {
    var n := c as int;
    if n < 0x1_0000 then [n]
    else [0xD800 + (n - 0x1_0000) / 0x400, 0xDC00 + (n - 0x1_0000) % 0x400]
  }

  /** The UTF-16 code units of a string, in order (`s.split("")` followed by `charCodeAt(0)`). */
  function Utf16Units(s: string): (u: seq<int>)
    ensures |s| <= |u| <= 2 * |s|
    ensures forall k :: 0 <= k < |u| ==> 0 <= u[k] < 0x1_0000
    ensures (forall k :: 0 <= k < |s| ==> (s[k] as int) < 0x1_0000) ==> |u| == |s|
  {
    if s == [] then [] else Utf16Units(s[..|s| - 1]) + CodeUnits(s[|s| - 1])
  }

  /** JavaScript's `s.length`. */
  function Utf16Length(s: string): (n: nat)
    ensures |s| <= n <= 2 * |s|
    ensures (forall k :: 0 <= k < |s| ==> (s[k] as int) < 0x1_0000) ==> n == |s|
  {
    |Utf16Units(s)|
  }

  /** The WhiteSpace and LineTerminator code points that `trim` strips (ECMA-262, section 22.1.3.32). */
  predicate IsWhitespace(c: char)
    ensures (c as int) < 0x80 ==> (IsWhitespace(c) <==> c in "\t\n\U{000B}\U{000C}\r ")
    ensures IsWhitespace(c) ==> (c as int) < 0x1_0000
  {
    || c == '\t' || c == '\n' || c == '\U{000B}' || c == '\U{000C}' || c == '\r' || c == ' '
    || c == '\U{00A0}' || c == '\U{1680}' || ('\U{2000}' <= c <= '\U{200A}')
    || c == '\U{2028}' || c == '\U{2029}' || c == '\U{202F}' || c == '\U{205F}'
    || c == '\U{3000}' || c == '\U{FEFF}'
  }

  /** Number of whitespace characters at the start of `s`. */
  function LeadingWhitespace(s: string): (k: nat)
    ensures k <= |s|
    ensures forall i :: 0 <= i < k ==> IsWhitespace(s[i])
    ensures k < |s| ==> !IsWhitespace(s[k])
  {
    if s == [] || !IsWhitespace(s[0]) then 0 else 1 + LeadingWhitespace(s[1..])
  }

  /** Number of whitespace characters at the end of `s`. */
  function TrailingWhitespace(s: string): (k: nat)
    ensures k <= |s|
    ensures forall i :: |s| - k <= i < |s| ==> IsWhitespace(s[i])
    ensures k < |s| ==> !IsWhitespace(s[|s| - 1 - k])
  {
    if s == [] || !IsWhitespace(s[|s| - 1]) then 0 else 1 + TrailingWhitespace(s[..|s| - 1])
  }

  /** `s.trim()`: `s` without its leading and trailing whitespace. */
  function Trim(s: string): (r: string)
    ensures |r| <= |s|
    ensures r == [] || (!IsWhitespace(r[0]) && !IsWhitespace(r[|r| - 1]))
    ensures r == [] <==> forall i :: 0 <= i < |s| ==> IsWhitespace(s[i])
    ensures LeadingWhitespace(s) + |r| <= |s| && r == s[LeadingWhitespace(s)..LeadingWhitespace(s) + |r|]
    ensures forall k :: LeadingWhitespace(s) + |r| <= k < |s| ==> IsWhitespace(s[k])
  {
    var a := LeadingWhitespace(s);
    var e := |s| - TrailingWhitespace(s[a..]);
    TrailingOfSuffix(s, a);
    s[a..e]
  }

  /** The trailing whitespace of a suffix, read back in the whole string. */
  lemma TrailingOfSuffix(s: string, a: nat)
    requires a <= |s|
    ensures var e := |s| - TrailingWhitespace(s[a..]);
      && a <= e
      && (forall i :: e <= i < |s| ==> IsWhitespace(s[i]))
      && (a < e ==> !IsWhitespace(s[e - 1]))
  {
    var rest := s[a..];
    var e := |s| - TrailingWhitespace(rest);
    forall i | e <= i < |s| ensures IsWhitespace(s[i]) {
      assert s[i] == rest[i - a];
    }
    if a < e {
      assert s[e - 1] == rest[|rest| - 1 - TrailingWhitespace(rest)];
    }
  }

  /** Trimming twice is trimming once. */
  lemma {:induction false} TrimIdempotent(s: string)
    ensures Trim(Trim(s)) == Trim(s)
  {
    var r := Trim(s);
    assert LeadingWhitespace(r) == 0;
    assert TrailingWhitespace(r[LeadingWhitespace(r)..]) == 0;
  }
}
