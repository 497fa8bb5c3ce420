/**
 * `String.prototype.trim`, which the search handler applies to the typed
 * location (js/app.js, `handleSearch`): leading and trailing white space
 * and line terminators, as ECMAScript defines them, are removed.
 */
module Text {

  /** ECMAScript WhiteSpace or LineTerminator code point. */
  predicate IsWhitespace(c: char)
  {
    var n := c as int;
    n == 0x09 || n == 0x0A || n == 0x0B || n == 0x0C || n == 0x0D || n == 0x20
    || n == 0xA0 || n == 0x1680 || (0x2000 <= n <= 0x200A)
    || n == 0x2028 || n == 0x2029 || n == 0x202F || n == 0x205F
    || n == 0x3000 || n == 0xFEFF
  }

  predicate AllWhitespace(s: string)
  {
    forall k :: 0 <= k < |s| ==> IsWhitespace(s[k])
  }

  /** The length of the white-space prefix of `s`. */
  function LeadingWhitespace(s: string): (n: nat)
    ensures n <= |s|
    ensures forall k :: 0 <= k < n ==> IsWhitespace(s[k])
    ensures n < |s| ==> !IsWhitespace(s[n])
  {
    if |s| == 0 || !IsWhitespace(s[0]) then 0
    else 1 + LeadingWhitespace(s[1..])
  }

  /** The length of the white-space suffix of `s`. */
  function TrailingWhitespace(s: string): (n: nat)
    ensures n <= |s|
    ensures forall k :: |s| - n <= k < |s| ==> IsWhitespace(s[k])
    ensures n < |s| ==> !IsWhitespace(s[|s| - 1 - n])
  {
    if |s| == 0 || !IsWhitespace(s[|s| - 1]) then 0
    else 1 + TrailingWhitespace(s[..|s| - 1])
  }

  /**
   * `s` without its leading and trailing white space: empty exactly when
   * `s` is all white space, and otherwise starting and ending with a
   * character that is not white space.
   */
  function Trim(s: string): (t: string)
    ensures |t| <= |s|
    ensures t == "" <==> AllWhitespace(s)
    ensures t != "" ==> !IsWhitespace(t[0]) && !IsWhitespace(t[|t| - 1])
  {
    var i := LeadingWhitespace(s);
    if i == |s| then ""
    else s[i..|s| - TrailingWhitespace(s)]
  }

  /**
   * Trim is characterised by where it cuts: for any split of `s` into a
   * white-space prefix `s[..i]`, a middle that is empty or begins and ends
   * with non-white space, and a white-space suffix `s[j..]`, `Trim(s)` is
   * that middle.
   */
  lemma TrimIsTheMiddle(s: string, i: nat, j: nat)
    requires i <= j <= |s|
    requires forall k :: 0 <= k < i ==> IsWhitespace(s[k])
    requires forall k :: j <= k < |s| ==> IsWhitespace(s[k])
    requires i < j ==> !IsWhitespace(s[i]) && !IsWhitespace(s[j - 1])
    ensures Trim(s) == s[i..j]
  {
  }

  /** Trimming twice is trimming once. */
  lemma TrimIdempotent(s: string)
    ensures Trim(Trim(s)) == Trim(s)
  {
    var t := Trim(s);
    TrimIsTheMiddle(t, 0, |t|);
    assert t[0..|t|] == t;
  }
}
