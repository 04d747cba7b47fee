/**
 * The string operations the admin page relies on: `toLowerCase`, `trim` and `includes`.
 * Case folding covers the ASCII letters only; trimming uses the white-space and
 * line-terminator code points of the ECMAScript grammar.
 */
module Text {

  /** `toLowerCase` on one character, restricted to 'A'..'Z'. */
  function LowerChar(c: char): (d: char)
    ensures !('A' <= d <= 'Z')
    ensures !('A' <= c <= 'Z') ==> d == c
  {
    if 'A' <= c <= 'Z' then (c as int - 'A' as int + 'a' as int) as char else c
  }

  function ToLower(s: string): (t: string)
    ensures |t| == |s|
    ensures forall i :: 0 <= i < |s| ==> t[i] == LowerChar(s[i])
  {
    seq(|s|, i requires 0 <= i < |s| => LowerChar(s[i]))
  }

  /** Lower-casing is idempotent. */
  lemma ToLowerIdempotent(s: string)
    ensures ToLower(ToLower(s)) == ToLower(s)
  {
  }

  /**
   * The code points `String.prototype.trim` strips: TAB, VT, FF, SP, NBSP, ZWNBSP,
   * the space separators of category Zs, and the line terminators LF, CR, LS, PS.
   */
  predicate IsTrimSpace(c: char) {
    var n := c as int;
    n == 0x09 || n == 0x0A || n == 0x0B || n == 0x0C || n == 0x0D || n == 0x20 ||
    n == 0xA0 || n == 0x1680 || (0x2000 <= n <= 0x200A) || n == 0x2028 || n == 0x2029 ||
    n == 0x202F || n == 0x205F || n == 0x3000 || n == 0xFEFF
  }

  /** `s` with its leading white space removed. */
  function TrimStart(s: string): (t: string)
    ensures |t| <= |s| && t == s[|s| - |t|..]
    ensures forall k :: 0 <= k < |s| - |t| ==> IsTrimSpace(s[k])
    ensures t != [] ==> !IsTrimSpace(t[0])
  {
    if s != [] && IsTrimSpace(s[0]) then TrimStart(s[1..]) else s
  }

  /** `s` with its trailing white space removed. */
  function TrimEnd(s: string): (t: string)
    ensures |t| <= |s| && t == s[..|t|]
    ensures forall k :: |t| <= k < |s| ==> IsTrimSpace(s[k])
    ensures t != [] ==> !IsTrimSpace(t[|t| - 1])
  {
    if s != [] && IsTrimSpace(s[|s| - 1]) then TrimEnd(s[..|s| - 1]) else s
  }

  /**
   * `t` is `s` from index `i` on, with only white space before `i` and after
   * `i + |t|`.
   */
  predicate TrimmedAt(s: string, t: string, i: int) {
    && 0 <= i <= |s| - |t|
    && t == s[i..i + |t|]
    && (forall k :: 0 <= k < i ==> IsTrimSpace(s[k]))
    && (forall k :: i + |t| <= k < |s| ==> IsTrimSpace(s[k]))
  }

  /**
   * `s.trim()`: the part of `s` between its leading and its trailing white space,
   * empty exactly when `s` consists of white space only.
   */
  function Trim(s: string): (t: string)
    ensures t == [] <==> forall k :: 0 <= k < |s| ==> IsTrimSpace(s[k])
    ensures t != [] ==> !IsTrimSpace(t[0]) && !IsTrimSpace(t[|t| - 1])
    ensures exists i :: TrimmedAt(s, t, i)
  {
    var front := TrimStart(s);
    var t := TrimEnd(front);
    assert t != [] ==> !IsTrimSpace(front[0]);
    var i := |s| - |front|;
    assert t == s[i..i + |t|];
    forall k | i + |t| <= k < |s| ensures IsTrimSpace(s[k]) {
      assert s[k] == front[k - i];
    }
    assert TrimmedAt(s, t, i);
    t
  }

  /** `pattern` occurs in `text` starting at index `i`. */
  predicate OccursAt(text: string, pattern: string, i: int) {
    0 <= i && i + |pattern| <= |text| && text[i..i + |pattern|] == pattern
  }

  /** `text.includes(pattern)`, searching from the left. */
  function Includes(text: string, pattern: string): (found: bool)
    ensures found <==> exists i :: OccursAt(text, pattern, i)
    decreases |text|
  {
    if |pattern| <= |text| && text[..|pattern|] == pattern then
      assert OccursAt(text, pattern, 0);
      true
    else if |text| <= |pattern| then
      false
    else
      OccursShift(text, pattern);
      Includes(text[1..], pattern)
  }

  /** An occurrence in `text[1..]` is an occurrence in `text` one place later, and back. */
  lemma OccursShift(text: string, pattern: string)
    requires text != []
    ensures !OccursAt(text, pattern, 0) ==>
      ((exists i :: OccursAt(text, pattern, i)) <==> (exists i :: OccursAt(text[1..], pattern, i)))
  {
    forall i | OccursAt(text[1..], pattern, i) ensures OccursAt(text, pattern, i + 1) {
      assert text[1..][i..i + |pattern|] == text[i + 1..i + 1 + |pattern|];
    }
    forall i | 1 <= i && OccursAt(text, pattern, i) ensures OccursAt(text[1..], pattern, i - 1) {
      assert text[1..][i - 1..i - 1 + |pattern|] == text[i..i + |pattern|];
    }
  }

  /** Every string includes the empty string. */
  lemma IncludesEmpty(text: string)
    ensures Includes(text, "")
  {
    assert OccursAt(text, "", 0);
  }
}
