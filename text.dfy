/**
 * The few java.lang.String operations the dispatcher and the controller rely on:
 * `trim`, `isEmpty`, `contains`, `startsWith`, and `%d` formatting of a count.
 */
module Text {

  /** Java's `String.trim` removes every leading and trailing character up to U+0020. */
  predicate IsTrimmable(c: char) {
    c <= ' '
  }

  /** Drops the leading trimmable characters: the result is the suffix starting at the first other one. */
  function TrimStart(s: string): (r: string)
    ensures |r| <= |s| && r == s[|s| - |r|..]
    ensures r == [] || !IsTrimmable(r[0])
    ensures forall i :: 0 <= i < |s| - |r| ==> IsTrimmable(s[i])
  {
    if s != [] && IsTrimmable(s[0]) then TrimStart(s[1..]) else s
  }

  /** Drops the trailing trimmable characters: the result is the prefix ending at the last other one. */
  function TrimEnd(s: string): (r: string)
    ensures |r| <= |s| && r == s[..|r|]
    ensures r == [] || !IsTrimmable(r[|r| - 1])
    ensures forall i :: |r| <= i < |s| ==> IsTrimmable(s[i])
  {
    if s != [] && IsTrimmable(s[|s| - 1]) then TrimEnd(s[..|s| - 1]) else s
  }

  function Trim(s: string): (r: string)
  {
    TrimEnd(TrimStart(s))
  }

  /** `s.trim().isEmpty()` holds exactly when every character of `s` is trimmable. */
  lemma TrimEmptyIff(s: string)
    ensures Trim(s) == [] <==> forall i :: 0 <= i < |s| ==> IsTrimmable(s[i])
  {
  }

  /**
   * The part of `s` that trimming keeps starts where `TrimStart` cuts and reaches past
   * every non-trimmable character, so a URL with one such character is not empty
   * after trimming.
   */
  lemma TrimKeepsInterior(s: string, i: nat)
    requires i < |s| && !IsTrimmable(s[i])
    ensures |s| - |TrimStart(s)| <= i < |s| - |TrimStart(s)| + |Trim(s)|
    ensures Trim(s) != []
  {
    var t := TrimStart(s);
    var k := |s| - |t|;
    TrimStartCovers(s, i);
    assert t[i - k] == s[i];
    TrimEndCovers(t, i - k);
  }

  /** The leading characters `trim` drops are all trimmable, so they stop before `s[i]`. */
  lemma TrimStartCovers(s: string, i: nat)
    requires i < |s| && !IsTrimmable(s[i])
    ensures |s| - |TrimStart(s)| <= i && TrimStart(s) == s[|s| - |TrimStart(s)|..]
  {
  }

  /** The trailing characters `trim` drops are all trimmable, so they start after `t[j]`. */
  lemma TrimEndCovers(t: string, j: nat)
    requires j < |t| && !IsTrimmable(t[j])
    ensures j < |TrimEnd(t)| && TrimEnd(t) == t[..|TrimEnd(t)|]
  {
  }

  predicate StartsWith(s: string, prefix: string) {
    |prefix| <= |s| && s[..|prefix|] == prefix
  }

  predicate OccursAt(s: string, sub: string, i: nat) {
    i + |sub| <= |s| && s[i..i + |sub|] == sub
  }

  /** Java's `String.contains`, case-sensitive. */
  predicate Contains(s: string, sub: string) {
    exists i: nat :: i <= |s| && OccursAt(s, sub, i)
  }

  lemma ContainsItself(s: string)
    ensures Contains(s, s)
  {
    assert OccursAt(s, s, 0);
  }

  /** A string contains a word only if it holds each of that word's letters. */
  lemma ContainsNeedsLetter(s: string, sub: string, j: nat)
    requires j < |sub| && Contains(s, sub)
    ensures exists i :: 0 <= i < |s| && s[i] == sub[j]
  {
    var i: nat :| i <= |s| && OccursAt(s, sub, i);
    assert s[i + j] == s[i..i + |sub|][j];
  }

  function DigitChar(d: nat): (c: char)
    requires d < 10
    ensures '0' <= c <= '9'
  {
    ('0' as int + d) as char
  }

  function DigitValue(c: char): (d: nat)
    requires '0' <= c <= '9'
    ensures d < 10 && DigitChar(d) == c
  {
    (c as int - '0' as int) as nat
  }

  predicate IsDigits(s: string) {
    forall i :: 0 <= i < |s| ==> '0' <= s[i] <= '9'
  }

  /** `%d` of a non-negative count: decimal digits, most significant first, no leading zero. */
  function NatToDecimal(n: nat): (s: string)
    ensures |s| >= 1 && IsDigits(s)
    ensures s[0] == '0' ==> n == 0
  {
    if n < 10 then [DigitChar(n)] else NatToDecimal(n / 10) + [DigitChar(n % 10)]
  }

  /** The value of a string of decimal digits. */
  function DecimalValue(s: string): nat
    requires IsDigits(s)
  {
    if s == [] then 0 else 10 * DecimalValue(s[..|s| - 1]) + DigitValue(s[|s| - 1])
  }

  /** Reading back the digits `%d` printed gives the count. */
  lemma {:induction false} DecimalRoundTrip(n: nat)
    ensures DecimalValue(NatToDecimal(n)) == n
  {
    var s := NatToDecimal(n);
    if n < 10 {
      assert s[..|s| - 1] == [];
    } else {
      var p := NatToDecimal(n / 10);
      assert s[..|s| - 1] == p;
      DecimalRoundTrip(n / 10);
    }
  }

  /** Different counts print differently. */
  lemma DecimalInjective(m: nat, n: nat)
    requires NatToDecimal(m) == NatToDecimal(n)
    ensures m == n
  {
    DecimalRoundTrip(m);
    DecimalRoundTrip(n);
  }
}
