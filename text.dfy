/** The JavaScript string built-ins the core relies on: `toLowerCase`,
    `toUpperCase`, `includes`, `trim` and `parseFloat`, restricted to ASCII. */
module Text {
  import opened Wrappers

  // ---------------------------------------------------------------------------
  // Case mapping (ASCII letters only)

  function LowerChar(c: char): char {
    if 'A' <= c <= 'Z' then (c as int + 32) as char else c
  }

  function UpperChar(c: char): char {
    if 'a' <= c <= 'z' then (c as int - 32) as char else c
  }

  /** `s.toLowerCase()`: every character mapped, length kept. */
  function Lower(s: string): (r: string)
    ensures |r| == |s|
    ensures forall i :: 0 <= i < |s| ==> r[i] == LowerChar(s[i])
  {
    seq(|s|, i requires 0 <= i < |s| => LowerChar(s[i]))
  }

  /** `s.charAt(0).toUpperCase() + s.slice(1)`. */
  function Capitalize(s: string): (r: string)
    ensures |r| == |s|
    ensures |s| > 0 ==> r[0] == UpperChar(s[0]) && r[1..] == s[1..]
  {
    if |s| == 0 then s else [UpperChar(s[0])] + s[1..]
  }

  // ---------------------------------------------------------------------------
  // Substring search

  predicate StartsWith(s: string, t: string) {
    |t| <= |s| && s[..|t|] == t
  }

  /** `s.includes(t)`: `t` occurs in `s` at some offset. */
  predicate Contains(s: string, t: string)
    decreases |s|
  {
    StartsWith(s, t) || (|s| > 0 && Contains(s[1..], t))
  }

  /** An occurrence at offset `k` makes `s` contain `t`. */
  lemma {:induction false} ContainsAt(s: string, t: string, k: nat)
    requires k + |t| <= |s| && s[k..k + |t|] == t
    ensures Contains(s, t)
    decreases k
  {
    if k > 0 {
      assert s[1..][k - 1..k - 1 + |t|] == s[k..k + |t|];
      ContainsAt(s[1..], t, k - 1);
    } else {
      assert s[..|t|] == s[0..|t|];
    }
  }

  /** Conversely, containment has a witness offset. */
  lemma {:induction false} ContainsOffset(s: string, t: string) returns (k: nat)
    requires Contains(s, t)
    ensures k + |t| <= |s| && s[k..k + |t|] == t
    decreases |s|
  {
    if StartsWith(s, t) {
      k := 0;
      assert s[0..|t|] == s[..|t|];
    } else {
      var k' := ContainsOffset(s[1..], t);
      k := k' + 1;
      assert s[k..k + |t|] == s[1..][k'..k' + |t|];
    }
  }

  // ---------------------------------------------------------------------------
  // Whitespace trimming

  /** The ASCII characters `String.prototype.trim` removes. */
  predicate IsSpace(c: char) {
    c == ' ' || c == '\t' || c == '\n' || c == '\r' || c == '\U{B}' || c == '\U{C}'
  }

  /** The number of leading whitespace characters. */
  function LeadingSpaces(s: string): (n: nat)
    ensures n <= |s|
    ensures forall i :: 0 <= i < n ==> IsSpace(s[i])
    ensures n < |s| ==> !IsSpace(s[n])
  {
    if |s| > 0 && IsSpace(s[0]) then 1 + LeadingSpaces(s[1..]) else 0
  }

  /** The number of trailing whitespace characters. */
  function TrailingSpaces(s: string): (n: nat)
    ensures n <= |s|
    ensures forall i :: |s| - n <= i < |s| ==> IsSpace(s[i])
    ensures n < |s| ==> !IsSpace(s[|s| - n - 1])
  {
    if |s| > 0 && IsSpace(s[|s| - 1]) then 1 + TrailingSpaces(s[..|s| - 1]) else 0
  }

  /** The bounds `lo..hi` of `s.trim()` inside `s`. */
  function TrimRange(s: string): (r: (nat, nat))
    ensures r.0 <= r.1 <= |s|
    ensures r.0 < r.1 ==> !IsSpace(s[r.0]) && !IsSpace(s[r.1 - 1])
    ensures forall i :: 0 <= i < r.0 ==> IsSpace(s[i])
    ensures forall i :: r.1 <= i < |s| ==> IsSpace(s[i])
  {
    var lo := LeadingSpaces(s);
    var n := TrailingSpaces(s[lo..]);
    (lo, |s| - n)
  }

  /** `s.trim()`: no whitespace left at either end. */
  function Trim(s: string): (r: string)
    ensures |r| > 0 ==> !IsSpace(r[0]) && !IsSpace(r[|r| - 1])
    ensures exists a, b :: 0 <= a <= b <= |s| && r == s[a..b]
              && (forall i :: 0 <= i < a ==> IsSpace(s[i]))
              && (forall i :: b <= i < |s| ==> IsSpace(s[i]))
  {
    s[TrimRange(s).0..TrimRange(s).1]
  }

  /** A string trims to nothing exactly when it is all whitespace. */
  lemma TrimEmpty(s: string)
    ensures Trim(s) == "" <==> forall i :: 0 <= i < |s| ==> IsSpace(s[i])
  {
    var (lo, hi) := TrimRange(s);
    if forall i :: 0 <= i < |s| ==> IsSpace(s[i]) {
      assert LeadingSpaces(s) == |s|;
    }
  }

  /** Trimming leaves a string as it is exactly when neither end is
      whitespace; so trimming twice is trimming once. */
  lemma TrimUnchanged(s: string)
    ensures Trim(s) == s <==> |s| == 0 || (!IsSpace(s[0]) && !IsSpace(s[|s| - 1]))
    ensures Trim(Trim(s)) == Trim(s)
  {
    if |s| > 0 && !IsSpace(s[0]) && !IsSpace(s[|s| - 1]) {
      assert LeadingSpaces(s) == 0;
      assert s[0..] == s;
      assert TrailingSpaces(s) == 0;
      assert s[0..|s|] == s;
    }
    var t := Trim(s);
    if |t| > 0 {
      assert LeadingSpaces(t) == 0;
      assert t[0..] == t;
      assert TrailingSpaces(t) == 0;
      assert t[0..|t|] == t;
    }
  }

  // ---------------------------------------------------------------------------
  // Number parsing

  predicate IsDigit(c: char) { '0' <= c <= '9' }

  predicate AllDigits(s: string) { forall i :: 0 <= i < |s| ==> IsDigit(s[i]) }

  /** The length of the longest prefix of decimal digits. */
  function DigitPrefix(s: string): (n: nat)
    ensures n <= |s| && AllDigits(s[..n])
    ensures n < |s| ==> !IsDigit(s[n])
  {
    if |s| > 0 && IsDigit(s[0]) then
      var n := 1 + DigitPrefix(s[1..]);
      assert s[..n] == [s[0]] + s[1..][..n - 1];
      n
    else 0
  }

  /** The value of a string of decimal digits, most significant first. */
  function DigitsValue(d: string): nat
    requires AllDigits(d)
  {
    if |d| == 0 then 0 else DigitsValue(d[..|d| - 1]) * 10 + (d[|d| - 1] as int - '0' as int)
  }

  function Pow10(n: nat): (p: nat)
    ensures p >= 1
  {
    if n == 0 then 1 else 10 * Pow10(n - 1)
  }

  /** `digits ('.' digits)?` at the start of `s`, with at least one digit. */
  function ParseUnsigned(s: string): Option<real> {
    var i := DigitPrefix(s);
    var rest := s[i..];
    var frac := if |rest| > 0 && rest[0] == '.' then rest[1..][..DigitPrefix(rest[1..])] else "";
    if i == 0 && |frac| == 0 then None
    else Some(DigitsValue(s[..i]) as real + DigitsValue(frac) as real / Pow10(|frac|) as real)
  }

  /** `parseFloat(s)`: skips leading whitespace, reads an optional sign and a
      decimal numeral, ignores whatever follows it; `None` stands for NaN. */
  function ParseFloat(s: string): Option<real> {
    var t := s[LeadingSpaces(s)..];
    if |t| > 0 && t[0] == '-' then
      match ParseUnsigned(t[1..])
      case None => None
      case Some(v) => Some(-v)
    else if |t| > 0 && t[0] == '+' then ParseUnsigned(t[1..])
    else ParseUnsigned(t)
  }

  /** A string of decimal digits whose first digit is not zero. */
  predicate IsPositiveNumeral(s: string) {
    |s| > 0 && AllDigits(s) && s[0] != '0'
  }

  lemma {:induction false} DigitsValuePositive(d: string)
    requires |d| > 0 && AllDigits(d) && d[0] != '0'
    ensures DigitsValue(d) > 0
  {
    if |d| > 1 {
      DigitsValuePositive(d[..|d| - 1]);
    }
  }

  /** A positive integer numeral parses to its own, positive, value. */
  lemma ParsePositiveNumeral(s: string)
    requires IsPositiveNumeral(s)
    ensures ParseFloat(s) == Some(DigitsValue(s) as real)
    ensures DigitsValue(s) > 0
  {
    assert LeadingSpaces(s) == 0;
    assert s[0..] == s;
    DigitsValuePositive(s);
    DigitPrefixAll(s);
    assert s[..|s|] == s;
  }

  lemma {:induction false} DigitPrefixAll(s: string)
    requires AllDigits(s)
    ensures DigitPrefix(s) == |s|
  {
    if |s| > 0 {
      DigitPrefixAll(s[1..]);
    }
  }
}
