/** Small string and number helpers that stand in for JavaScript built-ins:
    decimal rendering of a number, `padStart(2, '0')`, `toLowerCase`,
    `String.prototype.includes` and `Math.round` of a quotient. */
module Text {

  predicate IsDigit(c: char) { '0' <= c <= '9' }

  predicate AllDigits(s: string) { forall i :: 0 <= i < |s| ==> IsDigit(s[i]) }

  /** The number a string of decimal digits denotes (an independent reading
      of decimal notation, used to state what `NatToString` produces). */
  function DigitsValue(s: string): nat
    requires AllDigits(s)
  {
    if s == [] then 0 else DigitsValue(s[..|s| - 1]) * 10 + (s[|s| - 1] as int - '0' as int)
  }

  function DigitChar(d: nat): (c: char)
    requires d < 10
    ensures IsDigit(c) && c as int - '0' as int == d
  {
    ('0' as int + d) as char
  }

  /** `String(n)` for a non-negative integer: shortest decimal form. */
  function NatToString(n: nat): (s: string)
    ensures |s| >= 1 && AllDigits(s)
    ensures |s| > 1 ==> s[0] != '0'
    decreases n
  {
    if n < 10 then [DigitChar(n)] else NatToString(n / 10) + [DigitChar(n % 10)]
  }

  /** Reading back the decimal form of `n` gives `n`. */
  lemma {:induction false} NatToStringValue(n: nat)
    ensures DigitsValue(NatToString(n)) == n
    decreases n
  {
    var s := NatToString(n);
    if n >= 10 {
      NatToStringValue(n / 10);
      assert s[..|s| - 1] == NatToString(n / 10);
    }
  }

  /** `String(n).padStart(2, '0')` for `n < 100`. */
  function Pad2(n: nat): (s: string)
    requires n < 100
    ensures |s| == 2 && AllDigits(s) && DigitsValue(s) == n
  {
    NatToStringValue(n);
    if n < 10 then ['0'] + NatToString(n) else NatToString(n)
  }

  /** `toLowerCase` on one character; only ASCII letters are mapped. */
  function LowerChar(c: char): (r: char)
    ensures 'A' <= c <= 'Z' ==> r as int == c as int + 32
    ensures !('A' <= c <= 'Z') ==> r == c
  {
    if 'A' <= c <= 'Z' then (c as int + 32) as char else c
  }

  function Lower(s: string): (r: string)
    ensures |r| == |s| && forall i :: 0 <= i < |s| ==> r[i] == LowerChar(s[i])
  {
    seq(|s|, i requires 0 <= i < |s| => LowerChar(s[i]))
  }

  /** `q` occurs in `text` starting at index `i`. */
  predicate OccursAt(text: string, q: string, i: nat)
  {
    i + |q| <= |text| && text[i..i + |q|] == q
  }

  /** `text.includes(q)`: `q` is a prefix of some suffix of `text`. */
  predicate Includes(text: string, q: string)
    decreases |text|
  {
    q <= text || (|text| > 0 && Includes(text[1..], q))
  }

  /** `Includes` holds exactly when `q` occurs at some index of `text`. */
  lemma {:induction false} IncludesIffOccurs(text: string, q: string)
    ensures Includes(text, q) <==> exists i: nat :: i <= |text| && OccursAt(text, q, i)
    decreases |text|
  {
    if |text| > 0 {
      IncludesIffOccurs(text[1..], q);
      if q <= text {
        assert OccursAt(text, q, 0);
      }
      if Includes(text[1..], q) {
        var i: nat :| i <= |text[1..]| && OccursAt(text[1..], q, i);
        assert text[i + 1..i + 1 + |q|] == text[1..][i..i + |q|];
        assert OccursAt(text, q, i + 1);
      }
      if exists i: nat :: i <= |text| && OccursAt(text, q, i) {
        var i: nat :| i <= |text| && OccursAt(text, q, i);
        if i == 0 {
          assert q <= text;
        } else {
          assert text[1..][i - 1..i - 1 + |q|] == text[i..i + |q|];
          assert OccursAt(text[1..], q, i - 1);
        }
      }
    } else if q == [] {
      assert OccursAt(text, q, 0);
    } else {
      forall i: nat | i <= |text| ensures !OccursAt(text, q, i) { }
    }
  }

  /** The empty string is included in every string. */
  lemma IncludesEmpty(text: string)
    ensures Includes(text, "")
  {
  }

  /** `Math.round(n / d)` on exact rationals: the nearest integer, ties
      rounded up. */
  function RoundDiv(n: int, d: int): (r: int)
    requires d > 0
    ensures 2 * d * r - d <= 2 * n < 2 * d * r + d
  {
    var r := (2 * n + d) / (2 * d);
    assert 2 * d * r <= 2 * n + d < 2 * d * r + 2 * d;
    r
  }
}
