/** Strings as the alerts panel uses them: JavaScript's `String.includes`
    and the decimal rendering of a `Date.now()` timestamp inside an alert id. */
module Text {

  /** `part` occurs in `s` starting at index `k`. */
  predicate OccursAt(s: string, part: string, k: int)
  {
    0 <= k && k + |part| <= |s| && s[k..k + |part|] == part
  }

  /** `s.includes(part)`: `part` occurs somewhere in `s`. */
  predicate Contains(s: string, part: string)
    ensures Contains(s, part) ==> |part| <= |s|
    ensures part == [] ==> Contains(s, part)
  {
    assert part == [] ==> OccursAt(s, part, 0);
    exists k :: 0 <= k <= |s| && OccursAt(s, part, k)
  }

  predicate IsDigit(c: char) { '0' <= c <= '9' }

  function DigitChar(d: nat): (c: char)
    requires d < 10
    ensures IsDigit(c)
  {
    ['0', '1', '2', '3', '4', '5', '6', '7', '8', '9'][d]
  }

  function DigitValue(c: char): nat
    requires IsDigit(c)
  {
    (c as int - '0' as int) as nat
  }

  lemma DigitCharValue(d: nat)
    requires d < 10
    ensures DigitValue(DigitChar(d)) == d
  {
  }

  /** The decimal form of a non-negative integer, as a template literal
      renders it: no sign and no leading zero. */
  function Decimal(n: nat): (r: string)
    ensures |r| > 0
    ensures forall i :: 0 <= i < |r| ==> IsDigit(r[i])
    ensures n >= 10 ==> r[0] != '0'
  {
    if n < 10 then [DigitChar(n)] else Decimal(n / 10) + [DigitChar(n % 10)]
  }

  /** Reads a string of digits back as a number. */
  function ParseDecimal(s: string): nat
    requires forall i :: 0 <= i < |s| ==> IsDigit(s[i])
  {
    if |s| == 0 then 0 else ParseDecimal(s[..|s| - 1]) * 10 + DigitValue(s[|s| - 1])
  }

  lemma {:induction false} DecimalRoundTrip(n: nat)
    ensures ParseDecimal(Decimal(n)) == n
  {
    var s := Decimal(n);
    DigitCharValue(n % 10);
    if n >= 10 {
      DecimalRoundTrip(n / 10);
      assert s[..|s| - 1] == Decimal(n / 10);
    }
  }

  /** Distinct timestamps render as distinct digit strings. */
  lemma DecimalInjective(m: nat, n: nat)
    requires Decimal(m) == Decimal(n)
    ensures m == n
  {
    DecimalRoundTrip(m);
    DecimalRoundTrip(n);
  }

  /** A word occurs in itself followed by anything. */
  lemma ContainsPrefix(word: string, rest: string)
    ensures Contains(word + rest, word)
  {
    assert OccursAt(word + rest, word, 0);
  }

  /** A string none of whose characters is `c` contains no word starting with `c`. */
  lemma AbsentInitial(s: string, word: string, c: char)
    requires |word| > 0 && word[0] == c
    requires forall i :: 0 <= i < |s| ==> s[i] != c
    ensures !Contains(s, word)
  {
    forall k | 0 <= k <= |s|
      ensures !OccursAt(s, word, k)
    {
      if k + |word| <= |s| {
        assert s[k..k + |word|][0] == s[k];
      }
    }
  }
}
