/**
 * Decimal identifier strings of the ATM: account numbers (the decimal
 * form of a number in 1000..9999), card numbers (sixteen decimal digits,
 * leading zeros allowed) and the four-digit PIN format.  Also the
 * pigeonhole argument that a fresh identifier exists as long as the
 * identifier space is not exhausted.
 */
module Identifiers {

  predicate IsDigit(c: char) {
    '0' <= c <= '9'
  }

  predicate AllDigits(s: string) {
    forall i :: 0 <= i < |s| ==> IsDigit(s[i])
  }

  /** The format `change_pin` demands of a new PIN: exactly four decimal digits. */
  predicate IsPin(s: string) {
    |s| == 4 && AllDigits(s)
  }

  function Pow10(w: nat): (p: nat)
    ensures p >= 1
  {
    if w == 0 then 1 else 10 * Pow10(w - 1)
  }

  function DigitChar(d: nat): (c: char)
    requires d < 10
    ensures IsDigit(c)
  {
    ('0' as int + d) as char
  }

  function DigitValue(c: char): (d: nat)
    requires IsDigit(c)
    ensures d < 10 && DigitChar(d) == c
  {
    c as int - '0' as int
  }

  /** The last `w` decimal digits of `k`, most significant first, padded with zeros. */
  function Pad(k: nat, w: nat): (s: string)
    ensures |s| == w && AllDigits(s)
  {
    if w == 0 then [] else Pad(k / 10, w - 1) + [DigitChar(k % 10)]
  }

  /** The number a decimal digit string denotes. */
  function Value(s: string): (v: nat)
    requires AllDigits(s)
    ensures v < Pow10(|s|)
  {
    if s == [] then 0 else 10 * Value(s[..|s| - 1]) + DigitValue(s[|s| - 1])
  }

  /** Splitting off the last decimal digit of a number below 10^w. */
  lemma LastDigit(k: nat, w: nat)
    requires 0 < w && k < Pow10(w)
    ensures k == 10 * (k / 10) + k % 10 && k / 10 < Pow10(w - 1)
  {
  }

  /** Appending a digit multiplies the value by ten and adds the digit. */
  lemma ValueSnoc(p: string, c: char)
    requires AllDigits(p) && IsDigit(c)
    ensures AllDigits(p + [c]) && Value(p + [c]) == 10 * Value(p) + DigitValue(c)
  {
    assert (p + [c])[..|p|] == p;
  }

  /** Reading back a padded numeral gives the number it was written from. */
  lemma {:induction false} ValueOfPad(k: nat, w: nat)
    requires k < Pow10(w)
    ensures Value(Pad(k, w)) == k
  {
    if w > 0 {
      LastDigit(k, w);
      ValueOfPad(k / 10, w - 1);
      ValueSnoc(Pad(k / 10, w - 1), DigitChar(k % 10));
    }
  }

  /** Distinct numbers below 10^w have distinct w-digit numerals. */
  lemma PadInjective(j: nat, k: nat, w: nat)
    requires j < Pow10(w) && k < Pow10(w)
    requires Pad(j, w) == Pad(k, w)
    ensures j == k
  {
    ValueOfPad(j, w);
    ValueOfPad(k, w);
  }

  /**
   * Pigeonhole: if the range lo..hi-1 has more numbers than `used` has
   * strings, one of its w-digit numerals is not in `used`.
   */
  lemma {:induction false} FreshPad(used: set<string>, lo: nat, hi: nat, w: nat)
    requires lo + |used| < hi <= Pow10(w)
    ensures exists k :: lo <= k < hi && Pad(k, w) !in used
  {
    var top := Pad(hi - 1, w);
    if top in used {
      FreshPad(used - {top}, lo, hi - 1, w);
      var k :| lo <= k < hi - 1 && Pad(k, w) !in used - {top};
      if Pad(k, w) == top {
        PadInjective(k, hi - 1, w);
      }
    }
  }

  /** Some `w`-digit string outside `used`, when `used` leaves one free. */
  method FreshDigits(used: set<string>, w: nat) returns (s: string)
    requires |used| < Pow10(w)
    ensures |s| == w && AllDigits(s) && s !in used
  {
    FreshPad(used, 0, |used| + 1, w);
    var k :| 0 <= k <= |used| && Pad(k, w) !in used;
    s := Pad(k, w);
  }

  /** How many card numbers there are: 10^16. */
  const CardSpace: nat := 10_000_000_000_000_000

  lemma CardSpaceIsPow10()
    ensures Pow10(16) == CardSpace
  {
    assert Pow10(4) == 10_000;
    assert Pow10(8) == 100_000_000;
    assert Pow10(12) == 1_000_000_000_000;
  }

  /** An account number as `str(random.randint(1000, 9999))` produces it. */
  predicate IsAccountNumber(s: string) {
    |s| == 4 && AllDigits(s) && Value(s) >= 1000
  }

  /** A card number as sixteen draws from `string.digits` produce it. */
  predicate IsCardNumber(s: string) {
    |s| == 16 && AllDigits(s)
  }

  /** The decimal form of an account number drawn from 1000..9999. */
  function AccountNumeral(k: nat): (s: string)
    requires 1000 <= k <= 9999
    ensures IsAccountNumber(s) && Value(s) == k
  {
    ValueOfPad(k, 4);
    Pad(k, 4)
  }

  /** Writing a digit string's value back with as many digits gives the string. */
  lemma {:induction false} PadOfValue(s: string)
    requires AllDigits(s)
    ensures Pad(Value(s), |s|) == s
  {
    if s != [] {
      var init := s[..|s| - 1];
      PadOfValue(init);
    }
  }
}
