/**
 * Digit text of natural numbers in radix 10 and 16, as JavaScript's
 * Number.prototype.toString(radix) writes it for non-negative integers
 * (lower-case letters, no leading zeros) and as the parsers of the
 * identifiers read it back.
 */
module NumText {

  predicate IsDigit(c: char) {
    '0' <= c <= '9'
  }

  predicate IsLowerHexDigit(c: char) {
    IsDigit(c) || 'a' <= c <= 'f'
  }

  /** The value of one lower-case hexadecimal (or decimal) digit. */
  function DigitValue(c: char): (d: nat)
    requires IsLowerHexDigit(c)
    ensures d < 16
    ensures IsDigit(c) <==> d < 10
  {
    if IsDigit(c) then c as int - '0' as int else c as int - 'a' as int + 10
  }

  /** The lower-case character of digit `d`. */
  function DigitChar(d: nat): (c: char)
    requires d < 16
    ensures IsLowerHexDigit(c) && DigitValue(c) == d
  {
    if d < 10 then ('0' as int + d) as char else ('a' as int + d - 10) as char
  }

  lemma DigitCharOfValue(c: char)
    requires IsLowerHexDigit(c)
    ensures DigitChar(DigitValue(c)) == c
  {
    if IsDigit(c) {
      assert (('0' as int + (c as int - '0' as int)) as char) == c;
    } else {
      assert (('a' as int + (c as int - 'a' as int + 10) - 10) as char) == c;
    }
  }

  /** The two radices the modelled code writes and reads: decimal and hexadecimal. */
  predicate ValidBase(base: nat) {
    base == 10 || base == 16
  }

  /** Euclidean division by a radix undoes "shift left by one digit and add a digit". */
  lemma DivModBase(base: nat, q: nat, r: nat)
    requires ValidBase(base) && r < base
    ensures (base * q + r) / base == q && (base * q + r) % base == r
    ensures q >= 1 ==> base * q + r >= base
  {
    if base == 10 {
      assert (10 * q + r) / 10 == q;
    } else {
      assert (16 * q + r) / 16 == q;
    }
  }

  lemma QuotientPositive(base: nat, n: nat)
    requires ValidBase(base) && n >= base
    ensures n / base >= 1
  {
    if base == 10 {
      assert n / 10 >= 1;
    } else {
      assert n / 16 >= 1;
    }
  }

  /** Every character of `s` is a digit of radix `base`. */
  predicate IsDigitsIn(base: nat, s: string) {
    forall i :: 0 <= i < |s| ==> IsLowerHexDigit(s[i]) && DigitValue(s[i]) < base
  }

  /** A non-empty string of decimal digits (the regular expression ^\d+$). */
  predicate IsAllDigits(s: string) {
    |s| > 0 && forall i :: 0 <= i < |s| ==> IsDigit(s[i])
  }

  /** Positional value of the digit string `s`, read most significant digit first. */
  function ValueIn(base: nat, s: string): nat
    requires ValidBase(base) && IsDigitsIn(base, s)
  {
    if s == [] then 0 else base * ValueIn(base, s[..|s| - 1]) + DigitValue(s[|s| - 1])
  }

  /** The canonical digit string of `n`: "0" for zero, otherwise no leading zero. */
  function DigitsIn(base: nat, n: nat): (s: string)
    requires ValidBase(base)
    ensures |s| > 0 && IsDigitsIn(base, s)
    ensures ValueIn(base, s) == n
    ensures s[0] == '0' ==> s == "0"
  {
    if n < base then
      [DigitChar(n)]
    else
      var prefix := DigitsIn(base, n / base);
      var s := prefix + [DigitChar(n % base)];
      assert s[..|s| - 1] == prefix;
      QuotientPositive(base, n);
      assert prefix != "0";
      s
  }

  lemma DecimalDigitsIn(s: string)
    requires IsAllDigits(s)
    ensures IsDigitsIn(10, s)
  {
    forall i | 0 <= i < |s| ensures IsLowerHexDigit(s[i]) && DigitValue(s[i]) < 10 {
      assert IsDigit(s[i]);
    }
  }

  /** `Number(s)` for a string of decimal digits, as an exact natural number. */
  function DecimalValue(s: string): nat
    requires IsAllDigits(s)
  {
    DecimalDigitsIn(s);
    ValueIn(10, s)
  }

  /** A leading zero does not change the value of a decimal digit string. */
  lemma DecimalLeadingZero(s: string)
    requires IsAllDigits(s)
    ensures IsAllDigits("0" + s) && DecimalValue("0" + s) == DecimalValue(s)
  {
    var z := "0" + s;
    assert forall i :: 1 <= i < |z| ==> z[i] == s[i - 1];
    DecimalDigitsIn(s);
    LeadingZero(10, s);
  }

  /** String form of an integer-valued JavaScript number in radix `base`. */
  function IntToString(base: nat, n: int): (s: string)
    requires ValidBase(base)
    ensures |s| > 0 && (s[0] == '-' <==> n < 0)
  {
    if n < 0 then "-" + DigitsIn(base, -n) else DigitsIn(base, n)
  }

  /** A leading zero does not change the value of a digit string. */
  lemma {:induction false} LeadingZero(base: nat, s: string)
    requires ValidBase(base) && IsDigitsIn(base, s)
    ensures IsDigitsIn(base, "0" + s)
    ensures ValueIn(base, "0" + s) == ValueIn(base, s)
  {
    var z := "0" + s;
    assert IsDigitsIn(base, z) by {
      forall i | 0 <= i < |z| ensures IsLowerHexDigit(z[i]) && DigitValue(z[i]) < base {
        if i > 0 { assert z[i] == s[i - 1]; }
      }
    }
    if s == [] {
      assert z == "0";
      assert z[..0] == [];
    } else {
      var init := s[..|s| - 1];
      assert z[..|z| - 1] == "0" + init;
      assert z[|z| - 1] == s[|s| - 1];
      LeadingZero(base, init);
    }
  }

  /** A run of `k` zero digits. */
  function Zeros(k: nat): (z: string)
    ensures |z| == k && forall i :: 0 <= i < k ==> z[i] == '0'
  {
    if k == 0 then [] else "0" + Zeros(k - 1)
  }

  /** Any run of leading zeros does not change the value of a digit string. */
  lemma {:induction false} LeadingZeros(base: nat, k: nat, s: string)
    requires ValidBase(base) && IsDigitsIn(base, s)
    ensures IsDigitsIn(base, Zeros(k) + s)
    ensures ValueIn(base, Zeros(k) + s) == ValueIn(base, s)
  {
    if k > 0 {
      var shorter := Zeros(k - 1) + s;
      LeadingZeros(base, k - 1, s);
      assert Zeros(k) + s == "0" + shorter;
      LeadingZero(base, shorter);
    } else {
      assert Zeros(k) + s == s;
    }
  }

  /** Appending digit d to the canonical text of q >= 1 gives the canonical text of base * q + d. */
  lemma DigitsInStep(base: nat, q: nat, d: nat)
    requires ValidBase(base) && q >= 1 && d < base
    ensures DigitsIn(base, base * q + d) == DigitsIn(base, q) + [DigitChar(d)]
  {
    DivModBase(base, q, d);
  }

  /** A digit string without a leading zero is the canonical text of its value. */
  lemma {:induction false} CanonicalDigits(base: nat, s: string)
    requires ValidBase(base) && IsDigitsIn(base, s) && |s| > 0
    requires s[0] != '0' || |s| == 1
    ensures DigitsIn(base, ValueIn(base, s)) == s
  {
    var init := s[..|s| - 1];
    var last := s[|s| - 1];
    assert IsLowerHexDigit(last) && DigitValue(last) < base;
    if |s| == 1 {
      SingleDigitCanonical(base, last);
      assert s == [last];
    } else {
      assert init[0] == s[0];
      assert IsDigitsIn(base, init);
      var q := ValueIn(base, init);
      var d := DigitValue(last);
      assert ValueIn(base, s) == base * q + d;
      PositiveWithoutLeadingZero(base, init);
      CanonicalDigits(base, init);
      DigitsInStep(base, q, d);
      DigitCharOfValue(last);
      assert s == init + [last];
    }
  }

  lemma SingleDigitCanonical(base: nat, c: char)
    requires ValidBase(base) && IsLowerHexDigit(c) && DigitValue(c) < base
    ensures IsDigitsIn(base, [c]) && DigitsIn(base, ValueIn(base, [c])) == [c]
  {
    var d := DigitValue(c);
    assert [c][..0] == [];
    assert ValueIn(base, [c]) == d;
    DigitCharOfValue(c);
  }

  lemma {:induction false} PositiveWithoutLeadingZero(base: nat, s: string)
    requires ValidBase(base) && IsDigitsIn(base, s) && |s| > 0 && s[0] != '0'
    ensures ValueIn(base, s) > 0
  {
    if |s| > 1 {
      var init := s[..|s| - 1];
      PositiveWithoutLeadingZero(base, init);
    } else {
      assert s[|s| - 1] == s[0];
    }
  }
}
