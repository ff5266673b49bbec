/**
 * The few string rules of PHP and Laravel the controllers rely on: truthiness of a
 * nullable string, `trim`, the `required` rule, and decimal rendering of numbers.
 */
module Text {
  import opened Wrappers

  /** The characters PHP's trim() strips. */
  predicate IsTrimmed(c: char) {
    c == ' ' || c == '\t' || c == '\n' || c == '\r' || c == '\0' || c == '\U{B}'
  }

  predicate IsBlank(s: string) {
    forall i :: 0 <= i < |s| ==> IsTrimmed(s[i])
  }

  /** Laravel's `required` on a string: present, not null, and not empty after trimming. */
  predicate Required(s: Option<string>) {
    s.Some? && !IsBlank(s.value)
  }

  /** Laravel's `max:n` on a nullable string: null passes, otherwise at most n characters. */
  predicate AtMost(s: Option<string>, n: nat) {
    s.None? || |s.value| <= n
  }

  /** A boolean input: absent, one of the spellings Laravel's `boolean` rule accepts, or anything else. */
  datatype Flag = Unset | Given(value: bool) | NotBoolean

  /** `$request->boolean(key, default)` once the `boolean` rule has passed. */
  function FlagOr(f: Flag, default: bool): bool {
    if f.Given? then f.value else default
  }

  /** PHP truthiness of a nullable string: null, "" and "0" are false, everything else true. */
  predicate Truthy(s: Option<string>) {
    s.Some? && s.value != "" && s.value != "0"
  }

  predicate IsDigit(c: char) { '0' <= c <= '9' }

  predicate AllDigits(s: string) {
    forall i :: 0 <= i < |s| ==> IsDigit(s[i])
  }

  function Digit(d: nat): (c: char)
    requires d < 10
    ensures IsDigit(c)
  {
    ('0' as int + d) as char
  }

  /** Decimal rendering of an integer, with a minus sign when negative. */
  function IntToString(i: int): string {
    if i < 0 then "-" + NatToString(-i) else NatToString(i)
  }

  function DigitValue(c: char): nat
    requires IsDigit(c)
  {
    c as int - '0' as int
  }

  /** The value of a string of decimal digits (leading zeros allowed). */
  function ParseDigits(s: string): nat
    requires AllDigits(s)
  {
    if s == [] then 0 else ParseDigits(s[..|s| - 1]) * 10 + DigitValue(s[|s| - 1])
  }

  /** Decimal rendering of a natural number, without leading zeros. */
  function NatToString(n: nat): (s: string)
    ensures 1 <= |s| && AllDigits(s)
    ensures n < 10 <==> |s| == 1
    ensures 1 < |s| ==> s[0] != '0'
  {
    if n < 10 then [Digit(n)] else NatToString(n / 10) + [Digit(n % 10)]
  }

  lemma {:induction false} ParseNatToString(n: nat)
    ensures ParseDigits(NatToString(n)) == n
  {
    if n >= 10 {
      var s := NatToString(n);
      assert s[..|s| - 1] == NatToString(n / 10);
      ParseNatToString(n / 10);
    }
  }

  function Zeros(k: nat): (z: string)
    ensures |z| == k && AllDigits(z)
  {
    if k == 0 then "" else "0" + Zeros(k - 1)
  }

  lemma {:induction false} ParseZeros(k: nat)
    ensures ParseDigits(Zeros(k)) == 0
  {
    if k > 0 {
      assert Zeros(k)[..k - 1] == Zeros(k - 1) by {
        ZerosAll(k);
        ZerosAll(k - 1);
      }
      ParseZeros(k - 1);
    }
  }

  lemma {:induction false} ZerosAll(k: nat)
    ensures forall i :: 0 <= i < k ==> Zeros(k)[i] == '0'
  {
    if k > 0 { ZerosAll(k - 1); }
  }

  lemma {:induction false} ParseLeadingZeros(k: nat, s: string)
    requires AllDigits(s)
    ensures ParseDigits(Zeros(k) + s) == ParseDigits(s)
  {
    if s == [] {
      assert Zeros(k) + s == Zeros(k);
      ParseZeros(k);
    } else {
      var t := Zeros(k) + s;
      assert t[..|t| - 1] == Zeros(k) + s[..|s| - 1];
      ParseLeadingZeros(k, s[..|s| - 1]);
    }
  }

  /** PHP's integer range on a 64-bit build: PHP_INT_MIN to PHP_INT_MAX. */
  predicate FitsPhpInt(i: int) {
    -0x8000_0000_0000_0000 <= i <= 0x7FFF_FFFF_FFFF_FFFF
  }

  /**
   * A decimal integer written plainly: an optional minus sign, then at least one digit.
   * This is the form in which a query-string value reaches an `int` parameter intact.
   */
  function ParseInt(s: string): (r: Option<int>)
    ensures r.Some? ==> (AllDigits(s) && 0 < |s|) || (1 < |s| && s[0] == '-' && AllDigits(s[1..]))
    ensures 0 < |s| && AllDigits(s) ==> r == Some(ParseDigits(s))
  {
    if 0 < |s| && AllDigits(s) then Some(ParseDigits(s))
    else if 1 < |s| && s[0] == '-' && AllDigits(s[1..]) then Some(-(ParseDigits(s[1..]) as int))
    else None
  }

  /** Every integer's rendering parses back to it. */
  lemma ParseIntToString(i: int)
    ensures ParseInt(IntToString(i)) == Some(i)
  {
    if i < 0 {
      ParseNegative(-i);
    } else {
      ParseNatToString(i);
    }
  }

  /** A minus sign followed by a natural number's rendering parses back to its negation. */
  lemma ParseNegative(n: nat)
    requires 0 < n
    ensures ParseInt("-" + NatToString(n)) == Some(-(n as int))
  {
    var d := NatToString(n);
    var s := "-" + d;
    assert s[1..] == d;
    assert !AllDigits(s) by {
      assert !IsDigit(s[0]);
    }
    ParseNatToString(n);
  }
}
