/**
 * Decimal integer text, as Go's strconv.Atoi reads it and as strconv.Itoa
 * (and fmt's %d verb) writes it. Integers are unbounded here: Atoi's clamping
 * of out-of-range input to the platform int is not modelled.
 */
module Strconv {
  import opened Wrappers

  predicate IsDigit(c: char) {
    '0' <= c <= '9'
  }

  predicate AllDigits(s: string) {
    forall i :: 0 <= i < |s| ==> IsDigit(s[i])
  }

  function DigitValue(c: char): (d: nat)
    requires IsDigit(c)
    ensures d < 10
  {
    c as int - '0' as int
  }

  function DigitChar(d: nat): (c: char)
    requires d < 10
    ensures IsDigit(c) && DigitValue(c) == d
  {
    ('0' as int + d) as char
  }

  /** The value of a run of decimal digits, most significant first. */
  function DecimalValue(s: string): nat
    requires AllDigits(s)
  {
    if s == [] then 0 else DecimalValue(s[..|s| - 1]) * 10 + DigitValue(s[|s| - 1])
  }

  /**
   * The syntax strconv.Atoi accepts in base 10: an optional '+' or '-' followed
   * by one or more decimal digits, nothing else (no spaces, no underscores).
   */
  predicate WellFormed(s: string) {
    if s != [] && (s[0] == '+' || s[0] == '-') then s[1..] != [] && AllDigits(s[1..])
    else s != [] && AllDigits(s)
  }

  /** strconv.Atoi's value, or None where it reports a syntax error. */
  function ParseInt(s: string): (r: Option<int>)
    ensures r.Some? <==> WellFormed(s)
  {
    if s == [] then None
    else if s[0] == '+' || s[0] == '-' then
      if s[1..] != [] && AllDigits(s[1..]) then
        Some(if s[0] == '-' then 0 - DecimalValue(s[1..]) as int else DecimalValue(s[1..]) as int)
      else None
    else if AllDigits(s) then Some(DecimalValue(s))
    else None
  }

  /** `n, _ := strconv.Atoi(s)`: the parse error is dropped and the value is then 0. */
  function Atoi(s: string): (n: int)
    ensures WellFormed(s) ==> ParseInt(s) == Some(n)
    ensures !WellFormed(s) ==> n == 0
  {
    match ParseInt(s)
    case Some(n) => n
    case None => 0
  }

  /** The shortest decimal digits of n. */
  function Digits(n: nat): (s: string)
    ensures s != [] && AllDigits(s)
  {
    if n < 10 then [DigitChar(n)] else Digits(n / 10) + [DigitChar(n % 10)]
  }

  /** strconv.Itoa, and the text fmt's %d verb writes. */
  function Itoa(n: int): (s: string)
    ensures s != [] && forall i :: 0 <= i < |s| ==> IsDigit(s[i]) || s[i] == '-'
  {
    if n < 0 then "-" + Digits(-n) else Digits(n)
  }

  lemma {:induction false} DecimalValueOfDigits(n: nat)
    ensures DecimalValue(Digits(n)) == n
  {
    if n >= 10 {
      var s := Digits(n);
      assert s[..|s| - 1] == Digits(n / 10);
      DecimalValueOfDigits(n / 10);
    }
  }

  /** Reading back what Itoa writes gives the number again. */
  lemma ParseItoa(n: int)
    ensures ParseInt(Itoa(n)) == Some(n)
    ensures Atoi(Itoa(n)) == n
  {
    if n < 0 {
      DecimalValueOfDigits(-n);
      assert Itoa(n)[1..] == Digits(-n);
    } else {
      DecimalValueOfDigits(n);
    }
  }

  /** Itoa never writes two numbers the same way. */
  lemma ItoaInjective(a: int, b: int)
    requires Itoa(a) == Itoa(b)
    ensures a == b
  {
    ParseItoa(a);
    ParseItoa(b);
  }

  lemma {:induction false} DecimalValueLeadingZero(s: string)
    requires AllDigits(s)
    ensures AllDigits("0" + s) && DecimalValue("0" + s) == DecimalValue(s)
  {
    if s != [] {
      var z := "0" + s;
      assert z[..|z| - 1] == "0" + s[..|s| - 1];
      DecimalValueLeadingZero(s[..|s| - 1]);
    }
  }

  /** Leading zeros do not change the value Atoi reads: "012" and "12" both read 12. */
  lemma LeadingZeroIgnored(s: string)
    requires s != [] && AllDigits(s)
    ensures ParseInt("0" + s) == ParseInt(s)
  {
    DecimalValueLeadingZero(s);
  }
}
