/**
 * Swift's `Int(String)` and `String(Int)` for the 64-bit `Int` of the
 * platform, as the forms use them for day-of-month fields: an optional
 * sign, then one or more decimal digits and nothing else; a value outside
 * the 64-bit range reads as no number.
 */
module IntText {
  import opened Wrappers

  const IntMin: int := -0x8000_0000_0000_0000
  const IntMax: int := 0x7fff_ffff_ffff_ffff

  predicate IsDigit(c: char)
  {
    '0' <= c <= '9'
  }

  predicate AllDigits(s: string)
  {
    forall i :: 0 <= i < |s| ==> IsDigit(s[i])
  }

  /** The value of a run of decimal digits, most significant first. */
  function DigitsValue(s: string): nat
    requires AllDigits(s)
  {
    if s == [] then 0 else 10 * DigitsValue(s[..|s| - 1]) + (s[|s| - 1] as int - '0' as int)
  }

  /** The decimal digits of `n`, with no leading zero. */
  function Digits(n: nat): string
  {
    if n < 10 then [('0' as int + n) as char]
    else Digits(n / 10) + [('0' as int + n % 10) as char]
  }

  /** `s` without its leading sign, if it has one. */
  function Unsigned(s: string): string
  {
    if s != [] && (s[0] == '-' || s[0] == '+') then s[1..] else s
  }

  /** The value a sign followed by digits spells. */
  function SignedValue(s: string): int
    requires AllDigits(Unsigned(s))
  {
    var magnitude: int := DigitsValue(Unsigned(s));
    if s != [] && s[0] == '-' then -magnitude else magnitude
  }

  /** `Int(s)`: the integer `s` spells, or None. */
  function ParseInt(s: string): (r: Option<int>)
    ensures r.Some? ==> IntMin <= r.value <= IntMax
    ensures r.Some? ==> s != [] && (IsDigit(s[0]) || s[0] == '-' || s[0] == '+') && AllDigits(s[1..])
    ensures r.Some? && !IsDigit(s[0]) ==> |s| >= 2
    ensures Unsigned(s) != [] && AllDigits(Unsigned(s)) && IntMin <= SignedValue(s) <= IntMax
      ==> r == Some(SignedValue(s))
    ensures r.Some? ==> Unsigned(s) != [] && AllDigits(Unsigned(s)) && r.value == SignedValue(s)
  {
    var body := Unsigned(s);
    if body == [] || !AllDigits(body) then None
    else
      var v := SignedValue(s);
      if IntMin <= v <= IntMax then Some(v) else None
  }

  /** A leading plus sign, leading zeros and a negative zero are all read; a lone sign or a space is not. */
  lemma ParseIntExamples()
    ensures ParseInt("+07") == Some(7)
    ensures ParseInt("-0") == Some(0)
    ensures ParseInt("31") == Some(31)
    ensures ParseInt("-") == None
    ensures ParseInt(" 7") == None
    ensures ParseInt("") == None
  {
    assert Unsigned("+07") == "07";
    assert "07"[..1] == "0" && "0"[..0] == "";
    assert DigitsValue("0") == 0;
    assert DigitsValue("07") == 7;
    assert Unsigned("-0") == "0";
    assert "31"[..1] == "3";
    assert !IsDigit(' ');
  }

  /** `String(n)`: a minus sign for negative numbers, then the digits. */
  function FormatInt(n: int): (r: string)
    ensures r != [] && (r[0] == '-' <==> n < 0)
    ensures AllDigits(Unsigned(r)) && SignedValue(r) == n
  {
    var magnitude: nat := if n < 0 then -n else n;
    DigitsRoundTrip(magnitude);
    if n < 0 then "-" + Digits(magnitude) else Digits(magnitude)
  }

  lemma {:induction false} DigitsRoundTrip(n: nat)
    ensures Digits(n) != [] && AllDigits(Digits(n))
    ensures DigitsValue(Digits(n)) == n
  {
    if n >= 10 {
      DigitsRoundTrip(n / 10);
      var s := Digits(n);
      assert s[..|s| - 1] == Digits(n / 10);
    }
  }

  /** Reading back what `String(n)` writes gives `n` again, for every 64-bit `n`. */
  lemma ParseFormat(n: int)
    requires IntMin <= n <= IntMax
    ensures ParseInt(FormatInt(n)) == Some(n)
  {
  }
}
