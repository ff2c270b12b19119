/**
  The C++ standard-library conversions the key filter applies to its string
  parameters: `std::stoi`, `std::stol`-based `std::stoll`, `std::stoul`,
  `std::stoull` and `operator>>` into a `bool`, on an LP64 platform (long and
  unsigned long are 64 bits wide), in base 10 and the "C" locale.

  All of them skip leading white space, accept one optional sign, then take the
  longest run of decimal digits; whatever follows is ignored.  No digits is
  `std::invalid_argument`; a value outside the target range is
  `std::out_of_range`.  Both are `std::logic_error`s, not `std::runtime_error`s.
*/
module StdConv {
  import opened Wrappers
  import opened XTypes

  /** An exception raised by a conversion or by the code around it. */
  datatype Failure =
    | RuntimeError(message: string)  // std::runtime_error
    | InvalidArgument                 // std::invalid_argument, a std::logic_error
    | OutOfRangeError                 // std::out_of_range, a std::logic_error

  predicate IsSpace(c: char) {
    c == ' ' || c == '\t' || c == '\n' || c == 11 as char || c == 12 as char || c == '\r'
  }

  predicate IsDigit(c: char) {
    '0' <= c <= '9'
  }

  function DigitValue(c: char): nat
    requires IsDigit(c)
  {
    c as int - '0' as int
  }

  function SkipSpace(s: string): string
    decreases |s|
  {
    if |s| > 0 && IsSpace(s[0]) then SkipSpace(s[1..]) else s
  }

  predicate AllDigits(s: string) {
    forall k :: 0 <= k < |s| ==> IsDigit(s[k])
  }

  /** The run of digits `s` starts with: the longest prefix of digits. */
  function DigitPrefix(s: string): (ds: string)
    ensures ds <= s && AllDigits(ds)
    ensures |ds| < |s| ==> !IsDigit(s[|ds|])
    decreases |s|
  {
    if |s| == 0 || !IsDigit(s[0]) then [] else [s[0]] + DigitPrefix(s[1..])
  }

  /** The value of a string of digits, most significant first. */
  function Value(ds: string): nat
    requires AllDigits(ds)
    decreases |ds|
  {
    if |ds| == 0 then 0 else Value(ds[..|ds| - 1]) * 10 + DigitValue(ds[|ds| - 1])
  }

  /** The signed decimal number at the start of `s`, if there is one. */
  function ParseDecimal(s: string): (r: Option<int>)
  {
    var t := SkipSpace(s);
    if |t| > 0 && t[0] == '-' then Magnitude(t[1..], true)
    else if |t| > 0 && t[0] == '+' then Magnitude(t[1..], false)
    else Magnitude(t, false)
  }

  /** The number the digits at the start of `u` spell, negated when a minus sign came before. */
  function Magnitude(u: string, neg: bool): Option<int> {
    var ds := DigitPrefix(u);
    if |ds| == 0 then None
    else
      var m: int := Value(ds);
      Some(if neg then -m else m)
  }

  /** `std::stoi`: the number must fit an int. */
  function Stoi(s: string): (r: Result<int, Failure>)
    ensures r.Ok? ==> I32.Fits(r.value)
    ensures r.Ok? <==> ParseDecimal(s).Some? && I32.Fits(ParseDecimal(s).value)
  {
    match ParseDecimal(s)
    case None => Err(InvalidArgument)
    case Some(v) => if I32.Fits(v) then Ok(v) else Err(OutOfRangeError)
  }

  /** `std::stoll`: the number must fit a long long. */
  function Stoll(s: string): (r: Result<int, Failure>)
    ensures r.Ok? ==> I64.Fits(r.value)
    ensures r.Ok? <==> ParseDecimal(s).Some? && I64.Fits(ParseDecimal(s).value)
  {
    match ParseDecimal(s)
    case None => Err(InvalidArgument)
    case Some(v) => if I64.Fits(v) then Ok(v) else Err(OutOfRangeError)
  }

  /** `std::stoul` and `std::stoull`: the magnitude must fit an unsigned long; a minus sign
      negates modulo 2^64, so "-1" is the largest unsigned long. */
  function Stoul(s: string): (r: Result<int, Failure>)
    ensures r.Ok? ==> U64.Fits(r.value)
    ensures r.Ok? <==> ParseDecimal(s).Some? && -U64.Max() <= ParseDecimal(s).value <= U64.Max()
  {
    match ParseDecimal(s)
    case None => Err(InvalidArgument)
    case Some(v) => if -U64.Max() <= v <= U64.Max() then Ok(Cast(v, U64)) else Err(OutOfRangeError)
  }

  /** `std::istringstream(s) >> b` without `boolalpha`: the number read is false when 0 and true
      otherwise; when no number can be read, false. */
  function StreamBool(s: string): (b: bool)
    ensures b <==> ParseDecimal(s).Some? && ParseDecimal(s).value != 0
  {
    match ParseDecimal(s)
    case None => false
    case Some(v) => v != 0
  }

  // ---------------------------------------------------------------------------
  // Decimal text, the partner of the parser

  function DigitChar(d: nat): (c: char)
    requires d < 10
    ensures IsDigit(c) && DigitValue(c) == d
  {
    ('0' as int + d) as char
  }

  /** The shortest decimal text of `n`. */
  function NatText(n: nat): (s: string)
    ensures |s| > 0
    decreases n
  {
    if n < 10 then [DigitChar(n)] else NatText(n / 10) + [DigitChar(n % 10)]
  }

  /** `std::to_string` of an integer. */
  function DecimalText(v: int): string {
    if v < 0 then "-" + NatText(-v) else NatText(v)
  }

  lemma {:induction false} NatTextDigits(n: nat)
    ensures AllDigits(NatText(n))
    ensures Value(NatText(n)) == n
    decreases n
  {
    if n >= 10 {
      NatTextDigits(n / 10);
      var s := NatText(n);
      assert s[..|s| - 1] == NatText(n / 10);
    }
  }

  /** A string of digits is its own leading run. */
  lemma {:induction false} DigitPrefixAll(s: string)
    requires AllDigits(s)
    ensures DigitPrefix(s) == s
    decreases |s|
  {
    if |s| > 0 {
      assert AllDigits(s[1..]) by {
        forall k | 0 <= k < |s[1..]| ensures IsDigit(s[1..][k]) {
          assert s[1..][k] == s[k + 1];
        }
      }
      DigitPrefixAll(s[1..]);
      assert [s[0]] + s[1..] == s;
    }
  }

  /** A non-empty run of digits spells its value. */
  lemma MagnitudeOfDigits(t: string, neg: bool)
    requires |t| > 0 && AllDigits(t)
    ensures Magnitude(t, neg) == Some(if neg then -(Value(t) as int) else Value(t))
  {
    DigitPrefixAll(t);
    ValueCongruent(DigitPrefix(t), t);
  }

  /** Equal strings of digits have equal values (stated so the solver need not unfold `Value`). */
  lemma ValueCongruent(a: string, b: string)
    requires a == b && AllDigits(a)
    ensures Value(a) == Value(b)
  {
  }

  /** A non-empty run of digits parses to its value. */
  lemma ParseDigits(t: string)
    requires |t| > 0 && AllDigits(t)
    ensures ParseDecimal(t) == Some(Value(t))
  {
    assert !IsSpace(t[0]);
    assert SkipSpace(t) == t;
    MagnitudeOfDigits(t, false);
  }

  /** A minus sign followed by a non-empty run of digits parses to the negated value. */
  lemma ParseNegatedDigits(t: string)
    requires |t| > 0 && AllDigits(t)
    ensures ParseDecimal("-" + t) == Some(-(Value(t) as int))
  {
    var u := "-" + t;
    assert u[0] == '-' && !IsSpace(u[0]);
    assert SkipSpace(u) == u;
    assert u[1..] == t;
    MagnitudeOfDigits(t, true);
  }

  /** Every integer's decimal text parses back to it. */
  lemma ParseDecimalText(v: int)
    ensures ParseDecimal(DecimalText(v)) == Some(v)
  {
    var m: nat := if v < 0 then -v else v;
    NatTextDigits(m);
    if v < 0 {
      ParseNegatedDigits(NatText(m));
    } else {
      ParseDigits(NatText(m));
    }
  }

  /** Hence `std::stoi` of the text of any int gives that int back. */
  lemma StoiText(v: int)
    requires I32.Fits(v)
    ensures Stoi(DecimalText(v)) == Ok(v)
  {
    ParseDecimalText(v);
  }
}
