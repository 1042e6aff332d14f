/**
 * The two integer conversions the handlers rely on: Go's `strconv.Atoi`,
 * which reads the `:id` path parameter, and the decimal rendering of an
 * `int` by `fmt`'s `%v` verb, which appends the id to Delete's not-found
 * message. Go's `int` is taken to be 64 bits wide.
 */
module Strconv {
  import opened Wrappers

  const MinInt: int := -0x8000_0000_0000_0000
  const MaxInt: int := 0x7fff_ffff_ffff_ffff

  predicate IsDigit(c: char) {
    '0' <= c <= '9'
  }

  predicate AllDigits(s: string) {
    forall i :: 0 <= i < |s| ==> IsDigit(s[i])
  }

  function DigitValue(c: char): (d: nat)
    requires IsDigit(c)
    ensures d < 10
  {
    c as int - '0' as int
  }

  function DigitChar(d: nat): (c: char)
    requires d < 10
    ensures IsDigit(c) && DigitValue(c) == d
  {
    ('0' as int + d) as char
  }

  /** The number a string of decimal digits denotes, most significant digit first. */
  function Value(ds: string): nat
    requires AllDigits(ds)
  {
    if ds == [] then 0 else Value(ds[..|ds| - 1]) * 10 + DigitValue(ds[|ds| - 1])
  }

  /**
   * `strconv.Atoi`: an optional `+` or `-` followed by at least one decimal
   * digit (leading zeros allowed, no spaces, no underscores), whose value
   * fits in a 64-bit `int`. Every other string is an error (syntax or range),
   * modelled as None.
   */
  function Atoi(s: string): (r: Option<int>)
    ensures r.Some? ==> MinInt <= r.value <= MaxInt
    ensures r.Some? ==> s != [] && (IsDigit(s[0]) || s[0] == '+' || s[0] == '-')
    ensures r.Some? && r.value < 0 ==> s[0] == '-'
  {
    if s == [] then None
    else
      var negative := s[0] == '-';
      var ds := if s[0] == '-' || s[0] == '+' then s[1..] else s;
      if ds == [] || !AllDigits(ds) then None
      else
        var v: int := if negative then -(Value(ds) as int) else Value(ds);
        if MinInt <= v <= MaxInt then Some(v) else None
  }

  /** The canonical decimal digits of a natural number: no leading zero unless it is zero itself. */
  function Digits(n: nat): (s: string)
    ensures s != [] && AllDigits(s)
    ensures s[0] == '0' <==> n == 0
    decreases n
  {
    if n < 10 then [DigitChar(n)] else Digits(n / 10) + [DigitChar(n % 10)]
  }

  /** How `%v` prints an `int`: a minus sign for negative numbers, then the digits. */
  function FormatInt(n: int): (s: string)
    ensures s != []
    ensures s[0] == '-' <==> n < 0
  {
    if n < 0 then "-" + Digits(-n) else Digits(n)
  }

  /** Reading back the digits of `n` gives `n`. */
  lemma {:induction false} ValueOfDigits(n: nat)
    ensures Value(Digits(n)) == n
    decreases n
  {
    if n >= 10 {
      var s := Digits(n);
      assert s == Digits(n / 10) + [DigitChar(n % 10)];
      assert s[..|s| - 1] == Digits(n / 10);
      ValueOfDigits(n / 10);
    }
  }

  /** `Atoi` inverts `FormatInt` on every 64-bit integer. */
  lemma AtoiFormatInt(n: int)
    requires MinInt <= n <= MaxInt
    ensures Atoi(FormatInt(n)) == Some(n)
  {
    var s := FormatInt(n);
    if n < 0 {
      assert s[1..] == Digits(-n);
      ValueOfDigits(-n);
    } else {
      ValueOfDigits(n);
    }
  }

  /** The decimal form of an integer outside the 64-bit range is refused by `Atoi`. */
  lemma AtoiOutOfRange(n: int)
    requires n < MinInt || MaxInt < n
    ensures Atoi(FormatInt(n)) == None
  {
    var s := FormatInt(n);
    if n < 0 {
      assert s[1..] == Digits(-n);
      ValueOfDigits(-n);
    } else {
      ValueOfDigits(n);
    }
  }

  /** Different integers print differently, so the printed form names its integer. */
  lemma FormatIntInjective(m: int, n: int)
    requires MinInt <= m <= MaxInt && MinInt <= n <= MaxInt
    requires FormatInt(m) == FormatInt(n)
    ensures m == n
  {
    AtoiFormatInt(m);
    AtoiFormatInt(n);
  }
}
