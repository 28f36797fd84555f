/** `str::parse::<i64>()` from Rust's standard library, as the request
    builder applies it to a TCP-proxy key (src/lib.rs:169): an optional
    sign, then one or more ASCII digits, scanned left to right with checked
    arithmetic, so the first problem met decides the error kind. */
module ParseInt {
  import opened Wrappers

  const I64_MIN: int := -0x8000_0000_0000_0000
  const I64_MAX: int := 0x7fff_ffff_ffff_ffff

  /** The kinds of std::num::ParseIntError that parsing an i64 can give. */
  datatype IntErrorKind = Empty | InvalidDigit | PosOverflow | NegOverflow

  predicate IsDigit(c: char) { '0' <= c <= '9' }

  function DigitValue(c: char): nat
    requires IsDigit(c)
  {
    c as int - '0' as int
  }

  /** Folds `digits` into `acc`, adding (or, for a negative number,
      subtracting) each digit after multiplying by ten. */
  function Accumulate(digits: string, acc: int, negative: bool): (r: Result<int, IntErrorKind>)
    requires I64_MIN <= acc <= I64_MAX
    ensures r.Success? ==> I64_MIN <= r.value <= I64_MAX
    ensures r.Failure? ==> r.error != Empty
    decreases |digits|
  {
    if digits == [] then Success(acc)
    else if !IsDigit(digits[0]) then Failure(InvalidDigit)
    else
      var next := if negative then acc * 10 - DigitValue(digits[0]) else acc * 10 + DigitValue(digits[0]);
      if next > I64_MAX then Failure(PosOverflow)
      else if next < I64_MIN then Failure(NegOverflow)
      else Accumulate(digits[1..], next, negative)
  }

  function ParseI64(s: string): (r: Result<int, IntErrorKind>)
    ensures r.Success? ==> I64_MIN <= r.value <= I64_MAX
    ensures r == Failure(Empty) <==> s == []
  {
    if s == [] then Failure(Empty)
    else if (s[0] == '+' || s[0] == '-') && |s| == 1 then Failure(InvalidDigit)
    else if s[0] == '+' then Accumulate(s[1..], 0, false)
    else if s[0] == '-' then Accumulate(s[1..], 0, true)
    else Accumulate(s, 0, false)
  }

  /** The decimal digits of a natural number, most significant first. */
  function Digits(n: nat): (d: string)
    ensures |d| >= 1
    ensures forall i :: 0 <= i < |d| ==> IsDigit(d[i])
  {
    (if n < 10 then [] else Digits(n / 10)) + [('0' as int + n % 10) as char]
  }

  /** The decimal rendering of an integer: `i64::to_string`. */
  function Show(n: int): string {
    if n < 0 then "-" + Digits(-n) else Digits(n)
  }

  /** Accumulating one more digit extends a successful accumulation by one
      step of the fold: the value times ten plus (or minus) the digit, or
      the overflow of the side it leaves the i64 range on. */
  lemma {:induction false} AccumulateSnoc(s: string, c: char, acc: int, negative: bool)
    requires I64_MIN <= acc <= I64_MAX
    requires Accumulate(s, acc, negative).Success?
    requires IsDigit(c)
    ensures var v := Accumulate(s, acc, negative).value;
            var next := if negative then v * 10 - DigitValue(c) else v * 10 + DigitValue(c);
            Accumulate(s + [c], acc, negative) ==
              if next > I64_MAX then Failure(PosOverflow)
              else if next < I64_MIN then Failure(NegOverflow)
              else Success(next)
    decreases |s|
  {
    if s == [] {
      assert s + [c] == [c];
      assert [c][1..] == [];
    } else {
      assert (s + [c])[1..] == s[1..] + [c];
      var next := if negative then acc * 10 - DigitValue(s[0]) else acc * 10 + DigitValue(s[0]);
      AccumulateSnoc(s[1..], c, next, negative);
    }
  }

  /** The digits of `m` accumulate back to `m` (or `-m`), as long as the
      result fits an i64. */
  lemma {:induction false} AccumulateDigits(m: nat, negative: bool)
    requires if negative then m <= -I64_MIN else m <= I64_MAX
    ensures Accumulate(Digits(m), 0, negative) == Success(if negative then -(m as int) else m as int)
    decreases m
  {
    var c := ('0' as int + m % 10) as char;
    assert DigitValue(c) == m % 10;
    if m < 10 {
      assert Digits(m) == [c];
    } else {
      AccumulateDigits(m / 10, negative);
      assert Digits(m) == Digits(m / 10) + [c];
      AccumulateSnoc(Digits(m / 10), c, 0, negative);
    }
  }

  /** Parsing is the inverse of rendering on the whole i64 range. */
  lemma ParseShow(n: int)
    requires I64_MIN <= n <= I64_MAX
    ensures ParseI64(Show(n)) == Success(n)
  {
    if n < 0 {
      AccumulateDigits(-n, true);
      assert ("-" + Digits(-n))[1..] == Digits(-n);
    } else {
      AccumulateDigits(n, false);
      assert Digits(n)[0] != '+' && Digits(n)[0] != '-';
    }
  }
}
