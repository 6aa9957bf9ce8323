/**
 * The two conversions of Go's `strconv` package the bot relies on:
 * `FormatInt(n, 10)` and `Atoi`, on a 64-bit platform.
 *
 * `Atoi` is modelled as `ParseInt(s, 10, 0)` behaves; Go's short-string
 * fast path gives the same value and error on every input of fewer than
 * 19 characters, so it is not written separately.
 */
module Strconv {
  import opened Wrappers
  import opened GoInts

  predicate IsDigit(c: char)
  {
    '0' <= c <= '9'
  }

  predicate AllDigits(s: string)
  {
    forall i :: 0 <= i < |s| ==> IsDigit(s[i])
  }

  function DigitValue(c: char): nat
    requires IsDigit(c)
  {
    c as int - '0' as int
  }

  function DigitChar(d: nat): (c: char)
    requires d < 10
    ensures IsDigit(c) && DigitValue(c) == d
  {
    ('0' as int + d) as char
  }

  /** Reading the digits of `s` left to right after `acc` has been read: acc * 10^|s| + value of `s`. */
  function Horner(s: string, acc: nat): nat
    requires AllDigits(s)
    decreases |s|
  {
    if s == [] then acc else Horner(s[1..], acc * 10 + DigitValue(s[0]))
  }

  /** The number a digit string denotes. */
  function DigitsValue(s: string): nat
    requires AllDigits(s)
  {
    Horner(s, 0)
  }

  // ---------------------------------------------------------------------
  // FormatInt
  // ---------------------------------------------------------------------

  /** Decimal digits of `n`, most significant first, without leading zeros. */
  function NatDigits(n: nat): (s: string)
    ensures |s| >= 1 && AllDigits(s)
    ensures s[0] == '0' ==> n == 0
    decreases n
  {
    if n < 10 then [DigitChar(n)] else NatDigits(n / 10) + [DigitChar(n % 10)]
  }

  /** `strconv.FormatInt(n, 10)`: a '-' for negative numbers, then the digits of |n|. */
  function FormatInt(n: int): (s: string)
    ensures |s| >= 1
    ensures s[0] == '-' <==> n < 0
    ensures var digits := if n < 0 then s[1..] else s;
      |digits| >= 1 && AllDigits(digits) && DigitsValue(digits) == if n < 0 then -n else n
    ensures var digits := if n < 0 then s[1..] else s;
      digits[0] == '0' ==> n == 0
    ensures |s| == DigitCount(if n < 0 then -n else n) + (if n < 0 then 1 else 0)
  {
    NatDigitsValue(if n < 0 then -n else n);
    if n < 0 then "-" + NatDigits(-n) else NatDigits(n)
  }

  lemma {:induction false} HornerSnoc(s: string, d: char, acc: nat)
    requires AllDigits(s) && IsDigit(d)
    ensures AllDigits(s + [d])
    ensures Horner(s + [d], acc) == Horner(s, acc) * 10 + DigitValue(d)
    decreases |s|
  {
    if s == [] {
      assert s + [d] == [d];
    } else {
      assert (s + [d])[1..] == s[1..] + [d];
      HornerSnoc(s[1..], d, acc * 10 + DigitValue(s[0]));
    }
  }

  /** The digits `NatDigits` writes read back as the number. */
  lemma {:induction false} NatDigitsValue(n: nat)
    ensures DigitsValue(NatDigits(n)) == n
    decreases n
  {
    if n < 10 {
      var s := NatDigits(n);
      assert s[1..] == [];
      assert Horner(s, 0) == Horner(s[1..], DigitValue(s[0]));
    } else {
      NatDigitsValue(n / 10);
      HornerSnoc(NatDigits(n / 10), DigitChar(n % 10), 0);
    }
  }

  /** Number of decimal digits of `n`. */
  function DigitCount(n: nat): (k: nat)
    ensures k >= 1
    ensures |NatDigits(n)| == k
    decreases n
  {
    if n < 10 then 1 else DigitCount(n / 10) + 1
  }

  // ---------------------------------------------------------------------
  // Atoi
  // ---------------------------------------------------------------------

  /** The `*NumError` `Atoi` returns, with the whole input as its `Num`. */
  datatype NumError = SyntaxError(num: string) | RangeError(num: string)

  /** What `ParseUint(s, 10, 64)`'s loop makes of the digits after the sign. */
  datatype UintScan = Value(n: nat) | BadSyntax | OutOfRange

  /**
   * ParseUint's loop, with `acc` read so far: a non-digit stops it with a
   * syntax error, a value past 2^64 - 1 stops it with a range error,
   * whichever comes first.
   */
  function ScanUint(s: string, acc: nat): UintScan
    decreases |s|
  {
    if s == [] then Value(acc)
    else if !IsDigit(s[0]) then BadSyntax
    else if acc * 10 + DigitValue(s[0]) > MaxUint64 then OutOfRange
    else ScanUint(s[1..], acc * 10 + DigitValue(s[0]))
  }

  /** The digits after an optional leading '+' or '-'. */
  function Unsigned(s: string): string
  {
    if |s| > 0 && (s[0] == '-' || s[0] == '+') then s[1..] else s
  }

  /** `strconv.Atoi(s)`: the value and a nil error, or a clamped value and the error. */
  function Atoi(s: string): (r: (int, Option<NumError>))
    ensures IsInt64(r.0)
    ensures r.1.Some? ==> r.1.value.num == s
    ensures r.1 == Some(SyntaxError(s)) ==> r.0 == 0
  {
    var neg := |s| > 0 && s[0] == '-';
    var digits := Unsigned(s);
    if digits == [] then (0, Some(SyntaxError(s)))
    else match ScanUint(digits, 0)
      case BadSyntax => (0, Some(SyntaxError(s)))
      case OutOfRange => if neg then (MinInt64, Some(RangeError(s))) else (MaxInt64, Some(RangeError(s)))
      case Value(un) =>
        if !neg && un > MaxInt64 then (MaxInt64, Some(RangeError(s)))
        else if neg && un > -MinInt64 then (MinInt64, Some(RangeError(s)))
        else var value: int := un; (if neg then -value else value, None)
  }

  /** A decimal integer literal as `Atoi` accepts it: an optional sign and at least one digit. */
  predicate IsDecimal(s: string)
  {
    |Unsigned(s)| >= 1 && AllDigits(Unsigned(s))
  }

  /** The number a decimal literal denotes, sign included. */
  function SignedValue(s: string): int
    requires IsDecimal(s)
  {
    var value: int := DigitsValue(Unsigned(s));
    if s[0] == '-' then -value else value
  }

  lemma {:induction false} HornerGrows(s: string, acc: nat)
    requires AllDigits(s)
    ensures Horner(s, acc) >= acc
    ensures |s| > 0 ==> Horner(s, acc) >= acc * 10 + DigitValue(s[0])
    decreases |s|
  {
    if s != [] {
      HornerGrows(s[1..], acc * 10 + DigitValue(s[0]));
    }
  }

  /** ParseUint's loop reads a digit string whose value fits in 64 bits to exactly that value. */
  lemma {:induction false} ScanUintDigits(s: string, acc: nat)
    requires AllDigits(s) && acc <= MaxUint64
    ensures Horner(s, acc) <= MaxUint64 ==> ScanUint(s, acc) == Value(Horner(s, acc))
    ensures Horner(s, acc) > MaxUint64 ==> ScanUint(s, acc) == OutOfRange
    decreases |s|
  {
    if s != [] {
      HornerGrows(s, acc);
      if acc * 10 + DigitValue(s[0]) <= MaxUint64 {
        ScanUintDigits(s[1..], acc * 10 + DigitValue(s[0]));
      }
    }
  }

  /** ParseUint's loop stops without a syntax error only on digits, or on an overflow before any non-digit. */
  lemma {:induction false} ScanUintSyntax(s: string, acc: nat)
    ensures ScanUint(s, acc).Value? ==> AllDigits(s)
    decreases |s|
  {
    if s != [] && IsDigit(s[0]) && acc * 10 + DigitValue(s[0]) <= MaxUint64 {
      ScanUintSyntax(s[1..], acc * 10 + DigitValue(s[0]));
    }
  }

  /**
   * `Atoi` succeeds exactly on decimal literals whose value is a 64-bit
   * integer, and then returns that value.
   */
  lemma AtoiSucceedsIff(s: string)
    ensures Atoi(s).1 == None <==> IsDecimal(s) && IsInt64(SignedValue(s))
    ensures Atoi(s).1 == None ==> Atoi(s).0 == SignedValue(s)
  {
    var digits := Unsigned(s);
    ScanUintSyntax(digits, 0);
    if IsDecimal(s) {
      ScanUintDigits(digits, 0);
    }
  }

  /** A decimal literal out of the 64-bit range is a range error clamped to the nearer bound. */
  lemma AtoiOutOfRange(s: string)
    requires IsDecimal(s) && !IsInt64(SignedValue(s))
    ensures Atoi(s) == (if s[0] == '-' then MinInt64 else MaxInt64, Some(RangeError(s)))
  {
    ScanUintDigits(Unsigned(s), 0);
  }

  /** `Atoi` reads back every 64-bit integer `FormatInt` writes. */
  lemma AtoiFormatInt(n: int)
    requires IsInt64(n)
    ensures Atoi(FormatInt(n)) == (n, None)
  {
    var s := FormatInt(n);
    assert Unsigned(s) == if n < 0 then s[1..] else s;
    AtoiSucceedsIff(s);
  }
}
