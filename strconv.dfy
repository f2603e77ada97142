/** `strconv.ParseInt(s, 10, 64)` from the Go standard library, which the
    parser uses to convert integer literals (internal/parser/parser.go:172),
    and the decimal text of a number as its inverse. */
module Strconv {
  import opened Wrappers
  import opened Tokens

  const MaxUint64: nat := 0xFFFF_FFFF_FFFF_FFFF
  const MaxInt64: nat := 0x7FFF_FFFF_FFFF_FFFF
  const Cutoff: nat := 0x8000_0000_0000_0000

  /** `strconv.ErrSyntax` and `strconv.ErrRange`. */
  datatype NumError = ErrSyntax | ErrRange

  /** A conversion result: the value Go returns beside the error. */
  datatype Parsed = Parsed(value: int, err: Option<NumError>)

  function DigitValue(c: char): nat
    requires IsDigit(c)
  {
    c as int - '0' as int
  }

  /** The number a run of decimal digits denotes, most significant first. */
  function Value(s: string): nat
    requires forall i :: 0 <= i < |s| ==> IsDigit(s[i])
  {
    if s == [] then 0 else Value(s[..|s| - 1]) * 10 + DigitValue(s[|s| - 1])
  }

  /** The digit loop of `ParseUint`, base 10, 64 bits, from `s[i]` with `n`
      accumulated: a character that is not a digit is a syntax error; a
      digit that would take the value past 2^64 - 1 stops the loop with a
      range error and the largest value, whatever follows. */
  function ParseUintFrom(s: string, i: nat, n: nat): (r: Parsed)
    requires i <= |s| && n <= MaxUint64
    ensures 0 <= r.value <= MaxUint64
    decreases |s| - i
  {
    if i == |s| then Parsed(n, None)
    else if !IsDigit(s[i]) then Parsed(0, Some(ErrSyntax))
    else if n * 10 + DigitValue(s[i]) > MaxUint64 then Parsed(MaxUint64, Some(ErrRange))
    else ParseUintFrom(s, i + 1, n * 10 + DigitValue(s[i]))
  }

  /** `strconv.ParseUint(s, 10, 64)`. */
  function ParseUint64(s: string): (r: Parsed)
    ensures 0 <= r.value <= MaxUint64
  {
    if s == [] then Parsed(0, Some(ErrSyntax)) else ParseUintFrom(s, 0, 0)
  }

  /** `strconv.ParseInt(s, 10, 64)`: an optional sign, then `ParseUint`; a
      magnitude beyond the int64 range gives the nearest bound and a range
      error, a syntax error gives 0. */
  function ParseInt64(s: string): (r: Parsed)
    ensures -(Cutoff as int) <= r.value <= MaxInt64
    ensures r.err == Some(ErrSyntax) ==> r.value == 0
  {
    if s == [] then Parsed(0, Some(ErrSyntax))
    else
      var neg := s[0] == '-';
      var body := if s[0] == '+' || s[0] == '-' then s[1..] else s;
      var un := ParseUint64(body);
      if un.err == Some(ErrSyntax) then Parsed(0, Some(ErrSyntax))
      else if !neg && un.value >= Cutoff then Parsed(MaxInt64, Some(ErrRange))
      else if neg && un.value > Cutoff then Parsed(-(Cutoff as int), Some(ErrRange))
      else Parsed(if neg then -un.value else un.value, None)
  }

  lemma ValueStep(s: string, i: nat)
    requires i < |s| && forall k :: 0 <= k < |s| ==> IsDigit(s[k])
    ensures Value(s[..i + 1]) == Value(s[..i]) * 10 + DigitValue(s[i])
  {
    assert s[..i + 1][..i] == s[..i];
  }

  /** A longer prefix of digits never denotes less. */
  lemma {:induction false} ValueGrows(s: string, i: nat, j: nat)
    requires i <= j <= |s| && forall k :: 0 <= k < |s| ==> IsDigit(s[k])
    ensures Value(s[..i]) <= Value(s[..j])
    decreases j - i
  {
    if i < j {
      ValueGrows(s, i, j - 1);
      ValueStep(s, j - 1);
    }
  }

  lemma {:induction false} ParseUintFromDigits(s: string, i: nat)
    requires i <= |s| && forall k :: 0 <= k < |s| ==> IsDigit(s[k])
    requires Value(s[..i]) <= MaxUint64
    ensures ParseUintFrom(s, i, Value(s[..i]))
         == if Value(s) <= MaxUint64 then Parsed(Value(s), None) else Parsed(MaxUint64, Some(ErrRange))
    decreases |s| - i
  {
    if i == |s| {
      assert s[..i] == s;
    } else {
      ValueStep(s, i);
      if Value(s[..i]) * 10 + DigitValue(s[i]) > MaxUint64 {
        ValueGrows(s, i + 1, |s|);
        assert s[..|s|] == s;
      } else {
        ParseUintFromDigits(s, i + 1);
      }
    }
  }

  /** On a run of digits, `ParseUint` fails only by range, and then
      returns 2^64 - 1. */
  lemma ParseUintDigits(s: string)
    requires IsDigits(s)
    ensures ParseUint64(s) == if Value(s) <= MaxUint64 then Parsed(Value(s), None) else Parsed(MaxUint64, Some(ErrRange))
  {
    assert s[..0] == [];
    ParseUintFromDigits(s, 0);
  }

  /** On a run of digits, the lexeme the scanner gives an Int token,
      `ParseInt` yields the value, or 2^63 - 1 with a range error when the
      value does not fit; the result is never negative. */
  lemma ParseIntDigits(s: string)
    requires IsDigits(s)
    ensures ParseInt64(s) == if Value(s) <= MaxInt64 then Parsed(Value(s), None) else Parsed(MaxInt64, Some(ErrRange))
    ensures ParseInt64(s).value >= 0
  {
    ParseUintDigits(s);
  }

  /** The decimal text of `n`, without leading zeros. */
  function Format(n: nat): (r: string)
    ensures IsDigits(r)
  {
    var d := ['0' + (n % 10) as char];
    if n < 10 then d else Format(n / 10) + d
  }

  lemma {:induction false} FormatValue(n: nat)
    ensures Value(Format(n)) == n
  {
    var d := ['0' + (n % 10) as char];
    if n >= 10 {
      FormatValue(n / 10);
      var s := Format(n / 10) + d;
      assert s[..|s| - 1] == Format(n / 10);
    }
  }

  /** `ParseInt` inverts decimal formatting over the int64 range. */
  lemma ParseFormat(n: nat)
    requires n <= MaxInt64
    ensures ParseInt64(Format(n)) == Parsed(n, None)
  {
    FormatValue(n);
    ParseUintDigits(Format(n));
  }

  /** The same for a negative number and its minus sign. */
  lemma ParseFormatNegative(n: nat)
    requires n <= Cutoff
    ensures ParseInt64("-" + Format(n)) == Parsed(-(n as int), None)
  {
    FormatValue(n);
    ParseUintDigits(Format(n));
    var s := "-" + Format(n);
    assert s[0] == '-' && s[1..] == Format(n);
  }
}
