/**
 * The `java.lang` string operations the handle uses to read a sequence id out of a
 * bulk-loaded file's name: `String.indexOf`, `String.lastIndexOf`, `String.substring`
 * and `Long.parseLong`, with Java's -1 for "not found" and its exceptions as failures.
 */
module JavaStrings {
  import opened Wrappers
  import opened Bytes

  /** The exceptions these operations throw. */
  datatype StringError =
    | StringIndexOutOfBounds(begin: int, end: int)
    | NumberFormat(input: string)

  /** `p` occurs in `s` starting at index `i`. */
  predicate OccursAt(s: string, p: string, i: int)
  {
    0 <= i && i + |p| <= |s| && s[i..i + |p|] == p
  }

  ghost predicate Contains(s: string, p: string)
  {
    exists i :: OccursAt(s, p, i)
  }

  /** `s.indexOf(p, from)`: the first occurrence at or after `from`, or -1. */
  function IndexOf(s: string, p: string, from: nat): (r: int)
    decreases |s| + 1 - from
    ensures r == -1 || (from <= r && OccursAt(s, p, r))
    ensures forall k :: from <= k && (r == -1 || k < r) ==> !OccursAt(s, p, k)
  {
    if from + |p| > |s| then -1
    else if OccursAt(s, p, from) then from
    else IndexOf(s, p, from + 1)
  }

  /** The last occurrence at or before index `i`, or -1. */
  function LastIndexOfUpTo(s: string, p: string, i: int): (r: int)
    decreases i + 1
    ensures r == -1 || (r <= i && OccursAt(s, p, r))
    ensures forall k :: r < k <= i ==> !OccursAt(s, p, k)
  {
    if i < 0 then -1
    else if OccursAt(s, p, i) then i
    else LastIndexOfUpTo(s, p, i - 1)
  }

  /** `s.lastIndexOf(p)`: the last occurrence, or -1. */
  function LastIndexOf(s: string, p: string): (r: int)
    ensures r == -1 || OccursAt(s, p, r)
    ensures forall k :: r < k ==> !OccursAt(s, p, k)
    ensures r == -1 <==> !Contains(s, p)
  {
    LastIndexOfUpTo(s, p, |s| - |p|)
  }

  /** `s.substring(begin, end)`, which throws unless 0 <= begin <= end <= length. */
  function Substring(s: string, begin: int, end: int): (r: Result<string, StringError>)
    ensures r.Success? <==> 0 <= begin <= end <= |s|
    ensures r.Success? ==> |r.value| == end - begin
    ensures r.Success? ==> forall i :: 0 <= i < |r.value| ==> r.value[i] == s[begin + i]
  {
    if 0 <= begin && begin <= end && end <= |s| then Success(s[begin..end])
    else Failure(StringIndexOutOfBounds(begin, end))
  }

  predicate IsDigit(c: char)
  {
    '0' <= c <= '9'
  }

  predicate AllDigits(s: string)
  {
    forall i :: 0 <= i < |s| ==> IsDigit(s[i])
  }

  /** The decimal value of a string of digits, read most significant digit first. */
  function DigitsValue(s: string): (r: nat)
    requires AllDigits(s)
  {
    if |s| == 0 then 0 else DigitsValue(s[..|s| - 1]) * 10 + (s[|s| - 1] - '0') as nat
  }

  /**
   * `Long.parseLong(s)` in radix 10: an optional leading '-' or '+', then at least one
   * digit, and a value inside the range of a long; anything else is a NumberFormatException.
   */
  function ParseLong(s: string): (r: Result<Long, StringError>)
    ensures r.Failure? ==> r.error == NumberFormat(s)
    ensures r.Success? ==> |s| > 0
    ensures r.Success? ==> forall i :: 0 < i < |s| ==> IsDigit(s[i])
    ensures r.Success? ==> IsDigit(s[|s| - 1])
  {
    if |s| == 0 then Failure(NumberFormat(s))
    else if s[0] == '-' || s[0] == '+' then
      var digits := s[1..];
      if |digits| == 0 || !AllDigits(digits) then Failure(NumberFormat(s))
      else
        var v: int := if s[0] == '-' then 0 - DigitsValue(digits) else DigitsValue(digits);
        if LONG_MIN <= v <= LONG_MAX then Success(v) else Failure(NumberFormat(s))
    else if AllDigits(s) && DigitsValue(s) <= LONG_MAX then Success(DigitsValue(s))
    else Failure(NumberFormat(s))
  }

  /** The shortest decimal spelling of `n`, as `Long.toString` writes a non-negative long. */
  function DecimalString(n: nat): (r: string)
    ensures |r| > 0 && AllDigits(r)
  {
    if n < 10 then [('0' as int + n) as char]
    else DecimalString(n / 10) + [('0' as int + n % 10) as char]
  }

  lemma {:induction false} DecimalStringValue(n: nat)
    ensures DigitsValue(DecimalString(n)) == n
  {
    if n >= 10 {
      var s := DecimalString(n);
      assert s[..|s| - 1] == DecimalString(n / 10);
      DecimalStringValue(n / 10);
    }
  }

  /** Parsing what `Long.toString` writes for a non-negative long gives the long back. */
  lemma ParseDecimalString(n: nat)
    requires n <= LONG_MAX
    ensures ParseLong(DecimalString(n)) == Success(n)
  {
    DecimalStringValue(n);
  }

  /** Parsing a minus sign followed by the digits of `n` gives `-n`, down to Long.MIN_VALUE. */
  lemma ParseNegativeDecimalString(n: nat)
    requires n <= -LONG_MIN
    ensures ParseLong("-" + DecimalString(n)) == Success(0 - n)
  {
    var s := "-" + DecimalString(n);
    assert s[1..] == DecimalString(n);
    DecimalStringValue(n);
  }

  /** A character other than a digit after the optional sign makes parsing fail. */
  lemma ParseRejectsNonDigit(s: string, i: nat)
    requires i < |s| && !IsDigit(s[i])
    requires i > 0 || (s[0] != '-' && s[0] != '+')
    ensures ParseLong(s) == Failure(NumberFormat(s))
  {
    if i > 0 && (s[0] == '-' || s[0] == '+') {
      assert !IsDigit(s[1..][i - 1]);
    }
  }

  /** Parsing a plus sign followed by the digits of a non-negative long gives the long. */
  lemma ParsePlusDecimalString(n: nat)
    requires n <= LONG_MAX
    ensures ParseLong("+" + DecimalString(n)) == Success(n)
  {
    var s := "+" + DecimalString(n);
    assert s[1..] == DecimalString(n);
    DecimalStringValue(n);
  }

  /** A minus sign followed by digits whose value is below Long.MIN_VALUE makes parsing fail. */
  lemma ParseRejectsUnderflow(s: string)
    requires |s| > 1 && s[0] == '-' && AllDigits(s[1..]) && DigitsValue(s[1..]) > -LONG_MIN
    ensures ParseLong(s) == Failure(NumberFormat(s))
  {
  }

  /** A plus sign followed by digits whose value is above Long.MAX_VALUE makes parsing fail. */
  lemma ParseRejectsPlusOverflow(s: string)
    requires |s| > 1 && s[0] == '+' && AllDigits(s[1..]) && DigitsValue(s[1..]) > LONG_MAX
    ensures ParseLong(s) == Failure(NumberFormat(s))
  {
  }

  /** A string of digits too large for a long makes parsing fail. */
  lemma ParseRejectsOverflow(s: string)
    requires |s| > 0 && AllDigits(s) && DigitsValue(s) > LONG_MAX
    ensures ParseLong(s) == Failure(NumberFormat(s))
  {
  }
}
