/** Failure-carrying result types and the handful of Go `strings`/`strconv`
    operations that the modelled code relies on, written over `seq<char>`. */
module Common {

  datatype Option<T> = None | Some(value: T)

  datatype Result<T> = Success(value: T) | Failure(error: string)

  /** The outcome of a call into code outside the model (a client library, the
      storage cluster, the file system): it either succeeds or returns an error
      whose text is `error`. */
  datatype Outcome = Pass | Fail(error: string)

  // ---------------------------------------------------------------------------
  // Substrings and prefixes (strings.Contains, strings.HasPrefix, strings.TrimPrefix)

  predicate HasPrefix(s: string, prefix: string)
  {
    |prefix| <= |s| && s[..|prefix|] == prefix
  }

  predicate HasSuffix(s: string, suffix: string)
  {
    |suffix| <= |s| && s[|s| - |suffix|..] == suffix
  }

  /** `sub` occurs in `s` starting at position `i`. */
  predicate OccursAt(s: string, sub: string, i: int)
  {
    0 <= i && i + |sub| <= |s| && s[i..i + |sub|] == sub
  }

  predicate Contains(s: string, sub: string)
  {
    exists i | 0 <= i <= |s| - |sub| :: OccursAt(s, sub, i)
  }

  /** An occurrence of `inner` inside an occurrence of `outer` is an occurrence in `s`. */
  lemma {:induction false} ContainsTransitive(s: string, outer: string, inner: string, at: nat)
    requires Contains(s, outer)
    requires OccursAt(outer, inner, at)
    ensures Contains(s, inner)
  {
    var i :| 0 <= i <= |s| - |outer| && OccursAt(s, outer, i);
    var window := s[i..i + |outer|];
    assert window[at..at + |inner|] == inner;
    assert forall j | 0 <= j < |window| :: window[j] == s[i + j];
    assert window[at..at + |inner|] == s[i + at..i + at + |inner|];
    assert OccursAt(s, inner, i + at);
  }

  function TrimPrefix(s: string, prefix: string): (r: string)
    ensures HasPrefix(s, prefix) ==> prefix + r == s
    ensures !HasPrefix(s, prefix) ==> r == s
  {
    if HasPrefix(s, prefix) then s[|prefix|..] else s
  }

  function TrimSuffix(s: string, suffix: string): (r: string)
    ensures HasSuffix(s, suffix) ==> r + suffix == s
    ensures !HasSuffix(s, suffix) ==> r == s
  {
    if HasSuffix(s, suffix) then s[..|s| - |suffix|] else s
  }

  // ---------------------------------------------------------------------------
  // strings.Index for a single character, and the prefix before it

  /** The index of the first `c` in `s`, or -1 when there is none. */
  function IndexOf(s: string, c: char): (r: int)
    ensures r == -1 <==> c !in s
    ensures r != -1 ==> 0 <= r < |s| && s[r] == c && c !in s[..r]
  {
    if |s| == 0 then -1
    else if s[0] == c then 0
    else
      var k := IndexOf(s[1..], c);
      assert s[1..] == s[1..][..];
      if k == -1 then -1
      else
        assert s[..k + 1] == [s[0]] + s[1..][..k];
        k + 1
  }

  /** The index of a character is the same in a longer string that starts
      with the same text. */
  lemma {:induction false} IndexOfInPrefix(x: string, rest: string, c: char)
    requires c in x
    ensures IndexOf(x + rest, c) == IndexOf(x, c)
  {
    var j := IndexOf(x, c);
    var k := IndexOf(x + rest, c);
    assert (x + rest)[j] == c;
    assert (x + rest)[..j] == x[..j];
  }

  /** Past a prefix without `c`, the index is shifted by the prefix length. */
  lemma {:induction false} IndexOfAfterPrefix(x: string, rest: string, c: char)
    requires c !in x && c in rest
    ensures IndexOf(x + rest, c) == |x| + IndexOf(rest, c)
  {
    var j := IndexOf(rest, c);
    var k := IndexOf(x + rest, c);
    assert (x + rest)[|x| + j] == c;
    assert (x + rest)[..|x| + j] == x + rest[..j];
  }

  /** `s` cut at its first `c` (the whole of `s` when `c` does not occur):
      the idiom `if idx := strings.Index(s, c); idx != -1 { s = s[:idx] }`. */
  function CutAt(s: string, c: char): (r: string)
    ensures c !in r
    ensures c !in s ==> r == s
    ensures c in s ==> |r| < |s| && r + [c] == s[..|r| + 1]
  {
    var idx := IndexOf(s, c);
    if idx == -1 then s else s[..idx]
  }

  /** Cutting "x" + c + "y" at its first `c` leaves `x` when `x` has no `c`. */
  lemma {:induction false} CutAtJoin(x: string, c: char, y: string)
    requires c !in x
    ensures CutAt(x + [c] + y, c) == x
  {
    IndexOfAfterPrefix(x, [c] + y, c);
    assert x + [c] + y == x + ([c] + y);
    assert (x + [c] + y)[..|x|] == x;
  }

  // ---------------------------------------------------------------------------
  // strings.TrimSpace and strings.ToLower

  /** unicode.IsSpace: the Latin-1 spaces and the other White_Space characters. */
  predicate IsSpace(c: char)
  {
    c == ' ' || c == '\t' || c == '\n' || c == '\r' || c == '\U{0B}' || c == '\U{0C}'
    || c == '\U{85}' || c == '\U{A0}' || c == '\U{1680}' || ('\U{2000}' <= c <= '\U{200A}')
    || c == '\U{2028}' || c == '\U{2029}' || c == '\U{202F}' || c == '\U{205F}' || c == '\U{3000}'
  }

  function TrimLeftSpace(s: string): (r: string)
    ensures |r| <= |s| && r == s[|s| - |r|..]
    ensures r != [] ==> !IsSpace(r[0])
    ensures forall i | 0 <= i < |s| - |r| :: IsSpace(s[i])
  {
    if |s| > 0 && IsSpace(s[0]) then TrimLeftSpace(s[1..]) else s
  }

  function TrimRightSpace(s: string): (r: string)
    ensures |r| <= |s| && r == s[..|r|]
    ensures r != [] ==> !IsSpace(r[|r| - 1])
    ensures forall i | |r| <= i < |s| :: IsSpace(s[i])
  {
    if |s| > 0 && IsSpace(s[|s| - 1]) then TrimRightSpace(s[..|s| - 1]) else s
  }

  function TrimSpace(s: string): (r: string)
    ensures r != [] ==> !IsSpace(r[0]) && !IsSpace(r[|r| - 1])
    ensures forall c | c in r :: c in s
  {
    TrimRightSpace(TrimLeftSpace(s))
  }

  /** Trimming leaves a string alone that neither starts nor ends with a space. */
  lemma {:induction false} TrimSpaceNoEdges(s: string)
    requires s != [] && !IsSpace(s[0]) && !IsSpace(s[|s| - 1])
    ensures TrimSpace(s) == s
  {
    assert TrimLeftSpace(s) == s;
  }

  predicate IsUpperAscii(c: char) { 'A' <= c <= 'Z' }

  function LowerChar(c: char): char
  {
    if IsUpperAscii(c) then (c as int + 32) as char else c
  }

  /** strings.ToLower restricted to ASCII case mapping. */
  function ToLower(s: string): (r: string)
    ensures |r| == |s|
    ensures forall i | 0 <= i < |s| :: r[i] == LowerChar(s[i])
  {
    seq(|s|, i requires 0 <= i < |s| => LowerChar(s[i]))
  }

  // ---------------------------------------------------------------------------
  // Decimal text of integers (fmt's %d) and strconv.Atoi

  predicate IsDigit(c: char) { '0' <= c <= '9' }

  function DigitChar(d: nat): char
    requires d < 10
  {
    ('0' as int + d) as char
  }

  function DigitValue(c: char): nat
    requires IsDigit(c)
  {
    c as int - '0' as int
  }

  predicate AllDigits(s: string)
  {
    forall i | 0 <= i < |s| :: IsDigit(s[i])
  }

  function NatToDecimal(n: nat): (r: string)
    ensures |r| > 0 && AllDigits(r)
    decreases n
  {
    if n < 10 then [DigitChar(n)] else NatToDecimal(n / 10) + [DigitChar(n % 10)]
  }

  /** `%d` of an integer. */
  function IntToDecimal(n: int): (r: string)
  {
    if n < 0 then "-" + NatToDecimal(-n) else NatToDecimal(n)
  }

  /** The value of a string of decimal digits (most significant first). */
  function DecimalValue(s: string): nat
    requires AllDigits(s)
  {
    if |s| == 0 then 0 else DecimalValue(s[..|s| - 1]) * 10 + DigitValue(s[|s| - 1])
  }

  lemma {:induction false} DecimalRoundTrip(n: nat)
    ensures DecimalValue(NatToDecimal(n)) == n
    decreases n
  {
    if n >= 10 {
      var r := NatToDecimal(n);
      assert r[..|r| - 1] == NatToDecimal(n / 10);
      DecimalRoundTrip(n / 10);
    }
  }

  const MinInt64: int := -0x8000_0000_0000_0000
  const MaxInt64: int := 0x7FFF_FFFF_FFFF_FFFF
  const Int64Modulus: int := 0x1_0000_0000_0000_0000

  /** Two's-complement wrap-around of an int64 addition result. */
  function Wrap64(x: int): (r: int)
    ensures MinInt64 <= r <= MaxInt64
    ensures MinInt64 <= x <= MaxInt64 ==> r == x
  {
    (x - MinInt64) % Int64Modulus + MinInt64
  }

  /** Wrapping changes a value by a multiple of 2^64. */
  lemma WrapShift(x: int)
    ensures (Wrap64(x) - x) % Int64Modulus == 0
  {
  }

  /** Values that differ by a multiple of 2^64 wrap to the same int64. */
  lemma WrapCongruent(x: int, y: int)
    requires (x - y) % Int64Modulus == 0
    ensures Wrap64(x) == Wrap64(y)
  {
    var k := (x - y) / Int64Modulus;
    assert x == y + k * Int64Modulus;
    assert (x - MinInt64) == (y - MinInt64) + k * Int64Modulus;
  }

  /** Wrapping a partial sum before adding gives the wrapped exact sum, so a
      running int64 sum is the wrapped exact sum. */
  lemma WrapOfPartialSum(x: int, y: int)
    ensures Wrap64(Wrap64(x) + y) == Wrap64(x + y)
  {
    WrapShift(x);
    WrapCongruent(Wrap64(x) + y, x + y);
  }

  /** An optional sign followed by at least one decimal digit. */
  predicate IsSignedDecimal(s: string)
  {
    if |s| > 0 && (s[0] == '+' || s[0] == '-') then |s| > 1 && AllDigits(s[1..])
    else |s| > 0 && AllDigits(s)
  }

  const MaxUint64: int := 0xFFFF_FFFF_FFFF_FFFF

  /** The text after one optional leading sign. */
  function Unsigned(s: string): string
  {
    if |s| > 0 && (s[0] == '+' || s[0] == '-') then s[1..] else s
  }

  /** The longest run of decimal digits at the start of `s`. */
  function LeadingDigits(s: string): (r: string)
    ensures AllDigits(r) && |r| <= |s| && r == s[..|r|]
    ensures |r| < |s| ==> !IsDigit(s[|r|])
  {
    if |s| == 0 || !IsDigit(s[0]) then ""
    else
      var tail := LeadingDigits(s[1..]);
      assert [s[0]] + tail == s[..|tail| + 1];
      [s[0]] + tail
  }

  /** strconv.ParseUint reads digits in order and fails with its maximum and a
      range error as soon as the digits read so far pass 2^64 - 1, which is
      before it meets a later non-digit. */
  predicate DigitsOverflow(s: string)
  {
    DecimalValue(LeadingDigits(Unsigned(s))) > MaxUint64
  }

  /** strconv.Atoi as `Load` uses it, with the error dropped: the clamped value
      of a signed decimal; for other text, the clamped value for the sign when
      the leading digits already overflow uint64, and 0 otherwise. */
  function Atoi(s: string): (r: int)
    ensures MinInt64 <= r <= MaxInt64
    ensures !IsSignedDecimal(s) && !DigitsOverflow(s) ==> r == 0
    ensures DigitsOverflow(s) ==> |s| > 0 && r == (if s[0] == '-' then MinInt64 else MaxInt64)
  {
    if !IsSignedDecimal(s) && !DigitsOverflow(s) then 0
    else
      var v: int := DecimalValue(LeadingDigits(Unsigned(s)));
      if s[0] == '-' then (if -v < MinInt64 then MinInt64 else -v)
      else if v > MaxInt64 then MaxInt64 else v
  }

  /** A run of digits is its own leading digits. */
  lemma {:induction false} LeadingDigitsOfDigits(s: string)
    requires AllDigits(s)
    ensures LeadingDigits(s) == s
  {
    if |s| > 0 {
      assert AllDigits(s[1..]);
      LeadingDigitsOfDigits(s[1..]);
    }
  }

  /** The leading digits stop at the first non-digit. */
  lemma {:induction false} LeadingDigitsBeforeNonDigit(digits: string, rest: string)
    requires AllDigits(digits) && |rest| > 0 && !IsDigit(rest[0])
    ensures LeadingDigits(digits + rest) == digits
  {
    if |digits| > 0 {
      assert (digits + rest)[1..] == digits[1..] + rest;
      assert AllDigits(digits[1..]);
      LeadingDigitsBeforeNonDigit(digits[1..], rest);
    }
  }

  /** Text whose digits pass 2^64 - 1 before a non-digit is read as the
      clamped int64 for its sign, not 0: "18446744073709551616x" gives
      MaxInt64 and with a leading '-' MinInt64. */
  lemma OverflowBeforeNonDigit(digits: string, rest: string)
    requires AllDigits(digits) && DecimalValue(digits) > MaxUint64
    requires |rest| > 0 && !IsDigit(rest[0])
    ensures !IsSignedDecimal(digits + rest) && !IsSignedDecimal("-" + digits + rest)
    ensures Atoi(digits + rest) == MaxInt64 && Atoi("-" + digits + rest) == MinInt64
  {
    var s := digits + rest;
    assert s[|digits|] == rest[0];
    assert ("-" + s)[1..] == s;
    assert |digits| > 0;
    LeadingDigitsBeforeNonDigit(digits, rest);
    assert Unsigned(s) == s;
    assert Unsigned("-" + s) == s;
    assert ("-" + digits + rest) == "-" + s;
  }

  /** Text that starts with a non-digit other than a sign is 0 however long it
      is: the syntax error comes before any overflow. */
  lemma NonDigitBeforeOverflow(rest: string)
    requires |rest| > 0 && !IsDigit(rest[0]) && rest[0] != '+' && rest[0] != '-'
    ensures Atoi(rest) == 0
  {
    assert LeadingDigits(rest) == "";
  }

  /** The smallest overflowing case is a concrete one. */
  lemma OverflowExample()
    ensures Atoi(NatToDecimal(MaxUint64 + 1) + "x") == MaxInt64
  {
    DecimalRoundTrip(MaxUint64 + 1);
    OverflowBeforeNonDigit(NatToDecimal(MaxUint64 + 1), "x");
  }

  /** Atoi reads back what `%d` prints, for every 64-bit integer. */
  lemma {:induction false} AtoiRoundTrip(n: int)
    requires MinInt64 <= n <= MaxInt64
    ensures Atoi(IntToDecimal(n)) == n
  {
    var s := IntToDecimal(n);
    if n < 0 {
      assert s[1..] == NatToDecimal(-n);
      assert Unsigned(s) == NatToDecimal(-n);
      LeadingDigitsOfDigits(NatToDecimal(-n));
      DecimalRoundTrip(-n);
    } else {
      assert Unsigned(s) == NatToDecimal(n);
      LeadingDigitsOfDigits(NatToDecimal(n));
      DecimalRoundTrip(n);
    }
  }
}
