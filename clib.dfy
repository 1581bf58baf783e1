/**
 * The part of the C library that proj2.c leans on to read its arguments:
 * `strtol` with base 10 (ISO C11 section 7.22.1.4), in the "C" locale.
 *
 * A C string is modelled as the `seq<char>` of its characters before the
 * terminating NUL; `strtol`'s end pointer is modelled as an index into that
 * sequence, where index `|s|` is the terminator itself.
 */
module CLib {

  /** `isspace` in the "C" locale: space, \t, \n, \v, \f, \r. */
  predicate IsSpace(c: char) {
    c == ' ' || c == '\t' || c == '\n' || c == '\U{000B}' || c == '\U{000C}' || c == '\r'
  }

  predicate IsDigit(c: char) {
    '0' <= c <= '9'
  }

  predicate IsSign(c: char) {
    c == '+' || c == '-'
  }

  function DigitValue(c: char): (d: nat)
    requires IsDigit(c)
    ensures d < 10
  {
    (c as int) - ('0' as int)
  }

  /** The characters of a C string: it holds no NUL, the NUL ends it. */
  predicate IsCString(s: seq<char>) {
    forall k :: 0 <= k < |s| ==> s[k] != '\0'
  }

  /** `*p` for a pointer `p` into the C string `s`; position `|s|` is the terminator. */
  function Deref(s: seq<char>, p: nat): char
    requires p <= |s|
  {
    if p < |s| then s[p] else '\0'
  }

  predicate AllDigits(d: seq<char>) {
    forall k :: 0 <= k < |d| ==> IsDigit(d[k])
  }

  /** The value of a string of decimal digits, most significant digit first. */
  function DigitsValue(d: seq<char>): nat
    requires AllDigits(d)
  {
    if d == [] then 0 else DigitsValue(d[..|d| - 1]) * 10 + DigitValue(d[|d| - 1])
  }

  /** The end of the longest run of white space in `s` that starts at `k`. */
  function SkipSpace(s: seq<char>, k: nat): (e: nat)
    requires k <= |s|
    ensures k <= e <= |s|
    ensures forall m :: k <= m < e ==> IsSpace(s[m])
    ensures e == |s| || !IsSpace(s[e])
    decreases |s| - k
  {
    if k < |s| && IsSpace(s[k]) then SkipSpace(s, k + 1) else k
  }

  /** The end of the longest run of digits in `s` that starts at `k`. */
  function SkipDigits(s: seq<char>, k: nat): (e: nat)
    requires k <= |s|
    ensures k <= e <= |s|
    ensures AllDigits(s[k..e])
    ensures e == |s| || !IsDigit(s[e])
    decreases |s| - k
  {
    if k < |s| && IsDigit(s[k]) then SkipDigits(s, k + 1) else k
  }

  /** What `strtol(s, &end, 10)` returns, and where it leaves `end`. */
  datatype Conversion = Conversion(value: int, end: nat)

  /**
   * `strtol` with base 10: skip white space, take an optional sign, then the
   * longest run of digits. With no digit, nothing is converted: the value is 0
   * and the end pointer is the start of the string.
   * The ERANGE clamp to LONG_MIN/LONG_MAX is not modelled: the value is exact.
   */
  function Strtol(s: seq<char>): (r: Conversion)
    ensures r.end <= |s|
    ensures r.end == 0 ==> r.value == 0
    ensures r.end > 0 ==> IsDigit(s[r.end - 1]) && (r.end == |s| || !IsDigit(s[r.end]))
  {
    var p := SkipSpace(s, 0);
    var q := if p < |s| && IsSign(s[p]) then p + 1 else p;
    var e := SkipDigits(s, q);
    if e == q then
      Conversion(0, 0)
    else
      assert IsDigit(s[q..e][e - q - 1]);
      var m: int := DigitsValue(s[q..e]);
      Conversion(if q > p && s[p] == '-' then -m else m, e)
  }

  /**
   * The strings `strtol` reads to the very end with base 10: white space,
   * an optional sign, one or more digits, and nothing after them.
   */
  predicate IsDecimalInteger(s: seq<char>)
    decreases |s|
  {
    |s| > 0 &&
    if IsSpace(s[0]) then IsDecimalInteger(s[1..])
    else if IsSign(s[0]) then |s| > 1 && AllDigits(s[1..])
    else AllDigits(s)
  }

  /** The integer a decimal integer string denotes. */
  function TokenValue(s: seq<char>): int
    requires IsDecimalInteger(s)
    decreases |s|
  {
    if IsSpace(s[0]) then TokenValue(s[1..])
    else if s[0] == '-' then -(DigitsValue(s[1..]) as int)
    else if s[0] == '+' then DigitsValue(s[1..])
    else DigitsValue(s)
  }

  /** Leading white space changes neither whether a string is a decimal integer nor its value. */
  lemma {:induction false} SpacePrefix(s: seq<char>, p: nat)
    requires p <= |s|
    requires forall m :: 0 <= m < p ==> IsSpace(s[m])
    ensures IsDecimalInteger(s) <==> IsDecimalInteger(s[p..])
    ensures IsDecimalInteger(s) ==> TokenValue(s) == TokenValue(s[p..])
  {
    if p > 0 {
      assert IsSpace(s[0]);
      SpacePrefix(s[1..], p - 1);
      assert s[1..][p - 1..] == s[p..];
    }
  }

  /** A run of digits from `q` reaches the end of `s` exactly when all of `s[q..]` are digits. */
  lemma DigitRunToEnd(s: seq<char>, q: nat)
    requires q <= |s|
    ensures SkipDigits(s, q) == |s| <==> AllDigits(s[q..])
    ensures SkipDigits(s, q) == |s| ==> s[q..SkipDigits(s, q)] == s[q..]
  {
    var e := SkipDigits(s, q);
    if e < |s| {
      assert !IsDigit(s[q..][e - q]);
    }
  }

  /**
   * `strtol` converts `s` and leaves its end pointer on the terminator exactly
   * when `s` is a decimal integer, and then it returns the integer `s` denotes.
   */
  lemma StrtolComplete(s: seq<char>)
    ensures (Strtol(s).end > 0 && Strtol(s).end == |s|) <==> IsDecimalInteger(s)
    ensures IsDecimalInteger(s) ==> Strtol(s).value == TokenValue(s)
  {
    var p := SkipSpace(s, 0);
    SpacePrefix(s, p);
    if p < |s| {
      var t := s[p..];
      assert t[0] == s[p] && !IsSpace(t[0]);
      var q := if IsSign(s[p]) then p + 1 else p;
      DigitRunToEnd(s, q);
      if IsSign(s[p]) {
        assert t[1..] == s[q..];
      } else {
        assert t == s[q..];
      }
    }
  }

  /**
   * `strtol` reads the longest prefix of `s` that is a decimal integer. When it
   * converts something, the part before its end pointer is a decimal integer
   * and the value is the integer that part denotes; when it converts nothing,
   * no non-empty prefix of `s` is a decimal integer.
   */
  lemma StrtolReadsDecimalPrefix(s: seq<char>)
    ensures Strtol(s).end > 0 ==>
      IsDecimalInteger(s[..Strtol(s).end]) && Strtol(s).value == TokenValue(s[..Strtol(s).end])
    ensures Strtol(s).end == 0 ==> forall k :: 0 < k <= |s| ==> !IsDecimalInteger(s[..k])
  {
    var p := SkipSpace(s, 0);
    var q := if p < |s| && IsSign(s[p]) then p + 1 else p;
    var e := SkipDigits(s, q);
    if e > q {
      var t := s[..e];
      SpacePrefix(t, p);
      assert t[p..] == s[p..e];
      assert t[p..][0] == s[p] && !IsSpace(s[p]);
      if q > p {
        assert t[p..][1..] == s[q..e];
      } else {
        assert t[p..] == s[q..e];
      }
    } else {
      forall k | 0 < k <= |s|
        ensures !IsDecimalInteger(s[..k])
      {
        var t := s[..k];
        var p' := if p < k then p else k;
        SpacePrefix(t, p');
        if p < k {
          assert t[p..][0] == s[p] && !IsSpace(s[p]);
          if IsSign(s[p]) && p + 1 < k {
            assert t[p..][1..][0] == s[q];
          }
        } else {
          assert t[p'..] == [];
        }
      }
    }
  }

  /** The decimal text of `n` as `printf("%d")` writes it. */
  function Decimal(n: int): seq<char> {
    if n < 0 then ['-'] + Digits(-n) else Digits(n)
  }

  function Digits(n: nat): seq<char> {
    (if n < 10 then [] else Digits(n / 10)) + [('0' as int + n % 10) as char]
  }

  lemma {:induction false} DigitsRoundTrip(n: nat)
    ensures |Digits(n)| > 0 && AllDigits(Digits(n))
    ensures DigitsValue(Digits(n)) == n
  {
    var d := Digits(n);
    if n >= 10 {
      DigitsRoundTrip(n / 10);
      assert d[..|d| - 1] == Digits(n / 10);
    } else {
      assert d[..|d| - 1] == [];
    }
  }

  /** Reading back what `printf("%d")` writes gives the same integer. */
  lemma DecimalRoundTrip(n: int)
    ensures IsDecimalInteger(Decimal(n))
    ensures TokenValue(Decimal(n)) == n
    ensures IsCString(Decimal(n))
  {
    DigitsRoundTrip(if n < 0 then -n else n);
    if n < 0 {
      assert Decimal(n)[1..] == Digits(-n);
    }
  }
}
