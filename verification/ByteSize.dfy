/** Printing and parsing sizes in bytes (utils/byte_size.go), with 64-bit arithmetic spelled out. */
module ByteSizes {
  import opened Wrappers
  import opened Strings

  // ---------------------------------------------------------------- 64-bit integers

  const TWO63 := 0x8000_0000_0000_0000
  const TWO64 := 0x1_0000_0000_0000_0000
  const MAX_INT64 := TWO63 - 1

  predicate InInt64(n: int) {
    -TWO63 <= n < TWO63
  }

  /** The value of an int64 computation whose exact result is n. */
  function Wrap(n: int): int {
    (n + TWO63) % TWO64 - TWO63
  }

  /** uint64(n) */
  function Unsigned(n: int): nat
    requires InInt64(n)
  {
    if n < 0 then n + TWO64 else n
  }

  /** Division that truncates toward zero. */
  function Quot(a: int, b: int): int
    requires b > 0
  {
    if a >= 0 then a / b else -((-a) / b)
  }

  // ---------------------------------------------------------------- decimals

  function Digit(d: nat): char
    requires d < 10
  {
    '0' + d as char
  }

  predicate IsDigit(c: char) {
    '0' <= c <= '9'
  }

  /** strconv.FormatUint(n, 10) */
  function Dec(n: nat): (s: string)
    ensures |s| >= 1
  {
    if n < 10 then [Digit(n)] else Dec(n / 10) + [Digit(n % 10)]
  }

  ghost predicate AllDigits(s: string) {
    forall i :: 0 <= i < |s| ==> IsDigit(s[i])
  }

  lemma {:induction false} DecDigits(n: nat)
    ensures AllDigits(Dec(n))
  {
    if n >= 10 {
      DecDigits(n / 10);
    }
  }

  datatype IntResult = Parsed(n: int) | SyntaxError | RangeError

  function Signed(negative: bool, v: int): int {
    if negative then -v else v
  }

  function DigitValue(c: char): nat
    requires IsDigit(c)
  {
    c as int - '0' as int
  }

  /**
    The loop of strconv.ParseUint, from left to right: the digits read so far are worth n. An overflow
    ends it before the rest is looked at.
   */
  function ScanUint(s: string, n: nat): IntResult {
    if s == "" then Parsed(n)
    else if !IsDigit(s[0]) then SyntaxError
    else if 10 * n + DigitValue(s[0]) >= TWO64 then RangeError
    else ScanUint(s[1..], 10 * n + DigitValue(s[0]))
  }

  /** strconv.ParseInt(s, 10, 64) */
  function ParseInt(s: string): IntResult {
    var negative := s != "" && s[0] == '-';
    var signed := negative || (s != "" && s[0] == '+');
    var digits := if signed then s[1..] else s;
    if digits == "" then SyntaxError
    else
      match ScanUint(digits, 0)
      case Parsed(v) => if InInt64(Signed(negative, v)) then Parsed(Signed(negative, v)) else RangeError
      case error => error
  }

  /** Scanning a printed number goes on with its value. */
  lemma {:induction false} ScanOfDec(n: nat, rest: string)
    requires n < TWO64
    ensures ScanUint(Dec(n) + rest, 0) == ScanUint(rest, n)
    decreases n
  {
    var last := [Digit(n % 10)];
    assert (last + rest)[1..] == rest;
    if n < 10 {
      assert Dec(n) == last;
    } else {
      assert Dec(n) + rest == Dec(n / 10) + (last + rest);
      ScanOfDec(n / 10, last + rest);
    }
  }

  lemma DecInjective(n: nat, m: nat)
    requires n < TWO64 && m < TWO64 && Dec(n) == Dec(m)
    ensures n == m
  {
    ScanOfDec(n, "");
    ScanOfDec(m, "");
    assert Dec(n) + "" == Dec(m) + "";
  }

  /** Digits that overflow are a range error, whatever comes after them. */
  lemma {:induction false} OverflowFirst(s: string, n: nat, rest: string)
    requires ScanUint(s, n) == RangeError
    ensures ScanUint(s + rest, n) == RangeError
  {
    assert (s + rest)[1..] == s[1..] + rest;
    if 10 * n + DigitValue(s[0]) < TWO64 {
      OverflowFirst(s[1..], 10 * n + DigitValue(s[0]), rest);
    }
  }

  /**
    Floating point, idealised: `parse` is strconv.ParseFloat, exact on decimals; `beyond` is what
    converting a number outside of the int64 range gives.
   */
  datatype Floats = Floats(parse: string -> Option<real>, beyond: real -> int)

  ghost predicate Exact(f: Floats) {
    && (forall q: nat, d: nat :: d < 10 ==> f.parse(Dec(q) + "." + [Digit(d)]) == Some(q as real + d as real / 10.0))
    && f.parse("n/a") == None
  }

  /** ByteSize(x) for a float64 x that is not negative. */
  function FromFloat(f: Floats, x: real): int {
    if x <= -(TWO63 as real) - 1.0 || x >= TWO63 as real then f.beyond(x)
    else if x >= 0.0 then x.Floor else -((-x).Floor)
  }

  // ---------------------------------------------------------------- commas

  function WithCommas(s: string): string
    decreases |s|
  {
    if |s| <= 3 then s else WithCommas(s[..|s| - 3]) + "," + s[|s| - 3..]
  }

  /** The closure of String: the last three characters go over to the output, over and over. */
  method InsertCommas(s: string) returns (r: string)
    ensures r == WithCommas(s)
  {
    var rest, out := s, "";
    while |rest| > 3
      invariant WithCommas(s) == WithCommas(rest) + out
    {
      ghost var before := WithCommas(rest[..|rest| - 3]) + "," + rest[|rest| - 3..] + out;
      out := "," + rest[|rest| - 3..] + out;
      rest := rest[..|rest| - 3];
      assert WithCommas(rest) + out == before;
    }
    r := rest + out;
  }

  lemma LastFour(front: string, back: string, i: nat)
    requires |back| == 3 && ',' !in back && i < |front| + 4
    ensures var r := front + "," + back;
            r[|r| - 1 - i] == if i < 3 then back[2 - i] else if i == 3 then ',' else front[|front| - 1 - (i - 4)]
  {
  }

  lemma {:induction false} CommaCount(s: string)
    requires s != ""
    ensures |WithCommas(s)| == |s| + (|s| - 1) / 3
    decreases |s|
  {
    if |s| > 3 {
      CommaCount(s[..|s| - 3]);
    }
  }

  /** Counted from the right, every fourth place is a comma, and no other. */
  lemma {:induction false} CommaPlaces(s: string, i: nat)
    requires ',' !in s && i < |WithCommas(s)|
    ensures WithCommas(s)[|WithCommas(s)| - 1 - i] == ',' <==> i % 4 == 3
    decreases |s|
  {
    if |s| > 3 {
      var front, back := s[..|s| - 3], s[|s| - 3..];
      LastFour(WithCommas(front), back, i);
      if i >= 4 {
        CommaPlaces(front, i - 4);
      } else if i < 3 {
        assert back[2 - i] in back;
      }
    } else {
      assert WithCommas(s)[|WithCommas(s)| - 1 - i] in s;
    }
  }

  /** strings.ReplaceAll(s, ",", "") */
  function WithoutCommas(s: string): string {
    if s == "" then "" else if s[0] == ',' then WithoutCommas(s[1..]) else [s[0]] + WithoutCommas(s[1..])
  }

  lemma {:induction false} WithoutCommasAppend(a: string, b: string)
    ensures WithoutCommas(a + b) == WithoutCommas(a) + WithoutCommas(b)
  {
    if a == "" {
      assert a + b == b;
    } else {
      assert (a + b)[1..] == a[1..] + b;
      WithoutCommasAppend(a[1..], b);
    }
  }

  lemma {:induction false} NoCommas(s: string)
    requires ',' !in s
    ensures WithoutCommas(s) == s
  {
    if s != "" {
      NoCommas(s[1..]);
    }
  }

  lemma CommaJoin(a: string, b: string)
    requires ',' !in b
    ensures WithoutCommas(a + "," + b) == WithoutCommas(a) + b
  {
    WithoutCommasAppend(a + ",", b);
    WithoutCommasAppend(a, ",");
    NoCommas(b);
    assert WithoutCommas(",") == "";
  }

  /** Removing commas undoes inserting them. */
  lemma {:induction false} CommasUndone(s: string)
    requires ',' !in s
    ensures WithoutCommas(WithCommas(s)) == s
    decreases |s|
  {
    if |s| <= 3 {
      NoCommas(s);
    } else {
      var front, back := s[..|s| - 3], s[|s| - 3..];
      CommasUndone(front);
      CommaJoin(WithCommas(front), back);
      assert s == front + back;
    }
  }

  // ---------------------------------------------------------------- printing

  const KB := 1024
  const MB := 1024 * KB
  const GB := 1024 * MB
  const TB := 1024 * GB
  const UNITS := [TB, GB, MB, KB, 1]
  const SUFFIXES := ["Tb", "Gb", "Mb", "Kb", "b"]

  /** Which unit a positive size is printed in: the largest that is not larger. */
  function UnitIndex(n: int): nat
    requires n > 0
    ensures UnitIndex(n) < 5
  {
    if n >= TB then 0 else if n >= GB then 1 else if n >= MB then 2 else if n >= KB then 3 else 4
  }

  /** The size in tenths of its unit, rounded, in 64 bits: (size*10 + u/2) / u. */
  function Tenths(n: int): int
    requires n > 0
  {
    var u := UNITS[UnitIndex(n)];
    Quot(Wrap(Wrap(n * 10) + u / 2), u)
  }

  lemma WrapRange(n: int)
    ensures InInt64(Wrap(n)) && (InInt64(n) ==> Wrap(n) == n)
  {
  }

  lemma TenthsRange(n: int)
    requires n > 0
    ensures InInt64(Tenths(n))
  {
    var u := UNITS[UnitIndex(n)];
    var x := Wrap(Wrap(n * 10) + u / 2);
    WrapRange(Wrap(n * 10) + u / 2);
    QuotRange(x, u);
  }

  lemma QuotientSmaller(a: nat, b: int)
    requires b > 0
    ensures 0 <= a / b <= a
  {
    var q := a / b;
    assert a == b * q + a % b;
    NonNegativeProduct(b - 1, q);
    assert b * q == (b - 1) * q + q;
  }

  lemma NonNegativeProduct(a: nat, b: nat)
    ensures a * b >= 0
  {
  }

  lemma QuotRange(a: int, b: int)
    requires b > 0 && InInt64(a)
    ensures InInt64(Quot(a, b))
  {
    if a >= 0 {
      QuotientSmaller(a, b);
    } else {
      QuotientSmaller(-a, b);
    }
  }

  /** What a number of tenths looks like before the suffix. */
  function Mantissa(s: string): string
    requires |s| >= 2
  {
    var whole := WithCommas(s[..|s| - 1]);
    if s[|s| - 1] == '0' then whole else whole + "." + s[|s| - 1..]
  }

  function Print(n: int): string {
    if n == 0 then "0"
    else if n < 0 then "n/a"
    else if UnitIndex(n) == 4 then WithCommas(Dec(n)) + "b"
    else if n > MAX_INT64 / 10 then "n/a"
    else
      TenthsRange(n);
      var s := Dec(Unsigned(Tenths(n)));
      if |s| < 2 then "n/a" else Mantissa(s) + SUFFIXES[UnitIndex(n)]
  }

  /** ByteSize.String (byte_size.go:23-60). */
  method String(size: int) returns (r: string)
    requires InInt64(size)
    ensures r == Print(size)
  {
    if size == 0 {
      return "0";
    }
    for i := 0 to |UNITS|
      invariant size > 0 ==> i <= UnitIndex(size)
    {
      var u := UNITS[i];
      if size < u {
        continue;
      }
      assert i == UnitIndex(size);
      if u == 1 {
        var whole := InsertCommas(Dec(Unsigned(size)));
        return whole + SUFFIXES[i];
      }
      if size > MAX_INT64 / 10 {
        return "n/a";
      }
      TenthsRange(size);
      var s := Dec(Unsigned(Quot(Wrap(Wrap(size * 10) + u / 2), u)));
      var l := |s|;
      if l < 2 {
        return "n/a";
      }
      var whole := InsertCommas(s[..l - 1]);
      if s[l - 1] == '0' {
        return whole + SUFFIXES[i];
      }
      return whole + "." + s[l - 1..] + SUFFIXES[i];
    }
    return "n/a";
  }

  // ---------------------------------------------------------------- parsing

  function LowerChar(c: char): char {
    if 'A' <= c <= 'Z' then (c as int + 32) as char else c
  }

  function Lower(s: string): string {
    seq(|s|, i requires 0 <= i < |s| => LowerChar(s[i]))
  }

  /** The first suffix that matches, and its position; "b" comes last as the others end in it. */
  function SuffixIndex(s: string, i: nat): Option<nat>
    requires i <= 5
    ensures SuffixIndex(s, i).Some? ==> i <= SuffixIndex(s, i).value < 5 && HasSuffix(s,
        Lower(SUFFIXES[SuffixIndex(s, i).value]))
    decreases 5 - i
  {
    if i == 5 then None
    else if HasSuffix(s, Lower(SUFFIXES[i])) then Some(i)
    else SuffixIndex(s, i + 1)
  }

  /** ByteSize(fl * float64(u)) */
  function Scale(f: Floats, x: real, u: int): int {
    FromFloat(f, x * u as real)
  }

  function ParseNumber(f: Floats, s: string, u: int): Option<int> {
    match ParseInt(s)
    case Parsed(n) => Some(Wrap(n * u))
    case RangeError => None
    case SyntaxError =>
      match f.parse(s)
      case Some(x) => Some(Scale(f, x, u))
      case None => None
  }

  function Parse(f: Floats, str: string): Option<int> {
    var s := Lower(str);
    match SuffixIndex(s, 0)
    case Some(i) => ParseNumber(f, WithoutCommas(s[..|s| - |SUFFIXES[i]|]), UNITS[i])
    case None => ParseNumber(f, WithoutCommas(s), 1)
  }

  /** The loop that cuts the unit off. */
  method CutSuffix(s: string) returns (rest: string, u: int)
    ensures match SuffixIndex(s, 0)
            case Some(i) => rest == s[..|s| - |SUFFIXES[i]|] && u == UNITS[i]
            case None => rest == s && u == 1
  {
    for i := 0 to |SUFFIXES|
      invariant SuffixIndex(s, 0) == SuffixIndex(s, i)
    {
      if HasSuffix(s, Lower(SUFFIXES[i])) {
        return s[..|s| - |SUFFIXES[i]|], UNITS[i];
      }
    }
    return s, 1;
  }

  method ScaleNumber(f: Floats, s: string, u: int) returns (r: Option<int>)
    ensures r == ParseNumber(f, s, u)
  {
    var n := ParseInt(s);
    match n {
      case Parsed(v) => return Some(Wrap(v * u));
      case RangeError => return None;
      case SyntaxError =>
        var x := f.parse(s);
        if x.None? {
          return None;
        }
        return Some(Scale(f, x.value, u));
    }
  }

  /** ParseByteSize (byte_size.go:62-89). */
  method ParseByteSize(f: Floats, input: string) returns (r: Option<int>)
    ensures r == Parse(f, input)
  {
    var str, u := CutSuffix(Lower(input));
    str := WithoutCommas(str);
    r := ScaleNumber(f, str, u);
  }

  // ---------------------------------------------------------------- what parsing makes of a printed number

  /** Characters that lower-casing leaves alone and no suffix has. */
  ghost predicate Plain(s: string) {
    forall i :: 0 <= i < |s| ==> IsDigit(s[i]) || s[i] in {',', '.', '+', '-'}
  }

  lemma {:induction false} WithCommasShape(s: string)
    requires AllDigits(s) && s != ""
    ensures Plain(WithCommas(s)) && WithCommas(s) != ""
    ensures IsDigit(WithCommas(s)[0]) && IsDigit(WithCommas(s)[|WithCommas(s)| - 1])
    decreases |s|
  {
    if |s| > 3 {
      WithCommasShape(s[..|s| - 3]);
    }
  }

  lemma LowerOfPlain(core: string, i: nat)
    requires Plain(core) && i < 5
    ensures Lower(core + SUFFIXES[i]) == core + Lower(SUFFIXES[i])
  {
    var l := Lower(core + SUFFIXES[i]);
    forall k | 0 <= k < |l|
      ensures l[k] == (core + Lower(SUFFIXES[i]))[k]
    {
      if k < |core| {
        assert IsDigit(core[k]) || core[k] in {',', '.', '+', '-'};
      }
    }
  }

  lemma LowerSuffixes()
    ensures Lower(SUFFIXES[0]) == "tb" && Lower(SUFFIXES[1]) == "gb" && Lower(SUFFIXES[2]) == "mb"
    ensures Lower(SUFFIXES[3]) == "kb" && Lower(SUFFIXES[4]) == "b"
  {
  }

  /** Of a core that ends in a digit, the suffix found is the one that was added. */
  lemma SuffixFound(core: string, i: nat)
    requires i < 5 && core != "" && IsDigit(core[|core| - 1])
    ensures SuffixIndex(core + Lower(SUFFIXES[i]), 0) == Some(i)
  {
    LowerSuffixes();
    var s := core + Lower(SUFFIXES[i]);
    var n := |s|;
    forall j | 0 <= j < i
      ensures !HasSuffix(s, Lower(SUFFIXES[j]))
    {
      assert n >= 2 && s[n - 2..][0] == s[n - 2] != Lower(SUFFIXES[j])[0];
    }
    assert s[n - |Lower(SUFFIXES[i])|..] == Lower(SUFFIXES[i]);
    FirstMatch(s, i, 0);
  }

  lemma {:induction false} FirstMatch(s: string, i: nat, j: nat)
    requires j <= i < 5 && HasSuffix(s, Lower(SUFFIXES[i]))
    requires forall k :: j <= k < i ==> !HasSuffix(s, Lower(SUFFIXES[k]))
    ensures SuffixIndex(s, j) == Some(i)
    decreases i - j
  {
    if j < i {
      FirstMatch(s, i, j + 1);
    }
  }

  lemma ParseOfSuffixed(f: Floats, core: string, i: nat)
    requires i < 5 && Plain(core) && core != "" && IsDigit(core[|core| - 1])
    ensures Parse(f, core + SUFFIXES[i]) == ParseNumber(f, WithoutCommas(core), UNITS[i])
  {
    LowerOfPlain(core, i);
    SuffixFound(core, i);
    var s := core + Lower(SUFFIXES[i]);
    assert s[..|s| - |SUFFIXES[i]|] == core;
  }

  lemma NoCommaInDigits(s: string)
    requires AllDigits(s)
    ensures ',' !in s
  {
  }

  /** Parsing a printed whole number. */
  lemma ParseOfWhole(f: Floats, q: nat, i: nat, s: string)
    requires i < 5 && s == WithCommas(Dec(q)) + SUFFIXES[i] && q * UNITS[i] < TWO63
    ensures Parse(f, s) == Some(q * UNITS[i])
  {
    DecDigits(q);
    WithCommasShape(Dec(q));
    NoCommaInDigits(Dec(q));
    CommasUndone(Dec(q));
    ParseOfSuffixed(f, WithCommas(Dec(q)), i);
    ParseWhole(f, q, i);
  }

  lemma ParseWhole(f: Floats, q: nat, i: nat)
    requires i < 5 && q * UNITS[i] < TWO63
    ensures ParseNumber(f, Dec(q), UNITS[i]) == Some(q * UNITS[i])
  {
    Scaled(q, i);
    DecIsInt(q);
    WrapRange(q * UNITS[i]);
  }

  lemma Scaled(q: nat, i: nat)
    requires i < 5
    ensures q <= q * UNITS[i]
  {
    NonNegativeProduct(q, UNITS[i] - 1);
  }

  lemma DecIsInt(q: nat)
    requires q < TWO63
    ensures ParseInt(Dec(q)) == Parsed(q)
  {
    DecDigits(q);
    assert IsDigit(Dec(q)[0]);
    assert Dec(q) + "" == Dec(q);
    ScanOfDec(q, "");
  }

  lemma DecimalIsNoInt(q: nat, d: nat)
    requires q < TWO64 && d < 10
    ensures ParseInt(Dec(q) + "." + [Digit(d)]) == SyntaxError
  {
    var s := Dec(q) + "." + [Digit(d)];
    DecDigits(q);
    assert IsDigit(Dec(q)[0]) && s[0] == Dec(q)[0];
    assert s == Dec(q) + ("." + [Digit(d)]);
    ScanOfDec(q, "." + [Digit(d)]);
  }

  lemma DecimalCore(q: nat, d: nat)
    requires d < 10
    ensures var core := WithCommas(Dec(q)) + "." + [Digit(d)];
            Plain(core) && core != "" && IsDigit(core[|core| - 1])
  {
    DecDigits(q);
    WithCommasShape(Dec(q));
  }

  lemma DecimalUndone(q: nat, d: nat)
    requires d < 10
    ensures WithoutCommas(WithCommas(Dec(q)) + "." + [Digit(d)]) == Dec(q) + "." + [Digit(d)]
  {
    DecDigits(q);
    NoCommaInDigits(Dec(q));
    CommasUndone(Dec(q));
    WithoutCommasAppend(WithCommas(Dec(q)) + ".", [Digit(d)]);
    WithoutCommasAppend(WithCommas(Dec(q)), ".");
    NoCommas(".");
    NoCommas([Digit(d)]);
  }

  lemma ParseDecimal(f: Floats, q: nat, d: nat, u: int)
    requires q < TWO64 && d < 10 && Exact(f)
    ensures ParseNumber(f, Dec(q) + "." + [Digit(d)], u) == Some(Scale(f, q as real + d as real / 10.0, u))
  {
    DecimalIsNoInt(q, d);
    assert f.parse(Dec(q) + "." + [Digit(d)]) == Some(q as real + d as real / 10.0);
  }

  /** Parsing a printed number with one decimal place. */
  lemma ParseOfDecimal(f: Floats, q: nat, d: nat, i: nat)
    requires i < 5 && q < TWO64 && d < 10 && Exact(f)
    ensures Parse(f, WithCommas(Dec(q)) + "." + [Digit(d)] + SUFFIXES[i]) ==
            Some(Scale(f, q as real + d as real / 10.0, UNITS[i]))
  {
    var core := WithCommas(Dec(q)) + "." + [Digit(d)];
    DecimalCore(q, d);
    DecimalUndone(q, d);
    ParseOfSuffixed(f, core, i);
    ParseDecimal(f, q, d, UNITS[i]);
  }

  // ---------------------------------------------------------------- the round trip

  function UnitOf(n: int): int
    requires n > 0
  {
    UNITS[UnitIndex(n)]
  }

  /** Up to here rounding does not overflow. */
  const MAX_EXACT := (TWO63 - 1 - TB / 2) / 10

  /** The size in tenths of its unit, rounded to the nearest. */
  function Rounded(n: int): int
    requires n >= KB
  {
    (n * 10 + UnitOf(n) / 2) / UnitOf(n)
  }

  lemma DivisionBounds(x: nat, u: nat)
    requires u > 0
    ensures u * (x / u) <= x < u * (x / u) + u
  {
    assert x == u * (x / u) + x % u;
  }

  lemma {:induction false} DivisionUnique(x: int, u: int, t: int)
    requires u > 0 && u * t <= x < u * t + u
    ensures x / u == t
  {
    var q, r := x / u, x % u;
    assert x == u * q + r && 0 <= r < u;
    assert u * (q - t) == u * q - u * t;
    if q > t {
      assert u * (q - t) >= u by { NonNegativeProduct(u, q - t - 1); assert u * (q - t) == u * (q - t - 1) + u; }
    } else if q < t {
      assert u * (t - q) >= u by { NonNegativeProduct(u, t - q - 1); assert u * (t - q) == u * (t - q - 1) + u; }
    }
  }

  lemma RoundedRange(n: int)
    requires KB <= n <= MAX_EXACT
    ensures 10 <= Rounded(n) < TWO63 / TB
    ensures UnitOf(n) < TB ==> Rounded(n) <= 10240
  {
    if n >= TB {
      assert Rounded(n) == (n * 10 + TB / 2) / TB;
    } else if n >= GB {
      assert Rounded(n) == (n * 10 + GB / 2) / GB;
    } else if n >= MB {
      assert Rounded(n) == (n * 10 + MB / 2) / MB;
    } else {
      assert Rounded(n) == (n * 10 + KB / 2) / KB;
    }
  }

  lemma UnitBounds(n: int)
    requires n >= KB
    ensures KB <= UnitOf(n) <= TB && UnitOf(n) % 2 == 0 && UnitOf(n) <= n
    ensures UnitOf(n) < TB ==> n < KB * UnitOf(n)
    ensures UnitIndex(n) < 4
  {
  }

  /** Where the 64-bit computation is exact. */
  lemma TenthsExact(n: int)
    requires KB <= n <= MAX_EXACT
    ensures Tenths(n) == Rounded(n)
  {
    UnitBounds(n);
    WrapRange(n * 10);
    WrapRange(n * 10 + UnitOf(n) / 2);
  }

  lemma FloorOfTenths(k: nat)
    ensures (k as real / 10.0).Floor == k / 10
  {
  }

  /** A decimal with one place, scaled and truncated. */
  lemma ScaledTenths(f: Floats, q: nat, d: nat, i: nat)
    requires d < 10 && i < 4 && 10 * q + d < TWO63 / TB
    ensures Scale(f, q as real + d as real / 10.0, UNITS[i]) == (10 * q + d) * UNITS[i] / 10
  {
    var u := UNITS[i];
    var t := 10 * q + d;
    assert (q as real + d as real / 10.0) * u as real == (t * u) as real / 10.0;
    FloorOfTenths(t * u);
  }

  lemma DecSplit(t: nat)
    requires t >= 10
    ensures |Dec(t)| >= 2 && Dec(t)[..|Dec(t)| - 1] == Dec(t / 10) && Dec(t)[|Dec(t)| - 1..] == [Digit(t % 10)]
    ensures Dec(t)[|Dec(t)| - 1] == Digit(t % 10)
  {
  }

  /** The printed form: whole units, and the tenth if there is one. */
  function Shaped(q: nat, d: nat, i: nat): string
    requires d < 10 && i < 5
  {
    if d == 0 then WithCommas(Dec(q)) + SUFFIXES[i] else WithCommas(Dec(q)) + "." + [Digit(d)] + SUFFIXES[i]
  }

  /** Inside of the guard, the text shows the tenths, whether they are right or not. */
  lemma PrintShows(n: int, t: nat)
    requires KB <= n <= MAX_INT64 / 10 && InInt64(Tenths(n)) && t == Unsigned(Tenths(n)) && t >= 10
    ensures Print(n) == Shaped(t / 10, t % 10, UnitIndex(n))
  {
    UnitBounds(n);
    DecSplit(t);
    assert Digit(t % 10) == '0' <==> t % 10 == 0;
  }

  lemma PrintShape(n: int)
    requires KB <= n <= MAX_EXACT
    ensures Rounded(n) >= 10
    ensures Print(n) == Shaped(Rounded(n) / 10, Rounded(n) % 10, UnitIndex(n))
  {
    TenthsExact(n);
    RoundedRange(n);
    PrintShows(n, Rounded(n));
  }

  /** What q.d units are read back as. */
  function Amount(f: Floats, q: nat, d: nat, i: nat): int
    requires d < 10 && i < 5
  {
    if d == 0 then q * UNITS[i] else Scale(f, q as real + d as real / 10.0, UNITS[i])
  }

  lemma ParseOfShape(f: Floats, q: nat, d: nat, i: nat, s: string)
    requires Exact(f) && i < 5 && d < 10 && q < TWO64 && (d == 0 ==> q * UNITS[i] < TWO63) && s == Shaped(q, d, i)
    ensures Parse(f, s) == Some(Amount(f, q, d, i))
  {
    if d == 0 {
      ParseOfWhole(f, q, i, s);
    } else {
      ParseOfDecimal(f, q, d, i);
    }
  }

  lemma AmountOfTenths(f: Floats, t: nat, i: nat)
    requires i < 4 && t < TWO63 / TB
    ensures t / 10 < TWO64 && t / 10 * UNITS[i] < TWO63
    ensures Amount(f, t / 10, t % 10, i) == t * UNITS[i] / 10
  {
    WholeTenths(t / 10, i);
    ScaledTenths(f, t / 10, t % 10, i);
    assert 10 * (t / 10) + t % 10 == t;
  }

  /** What parsing gives for a printed size of at least 1,024. */
  lemma ParseOfPrint(f: Floats, n: int)
    requires Exact(f) && KB <= n <= MAX_EXACT
    ensures Parse(f, Print(n)) == Some(Rounded(n) * UnitOf(n) / 10)
  {
    PrintShape(n);
    UnitBounds(n);
    RoundedRange(n);
    AmountOfTenths(f, Rounded(n), UnitIndex(n));
    ParseOfShape(f, Rounded(n) / 10, Rounded(n) % 10, UnitIndex(n), Print(n));
  }

  lemma WholeTenths(q: nat, i: nat)
    requires i < 5 && 10 * q < TWO63 / TB
    ensures q * UNITS[i] < TWO63 && q * UNITS[i] == (10 * q) * UNITS[i] / 10
  {
  }

  /** Rounding to tenths of u and cutting off what is below 1 loses at most u/20 + 1. */
  lemma RoundingError(n: nat, u: nat)
    requires u > 0 && u % 2 == 0
    ensures var m := (n * 10 + u / 2) / u * u / 10;
            Near(n, m, u)
  {
    var t := (n * 10 + u / 2) / u;
    DivisionBounds(n * 10 + u / 2, u);
    var p := t * u;
    DivisionBounds(p, 10);
  }

  /** Below 1,024 the bytes are shown as they are, and 0 without a unit. */
  lemma PrintOfSmall(n: int)
    requires 0 <= n < 1_024
    ensures Print(n) == if n == 0 then "0" else WithCommas(Dec(n)) + "b"
  {
  }

  lemma ParseOfBytes(f: Floats, n: int)
    requires 0 < n < KB
    ensures Parse(f, Print(n)) == Some(n)
  {
    PrintOfSmall(n);
    assert n * UNITS[4] == n && SUFFIXES[4] == "b";
    ParseOfWhole(f, n, 4, Print(n));
  }

  /** Below 1,024 nothing is lost. */
  lemma ParseOfSmall(f: Floats, n: int)
    requires 0 <= n < KB
    ensures Parse(f, Print(n)) == Some(n)
  {
    if n == 0 {
      PrintOfSmall(n);
      ParseOfZero(f);
    } else {
      ParseOfBytes(f, n);
    }
  }

  /** What is read back is within half a tenth of the unit, give or take one byte for cutting off. */
  predicate Near(n: int, m: int, u: int) {
    -(u + 20) <= 20 * (m - n) <= u + 20
  }

  lemma RoundedNear(n: int)
    requires n >= KB
    ensures Near(n, Rounded(n) * UnitOf(n) / 10, UnitOf(n))
  {
    UnitBounds(n);
    RoundingError(n, UnitOf(n));
  }

  /** Printing a size loses at most that. */
  lemma ParseNearPrint(f: Floats, n: int)
    requires Exact(f) && KB <= n <= MAX_EXACT
    ensures Parse(f, Print(n)).Some? && Near(n, Parse(f, Print(n)).value, UnitOf(n))
  {
    ParseOfPrint(f, n);
    RoundedNear(n);
  }

  lemma ParseOfZero(f: Floats)
    ensures Parse(f, "0") == Some(0)
  {
    LowerSuffixes();
    assert Lower("0") == "0";
    assert SuffixIndex("0", 4) == SuffixIndex("0", 5) by {
      assert !HasSuffix("0", "b");
    }
    assert SuffixIndex("0", 0) == None;
    NoCommas("0");
    assert Dec(0) == "0";
    DecDigits(0);
  }

  // ---------------------------------------------------------------- texts in general

  /** What a suffix in any case means: how many bytes. */
  predicate Means(suffix: string, u: int) {
    || (u == 1 && suffix in {"", "b", "B"})
    || (u == 1_024 && suffix in {"kb", "kB", "Kb", "KB"})
    || (u == 1_048_576 && suffix in {"mb", "mB", "Mb", "MB"})
    || (u == 1_073_741_824 && suffix in {"gb", "gB", "Gb", "GB"})
    || (u == 1_099_511_627_776 && suffix in {"tb", "tB", "Tb", "TB"})
  }

  lemma LowerConcat(a: string, b: string)
    requires Plain(a)
    ensures Lower(a + b) == a + Lower(b)
  {
    forall k | 0 <= k < |a|
      ensures Lower(a + b)[k] == a[k]
    {
      assert IsDigit(a[k]) || a[k] in {',', '.', '+', '-'};
    }
  }

  lemma NoSuffix(core: string)
    requires core != "" && IsDigit(core[|core| - 1])
    ensures SuffixIndex(core, 0) == None
  {
    LowerSuffixes();
    forall i | 0 <= i < 5 ensures !HasSuffix(core, Lower(SUFFIXES[i])) {
      assert Lower(SUFFIXES[i])[|SUFFIXES[i]| - 1] == 'b';
    }
    NoMatch(core, 0);
  }

  function IndexOfUnit(u: int): nat {
    if u == 1 then 4 else if u == KB then 3 else if u == MB then 2 else if u == GB then 1 else 0
  }

  /** The suffix of a text is found, whatever its case. */
  lemma SuffixMeans(core: string, suffix: string, u: int)
    requires Means(suffix, u) && Plain(core) && core != "" && IsDigit(core[|core| - 1])
    ensures Lower(core + suffix) == core + Lower(suffix) && |Lower(suffix)| == |suffix|
    ensures suffix == "" ==> u == 1 && SuffixIndex(core + Lower(suffix), 0) == None
    ensures suffix != "" ==>
      var i := IndexOfUnit(u);
      SuffixIndex(core + Lower(suffix), 0) == Some(i) && UNITS[i] == u && |SUFFIXES[i]| == |suffix|
  {
    LowerConcat(core, suffix);
    if suffix == "" {
      assert core + Lower(suffix) == core;
      NoSuffix(core);
    } else {
      LowerOfSuffix(suffix, u, IndexOfUnit(u));
      SuffixFound(core, IndexOfUnit(u));
    }
  }

  lemma LowerOfSuffix(suffix: string, u: int, i: nat)
    requires Means(suffix, u) && suffix != "" && i < 5 && UNITS[i] == u
    ensures Lower(suffix) == Lower(SUFFIXES[i]) && |SUFFIXES[i]| == |suffix|
  {
  }

  lemma ParseOfParts(f: Floats, core: string, suffix: string, u: int)
    requires Means(suffix, u) && Plain(core) && core != "" && IsDigit(core[|core| - 1])
    ensures Parse(f, core + suffix) == ParseNumber(f, WithoutCommas(core), u)
  {
    SuffixMeans(core, suffix, u);
    assert (core + Lower(suffix))[..|core|] == core;
    assert suffix == "" ==> core + Lower(suffix) == core;
  }

  /** The sign of a number, and its value with the sign. */
  predicate Sign(sign: string, q: nat, n: int) {
    (sign in {"", "+"} && n == q) || (sign == "-" && n + q == 0)
  }

  lemma NumberOfDec(f: Floats, sign: string, q: nat, n: int, u: int)
    requires q < TWO63 && Sign(sign, q, n)
    ensures ParseNumber(f, WithoutCommas(sign + Dec(q)), u) == Some(Wrap(n * u))
  {
    var s := sign + Dec(q);
    DecDigits(q);
    assert ',' !in s;
    NoCommas(s);
    ScanOfDec(q, "");
    assert Dec(q) + "" == Dec(q) && IsDigit(Dec(q)[0]);
    if sign == "" {
      assert s == Dec(q);
    } else {
      assert s[1..] == Dec(q);
    }
  }

  /**
    Any whole number of a size below 2^63, signed or not, with any suffix in any case or none, is read
    as that many units; where the product overflows, as what is left of it in 64 bits, without an error.
   */
  lemma ParseOfText(f: Floats, sign: string, q: nat, n: int, suffix: string, u: int)
    requires q < TWO63 && Sign(sign, q, n) && Means(suffix, u)
    ensures var r := Parse(f, sign + Dec(q) + suffix);
            && r.Some? && InInt64(r.value) && (r.value - n * u) % 0x1_0000_0000_0000_0000 == 0
            && (InInt64(n * u) ==> r.value == n * u)
  {
    DecDigits(q);
    ParseOfParts(f, sign + Dec(q), suffix, u);
    NumberOfDec(f, sign, q, n, u);
    WrapIs(n * u);
  }

  /** n is x without what comes after the point. */
  predicate Truncated(x: real, n: int) {
    if x >= 0.0 then n as real <= x < n as real + 1.0 else n as real - 1.0 < x <= n as real
  }

  /** What x units come to, where that fits into 64 bits; nothing if there is no x. */
  predicate ReadAs(x: Option<real>, u: int, r: Option<int>) {
    match x
    case None => r == None
    case Some(v) =>
      -0x8000_0000_0000_0001 as real < v * u as real < 0x8000_0000_0000_0000 as real ==>
        r.Some? && Truncated(v * u as real, r.value)
  }

  lemma CutOff(f: Floats, x: real)
    requires -0x8000_0000_0000_0001 as real < x < 0x8000_0000_0000_0000 as real
    ensures Truncated(x, FromFloat(f, x))
  {
  }

  lemma NoIntReadAs(f: Floats, s: string, u: int)
    requires ParseInt(s) == SyntaxError
    ensures ReadAs(f.parse(s), u, ParseNumber(f, s, u))
  {
    match f.parse(s)
    case None =>
    case Some(x) =>
      var v := x * u as real;
      if -0x8000_0000_0000_0001 as real < v < 0x8000_0000_0000_0000 as real {
        CutOff(f, v);
      }
  }

  lemma FractionIsNoInt(sign: string, q: nat, n: int, tail: string)
    requires q < TWO64 && Sign(sign, q, n)
    ensures ParseInt(sign + Dec(q) + "." + tail) == SyntaxError
  {
    var s, digits := sign + Dec(q) + "." + tail, Dec(q) + ("." + tail);
    DecDigits(q);
    ScanOfDec(q, "." + tail);
    assert IsDigit(Dec(q)[0]);
    assert s == sign + digits;
    if sign == "" {
      assert s == digits;
    } else {
      assert s[1..] == digits;
    }
  }

  lemma FractionCore(sign: string, q: nat, n: int, tail: string)
    requires Sign(sign, q, n) && tail != "" && AllDigits(tail)
    ensures var core := sign + Dec(q) + "." + tail;
            Plain(core) && core != "" && IsDigit(core[|core| - 1]) && WithoutCommas(core) == core
  {
    var core := sign + Dec(q) + "." + tail;
    DecDigits(q);
    assert core[|core| - 1] == tail[|tail| - 1];
    assert ',' !in core;
    NoCommas(core);
  }

  /**
    A number with a fraction, signed or not, with any suffix in any case or none, is read as that many
    units, cut off at the point, where that fits into 64 bits; and not at all where ParseFloat fails.
   */
  lemma ParseOfFraction(f: Floats, sign: string, q: nat, n: int, tail: string, suffix: string, u: int)
    requires q < TWO64 && Sign(sign, q, n) && Means(suffix, u) && tail != "" && AllDigits(tail)
    ensures var core := sign + Dec(q) + "." + tail; ReadAs(f.parse(core), u, Parse(f, core + suffix))
  {
    var core := sign + Dec(q) + "." + tail;
    FractionCore(sign, q, n, tail);
    ParseOfParts(f, core, suffix, u);
    FractionIsNoInt(sign, q, n, tail);
    NoIntReadAs(f, core, u);
  }

  lemma WrapIs(n: int)
    ensures InInt64(Wrap(n)) && (Wrap(n) - n) % TWO64 == 0
    ensures InInt64(n) ==> Wrap(n) == n
  {
    assert Wrap(n) - n == -TWO64 * ((n + TWO63) / TWO64);
  }

  /** The unit and the suffix that a size is printed with. */
  predicate PrintedIn(n: int, u: int, suffix: string) {
    || (1_024 <= n < 1_048_576 && u == 1_024 && suffix == "Kb")
    || (1_048_576 <= n < 1_073_741_824 && u == 1_048_576 && suffix == "Mb")
    || (1_073_741_824 <= n < 1_099_511_627_776 && u == 1_073_741_824 && suffix == "Gb")
    || (1_099_511_627_776 <= n && u == 1_099_511_627_776 && suffix == "Tb")
  }

  /** A text with commas that shows q, and if d is not 0 also d tenths. */
  predicate Reads(text: string, q: nat, d: nat)
    requires d < 10
  {
    if d == 0 then text == WithCommas(Dec(q)) else text == WithCommas(Dec(q)) + "." + [Digit(d)]
  }

  lemma PrintedUnit(n: int, u: int, suffix: string)
    requires n >= KB && PrintedIn(n, u, suffix)
    ensures UnitOf(n) == u && SUFFIXES[UnitIndex(n)] == suffix
  {
  }

  /** t tenths are nearest to n. */
  predicate Nearest(n: int, u: int, t: int) {
    -u <= 20 * n - 2 * (t * u) < u
  }

  lemma RoundedNearest(n: int)
    requires n >= KB
    ensures Nearest(n, UnitOf(n), Rounded(n))
  {
    UnitBounds(n);
    DivisionBounds(n * 10 + UnitOf(n) / 2, UnitOf(n));
    assert UnitOf(n) * Rounded(n) == Rounded(n) * UnitOf(n);
  }

  /**
    What String prints from 1,024 on: the size in the largest unit that is not larger, in the nearest
    number of tenths, and of two the larger.
   */
  lemma PrintedText(n: int, u: int, suffix: string) returns (text: string, t: nat)
    requires KB <= n <= MAX_EXACT && PrintedIn(n, u, suffix)
    ensures Print(n) == text + suffix && Reads(text, t / 10, t % 10) && Nearest(n, u, t)
  {
    PrintShape(n);
    PrintedUnit(n, u, suffix);
    RoundedNearest(n);
    t := Rounded(n);
    text := if t % 10 == 0 then WithCommas(Dec(t / 10)) else WithCommas(Dec(t / 10)) + "." + [Digit(t % 10)];
  }

  // ---------------------------------------------------------------- printing again

  /** What is read back, rounded once more in the same unit, gives the same tenths. */
  lemma RoundedAgain(t: int, u: nat)
    requires t >= 0 && u >= KB && u % 2 == 0
    ensures t * u / 10 >= 0 && (t * u / 10 * 10 + u / 2) / u == t
  {
    NonNegativeProduct(t, u);
    DivisionBounds(t * u, 10);
    DivisionUnique(t * u / 10 * 10 + u / 2, u, t);
  }

  /** The unit is the same again unless the size was rounded up to 1,024 of it. */
  lemma SameUnitAgain(n: int)
    requires KB <= n <= MAX_EXACT && (UnitOf(n) == TB || Rounded(n) != 10240)
    ensures var m := Rounded(n) * UnitOf(n) / 10;
            KB <= m <= MAX_EXACT && UnitIndex(m) == UnitIndex(n)
  {
    UnitBounds(n);
    RoundedRange(n);
    var t, u := Rounded(n), UnitOf(n);
    if u == TB {
      assert t * TB / 10 >= TB;
    } else if u == GB {
      assert GB <= t * GB / 10 < TB;
    } else if u == MB {
      assert MB <= t * MB / 10 < GB;
    } else {
      assert KB <= t * KB / 10 < MB;
    }
  }

  lemma PrintedAgain(n: int)
    requires KB <= n <= MAX_EXACT && (UnitOf(n) == TB || Rounded(n) != 10240)
    ensures Print(Rounded(n) * UnitOf(n) / 10) == Print(n)
  {
    SameUnitAgain(n);
    UnitBounds(n);
    RoundedRange(n);
    RoundedAgain(Rounded(n), UnitOf(n));
    PrintShape(n);
    PrintShape(Rounded(n) * UnitOf(n) / 10);
  }

  /** 1,024 of a unit is read back as one of the next, and printed so. */
  lemma PrintedInNextUnit(n: int)
    requires KB <= n <= MAX_EXACT && UnitOf(n) < TB && Rounded(n) == 10240
    ensures Print(Rounded(n) * UnitOf(n) / 10) != Print(n)
  {
    var i, m := UnitIndex(n), Rounded(n) * UnitOf(n) / 10;
    UnitBounds(n);
    assert m == KB * UnitOf(n) == UNITS[i - 1] && UnitIndex(m) == i - 1;
    assert Rounded(m) == 10;
    PrintShape(n);
    PrintShape(m);
    Dec1024();
    assert |Print(m)| == 3 && |Print(n)| == 7;
  }

  lemma Dec1024()
    ensures Dec(1024) == "1024" && WithCommas("1024") == "1,024"
    ensures Dec(1) == "1" && WithCommas("1") == "1"
  {
    assert Dec(10) == "10";
    assert Dec(102) == "102";
    assert "1024"[..1] == "1" && "1024"[1..] == "024";
  }

  /** Printing what was read back changes nothing, exactly when n was not rounded up to 1,024 of its unit. */
  lemma PrintParsePrintIff(f: Floats, n: int)
    requires Exact(f) && 0 <= n <= MAX_EXACT
    ensures Parse(f, Print(n)).Some?
    ensures Print(Parse(f, Print(n)).value) == Print(n) <==>
            !(n >= KB && UnitOf(n) < TB && Rounded(n) == 10240)
  {
    if n < KB {
      ParseOfSmall(f, n);
    } else {
      ParseOfPrint(f, n);
      if UnitOf(n) < TB && Rounded(n) == 10240 {
        PrintedInNextUnit(n);
      } else {
        UnitBounds(n);
        PrintedAgain(n);
      }
    }
  }

  // ---------------------------------------------------------------- outside of that range

  /** Inside of the guard but above MAX_EXACT, the 64-bit computation gives a huge number of tenths. */
  lemma TenthsOverflow(n: int)
    requires MAX_EXACT < n <= MAX_INT64 / 10
    ensures UnitIndex(n) == 0 && Rounded(n) == TWO63 / TB
    ensures InInt64(Tenths(n)) && Unsigned(Tenths(n)) >= TWO64 - TWO63 / TB
  {
    assert UnitOf(n) == TB;
    WrapRange(n * 10);
    var x := Wrap(n * 10 + TB / 2);
    assert x == n * 10 + TB / 2 - TWO64;
    assert -(TWO63 / TB) <= Quot(x, TB) <= -1;
  }

  /** What is left of a printed number without its commas and suffix. */
  function Bare(q: nat, d: nat): string
    requires d < 10
  {
    if d == 0 then Dec(q) else Dec(q) + "." + [Digit(d)]
  }

  lemma BareEnd(q: nat, d: nat)
    requires d < 10
    ensures '.' in Bare(q, d) <==> d != 0
    ensures d != 0 ==>
      var s := Bare(q, d);
      |s| >= 2 && s[..|s| - 2] == Dec(q) && s[|s| - 1] == Digit(d)
  {
    DecDigits(q);
    if d != 0 {
      assert Bare(q, d)[|Dec(q)|] == '.';
    }
  }

  lemma BareInjective(q: nat, d: nat, p: nat, e: nat)
    requires q < TWO64 && p < TWO64 && d < 10 && e < 10 && Bare(q, d) == Bare(p, e)
    ensures q == p && d == e
  {
    BareEnd(q, d);
    BareEnd(p, e);
    assert Dec(q) == Dec(p);
    DecInjective(q, p);
  }

  lemma BareOfShape(q: nat, d: nat, i: nat)
    requires d < 10 && i < 5
    ensures var s := Shaped(q, d, i);
            |s| >= |SUFFIXES[i]| && WithoutCommas(s[..|s| - |SUFFIXES[i]|]) == Bare(q, d)
  {
    var core := if d == 0 then WithCommas(Dec(q)) else WithCommas(Dec(q)) + "." + [Digit(d)];
    var s := Shaped(q, d, i);
    assert s == core + SUFFIXES[i] && s[..|s| - |SUFFIXES[i]|] == core;
    if d == 0 {
      DecDigits(q);
      NoCommaInDigits(Dec(q));
      CommasUndone(Dec(q));
    } else {
      DecimalUndone(q, d);
    }
  }

  /** A text shows one number of tenths. */
  lemma DifferentTenths(t: nat, u: nat, i: nat)
    requires t < TWO64 && u < TWO64 && t != u && i < 5
    ensures Shaped(t / 10, t % 10, i) != Shaped(u / 10, u % 10, i)
  {
    BareOfShape(t / 10, t % 10, i);
    BareOfShape(u / 10, u % 10, i);
    if Shaped(t / 10, t % 10, i) == Shaped(u / 10, u % 10, i) {
      BareInjective(t / 10, t % 10, u / 10, u % 10);
    }
  }

  /**
    The guard of String is a little too wide: the text shows the rounded size precisely up to MAX_EXACT,
    and above, still inside of the guard, a huge number of terabytes.
   */
  lemma TextExactIff(n: int)
    requires KB <= n <= MAX_INT64 / 10
    ensures Rounded(n) >= 0
    ensures Print(n) == Shaped(Rounded(n) / 10, Rounded(n) % 10, UnitIndex(n)) <==> n <= MAX_EXACT
    ensures n > MAX_EXACT ==> exists t: nat :: t >= TWO64 - TWO63 / TB && Print(n) == Shaped(t / 10, t % 10, 0)
  {
    if n <= MAX_EXACT {
      PrintShape(n);
    } else {
      TenthsOverflow(n);
      PrintShows(n, Unsigned(Tenths(n)));
      DifferentTenths(Unsigned(Tenths(n)), Rounded(n), 0);
    }
  }

  /** Negative sizes and those above the guard are printed as "n/a", which does not parse. */
  lemma NotAvailable(f: Floats, n: int)
    requires Exact(f) && InInt64(n) && (n < 0 || n > MAX_INT64 / 10)
    ensures Print(n) == "n/a" && Parse(f, Print(n)) == None
  {
    LowerSuffixes();
    var s := "n/a";
    assert Lower(s) == s;
    assert forall i :: 0 <= i < 5 ==> !HasSuffix(s, Lower(SUFFIXES[i])) by {
      assert s[|s| - 1] == 'a';
    }
    NoMatch(s, 0);
    NoCommas(s);
  }

  lemma {:induction false} NoMatch(s: string, j: nat)
    requires j <= 5 && forall k :: j <= k < 5 ==> !HasSuffix(s, Lower(SUFFIXES[k]))
    ensures SuffixIndex(s, j) == None
    decreases 5 - j
  {
    if j < 5 {
      NoMatch(s, j + 1);
    }
  }
}
