/** Printing decimals and parsing them back. */
module DecimalText {
  import opened Options
  import opened Decimals

  const PRECISION: nat := 36

  /** 2^1024: parsed integers of more than 1024 bits are out of range. */
  const PARSE_LIMIT: int := 0x10000000000000000000000000000000000000000000000000000000000000000000000000000000000000000000000000000000000000000000000000000000000000000000000000000000000000000000000000000000000000000000000000000000000000000000000000000000000000000000000000000000000000000

  datatype TextError = Empty | InvalidLength | InvalidString | TooPrecise | NotANumber | OutOfRange

  // --------------------------------------------------------------------------- digits

  function DigitOf(n: nat): char
    requires n < 10
  {
    "0123456789"[n]
  }

  predicate IsDigit(c: char) { '0' <= c <= '9' }

  function DigitValue(c: char): nat
    requires IsDigit(c)
  {
    c as int - '0' as int
  }

  /** The decimal digits of a number, without leading zeros. */
  function Digits(n: nat): string {
    if n < 10 then [DigitOf(n)] else Digits(n / 10) + [DigitOf(n % 10)]
  }

  predicate AllDigits(s: string) { forall c | c in s :: IsDigit(c) }

  function ValueOf(s: string): nat
    requires AllDigits(s)
  {
    if s == [] then 0 else 10 * ValueOf(s[..|s| - 1]) + DigitValue(s[|s| - 1])
  }

  function Zeros(k: nat): string { seq(k, _ => '0') }

  // -------------------------------------------------------------------------- printing

  /** The digits of the absolute value with the point put in. */
  function Body(bz: string): string {
    if |bz| <= PRECISION then "0." + Zeros(PRECISION - |bz|) + bz
    else bz[..|bz| - PRECISION] + "." + bz[|bz| - PRECISION..]
  }

  function Print(raw: int): string {
    var body := Body(Digits(Abs(raw)));
    if raw < 0 then "-" + body else body
  }

  /** Go's `copy` to position `at` of a buffer. */
  method CopyInto(buffer: array<char>, at: nat, s: string)
    requires at + |s| <= buffer.Length
    modifies buffer
    ensures buffer[..] == old(buffer[..at]) + s + old(buffer[at + |s|..])
  {
    for k := 0 to |s|
      invariant forall j | 0 <= j < buffer.Length :: buffer[j] == if at <= j < at + k then s[j - at] else old(buffer[j])
    {
      buffer[at + k] := s[k];
    }
  }

  method FillZeros(buffer: array<char>, at: nat, n: nat)
    requires at + n <= buffer.Length
    modifies buffer
    ensures buffer[..] == old(buffer[..at]) + Zeros(n) + old(buffer[at + n..])
  {
    for k := 0 to n
      invariant forall j | 0 <= j < buffer.Length :: buffer[j] == if at <= j < at + k then '0' else old(buffer[j])
    {
      buffer[at + k] := '0';
    }
  }

  method FillBody(bz: string) returns (s: string)
    ensures s == Body(bz)
  {
    if |bz| <= PRECISION {
      var buffer := new char[PRECISION + 2];
      buffer[0], buffer[1] := '0', '.';
      assert buffer[..2] == "0.";
      FillZeros(buffer, 2, PRECISION - |bz|);
      assert buffer[..2 + (PRECISION - |bz|)] == "0." + Zeros(PRECISION - |bz|);
      CopyInto(buffer, 2 + (PRECISION - |bz|), bz);
      s := buffer[..];
    } else {
      var buffer, point := new char[|bz| + 1], |bz| - PRECISION;
      CopyInto(buffer, 0, bz[..point]);
      buffer[point] := '.';
      assert buffer[..point + 1] == bz[..point] + ".";
      CopyInto(buffer, point + 1, bz[point..]);
      s := buffer[..];
    }
  }

  /** `String`, which fills a byte buffer. */
  method ToText(raw: int) returns (s: string)
    ensures s == Print(raw)
  {
    s := FillBody(Digits(Abs(raw)));
    if raw < 0 {
      s := "-" + s;
    }
  }

  // --------------------------------------------------------------------------- parsing

  /** `strings.Split` at points. */
  function Split(s: string): (pieces: seq<string>)
    ensures |pieces| >= 1
  {
    if s == [] then [""] else
      var rest := Split(s[1..]);
      if s[0] == '.' then [""] + rest else [[s[0]] + rest[0]] + rest[1..]
  }

  /** big.Int's SetString in base ten: an optional sign and at least one digit. */
  function SetString(s: string): Option<int> {
    var signed := s != [] && (s[0] == '-' || s[0] == '+');
    var ds := if signed then s[1..] else s;
    if ds == [] || !AllDigits(ds) then None
    else Some(if signed && s[0] == '-' then 0 - ValueOf(ds) else ValueOf(ds))
  }

  /** `NewBigDecFromStr`. */
  function Parse(str: string): Result<int, TextError> {
    if str == [] then Err(Empty) else
      var neg := str[0] == '-';
      var s := if neg then str[1..] else str;
      if s == [] then Err(Empty) else
        var v :- ParseUnsigned(s);
        Ok(if neg then -v else v)
  }

  function ParseUnsigned(s: string): Result<int, TextError> {
    var pieces := Split(s);
    if |pieces| > 2 then Err(InvalidString)
    else if |pieces| == 2 && (|pieces[0]| == 0 || |pieces[1]| == 0) then Err(InvalidLength)
    else
      var whole, part := pieces[0], if |pieces| == 2 then pieces[1] else "";
      if |part| > PRECISION then Err(TooPrecise) else
        var combined := SetString(whole + part + Zeros(PRECISION - |part|));
        if combined.None? then Err(NotANumber)
        else if Abs(combined.value) >= PARSE_LIMIT then Err(OutOfRange)
        else Ok(combined.value)
  }

  // ------------------------------------------------------------------------ round trip

  lemma {:induction false} DigitsValue(n: nat)
    ensures AllDigits(Digits(n)) && |Digits(n)| >= 1 && ValueOf(Digits(n)) == n
  {
    if n >= 10 {
      DigitsValue(n / 10);
      assert Digits(n)[..|Digits(n)| - 1] == Digits(n / 10);
    } else {
      assert Digits(n)[..0] == [];
    }
  }

  lemma {:induction false} LeadingZeros(k: nat, s: string)
    requires AllDigits(s)
    ensures AllDigits(Zeros(k) + s) && ValueOf(Zeros(k) + s) == ValueOf(s)
  {
    if s != [] {
      LeadingZeros(k, s[..|s| - 1]);
      assert (Zeros(k) + s)[..|Zeros(k) + s| - 1] == Zeros(k) + s[..|s| - 1];
    } else if k > 0 {
      LeadingZeros(k - 1, []);
      assert (Zeros(k) + [])[..k - 1] == Zeros(k - 1) + [];
      assert Zeros(k) + [] == Zeros(k);
    }
  }

  lemma {:induction false} SplitNone(s: string)
    requires '.' !in s
    ensures Split(s) == [s]
  {
    if s != [] {
      SplitNone(s[1..]);
      assert [s[0]] + s[1..] == s;
    }
  }

  lemma {:induction false} SplitOnce(a: string, b: string)
    requires '.' !in a && '.' !in b
    ensures Split(a + "." + b) == [a, b]
  {
    var s := a + "." + b;
    if a == [] {
      assert s[1..] == b;
      SplitNone(b);
    } else {
      assert s[1..] == a[1..] + "." + b;
      SplitOnce(a[1..], b);
      assert [s[0]] + a[1..] == a;
    }
  }

  lemma DigitsHaveNoPoint(s: string)
    requires AllDigits(s)
    ensures '.' !in s
  {
  }

  lemma PrintedValue(whole: string, part: string, n: nat)
    requires AllDigits(whole) && AllDigits(part) && |whole| >= 1 && |part| == PRECISION && ValueOf(whole + part) == n
    ensures ParseUnsigned(whole + "." + part) == if n < PARSE_LIMIT then Ok(n) else Err(OutOfRange)
  {
    SplitOnce(whole, part);
    assert whole + part + Zeros(0) == whole + part;
    assert IsDigit((whole + part)[0]);
  }

  lemma ZeroFirst(k: nat, s: string)
    ensures "0" + (Zeros(k) + s) == Zeros(k + 1) + s
  {
  }

  lemma ShortBodyIs(bz: string, part: string)
    requires |bz| <= PRECISION && part == Zeros(PRECISION - |bz|) + bz
    ensures Body(bz) == "0" + "." + part && |part| == PRECISION
  {
  }

  lemma ShortValue(k: nat, bz: string, part: string)
    requires AllDigits(bz) && part == Zeros(k) + bz
    ensures AllDigits(part) && AllDigits("0" + part) && ValueOf("0" + part) == ValueOf(bz)
  {
    LeadingZeros(k, bz);
    LeadingZeros(k + 1, bz);
    ZeroFirst(k, bz);
  }

  lemma ShortBody(bz: string, n: nat)
    requires AllDigits(bz) && 1 <= |bz| <= PRECISION && ValueOf(bz) == n
    ensures ParseUnsigned(Body(bz)) == if n < PARSE_LIMIT then Ok(n) else Err(OutOfRange)
    ensures Body(bz)[0] == '0'
  {
    var part := Zeros(PRECISION - |bz|) + bz;
    ShortBodyIs(bz, part);
    ShortValue(PRECISION - |bz|, bz, part);
    PrintedValue("0", part, n);
  }

  lemma LongBody(bz: string, n: nat)
    requires AllDigits(bz) && |bz| > PRECISION && ValueOf(bz) == n
    ensures ParseUnsigned(Body(bz)) == if n < PARSE_LIMIT then Ok(n) else Err(OutOfRange)
    ensures Body(bz)[0] == bz[0]
  {
    var whole, part := bz[..|bz| - PRECISION], bz[|bz| - PRECISION..];
    assert whole + part == bz;
    assert AllDigits(whole) && AllDigits(part);
    PrintedValue(whole, part, n);
  }

  lemma BodyParses(n: nat)
    ensures ParseUnsigned(Body(Digits(n))) == if n < PARSE_LIMIT then Ok(n) else Err(OutOfRange)
    ensures Body(Digits(n)) != [] && Body(Digits(n))[0] != '-'
  {
    var bz := Digits(n);
    DigitsValue(n);
    if |bz| <= PRECISION {
      ShortBody(bz, n);
    } else {
      LongBody(bz, n);
      assert bz[0] in bz;
    }
  }

  /** Printing then parsing is the identity, on every decimal whose integer has at most 1024
      bits; on the others the parser reports that they are out of range. */
  lemma RoundTrip(raw: int)
    ensures Parse(Print(raw)) == if Abs(raw) < PARSE_LIMIT then Ok(raw) else Err(OutOfRange)
  {
    BodyParses(Abs(raw));
    if raw < 0 {
      assert Print(raw)[1..] == Body(Digits(Abs(raw)));
    }
  }

  // ---------------------------------------------------------------- what a text stands for

  function Pow10(k: nat): nat { if k == 0 then 1 else 10 * Pow10(k - 1) }

  lemma {:induction false} ValueConcat(a: string, b: string)
    requires AllDigits(a) && AllDigits(b)
    ensures AllDigits(a + b) && ValueOf(a + b) == ValueOf(a) * Pow10(|b|) + ValueOf(b)
  {
    if b == [] {
      assert a + b == a;
    } else {
      var front := b[..|b| - 1];
      ValueConcat(a, front);
      assert (a + b)[..|a + b| - 1] == a + front;
      AppendDigit(ValueOf(a), Pow10(|front|), ValueOf(front), DigitValue(b[|b| - 1]));
    }
  }

  lemma AppendDigit(x: int, p: int, v: int, c: int)
    ensures 10 * (x * p + v) + c == x * (10 * p) + (10 * v + c)
  {
  }

  lemma ZerosValue(k: nat)
    ensures AllDigits(Zeros(k)) && ValueOf(Zeros(k)) == 0
  {
    LeadingZeros(k, []);
    assert Zeros(k) + [] == Zeros(k);
  }

  /** Digits, a point and up to 36 digits are read as the number they denote, scaled to 36
      places. */
  lemma ParsesFraction(whole: string, part: string)
    requires AllDigits(whole + part) && |whole| >= 1 && 1 <= |part| <= PRECISION
    ensures var v := ValueOf(whole + part) * Pow10(PRECISION - |part|);
            ParseUnsigned(whole + "." + part) == if v < PARSE_LIMIT then Ok(v) else Err(OutOfRange)
  {
    var k := PRECISION - |part|;
    TrailingZeros(whole + part, k);
    CombinedParses(whole, part, whole + part + Zeros(k));
  }

  lemma TrailingZeros(s: string, k: nat)
    requires AllDigits(s)
    ensures AllDigits(s + Zeros(k)) && ValueOf(s + Zeros(k)) == ValueOf(s) * Pow10(k)
  {
    ZerosValue(k);
    ValueConcat(s, Zeros(k));
  }

  lemma CombinedParses(whole: string, part: string, combined: string)
    requires AllDigits(whole + part) && |whole| >= 1 && 1 <= |part| <= PRECISION
    requires combined == whole + part + Zeros(PRECISION - |part|) && AllDigits(combined)
    ensures ParseUnsigned(whole + "." + part) == if ValueOf(combined) < PARSE_LIMIT then Ok(ValueOf(combined)) else Err(OutOfRange)
  {
    DigitsHaveNoPoint(whole + part);
    assert forall c | c in whole || c in part :: c in whole + part;
    SplitOnce(whole, part);
    assert combined[0] in combined;
  }

  /** The sign in front is the sign of the number. */
  lemma ParsesSign(s: string)
    requires s != [] && s[0] != '-'
    ensures Parse(s) == ParseUnsigned(s)
    ensures Parse("-" + s) == if ParseUnsigned(s).Ok? then Ok(-ParseUnsigned(s).value) else ParseUnsigned(s)
  {
    assert ("-" + s)[1..] == s;
  }
}
