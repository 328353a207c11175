/** Exactly which texts are decimals, what each stands for, and the error of every other text. */
module DecimalGrammar {
  import opened Options
  import opened Decimals
  import opened DecimalText

  predicate IsSign(g: string) { g == "" || g == "+" || g == "-" }

  function SignOf(g: string): int { if g == "-" then -1 else 1 }

  function Points(s: string): nat { if s == [] then 0 else (if s[0] == '.' then 1 else 0) + Points(s[1..]) }

  /** A sign or none, digits, and no point. */
  ghost predicate IsWhole(s: string, g: string, w: string) {
    IsSign(g) && AllDigits(w) && s == g + w && s != ""
  }

  /** The same with a point, something before it, and one to 36 digits after it. */
  ghost predicate IsFraction(s: string, g: string, w: string, f: string) {
    IsSign(g) && AllDigits(w + f) && s == g + w + "." + f && g + w != "" && 1 <= |f| <= 36
  }

  /** The text without its minus in front stands for `v` last decimals. */
  ghost predicate Denotes(s: string, v: int) {
    || (exists g, w :: IsWhole(s, g, w) && v == SignOf(g) * (ValueOf(w) * Pow10(36)))
    || (exists g, w, f :: IsFraction(s, g, w, f) && v == SignOf(g) * (ValueOf(w + f) * Pow10(36 - |f|)))
  }

  function Ranged(v: int): Result<int, TextError> { if Abs(v) < PARSE_LIMIT then Ok(v) else Err(OutOfRange) }

  // ------------------------------------------------------------------------------- points

  lemma {:induction false} SplitCounts(s: string)
    ensures |Split(s)| == Points(s) + 1
  {
    if s != [] {
      SplitCounts(s[1..]);
    }
  }

  lemma {:induction false} NoPoints(s: string)
    ensures Points(s) == 0 <==> '.' !in s
  {
    if s != [] {
      NoPoints(s[1..]);
      assert s == [s[0]] + s[1..];
    }
  }

  lemma {:induction false} PointsOf(a: string, b: string)
    ensures Points(a + b) == Points(a) + Points(b)
  {
    if a == [] {
      assert a + b == b;
    } else {
      PointsOf(a[1..], b);
      assert (a + b)[1..] == a[1..] + b;
    }
  }

  /** The two sides of a single point. */
  lemma {:induction false} AtPoint(s: string) returns (a: string, b: string)
    requires Points(s) == 1
    ensures s == a + "." + b && '.' !in a && '.' !in b
  {
    if s[0] == '.' {
      a, b := "", s[1..];
      NoPoints(b);
      assert s == [s[0]] + s[1..];
    } else {
      var rest;
      rest, b := AtPoint(s[1..]);
      a := [s[0]] + rest;
      assert s == [s[0]] + s[1..];
    }
  }

  // ------------------------------------------------------------------------------- digits

  lemma DigitsNoSign(w: string)
    requires AllDigits(w) && w != ""
    ensures w[0] != '-' && w[0] != '+'
  {
    assert w[0] in w;
  }

  predicate NoSign(t: string) { t == "" || (t[0] != '-' && t[0] != '+') }

  lemma {:induction false} ReadsBare(ds: string)
    requires ds != "" && NoSign(ds)
    ensures SetString(ds) == if AllDigits(ds) then Some(ValueOf(ds)) else None
  {
  }

  lemma {:induction false} ReadsAfter(s: string, ds: string)
    requires s != "" && (s[0] == '-' || s[0] == '+') && ds == s[1..] && ds != ""
    ensures SetString(s) == if AllDigits(ds) then Some(if s[0] == '-' then 0 - ValueOf(ds) else ValueOf(ds)) else None
  {
  }

  /** big.Int reads an optional sign and digits. */
  lemma {:induction false} ReadsSigned(g: string, ds: string)
    requires IsSign(g) && ds != "" && (g == "" ==> NoSign(ds))
    ensures SetString(g + ds) == if AllDigits(ds) then Some(SignOf(g) * ValueOf(ds)) else None
  {
    if g == "" {
      assert g + ds == ds;
      ReadsBare(ds);
    } else {
      assert (g + ds)[1..] == ds && (g + ds)[0] == g[0];
      ReadsAfter(g + ds, ds);
    }
  }

  lemma AllDigitsOf(a: string, b: string)
    ensures AllDigits(a + b) <==> AllDigits(a) && AllDigits(b)
  {
    assert forall c :: c in a + b <==> c in a || c in b;
  }

  /** The sign in front of a text, and the rest. */
  lemma SignAndRest(s: string) returns (g: string, t: string)
    ensures IsSign(g) && s == g + t && (g == "" ==> NoSign(t))
  {
    if s != "" && (s[0] == '-' || s[0] == '+') {
      g, t := s[..1], s[1..];
    } else {
      g, t := "", s;
    }
  }

  lemma PaddedNoSign(t: string, k: nat)
    requires NoSign(t)
    ensures NoSign(t + Zeros(k))
  {
    if t != "" {
      assert (t + Zeros(k))[0] == t[0];
    }
  }

  /** What big.Int makes of a text and zeros after it. */
  lemma {:induction false} ReadsPadded(g: string, t: string, k: nat)
    requires IsSign(g) && t + Zeros(k) != "" && (g == "" ==> NoSign(t))
    ensures SetString(g + t + Zeros(k)) == if AllDigits(t) then Some(SignOf(g) * (ValueOf(t) * Pow10(k))) else None
  {
    ZerosValue(k);
    AllDigitsOf(t, Zeros(k));
    assert g + t + Zeros(k) == g + (t + Zeros(k));
    if g == "" {
      PaddedNoSign(t, k);
    }
    ReadsSigned(g, t + Zeros(k));
    if AllDigits(t) {
      TrailingZeros(t, k);
    }
  }

  // ------------------------------------------------------------------------- the two forms

  function Checked(o: Option<int>): Result<int, TextError> { if o.None? then Err(NotANumber) else Ranged(o.value) }

  lemma OfWhole(s: string, combined: string)
    requires '.' !in s && combined == s + Zeros(36)
    ensures ParseUnsigned(s) == Checked(SetString(combined))
  {
    SplitNone(s);
    assert s + "" + Zeros(36) == combined;
  }

  lemma OfFraction(s: string, a: string, f: string, combined: string)
    requires s == a + "." + f && a != "" && '.' !in a && '.' !in f && 1 <= |f| <= 36 && combined == a + f + Zeros(36 - |f|)
    ensures ParseUnsigned(s) == Checked(SetString(combined))
  {
    SplitOnce(a, f);
  }

  /** A text without a point. */
  lemma ReadsWhole(s: string, g: string, t: string)
    requires s == g + t && IsSign(g) && s != "" && '.' !in s && (g == "" ==> NoSign(t))
    ensures ParseUnsigned(s) == Checked(if AllDigits(t) then Some(SignOf(g) * (ValueOf(t) * Pow10(36))) else None)
  {
    OfWhole(s, g + t + Zeros(36));
    ReadsPadded(g, t, 36);
  }

  lemma Padded(a: string, g: string, t: string, f: string, k: nat)
    requires a == g + t
    ensures a + f + Zeros(k) == g + (t + f) + Zeros(k)
  {
  }

  lemma SameFirst(t: string, f: string)
    requires t != ""
    ensures (t + f)[0] == t[0]
  {
  }

  /** A text with one point. */
  lemma ReadsFraction(s: string, a: string, g: string, t: string, f: string)
    requires s == a + "." + f && a == g + t && IsSign(g) && a != "" && '.' !in a && '.' !in f && 1 <= |f| <= 36
    requires g == "" ==> NoSign(t)
    ensures ParseUnsigned(s) == Checked(if AllDigits(t + f) then Some(SignOf(g) * (ValueOf(t + f) * Pow10(36 - |f|))) else None)
  {
    var k := 36 - |f|;
    Padded(a, g, t, f, k);
    OfFraction(s, a, f, g + (t + f) + Zeros(k));
    if g == "" {
      SameFirst(t, f);
    }
    ReadsPadded(g, t + f, k);
  }

  lemma SignHasNoPoint(g: string, w: string)
    requires IsSign(g) && AllDigits(w)
    ensures '.' !in g + w
  {
    DigitsHaveNoPoint(w);
  }

  /** A text that denotes a number is read as that number, or is out of range. */
  lemma DenotedIsRead(s: string, v: int)
    requires Denotes(s, v)
    ensures ParseUnsigned(s) == Ranged(v)
  {
    if g, w :| IsWhole(s, g, w) && v == SignOf(g) * (ValueOf(w) * Pow10(36)) {
      SignHasNoPoint(g, w);
      if g == "" && w != "" {
        DigitsNoSign(w);
      }
      ReadsWhole(s, g, w);
    } else {
      var g, w, f :| IsFraction(s, g, w, f) && v == SignOf(g) * (ValueOf(w + f) * Pow10(36 - |f|));
      AllDigitsOf(w, f);
      SignHasNoPoint(g, w);
      DigitsHaveNoPoint(f);
      if g == "" {
        DigitsNoSign(w);
      }
      ReadsFraction(s, g + w, g, w, f);
    }
  }

  /** Nothing before or nothing after the point. */
  predicate Bare(s: string) { s != "" && (s[0] == '.' || s[|s| - 1] == '.') }

  /** More than 36 characters after the point. */
  ghost predicate TooLong(s: string) { exists a, b :: s == a + "." + b && |b| > 36 && '.' !in b }

  /** What becomes of a text without a point. */
  lemma WholeCases(s: string)
    requires s != "" && Points(s) == 0
    ensures ParseUnsigned(s) == Err(NotANumber) || exists v :: Denotes(s, v) && ParseUnsigned(s) == Ranged(v)
  {
    NoPoints(s);
    var g, t := SignAndRest(s);
    ReadsWhole(s, g, t);
    if AllDigits(t) {
      var v := SignOf(g) * (ValueOf(t) * Pow10(36));
      assert IsWhole(s, g, t);
      assert Denotes(s, v);
    }
  }

  /** What becomes of one with a point. */
  lemma PointCases(s: string, a: string, b: string)
    requires s == a + "." + b && '.' !in a && '.' !in b
    ensures (a == "" || b == "") ==> ParseUnsigned(s) == Err(InvalidLength)
    ensures a != "" && |b| > 36 ==> ParseUnsigned(s) == Err(TooPrecise)
    ensures a != "" && 1 <= |b| <= 36 ==>
              ParseUnsigned(s) == Err(NotANumber) || exists v :: Denotes(s, v) && ParseUnsigned(s) == Ranged(v)
  {
    SplitOnce(a, b);
    if a != "" && 1 <= |b| <= 36 {
      var g, t := SignAndRest(a);
      ReadsFraction(s, a, g, t, b);
      if AllDigits(t + b) {
        var v := SignOf(g) * (ValueOf(t + b) * Pow10(36 - |b|));
        assert IsFraction(s, g, t, b);
        assert Denotes(s, v);
      }
    }
  }

  // ------------------------------------------------------------------------------ exactly

  lemma BareIs(s: string, a: string, b: string)
    requires s == a + "." + b && '.' !in a && '.' !in b
    ensures Bare(s) <==> a == "" || b == ""
    ensures TooLong(s) <==> |b| > 36
  {
    if a != "" {
      assert s[0] == a[0] && a[0] in a;
    }
    if b != "" {
      assert s[|s| - 1] == b[|b| - 1] && b[|b| - 1] in b;
    }
    if a', b' :| s == a' + "." + b' && |b'| > 36 && '.' !in b' {
      SamePoint(s, a, b, a', b');
    }
  }

  lemma PointInside(s: string, a: string, b: string, i: int)
    requires s == a + "." + b && |a| < i < |s| && s[i] == '.'
    ensures '.' in b
  {
    assert b[i - |a| - 1] == s[i];
  }

  lemma SamePoint(s: string, a: string, b: string, a': string, b': string)
    requires s == a + "." + b == a' + "." + b' && '.' !in b && '.' !in b'
    ensures b == b'
  {
    assert b == s[|a| + 1..] && b' == s[|a'| + 1..];
    assert s[|a|] == '.' == s[|a'|];
    if |a| < |a'| {
      PointInside(s, a, b, |a'|);
    } else if |a'| < |a| {
      PointInside(s, a', b', |a|);
    }
  }

  /** The texts the parser accepts after a minus in front, and the error of each other: more than
      one point; a point with nothing on one side; more than 36 characters after it; not a number;
      or one of more than 1024 bits. */
  lemma ParsesExactly(s: string, v: int)
    requires s != ""
    ensures ParseUnsigned(s) == Ok(v) <==> Denotes(s, v) && Abs(v) < PARSE_LIMIT
    ensures ParseUnsigned(s) == Err(InvalidString) <==> Points(s) >= 2
    ensures ParseUnsigned(s) == Err(InvalidLength) <==> Points(s) == 1 && Bare(s)
    ensures ParseUnsigned(s) == Err(TooPrecise) <==> Points(s) == 1 && !Bare(s) && TooLong(s)
    ensures ParseUnsigned(s) == Err(OutOfRange) <==> exists v' :: Denotes(s, v') && Abs(v') >= PARSE_LIMIT
    ensures ParseUnsigned(s) != Err(Empty)
  {
    SplitCounts(s);
    forall v' | Denotes(s, v') ensures ParseUnsigned(s) == Ranged(v') {
      DenotedIsRead(s, v');
    }
    if Points(s) == 0 {
      WholeCases(s);
    } else if Points(s) == 1 {
      var a, b := AtPoint(s);
      BareIs(s, a, b);
      PointCases(s, a, b);
    }
  }

  lemma NeverEmpty(s: string)
    ensures ParseUnsigned(s) != Err(Empty)
  {
  }

  lemma NegatedText(s: string)
    requires s != ""
    ensures Parse("-" + s) == if ParseUnsigned(s).Ok? then Ok(-ParseUnsigned(s).value) else ParseUnsigned(s)
  {
    assert ("-" + s)[1..] == s;
  }

  /** The whole text: empty, or only a minus, is an error; a minus in front negates what follows it. */
  lemma ParsesSigned(s: string)
    ensures Parse(s) == Err(Empty) <==> s == "" || s == "-"
    ensures s != "" && s[0] != '-' ==> Parse(s) == ParseUnsigned(s)
    ensures s != "" ==> Parse("-" + s) == if ParseUnsigned(s).Ok? then Ok(-ParseUnsigned(s).value) else ParseUnsigned(s)
  {
    if s != "" {
      NegatedText(s);
      NeverEmpty(s);
      if s[0] == '-' && s != "-" {
        assert s == "-" + s[1..];
        NegatedText(s[1..]);
        NeverEmpty(s[1..]);
      }
    }
  }

  // ------------------------------------------------------------------------------ printing

  lemma {:induction false} NoLeadingZero(n: nat)
    ensures Digits(n) == "0" || Digits(n)[0] != '0'
  {
    if n >= 10 {
      NoLeadingZero(n / 10);
      assert n / 10 > 0;
      DigitsValue(n / 10);
      assert Digits(n)[0] == Digits(n / 10)[0];
    }
  }

  lemma Stripped(bz: string) returns (w: string, f: string)
    requires AllDigits(bz) && bz != "" && (bz == "0" || bz[0] != '0')
    ensures Body(bz) == w + "." + f && AllDigits(w + f) && |f| == 36 && w != "" && (w == "0" || w[0] != '0')
  {
    if |bz| <= 36 {
      w, f := "0", Zeros(36 - |bz|) + bz;
      ZerosValue(36 - |bz|);
      AllDigitsOf(Zeros(36 - |bz|), bz);
      AllDigitsOf("0", f);
    } else {
      w, f := bz[..|bz| - 36], bz[|bz| - 36..];
      assert w + f == bz;
    }
  }

  /** A printed decimal has a minus exactly if it is negative, no leading zero but a lone one, and
      36 digits after the point. */
  lemma PrintsPlainly(raw: int) returns (w: string, f: string)
    ensures Print(raw) == (if raw < 0 then "-" else "") + w + "." + f
    ensures AllDigits(w + f) && |f| == 36 && w != "" && (w == "0" || w[0] != '0')
  {
    var bz := Digits(Abs(raw));
    DigitsValue(Abs(raw));
    NoLeadingZero(Abs(raw));
    w, f := Stripped(bz);
    assert (if raw < 0 then "-" else "") + w + "." + f == (if raw < 0 then "-" else "") + (w + "." + f);
  }
}
