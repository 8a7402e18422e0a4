/** GTINs: the check digit of GS1 General Specifications section 7.9, padding to 14 digits, and UPC-E. */
module Gtin {
  import opened Prelude

  predicate IsDigit(c: char) { '0' <= c <= '9' }

  predicate Digits(s: string) { forall i :: 0 <= i < |s| ==> IsDigit(s[i]) }

  function Value(c: char): (v: int)
    requires IsDigit(c)
    ensures 0 <= v <= 9
  {
    c as int - '0' as int
  }

  /** `zfill` */
  function Padded(s: string, width: nat): (r: string)
    ensures |s| <= width ==> |r| == width
    decreases if |s| < width then width - |s| else 0
  {
    if |s| < width then Padded("0" + s, width) else s
  }

  function Times(heavy: bool, v: int): int { if heavy then 3 * v else v }

  /** Digits weighted alternately by 3 and 1 from the right; `heavy` says that the last one counts three times. */
  function Weighted(s: string, heavy: bool): int
    requires Digits(s)
  {
    if s == "" then 0 else Times(heavy, Value(s[|s| - 1])) + Weighted(s[..|s| - 1], !heavy)
  }

  /** The last digit is the one that section 7.9 computes from the others. */
  predicate Checked(s: string) {
    s != "" && Digits(s) && (10 - Weighted(s[..|s| - 1], true) % 10) % 10 == Value(s[|s| - 1])
  }

  /** The sum of the last digit, the last but two, and so on. */
  function EverySecond(s: string): int
    decreases |s|
  {
    if s == "" then 0 else s[|s| - 1] as int - '0' as int + EverySecond(if |s| == 1 then "" else s[..|s| - 2])
  }

  predicate GtinLength(n: nat) { n == 8 || 12 <= n <= 14 }

  const BAD_LENGTH := "GTIN must contain 8, 12, 13 or 14 ASCII digits."
  const BAD_CHECK := "GTIN check digit is invalid."

  /** `normalize_gtin`, with its loop over the reversed digits. */
  method NormalizeGtin(value: string) returns (r: Result<string>)
    ensures r == Normalized(value)
    ensures r == Err(BAD_LENGTH) <==> |value| !in {8, 12, 13, 14} || exists c :: c in value && !('0' <= c <= '9')
    ensures r.Ok? <==> |value| in {8, 12, 13, 14} && (forall c :: c in value ==> '0' <= c <= '9')
                       && (EverySecond(value) + 3 * EverySecond(value[..|value| - 1])) % 10 == 0
    ensures r.Ok? ==> |r.value| == 14 && r.value[14 - |value|..] == value && forall i :: 0 <= i < 14 - |value| ==> r.value[i] == '0'
  {
    NormalizedMeans(value);
    if !(GtinLength(|value|) && Digits(value)) { return Err(BAD_LENGTH); }
    PaddedDigits(value, 14);
    var padded := Padded(value, 14);
    var total, n := 0, |padded| - 1;
    for i := 0 to n
      invariant total + Weighted(padded[..n - i], i % 2 == 0) == Weighted(padded[..n], true)
    {
      assert padded[..n - i][..n - i - 1] == padded[..n - i - 1];
      total := total + Value(padded[n - 1 - i]) * (if i % 2 == 0 then 3 else 1);
    }
    if (10 - total % 10) % 10 != Value(padded[n]) { return Err(BAD_CHECK); }
    r := Ok(padded);
  }

  function Normalized(value: string): Result<string> {
    if !(GtinLength(|value|) && Digits(value)) then Err(BAD_LENGTH)
    else if !Checked(Padded(value, 14)) then Err(BAD_CHECK)
    else Ok(Padded(value, 14))
  }

  // ---- the check digit ----

  lemma {:induction false} PaddedDigits(s: string, width: nat)
    requires Digits(s)
    ensures Digits(Padded(s, width))
    decreases if |s| < width then width - |s| else 0
  {
    if |s| < width { PaddedDigits("0" + s, width); }
  }

  /** The computed check digit is the one that makes the whole weighted sum a multiple of ten. */
  lemma CheckedIsDivisible(s: string)
    requires s != "" && Digits(s)
    ensures Checked(s) <==> Weighted(s, false) % 10 == 0
  {
  }

  lemma {:induction false} WeightedIsTwoSums(s: string)
    requires s != "" && Digits(s)
    ensures Weighted(s, false) == EverySecond(s) + 3 * EverySecond(s[..|s| - 1])
    ensures Weighted(s, true) == 3 * EverySecond(s) + EverySecond(s[..|s| - 1])
  {
    var t := s[..|s| - 1];
    if t != "" {
      WeightedIsTwoSums(t);
      assert t[..|t| - 1] == s[..|s| - 2];
    } else {
      assert Weighted(t, true) == 0 && Weighted(t, false) == 0;
    }
  }

  /** The rule of section 7.9: from the check digit leftwards, every second digit once and the others three times make a multiple of ten. */
  lemma CheckedMeans(s: string)
    ensures Checked(s) <==> s != "" && (forall c :: c in s ==> '0' <= c <= '9')
                            && (EverySecond(s) + 3 * EverySecond(s[..|s| - 1])) % 10 == 0
  {
    DigitsMean(s);
    if s != "" && Digits(s) {
      CheckedIsDivisible(s);
      WeightedIsTwoSums(s);
    }
    hide Weighted, EverySecond, Digits;
  }

  lemma DigitsMean(s: string)
    ensures Digits(s) <==> forall c :: c in s ==> '0' <= c <= '9'
  {
    if forall c :: c in s ==> '0' <= c <= '9' {
      assert forall i :: 0 <= i < |s| ==> s[i] in s;
    }
  }

  lemma {:induction false} PaddedMeans(s: string, width: nat)
    requires |s| <= width
    ensures |Padded(s, width)| == width && Padded(s, width)[width - |s|..] == s
    ensures forall i :: 0 <= i < width - |s| ==> Padded(s, width)[i] == '0'
    decreases width - |s|
  {
    if |s| < width {
      PaddedMeans("0" + s, width);
      assert Padded(s, width)[width - |s|..] == Padded(s, width)[width - |s| - 1..][1..] == ("0" + s)[1..];
      assert Padded(s, width)[width - |s| - 1] == Padded(s, width)[width - |s| - 1..][0];
    }
  }

  lemma NormalizedMeans(value: string)
    ensures var r, shaped := Normalized(value), |value| in {8, 12, 13, 14} && forall c :: c in value ==> '0' <= c <= '9';
            && (r == Err(BAD_LENGTH) <==> !shaped)
            && (r.Ok? <==> shaped && (EverySecond(value) + 3 * EverySecond(value[..|value| - 1])) % 10 == 0)
            && (r.Ok? ==> |r.value| == 14 && r.value[14 - |value|..] == value && forall i :: 0 <= i < 14 - |value| ==> r.value[i] == '0')
  {
    NormalizedOnOwnCheck(value);
    CheckedMeans(value);
    DigitsMean(value);
    assert |BAD_LENGTH| == 47 && |BAD_CHECK| == 28;
    if |value| <= 14 { PaddedMeans(value, 14); }
    hide Padded, Checked, EverySecond, Digits;
  }

  lemma {:induction false} LeadingZero(s: string, heavy: bool)
    requires Digits(s)
    ensures Digits("0" + s) && Weighted("0" + s, heavy) == Weighted(s, heavy)
  {
    assert Digits("0" + s);
    if s == "" {
      assert "0" + s == "0" && "0"[..0] == "";
    } else {
      assert ("0" + s)[..|s|] == "0" + s[..|s| - 1];
      LeadingZero(s[..|s| - 1], !heavy);
    }
  }

  /** Padding a code with zeros neither makes nor breaks its check digit. */
  lemma {:induction false} PaddingKeepsCheck(s: string, width: nat)
    requires s != "" && Digits(s)
    ensures Digits(Padded(s, width)) && (Checked(Padded(s, width)) <==> Checked(s))
    decreases if |s| < width then width - |s| else 0
  {
    CheckedIsDivisible(s);
    if |s| < width {
      LeadingZero(s, false);
      CheckedIsDivisible("0" + s);
      PaddingKeepsCheck("0" + s, width);
    }
  }

  /** So a GTIN-8, -12, -13 or -14 is accepted exactly on its own check digit. */
  lemma NormalizedOnOwnCheck(value: string)
    ensures Normalized(value).Ok? <==> GtinLength(|value|) && Checked(value)
    ensures Normalized(value).Ok? ==> |Normalized(value).value| == 14 && Normalized(Normalized(value).value) == Normalized(value)
  {
    if GtinLength(|value|) && Digits(value) {
      PaddedDigits(value, 14);
      PaddingKeepsCheck(value, 14);
    }
  }

  /** Whether the digit with that many digits to its right counts three times. */
  function HeavyAt(toTheRight: nat, heavy: bool): bool { if toTheRight % 2 == 0 then heavy else !heavy }

  lemma {:induction false} OneDigit(a: string, c: char, b: string, heavy: bool)
    requires Digits(a) && IsDigit(c) && Digits(b)
    ensures Digits(a + [c] + b)
    ensures Weighted(a + [c] + b, heavy)
            == Weighted(b, heavy) + Times(HeavyAt(|b|, heavy), Value(c)) + Weighted(a, !HeavyAt(|b|, heavy))
  {
    assert Digits(a + [c] + b);
    hide Times;
    if b == "" {
      assert a + [c] + b == a + [c] && (a + [c])[..|a|] == a;
    } else {
      var n := |b| - 1;
      assert (a + [c] + b)[..|a + [c] + b| - 1] == a + [c] + b[..n];
      OneDigit(a, c, b[..n], !heavy);
    }
  }

  lemma OddIsNotEven(n: nat)
    ensures HeavyAt(n + 1, false) == !HeavyAt(n, false)
  {
  }

  lemma FirstDigit(d: char, b: string)
    requires IsDigit(d) && Digits(b)
    ensures Digits([d] + b)
    ensures Weighted([d] + b, false) == Weighted(b, false) + Times(HeavyAt(|b|, false), Value(d))
  {
    assert "" + [d] + b == [d] + b && Digits("");
    OneDigit("", d, b, false);
    assert Weighted("", !HeavyAt(|b|, false)) == 0;
  }

  lemma {:induction false} TwoDigits(a: string, c: char, d: char, b: string)
    requires Digits(a) && IsDigit(c) && IsDigit(d) && Digits(b)
    ensures Digits(a + [c] + ([d] + b))
    ensures var heavy := HeavyAt(|b|, false);
            Weighted(a + [c] + ([d] + b), false)
            == Weighted(b, false) + Times(heavy, Value(d)) + Times(!heavy, Value(c)) + Weighted(a, heavy)
  {
    FirstDigit(d, b);
    hide Weighted, Times, HeavyAt, Digits, Value;
    var tail := [d] + b;
    OneDigit(a, c, tail, false);
    OddIsNotEven(|b|);
    assert |tail| == |b| + 1;
  }

  lemma ChangeMatters(rest: int, heavy: bool, v: int, u: int)
    requires 0 <= v <= 9 && 0 <= u <= 9 && v != u && (rest + Times(heavy, v)) % 10 == 0
    ensures (rest + Times(heavy, u)) % 10 != 0
  {
    var before, diff := rest + Times(heavy, v), Times(heavy, u) - Times(heavy, v);
    assert diff != 0 && diff != 10 && diff != -10 && diff != 20 && diff != -20 && -27 <= diff <= 27;
    assert before == 10 * (before / 10) && rest + Times(heavy, u) == before + diff;
  }

  lemma SwapMatters(rest: int, heavy: bool, v: int, u: int)
    requires 0 <= v <= 9 && 0 <= u <= 9 && v != u && (rest + Times(heavy, v) + Times(!heavy, u)) % 10 == 0
    ensures (rest + Times(heavy, u) + Times(!heavy, v)) % 10 == 0 <==> v - u == 5 || u - v == 5
  {
    var before, after := rest + Times(heavy, v) + Times(!heavy, u), rest + Times(heavy, u) + Times(!heavy, v);
    assert before == 10 * (before / 10);
    assert after == before + 2 * (u - v) || after == before - 2 * (u - v);
    if after % 10 == 0 {
      assert after == 10 * (after / 10);
      assert -1 <= after / 10 - before / 10 <= 1 || u - v == 5 || v - u == 5;
    }
  }

  lemma IsDigitsInside(a: string, c: char, b: string)
    requires Digits(a) && IsDigit(c) && Digits(b)
    ensures Digits(a + [c] + b) && a + [c] + b != ""
  {
  }

  /** Changing any one digit is always noticed. */
  lemma SingleChangeIsCaught(a: string, c: char, d: char, b: string)
    requires Digits(a) && IsDigit(c) && IsDigit(d) && Digits(b) && c != d && Checked(a + [c] + b)
    ensures !Checked(a + [d] + b)
  {
    IsDigitsInside(a, c, b);
    IsDigitsInside(a, d, b);
    assert Value(c) != Value(d);
    hide Checked, Digits, Weighted, Times, HeavyAt, Value;
    OneDigit(a, c, b, false);
    OneDigit(a, d, b, false);
    CheckedIsDivisible(a + [c] + b);
    CheckedIsDivisible(a + [d] + b);
    ChangeMatters(Weighted(b, false) + Weighted(a, !HeavyAt(|b|, false)), HeavyAt(|b|, false), Value(c), Value(d));
  }

  /** Swapping two different neighbours goes unnoticed exactly when they differ by five. */
  lemma SwapIsMissedIffFive(a: string, c: char, d: char, b: string)
    requires Digits(a) && IsDigit(c) && IsDigit(d) && Digits(b) && c != d && Checked(a + [c] + ([d] + b))
    ensures Checked(a + [d] + ([c] + b)) <==> Value(c) - Value(d) == 5 || Value(d) - Value(c) == 5
  {
    assert Value(c) != Value(d);
    hide Checked, Digits, Weighted, Times, HeavyAt, Value;
    TwoDigits(a, c, d, b);
    TwoDigits(a, d, c, b);
    CheckedIsDivisible(a + [c] + ([d] + b));
    CheckedIsDivisible(a + [d] + ([c] + b));
    SwapMatters(Weighted(b, false) + Weighted(a, HeavyAt(|b|, false)), HeavyAt(|b|, false), Value(d), Value(c));
  }

  // ---- UPC-E ----

  const BAD_UPCE := "UPC-E requires an eight-digit decoder result including number system and check digit."

  predicate IsUpce(value: string) { |value| == 8 && Digits(value) && value[0] in "01" }

  /** The ten digits that stand for six. */
  function Body(d: string): (body: string)
    requires |d| == 6
    ensures |body| == 10
  {
    if d[5] in "012" then d[..2] + [d[5]] + "0000" + d[2..5]
    else if d[5] == '3' then d[..3] + "00000" + d[3..5]
    else if d[5] == '4' then d[..4] + "00000" + [d[4]]
    else d[..5] + "0000" + [d[5]]
  }

  function ExpandUpce(value: string): Result<string> {
    if !IsUpce(value) then Err(BAD_UPCE)
    else Normalized([value[0]] + Body(value[1..7]) + [value[7]])
  }

  /** Six digits as a UPC-E printer would choose them: no shorter pattern of zeros applies. */
  predicate Shortest(d: string)
    requires |d| == 6
  {
    if d[5] in "012" then true
    else if d[5] == '3' then d[2] !in "012"
    else if d[5] == '4' then d[3] != '0'
    else d[4] != '0'
  }

  /** The same product code in its shortest form. */
  function Shorten(d: string): (r: string)
    requires |d| == 6 && Digits(d)
    ensures |r| == 6 && Digits(r)
    decreases if d[5] in "012" then 0 else if d[5] == '3' then 1 else if d[5] == '4' then 2 else 3
  {
    if Shortest(d) then d
    else if d[5] == '3' then d[..2] + "0" + d[3..5] + [d[2]]
    else if d[5] == '4' then Shorten(d[..5] + "3")
    else Shorten(d[..4] + [d[5]] + "4")
  }

  lemma BodyDigits(d: string)
    requires |d| == 6
    ensures var b := Body(d);
            b[0] == d[0] && b[1] == d[1] && b[9] == (if d[5] in "012" || d[5] in "34" then d[4] else d[5])
            && b[2] == (if d[5] in "012" then d[5] else d[2])
            && b[3] == (if d[5] in "012" || d[5] == '3' then '0' else d[3])
            && b[4] == (if d[5] in "012" || d[5] in "34" then '0' else d[4])
            && b[5] == '0' && b[6] == '0'
            && b[7] == (if d[5] in "012" then d[2] else '0')
            && b[8] == (if d[5] in "012" || d[5] == '3' then d[3] else '0')
  {
  }

  /** Different six-digit forms can stand for one code, but each code has exactly one shortest form. */
  lemma {:induction false} ShortenKeepsBody(d: string)
    requires |d| == 6 && Digits(d)
    ensures Shortest(Shorten(d)) && Body(Shorten(d)) == Body(d)
    decreases if d[5] in "012" then 0 else if d[5] == '3' then 1 else if d[5] == '4' then 2 else 3
  {
    BodyDigits(d);
    if !Shortest(d) {
      if d[5] == '3' {
        var e := d[..2] + "0" + d[3..5] + [d[2]];
        BodyDigits(e);
        SameBody(d, e);
      } else if d[5] == '4' {
        var e := d[..5] + "3";
        BodyDigits(e);
        SameBody(d, e);
        ShortenKeepsBody(e);
      } else {
        var e := d[..4] + [d[5]] + "4";
        BodyDigits(e);
        SameBody(d, e);
        ShortenKeepsBody(e);
      }
    }
  }

  lemma SameBody(d: string, e: string)
    requires |d| == 6 && |e| == 6
    requires forall i :: 0 <= i < 10 ==> Body(d)[i] == Body(e)[i]
    ensures Body(d) == Body(e)
  {
  }

  lemma ShortestIsUnique(d: string, e: string)
    requires |d| == 6 && |e| == 6 && Digits(d) && Digits(e) && Shortest(d) && Shortest(e) && Body(d) == Body(e)
    ensures d == e
  {
    BodyDigits(d);
    BodyDigits(e);
    assert forall i :: 0 <= i < 6 ==> d[i] == e[i];
  }

  /** Two UPC-E texts give the same GTIN exactly when they agree in system, check digit and shortest form. */
  lemma SameGtinIffSameShortest(x: string, y: string)
    requires ExpandUpce(x).Ok? && ExpandUpce(y).Ok?
    ensures ExpandUpce(x) == ExpandUpce(y) <==> x[0] == y[0] && x[7] == y[7] && Shorten(x[1..7]) == Shorten(y[1..7])
  {
    var d, e := x[1..7], y[1..7];
    ShortenKeepsBody(d);
    ShortenKeepsBody(e);
    var p, q := [x[0]] + Body(d) + [x[7]], [y[0]] + Body(e) + [y[7]];
    assert Padded(p, 14) == "00" + p && Padded(q, 14) == "00" + q by { PadTwelve(p); PadTwelve(q); }
    hide Body, Shorten, Shortest, Padded;
    if ExpandUpce(x) == ExpandUpce(y) {
      assert p == ("00" + p)[2..] == ("00" + q)[2..] == q;
      assert Body(d) == p[1..11] && Body(e) == q[1..11];
      assert x[0] == p[0] && x[7] == p[11] && y[0] == q[0] && y[7] == q[11];
      ShortestIsUnique(Shorten(d), Shorten(e));
    }
  }

  lemma PadTwelve(p: string)
    requires |p| == 12
    ensures Padded(p, 14) == "00" + p
  {
    assert Padded(p, 14) == Padded("0" + p, 14) == Padded("0" + ("0" + p), 14) == "0" + ("0" + p);
    assert "0" + ("0" + p) == "00" + p;
  }
}
