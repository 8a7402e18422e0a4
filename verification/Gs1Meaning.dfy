/** The rules behind a scan, spelled out: which fields there are, what each may hold, and when a code is left alone. */
module Gs1Meaning {
  import opened Prelude
  import opened Gtin
  import opened Gs1Elements
  import opened Gs1Scan
  import opened Gs1Acquire
  import opened Gs1Readings

  // ---- the fields ----

  /** Fourteen characters of GTIN, six of expiry, and lots and serials up to the next separator. */
  lemma EncodableMeans(e: Element)
    ensures Encodable(e) <==> || (e.ai == "01" && |e.value| == 14) || (e.ai == "17" && |e.value| == 6)
                              || ((e.ai == "10" || e.ai == "21") && forall i :: 0 <= i < |e.value| ==> e.value[i] as int != 29)
  {
    assert GS as int == 29;
    assert "01" != "17" && "10" != "01" && "10" != "17" && "21" != "01" && "21" != "17" by { Identifiers(); }
  }

  lemma Identifiers()
    ensures "01" != "17" && "10" != "01" && "10" != "17" && "21" != "01" && "21" != "17" && "10" != "21"
  {
    assert "01"[0] == '0' && "17"[0] == '1' && "17"[1] == '7' && "10"[0] == '1' && "10"[1] == '0' && "21"[0] == '2';
  }

  /** Between two fields a separator is needed exactly after a lot or a serial. */
  lemma SeparatedMeans(es: seq<Element>, seps: seq<bool>)
    ensures Separated(es, seps) <==>
            && |es| == |seps| && (forall i :: 0 <= i < |es| ==> Encodable(es[i]))
            && forall i :: 0 <= i < |es| - 1 && (es[i].ai == "10" || es[i].ai == "21") ==> seps[i]
  {
    hide Encodable;
  }

  function Number(s: string, i: nat): int
    requires i + 1 < |s|
  {
    10 * (s[i] as int - '0' as int) + (s[i + 1] as int - '0' as int)
  }

  /** Six digits, year, month and day, of a day that the month has; day zero stands for the whole month. */
  predicate IsExpiry(v: string) {
    && |v| == 6 && (forall c :: c in v ==> '0' <= c <= '9')
    && var year, month, day := Number(v, 0), Number(v, 2), Number(v, 4);
       && 1 <= month <= 12 && day <= 31
       && (month in {4, 6, 9, 11} ==> day <= 30)
       && (month == 2 ==> day <= 29 && (day == 29 ==> year % 4 == 0))
  }

  lemma ExpiryMeans(v: string)
    ensures ExpiryProblem(v).None? <==> IsExpiry(v)
    ensures ExpiryProblem(v) == Some(EXPIRY_FORMAT) <==> |v| != 6 || exists c :: c in v && !('0' <= c <= '9')
    ensures ExpiryProblem(v).Some? ==> ExpiryProblem(v).value == EXPIRY_FORMAT || ExpiryProblem(v).value == EXPIRY_DATE
  {
    DigitsMean(v);
    assert |EXPIRY_FORMAT| != |EXPIRY_DATE|;
    if |v| == 6 && Digits(v) {
      assert Digits(v[..2]) && Digits(v[2..4]) && Digits(v[4..]);
      assert Two(v[..2]) == Number(v, 0) && Two(v[2..4]) == Number(v, 2) && Two(v[4..]) == Number(v, 4);
    }
    hide Digits, Two, Number;
  }

  /** The characters of a lot or a serial: letters, digits and these marks, but no space. */
  predicate MayQualify(c: char) {
    'A' <= c <= 'Z' || 'a' <= c <= 'z' || '0' <= c <= '9' || c in "!\"%&'()*+,-./:;<=>?_"
  }

  /** What a field must be to be accepted by itself. */
  lemma ProblemMeans(e: Element)
    ensures Problem(e).None? <==>
            || (e.ai == "01" && |e.value| == 14 && Checked(e.value))
            || (e.ai == "17" && IsExpiry(e.value))
            || ((e.ai == "10" || e.ai == "21") && 1 <= |e.value| <= 20 && forall c :: c in e.value ==> MayQualify(c))
    ensures e.ai !in {"01", "10", "17", "21"} ==> Problem(e) == Some(ONLY_FOUR)
  {
    Identifiers();
    ExpiryMeans(e.value);
    NormalizedOnOwnCheck(e.value);
    QualifierMeans(e.value);
    hide Normalized, Checked, ExpiryProblem, QualifierProblem, IsExpiry;
  }

  lemma QualifierMeans(v: string)
    ensures QualifierProblem(v).None? <==> 1 <= |v| <= 20 && forall c :: c in v ==> MayQualify(c)
  {
    assert forall c :: QualifierChar(c) <==> MayQualify(c);
    hide QualifierChar, MayQualify;
    if forall c :: c in v ==> MayQualify(c) {
      assert forall i :: 0 <= i < |v| ==> v[i] in v;
    }
  }

  predicate Supports(ai: string) { ai in {"01", "10", "17", "21"} }

  /** The n-th field has the identifier of one before it. */
  predicate Repeats(es: seq<Element>, n: int)
    requires 0 <= n < |es|
  {
    exists j :: 0 <= j < n && es[j].ai == es[n].ai
  }

  /** What is wrong with the n-th field: its identifier, or that it repeats one, or its value. */
  function Fault(es: seq<Element>, n: int, taken: bool): Option<string>
    requires 0 <= n < |es|
  {
    if !Supports(es[n].ai) then Some(ONLY_FOUR) else if taken then Some(DUPLICATE) else Problem(es[n])
  }

  lemma SupportsMeans(e: Element)
    ensures Supports(e.ai) <==> Fixed(e.ai) || Variable(e.ai)
    ensures !Supports(e.ai) ==> Problem(e).Some?
  {
  }

  /** The first field at fault decides what is said. */
  lemma {:induction false} FirstFaultDecides(es: seq<Element>, n: nat)
    requires n <= |es| && AllSound(es[..n]) && DistinctAis(es[..n])
    ensures Collected(es, map[]).Err? ==>
              exists i :: n <= i < |es| && Fault(es, i, Repeats(es, i)) == Some(Collected(es, map[]).message)
    decreases |es| - n
  {
    hide Problem, Supports;
    var none: map<string, string> := map[];
    if n == |es| {
      assert es[..n] == es;
      CollectedIff(es, none);
    } else if Fault(es, n, Repeats(es, n)).None? {
      assert es[..n + 1] == es[..n] + [es[n]];
      FirstFaultDecides(es, n + 1);
    } else {
      Refused(es, n, none);
    }
  }

  predicate Taken(es: seq<Element>, n: int, fields: map<string, string>)
    requires 0 <= n < |es|
  {
    es[n].ai in fields || Repeats(es, n)
  }

  lemma TakenTail(es: seq<Element>, n: nat, fields: map<string, string>)
    requires 0 < n < |es|
    ensures Taken(es, n, fields) <==> Taken(es[1..], n - 1, fields[es[0].ai := es[0].value])
  {
    var rest := es[1..];
    assert forall j :: 0 <= j < n ==> rest[j] == es[j + 1];
    if Repeats(es, n) {
      var j :| 0 <= j < n && es[j].ai == es[n].ai;
      if j > 0 { assert rest[j - 1].ai == rest[n - 1].ai; }
    }
  }

  lemma CollectedStep(es: seq<Element>, fields: map<string, string>)
    requires es != []
    ensures Fault(es, 0, es[0].ai in fields).Some? ==> Collected(es, fields) == Err(Fault(es, 0, es[0].ai in fields).value)
    ensures Problem(es[0]).None? && es[0].ai !in fields ==> Collected(es, fields) == Collected(es[1..], fields[es[0].ai := es[0].value])
  {
    hide Problem;
    SupportsMeans(es[0]);
    hide Supports, Fixed, Variable;
  }

  lemma {:induction false} Refused(es: seq<Element>, n: nat, fields: map<string, string>)
    requires n < |es| && AllSound(es[..n]) && DistinctAis(es[..n]) && Disjoint(es[..n], fields)
    requires Fault(es, n, Taken(es, n, fields)).Some?
    ensures Collected(es, fields) == Err(Fault(es, n, Taken(es, n, fields)).value)
    decreases n
  {
    hide Problem, Supports, Taken, Collected;
    CollectedStep(es, fields);
    if n > 0 {
      var e, rest := es[0], es[1..];
      assert es[..n][0] == e;
      assert rest[..n - 1] == es[..n][1..];
      CollectedTail(es[..n], e, fields);
      TakenTail(es, n, fields);
      assert rest[n - 1] == es[n];
      Refused(rest, n - 1, fields[e.ai := e.value]);
    } else {
      NothingBefore(es, fields);
    }
  }

  lemma NothingBefore(es: seq<Element>, fields: map<string, string>)
    requires es != []
    ensures Taken(es, 0, fields) <==> es[0].ai in fields
  {
  }

  // ---- the parenthesised notation ----

  /** The string starts with a number of n digits in parentheses. */
  predicate NumberInParentheses(s: string, n: nat) {
    |s| >= n + 2 && s[0] == '(' && s[n + 1] == ')' && forall i :: 1 <= i <= n ==> '0' <= s[i] <= '9'
  }

  lemma {:induction false} DigitRunMeans(s: string)
    ensures forall i :: 0 <= i < DigitRun(s) ==> '0' <= s[i] <= '9'
    ensures DigitRun(s) < |s| ==> !('0' <= s[DigitRun(s)] <= '9')
  {
    if s != "" && IsDigit(s[0]) { DigitRunMeans(s[1..]); }
  }

  /** An identifier is a number of two to four digits in parentheses. */
  lemma MarkedMeans(s: string)
    ensures Marked(s) <==> NumberInParentheses(s, 2) || NumberInParentheses(s, 3) || NumberInParentheses(s, 4)
    ensures Marked(s) ==> NumberInParentheses(s, MarkLength(s) - 2)
  {
    if s != "" && s[0] == '(' {
      DigitRunMeans(s[1..]);
      var n := DigitRun(s[1..]);
      assert forall i :: 1 <= i <= n ==> s[i] == s[1..][i - 1];
      assert n + 1 < |s| ==> s[n + 1] == s[1..][n];
      forall k: nat | NumberInParentheses(s, k)
        ensures k == n
      {
      }
    }
  }

  // ---- which way a code is read ----

  /** The prefixes by which a scanner declares an element string. */
  predicate Declared(raw: string) { |raw| >= 3 && raw[0] == ']' && (raw[1..3] == "d2" || raw[1..3] == "C1" || raw[1..3] == "Q3") }

  lemma AimMeans(raw: string)
    ensures AimOfGs1(raw) <==> Declared(raw)
  {
    if |raw| >= 3 {
      assert raw[..3] == [raw[0]] + raw[1..3];
      assert "]d2" == [']'] + "d2" && "]C1" == [']'] + "C1" && "]Q3" == [']'] + "Q3";
      assert raw[1..3] == raw[..3][1..] && "d2" == "]d2"[1..] && "C1" == "]C1"[1..] && "Q3" == "]Q3"[1..];
    }
  }

  /** A code nobody declared is left alone exactly when it is neither digits of a GTIN's length nor anything like an element string. */
  lemma LeftAloneIff(raw: string, symbology: Symbology)
    requires !Retail(symbology) && !Declared(raw)
    ensures Acquired(raw, Auto, symbology, Ok(None)) == Ok(None) <==>
            && |raw| <= 2048 && !symbology.DataMatrix? && !symbology.Code128?
            && (forall i :: 0 <= i < |raw| ==> raw[i] as int != 29)
            && !(4 <= |raw| && raw[..4] == "(01)")
            && !((forall c :: c in raw ==> '0' <= c <= '9')
                 && ((2 <= |raw| && raw[..2] == "01") || |raw| in {8, 12, 13, 14}))
  {
    AimMeans(raw);
    DigitsMean(raw);
    assert (forall i :: 0 <= i < |raw| ==> raw[i] as int != 29) <==> GS !in raw;
    assert |raw| in {8, 12, 13, 14} <==> |raw| == 8 || 12 <= |raw| <= 14;
    assert StartsWith(raw, "(01)") <==> 4 <= |raw| && raw[..4] == "(01)";
    assert StartsWith(raw, "01") <==> 2 <= |raw| && raw[..2] == "01";
    hide AimOfGs1, Digits, Normalized, Scanned, ExpandUpce, StartsWith;
  }

  /** What comes first: the length of the text, the mode, the retail symbologies, a link, the chosen mode, the prefix. */
  lemma OrderOfReading(raw: string, mode: Mode, symbology: Symbology, link: Result<Option<ProductLink>>)
    ensures var r := Acquired(raw, mode, symbology, link);
            if |raw| > 2048 then r == Err("Barcode payload is too long.")
            else if mode == OtherMode then r == Err("Unsupported acquisition mode.")
            else if (symbology == Ean8 && |raw| != 8) || (symbology == Ean13 && |raw| != 13) || (symbology == UpcA && |raw| != 12) then
              r == Err("Barcode length does not match the decoded symbology.")
            else if symbology == Ean8 || symbology == Ean13 || symbology == UpcA then r == Plain(Normalized(raw))
            else if symbology == UpcE then r == Plain(ExpandUpce(raw))
            else if link != Ok(None) then r == link
            else if mode == GtinMode then r == Plain(Normalized(raw))
            else if Declared(raw) then r == Found(Scanned(raw[3..]))
            else if mode == ElementMode then r == Found(Scanned(raw))
            else true
  {
    AimMeans(raw);
    hide AimOfGs1, Normalized, Scanned, ExpandUpce, LooksLikeElements, Declared;
  }
}
