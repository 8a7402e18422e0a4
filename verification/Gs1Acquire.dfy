/** `acquire_product`: which of the ways to read a code applies, and what an accepted code guarantees. */
module Gs1Acquire {
  import opened Prelude
  import opened Gtin
  import opened Gs1Elements
  import opened Gs1Scan

  predicate StartsWith(s: string, prefix: string) { |prefix| <= |s| && s[..|prefix|] == prefix }

  predicate AimOfGs1(raw: string) { StartsWith(raw, "]d2") || StartsWith(raw, "]C1") || StartsWith(raw, "]Q3") }

  function Plain(gtin: Result<string>): Result<Option<ProductLink>> {
    if gtin.Ok? then Ok(Some(ProductLink(gtin.value, None, None, None, None))) else Err(gtin.message)
  }

  function Found(r: Result<ProductLink>): Result<Option<ProductLink>> {
    if r.Ok? then Ok(Some(r.value)) else Err(r.message)
  }

  predicate LooksLikeElements(raw: string, symbology: Symbology) {
    || symbology.DataMatrix? || symbology.Code128? || GS in raw || StartsWith(raw, "(01)")
    || (Digits(raw) && StartsWith(raw, "01"))
  }

  function RequiredLength(symbology: Symbology): nat {
    match symbology
    case Ean8 => 8
    case Ean13 => 13
    case _ => 12
  }

  /** `link` is what reading the code as a GS1 Digital Link yields: a product, nothing, or a refusal. */
  function Acquired(raw: string, mode: Mode, symbology: Symbology, link: Result<Option<ProductLink>>): Result<Option<ProductLink>> {
    if |raw| > 2048 then Err(TOO_LONG)
    else if mode.OtherMode? then Err(BAD_MODE)
    else if symbology.UpcE? then Plain(ExpandUpce(raw))
    else if symbology.Ean8? || symbology.Ean13? || symbology.UpcA? then
      if |raw| != RequiredLength(symbology) then Err(BAD_SYMBOLOGY) else Plain(Normalized(raw))
    else if link.Err? || link.value.Some? then link
    else if mode.GtinMode? then Plain(Normalized(raw))
    else if AimOfGs1(raw) then Found(Scanned(raw[3..]))
    else if mode.ElementMode? then Found(Scanned(raw))
    else if 12 <= |raw| <= 14 && Digits(raw) then Plain(Normalized(raw))
    else if |raw| == 8 && Digits(raw) then Err(EIGHT_DIGITS)
    else if LooksLikeElements(raw, symbology) then Err(SELECT_GS1)
    else Ok(None)
  }

  method AcquireProduct(raw: string, mode: Mode, symbology: Symbology, link: Result<Option<ProductLink>>)
    returns (r: Result<Option<ProductLink>>)
    ensures r == Acquired(raw, mode, symbology, link)
  {
    hide Scanned, Normalized, ExpandUpce, LooksLikeElements, AimOfGs1;
    if |raw| > 2048 { return Err(TOO_LONG); }
    if mode.OtherMode? { return Err(BAD_MODE); }
    if symbology.UpcE? { return Plain(ExpandUpce(raw)); }
    if symbology.Ean8? || symbology.Ean13? || symbology.UpcA? {
      if |raw| != RequiredLength(symbology) { return Err(BAD_SYMBOLOGY); }
      var gtin := NormalizeGtin(raw);
      return Plain(gtin);
    }
    if link.Err? || link.value.Some? { return link; }
    if mode.GtinMode? {
      var gtin := NormalizeGtin(raw);
      return Plain(gtin);
    }
    var text, elements := raw, mode.ElementMode?;
    if AimOfGs1(raw) {
      AimIsThree(raw);
      text, elements := raw[3..], true;
    }
    if !elements {
      if 12 <= |raw| <= 14 && Digits(raw) {
        var gtin := NormalizeGtin(raw);
        return Plain(gtin);
      }
      if |raw| == 8 && Digits(raw) { return Err(EIGHT_DIGITS); }
      if LooksLikeElements(raw, symbology) { return Err(SELECT_GS1); }
      return Ok(None);
    }
    var product := ScanElements(text);
    r := Found(product);
  }

  lemma AimIsThree(raw: string)
    requires AimOfGs1(raw)
    ensures |raw| >= 3
  {
  }

  // ---- what collecting fields amounts to ----

  predicate DistinctAis(es: seq<Element>) { forall i, j :: 0 <= i < j < |es| ==> es[i].ai != es[j].ai }

  predicate AllSound(es: seq<Element>) { forall i :: 0 <= i < |es| ==> Problem(es[i]).None? }

  predicate Disjoint(es: seq<Element>, fields: map<string, string>) { forall i :: 0 <= i < |es| ==> es[i].ai !in fields }

  /** The table holds what was there and what the fields say. */
  predicate Holds(m: map<string, string>, fields: map<string, string>, es: seq<Element>, ai: string, value: string) {
    ai in m && m[ai] == value <==> (ai in fields && fields[ai] == value) || Element(ai, value) in es
  }

  /** Fields are accepted exactly when each is sound and none occurs twice; each then has its own value. */
  lemma {:induction false} CollectedIff(es: seq<Element>, fields: map<string, string>)
    ensures Collected(es, fields).Ok? <==> AllSound(es) && DistinctAis(es) && Disjoint(es, fields)
    ensures Collected(es, fields).Ok? ==> forall ai, value :: Holds(Collected(es, fields).value, fields, es, ai, value)
    decreases |es|
  {
    hide Problem, Fixed, Variable;
    if es != [] {
      var e := es[0];
      SoundIsSupported(e);
      assert es == [e] + es[1..];
      if (Fixed(e.ai) || Variable(e.ai)) && e.ai !in fields && Problem(e).None? {
        var more := fields[e.ai := e.value];
        CollectedIff(es[1..], more);
        CollectedTail(es, e, fields);
        if Collected(es, fields).Ok? {
          forall ai, value
            ensures Holds(Collected(es, fields).value, fields, es, ai, value)
          {
            assert Holds(Collected(es[1..], more).value, more, es[1..], ai, value);
            assert Element(ai, value) in es <==> Element(ai, value) == e || Element(ai, value) in es[1..];
          }
        }
      }
    }
  }

  lemma CollectedTail(es: seq<Element>, e: Element, fields: map<string, string>)
    requires es != [] && es[0] == e && Problem(e).None? && e.ai !in fields
    ensures AllSound(es) <==> AllSound(es[1..])
    ensures DistinctAis(es) && Disjoint(es, fields) <==> DistinctAis(es[1..]) && Disjoint(es[1..], fields[e.ai := e.value])
  {
    hide Problem;
    assert forall i :: 0 <= i < |es| - 1 ==> es[1..][i] == es[i + 1];
    assert forall i :: 0 < i < |es| ==> es[i] == es[1..][i - 1];
  }

  lemma SoundIsSupported(e: Element)
    ensures Problem(e).None? ==> Fixed(e.ai) || Variable(e.ai)
  {
  }

  lemma LookupIs(m: map<string, string>, es: seq<Element>, ai: string)
    requires forall a, value :: Holds(m, map[], es, a, value)
    ensures forall v :: Lookup(m, ai) == Some(v) <==> Element(ai, v) in es
    ensures ai in m <==> exists v :: Element(ai, v) in es
  {
    forall v
      ensures Lookup(m, ai) == Some(v) <==> Element(ai, v) in es
    {
      assert Holds(m, map[], es, ai, v);
    }
    if ai in m {
      assert Holds(m, map[], es, ai, m[ai]);
      assert Element(ai, m[ai]) in es;
    }
  }

  lemma LookupPresent(m: map<string, string>, ai: string)
    ensures ai in m ==> Lookup(m, ai) == Some(m[ai])
  {
  }

  /** A list of fields makes a product exactly when all are sound, none repeats, and the GTIN is among them. */
  lemma ProductIff(es: seq<Element>)
    ensures Product(Ok(es)).Ok? <==> AllSound(es) && DistinctAis(es) && exists v :: Element("01", v) in es
    ensures Product(Ok(es)).Ok? ==>
              var p := Product(Ok(es)).value;
              && Element("01", p.gtin) in es && p.digest.None?
              && (forall v :: p.lot == Some(v) <==> Element("10", v) in es)
              && (forall v :: p.serial == Some(v) <==> Element("21", v) in es)
              && (forall v :: p.expiry == Some(v) <==> Element("17", v) in es)
  {
    var none: map<string, string> := map[];
    CollectedIff(es, none);
    hide Collected, AllSound, DistinctAis;
    assert Disjoint(es, none);
    if Collected(es, none).Ok? {
      var m := Collected(es, none).value;
      LookupIs(m, es, "01");
      LookupIs(m, es, "10");
      LookupIs(m, es, "17");
      LookupIs(m, es, "21");
      hide Lookup;
      LookupPresent(m, "01");
    }
  }

  /** The same fields in another order make the same product, or are refused too. */
  lemma SameFieldsSameProduct(es: seq<Element>, fs: seq<Element>)
    requires DistinctAis(es) && DistinctAis(fs) && forall e :: e in es <==> e in fs
    ensures Product(Ok(es)).Ok? <==> Product(Ok(fs)).Ok?
    ensures Product(Ok(es)).Ok? ==> Product(Ok(es)) == Product(Ok(fs))
  {
    ProductIff(es);
    ProductIff(fs);
    hide Product, DistinctAis;
    if AllSound(es) { SoundTogether(es, fs); }
    if AllSound(fs) { SoundTogether(fs, es); }
    hide AllSound, Problem;
    assert forall v :: Element("01", v) in es <==> Element("01", v) in fs;
    if Product(Ok(es)).Ok? {
      var p, q := Product(Ok(es)).value, Product(Ok(fs)).value;
      assert p.gtin == q.gtin by { OneValue(es, "01", p.gtin, q.gtin); }
      SameOption(p.lot, q.lot);
      SameOption(p.serial, q.serial);
      SameOption(p.expiry, q.expiry);
    }
  }

  lemma SoundTogether(es: seq<Element>, fs: seq<Element>)
    requires AllSound(es) && forall e :: e in fs ==> e in es
    ensures AllSound(fs)
  {
    hide Problem;
    forall i | 0 <= i < |fs|
      ensures Problem(fs[i]).None?
    {
      assert fs[i] in es;
    }
  }

  lemma OneValue(es: seq<Element>, ai: string, v: string, w: string)
    requires DistinctAis(es) && Element(ai, v) in es && Element(ai, w) in es
    ensures v == w
  {
  }

  lemma SameOption(x: Option<string>, y: Option<string>)
    requires forall v :: x == Some(v) <==> y == Some(v)
    ensures x == y
  {
    if x.Some? { assert y == Some(x.value); }
    if y.Some? { assert x == Some(y.value); }
  }

  // ---- main results ----

  /** An element string, with or without the initial separator. */
  function Text(initial: bool, es: seq<Element>, seps: seq<bool>): string
    requires |es| == |seps|
  {
    (if initial then [GS] else "") + Encode(es, seps)
  }

  lemma ScannedText(initial: bool, es: seq<Element>, seps: seq<bool>)
    requires es != [] && Separated(es, seps)
    ensures Scanned(Text(initial, es, seps)) == Product(Ok(es))
  {
    var raw := Text(initial, es, seps);
    EncodeStartsWithDigit(es, seps);
    assert Encode(es, seps)[0] == es[0].ai[0];
    AiStartsWithDigit(es[0]);
    assert initial ==> raw == [GS] + Encode(es, seps);
    assert !initial ==> raw == Encode(es, seps) by { assert "" + Encode(es, seps) == Encode(es, seps); }
    hide Encode, Product, Elements, Parenthesised, Text, Separated;
    assert raw[0] != '(';
    assert Elements(raw) == Ok(es) by { ElementsIffEncoded(raw, es); }
  }

  lemma AiStartsWithDigit(e: Element)
    requires Encodable(e)
    ensures |e.ai| == 2 && e.ai[0] != '(' && e.ai[0] != GS
  {
  }

  /**
   The order of the fields, the optional separators and the initial one do not matter: all
   spellings of the same distinct fields are read as the same product, or all are refused.
   */
  lemma AllSpellingsAgree(initial: bool, es: seq<Element>, seps: seq<bool>, initial2: bool, fs: seq<Element>, seps2: seq<bool>)
    requires es != [] && fs != [] && Separated(es, seps) && Separated(fs, seps2)
    requires DistinctAis(es) && DistinctAis(fs) && forall e :: e in es <==> e in fs
    ensures var a, b := Scanned(Text(initial, es, seps)), Scanned(Text(initial2, fs, seps2));
            (a.Ok? <==> b.Ok?) && (a.Ok? ==> a == b)
    ensures Scanned(Text(initial, es, seps)).Ok? <==> AllSound(es) && exists v :: Element("01", v) in es
  {
    ScannedText(initial, es, seps);
    ScannedText(initial2, fs, seps2);
    hide Scanned, Text, Separated, DistinctAis;
    SameFieldsSameProduct(es, fs);
    ProductIff(es);
  }

  /** The parenthesised spelling agrees too, as long as no value looks like another field. */
  lemma ParenthesesAgree(initial: bool, es: seq<Element>, seps: seq<bool>)
    requires es != [] && Separated(es, seps) && forall i :: 0 <= i < |es| ==> !ContainsMark(es[i].value)
    ensures Scanned(Render(es)) == Scanned(Text(initial, es, seps))
  {
    hide *;
    ScannedText(initial, es, seps);
    AisAreIdentifiers(es, seps);
    ParenthesisedRoundTripIff(es);
    RenderedIsParenthesised(es);
  }

  lemma RenderedIsParenthesised(es: seq<Element>)
    requires es != []
    ensures Scanned(Render(es)) == Product(Parenthesised(Render(es)))
  {
    assert Render(es) != "" && Render(es)[0] == '(';
    hide Render, Product, Parenthesised;
  }

  lemma AisAreIdentifiers(es: seq<Element>, seps: seq<bool>)
    requires Separated(es, seps)
    ensures forall i :: 0 <= i < |es| ==> IsIdentifier(es[i].ai)
  {
    forall i | 0 <= i < |es|
      ensures IsIdentifier(es[i].ai)
    {
      assert Encodable(es[i]);
    }
  }

  lemma ProductIsCanonical(es: Result<seq<Element>>)
    requires Product(es).Ok?
    ensures Normalized(Product(es).value.gtin) == Ok(Product(es).value.gtin)
  {
    ProductIff(es.value);
    var gtin := Product(es).value.gtin;
    assert es == Ok(es.value) && Element("01", gtin) in es.value;
    hide Product;
    var i :| 0 <= i < |es.value| && es.value[i] == Element("01", gtin);
    assert Problem(es.value[i]).None?;
    assert GtinProblem(gtin).None?;
  }

  lemma PaddedFourteen(value: string)
    requires Normalized(value).Ok?
    ensures Normalized(Normalized(value).value) == Normalized(value)
  {
    NormalizedOnOwnCheck(value);
  }

  /** However a code was read, an accepted product's GTIN is 14 digits with a correct check digit. */
  lemma AcquiredGtinIsCanonical(raw: string, mode: Mode, symbology: Symbology, link: Result<Option<ProductLink>>)
    requires link.Ok? && link.value.Some? ==> Normalized(link.value.value.gtin) == Ok(link.value.value.gtin)
    requires Acquired(raw, mode, symbology, link).Ok? && Acquired(raw, mode, symbology, link).value.Some?
    ensures var gtin := Acquired(raw, mode, symbology, link).value.value.gtin; Normalized(gtin) == Ok(gtin)
  {
    hide Normalized, Product, LooksLikeElements, AimOfGs1;
    if symbology.UpcE? {
      if IsUpce(raw) { PaddedFourteen([raw[0]] + Body(raw[1..7]) + [raw[7]]); }
    } else if AimOfGs1(raw) {
      AimIsThree(raw);
    }
    if Normalized(raw).Ok? { PaddedFourteen(raw); }
    forall es | Product(es).Ok?
      ensures Normalized(Product(es).value.gtin) == Ok(Product(es).value.gtin)
    {
      ProductIsCanonical(es);
    }
  }
}
