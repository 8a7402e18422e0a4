/** What the order in which a code is tried guarantees, whoever scanned it and whatever they said about it. */
module Gs1Readings {
  import opened Prelude
  import opened Gtin
  import opened Gs1Elements
  import opened Gs1Scan
  import opened Gs1Acquire

  /** Symbologies that carry a bare GTIN. */
  predicate Retail(symbology: Symbology) { symbology.UpcE? || symbology.Ean8? || symbology.Ean13? || symbology.UpcA? }

  function JustGtin(gtin: string): ProductLink { ProductLink(gtin, None, None, None, None) }

  predicate Accepted(r: Result<Option<ProductLink>>) { r.Ok? && r.value.Some? }

  lemma PlainIs(raw: string)
    ensures Accepted(Plain(Normalized(raw))) <==> GtinLength(|raw|) && Checked(raw)
    ensures Accepted(Plain(Normalized(raw))) ==> Plain(Normalized(raw)).value.value == JustGtin(Padded(raw, 14))
    ensures Checked(raw) ==> Digits(raw)
  {
    NormalizedOnOwnCheck(raw);
    hide Padded;
  }

  // ---- nothing is guessed ----

  /**
   A product with a lot, a serial, an expiry or a digest comes from a link, or from a code that
   was explicitly declared to be a GS1 element string, by the mode or by the scanner's own prefix.
   */
  lemma FieldsNeedMetadata(raw: string, mode: Mode, symbology: Symbology, link: Result<Option<ProductLink>>)
    requires Accepted(Acquired(raw, mode, symbology, link))
    ensures var p := Acquired(raw, mode, symbology, link).value.value;
            p != JustGtin(p.gtin) ==>
              !Retail(symbology) && (link == Ok(Some(p)) || mode.ElementMode? || (mode.Auto? && AimOfGs1(raw)))
  {
    hide Normalized, ExpandUpce, Scanned, LooksLikeElements, AimOfGs1;
  }

  /**
   Without any such declaration a code is a product exactly when it is 12 to 14 digits with their
   own check digit right, and then nothing but its GTIN; eight digits, and whatever looks like an
   element string, are refused.
   */
  lemma NeverGuessed(raw: string, symbology: Symbology)
    requires !Retail(symbology) && !AimOfGs1(raw)
    ensures var r := Acquired(raw, Auto, symbology, Ok(None));
            && (Accepted(r) <==> 12 <= |raw| <= 14 && Checked(raw))
            && (Accepted(r) ==> r.value.value == JustGtin(Padded(raw, 14)))
            && (|raw| == 8 && Digits(raw) ==> r.Err?)
            && (LooksLikeElements(raw, symbology) && !(12 <= |raw| <= 14 && Digits(raw)) ==> r.Err?)
  {
    PlainIs(raw);
    hide Checked, LooksLikeElements, AimOfGs1, Padded, Normalized, Digits, Scanned, ExpandUpce, RequiredLength;
  }

  /** A retail symbology fixes the length, and a code is accepted exactly on its own check digit, as a GTIN. */
  lemma RetailCodesAreGtins(raw: string, mode: Mode, symbology: Symbology, link: Result<Option<ProductLink>>)
    requires Retail(symbology) && !mode.OtherMode?
    ensures var r := Acquired(raw, mode, symbology, link);
            && (!symbology.UpcE? ==>
                  && (Accepted(r) <==> |raw| == RequiredLength(symbology) && Checked(raw))
                  && (Accepted(r) ==> r.value.value == JustGtin(Padded(raw, 14))))
            && (symbology.UpcE? ==> (Accepted(r) <==> |raw| == 8 && IsUpce(raw) && Checked(Expanded(raw))))
            && (symbology.UpcE? && Accepted(r) ==> r.value.value == JustGtin(Padded(Expanded(raw), 14)))
  {
    PlainIs(raw);
    UpceIs(raw);
    hide Checked, Padded, Normalized, ExpandUpce, Expanded, Scanned, LooksLikeElements, AimOfGs1, IsUpce;
  }

  lemma UpceIs(raw: string)
    ensures Accepted(Plain(ExpandUpce(raw))) <==> |raw| == 8 && IsUpce(raw) && Checked(Expanded(raw))
    ensures Accepted(Plain(ExpandUpce(raw))) ==> Plain(ExpandUpce(raw)).value.value == JustGtin(Padded(Expanded(raw), 14))
  {
    if IsUpce(raw) {
      PlainIs(Expanded(raw));
      hide Checked, Padded, Normalized, Body;
    }
  }

  /** The twelve-digit code that a UPC-E symbol stands for. */
  function Expanded(raw: string): (upc: string)
    requires |raw| == 8
    ensures |upc| == 12
  {
    [raw[0]] + Body(raw[1..7]) + [raw[7]]
  }

  // ---- every way to scan one item gives one product ----

  lemma OneZeroMore(upc: string)
    requires |upc| == 12 && Checked(upc)
    ensures Checked("0" + upc) && Checked("00" + upc) && Padded(upc, 14) == "00" + upc
    ensures Padded("0" + upc, 14) == "00" + upc && Padded("00" + upc, 14) == "00" + upc
  {
    PadTwelve(upc);
    PaddingKeepsCheck(upc, 13);
    PaddingKeepsCheck(upc, 14);
    assert Padded(upc, 13) == Padded("0" + upc, 13) == "0" + upc;
    assert Padded("0" + upc, 14) == Padded("0" + ("0" + upc), 14) && "0" + ("0" + upc) == "00" + upc;
    hide Checked;
  }

  /**
   One twelve-digit item: as UPC-A, as EAN-13 with a leading zero, typed in, selected as a GTIN,
   or as the only field of an element string, it is the same product. A UPC-E symbol gives what
   the code it stands for gives.
   */
  lemma OneItemOneProduct(upc: string, mode: Mode, symbology: Symbology, link: Result<Option<ProductLink>>)
    requires |upc| == 12 && Checked(upc) && !mode.OtherMode? && !Retail(symbology)
    ensures var same := Ok(Some(JustGtin("00" + upc)));
            && Acquired(upc, mode, UpcA, link) == same
            && Acquired("0" + upc, mode, Ean13, link) == same
            && Acquired(upc, Auto, symbology, Ok(None)) == same
            && Acquired(upc, GtinMode, symbology, Ok(None)) == same
            && Acquired("0100" + upc, ElementMode, symbology, Ok(None)) == same
  {
    OneZeroMore(upc);
    hide Checked, Padded;
    RetailCodesAreGtins(upc, mode, UpcA, link);
    RetailCodesAreGtins("0" + upc, mode, Ean13, link);
    NotAim(upc, 0);
    NeverGuessed(upc, symbology);
    NormalizedOnOwnCheck(upc);
    GtinField(upc, symbology);
  }

  lemma UpcEIsItsExpansion(raw: string, mode: Mode, link: Result<Option<ProductLink>>)
    requires IsUpce(raw) && !mode.OtherMode?
    ensures Accepted(Acquired(raw, mode, UpcE, link)) <==> Accepted(Acquired(Expanded(raw), mode, UpcA, link))
    ensures Accepted(Acquired(raw, mode, UpcE, link)) ==>
              Acquired(raw, mode, UpcE, link) == Acquired(Expanded(raw), mode, UpcA, link)
  {
    RetailCodesAreGtins(raw, mode, UpcE, link);
    RetailCodesAreGtins(Expanded(raw), mode, UpcA, link);
    hide Acquired, Checked, Expanded, Padded;
  }

  lemma NotAim(raw: string, i: nat)
    requires i < |raw| && (raw == "" || raw[0] != ']')
    ensures !AimOfGs1(raw)
  {
  }

  lemma GtinField(upc: string, symbology: Symbology)
    requires |upc| == 12 && Checked("00" + upc) && !Retail(symbology) && Normalized("00" + upc) == Ok("00" + upc)
    ensures Acquired("0100" + upc, ElementMode, symbology, Ok(None)) == Ok(Some(JustGtin("00" + upc)))
  {
    var e := Element("01", "00" + upc);
    assert Separated([e], [false]);
    assert Problem(e).None?;
    JustOneText(upc);
    ScannedText(false, [e], [false]);
    ProductIff([e]);
    assert Element("01", "00" + upc) in [e];
    NotAim("0100" + upc, 0);
    hide Scanned, Text, Product;
    JustOneField(upc);
  }

  lemma JustOneText(upc: string)
    ensures Text(false, [Element("01", "00" + upc)], [false]) == "0100" + upc
  {
    var es, seps := [Element("01", "00" + upc)], [false];
    assert es[1..] == [] && seps[1..] == [];
    assert Encode(es, seps) == "01" + ("00" + upc) + "" + "" == "0100" + upc;
    assert "" + Encode(es, seps) == Encode(es, seps);
  }

  lemma JustOneField(upc: string)
    requires Product(Ok([Element("01", "00" + upc)])).Ok?
    ensures Product(Ok([Element("01", "00" + upc)])).value == JustGtin("00" + upc)
  {
    var es := [Element("01", "00" + upc)];
    ProductIff(es);
    var p := Product(Ok(es)).value;
    hide Product;
    assert forall v :: Element("10", v) !in es && Element("21", v) !in es && Element("17", v) !in es;
    assert forall v :: p.lot != Some(v) && p.serial != Some(v) && p.expiry != Some(v);
    SomeValue(p.lot);
    SomeValue(p.serial);
    SomeValue(p.expiry);
  }

  lemma SomeValue(x: Option<string>)
    ensures x.Some? ==> exists v :: x == Some(v)
  {
    if x.Some? { assert x == Some(x.value); }
  }

  // ---- element strings ----

  lemma TextIsNotAim(initial: bool, es: seq<Element>, seps: seq<bool>)
    requires es != [] && Separated(es, seps)
    ensures !AimOfGs1(Text(initial, es, seps)) && Text(initial, es, seps) != ""
  {
    var raw := Text(initial, es, seps);
    EncodeStartsWithDigit(es, seps);
    assert Encodable(es[0]);
    assert es[0].ai[0] != ']' && GS != ']';
    assert raw[0] == if initial then GS else es[0].ai[0];
    NotAim(raw, 0);
  }

  /**
   An element string means its fields exactly where it was declared to be one: selected as such,
   or prefixed by the scanner, which come to the same; undeclared, it is never read as a product.
   */
  lemma ElementStringsNeedDeclaring(initial: bool, es: seq<Element>, seps: seq<bool>, symbology: Symbology, aim: string)
    requires es != [] && Separated(es, seps) && !Retail(symbology) && aim in {"]d2", "]C1", "]Q3"}
    requires |Text(initial, es, seps)| <= 2045
    ensures var raw := Text(initial, es, seps);
            var selected, prefixed := Acquired(raw, ElementMode, symbology, Ok(None)), Acquired(aim + raw, Auto, symbology, Ok(None));
            && selected == prefixed == Found(Product(Ok(es)))
            && ((exists v :: Element("01", v) in es) ==> !Accepted(Acquired(raw, Auto, symbology, Ok(None))))
  {
    var raw := Text(initial, es, seps);
    TextIsNotAim(initial, es, seps);
    ScannedText(initial, es, seps);
    assert (aim + raw)[3..] == raw && AimOfGs1(aim + raw);
    NeverGuessed(raw, symbology);
    if v :| Element("01", v) in es {
      GtinIsLong(es, seps, v);
      assert |raw| >= 16;
    }
    hide Scanned, Text, Product, Checked, Separated, AimOfGs1, LooksLikeElements;
  }

  lemma {:induction false} GtinIsLong(es: seq<Element>, seps: seq<bool>, v: string)
    requires Separated(es, seps) && Element("01", v) in es
    ensures |Encode(es, seps)| >= 16
  {
    assert Encodable(es[0]);
    if es[0] != Element("01", v) {
      assert es == [es[0]] + es[1..];
      assert forall i :: 0 <= i < |es| - 1 ==> es[1..][i] == es[i + 1] && seps[1..][i] == seps[i + 1];
      GtinIsLong(es[1..], seps[1..], v);
    }
  }
}
