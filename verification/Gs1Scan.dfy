/** From a scanned text to a product: which notation applies, and what its fields must satisfy. */
module Gs1Scan {
  import opened Prelude
  import opened Gtin
  import opened Gs1Elements

  datatype ProductLink = ProductLink(gtin: string, lot: Option<string>, serial: Option<string>, digest: Option<string>,
                                     expiry: Option<string>)

  datatype Mode = Auto | ElementMode | GtinMode | OtherMode

  datatype Symbology = UpcE | Ean8 | Ean13 | UpcA | DataMatrix | Code128 | OtherSymbology

  const ONLY_FOUR := "Only GS1 AIs 01, 10, 17 and 21 are supported."
  const DUPLICATE := "Duplicate GS1 AI is ambiguous."
  const NO_GTIN := "A GS1 product scan requires AI 01 (GTIN)."
  const NOT_FOURTEEN := "AI 01 requires 14 digits."
  const EXPIRY_FORMAT := "Expiry must contain six digits in YYMMDD format."
  const EXPIRY_DATE := "Invalid GS1 expiry month or day."
  const QUALIFIER := "Lot and serial require 1–20 supported GS1 characters; spaces are not trimmed."
  const TOO_LONG := "Barcode payload is too long."
  const BAD_MODE := "Unsupported acquisition mode."
  const BAD_SYMBOLOGY := "Barcode length does not match the decoded symbology."
  const EIGHT_DIGITS :=
    "Eight digits are ambiguous without symbology. Select GTIN mode for GTIN-8; UPC-E requires decoder metadata."
  const SELECT_GS1 :=
    "Select GS1 element-string mode; GS1 metadata is unavailable. Preserve ASCII group separators between variable fields."

  // ---- one field ----

  function Two(s: string): int
    requires |s| == 2 && Digits(s)
  {
    10 * Value(s[0]) + Value(s[1])
  }

  function DaysIn(month: int, year: int): int {
    if month == 2 then (if year % 4 == 0 then 29 else 28)
    else if month == 4 || month == 6 || month == 9 || month == 11 then 30 else 31
  }

  function ExpiryProblem(value: string): Option<string> {
    if !(|value| == 6 && Digits(value)) then Some(EXPIRY_FORMAT)
    else
      var year, month, day := Two(value[..2]), Two(value[2..4]), Two(value[4..]);
      if !(1 <= month <= 12) || day > DaysIn(month, year) then Some(EXPIRY_DATE) else None
  }

  predicate QualifierChar(c: char) {
    'A' <= c <= 'Z' || 'a' <= c <= 'z' || IsDigit(c) || c in "!\"%&'()*+,-./:;<=>?_"
  }

  function QualifierProblem(value: string): Option<string> {
    if 1 <= |value| <= 20 && forall i :: 0 <= i < |value| ==> QualifierChar(value[i]) then None else Some(QUALIFIER)
  }

  function GtinProblem(value: string): Option<string> {
    if |value| != 14 then Some(NOT_FOURTEEN)
    else if Normalized(value).Err? then Some(Normalized(value).message) else None
  }

  /** What is wrong with a field taken by itself. */
  function Problem(e: Element): Option<string> {
    if !(Fixed(e.ai) || Variable(e.ai)) then Some(ONLY_FOUR)
    else if e.ai == "01" then GtinProblem(e.value)
    else if e.ai == "17" then ExpiryProblem(e.value)
    else QualifierProblem(e.value)
  }

  // ---- collecting the fields ----

  function Collected(es: seq<Element>, fields: map<string, string>): Result<map<string, string>> {
    if es == [] then Ok(fields)
    else
      var e := es[0];
      if !(Fixed(e.ai) || Variable(e.ai)) then Err(ONLY_FOUR)
      else if e.ai in fields then Err(DUPLICATE)
      else if Problem(e).Some? then Err(Problem(e).value)
      else Collected(es[1..], fields[e.ai := e.value])
  }

  function Lookup(fields: map<string, string>, ai: string): Option<string> {
    if ai in fields then Some(fields[ai]) else None
  }

  function ProductOf(fields: map<string, string>): Result<ProductLink> {
    if "01" !in fields then Err(NO_GTIN)
    else Ok(ProductLink(fields["01"], Lookup(fields, "10"), Lookup(fields, "21"), None, Lookup(fields, "17")))
  }

  function Product(es: Result<seq<Element>>): Result<ProductLink> {
    if es.Err? then Err(es.message)
    else
      var fields := Collected(es.value, map[]);
      if fields.Err? then Err(fields.message) else ProductOf(fields.value)
  }

  method CollectFields(es: seq<Element>) returns (r: Result<map<string, string>>)
    ensures r == Collected(es, map[])
  {
    hide Problem, Fixed, Variable;
    var fields: map<string, string> := map[];
    assert es[0..] == es;
    for i := 0 to |es|
      invariant Collected(es, map[]) == Collected(es[i..], fields)
    {
      var e := es[i];
      assert es[i..][1..] == es[i + 1..] && es[i..][0] == e;
      if !(Fixed(e.ai) || Variable(e.ai)) { return Err(ONLY_FOUR); }
      if e.ai in fields { return Err(DUPLICATE); }
      if Problem(e).Some? { return Err(Problem(e).value); }
      fields := fields[e.ai := e.value];
    }
    assert es[|es|..] == [];
    r := Ok(fields);
  }

  // ---- the two notations ----

  /** The matches from left to right, with the text between them. */
  method ParseParenthesised(raw: string) returns (r: Result<seq<Element>>)
    ensures r == Parenthesised(raw)
  {
    hide Marked, Cut;
    var lead, es, i := "", [], 0;
    assert raw[0..] == raw;
    SeamNothing(Cut(raw));
    while i < |raw|
      invariant i <= |raw| && Cut(raw) == Seam((lead, es), Cut(raw[i..]))
      decreases |raw| - i
    {
      var s := raw[i..];
      if Marked(s) {
        var n := MarkLength(s);
        CutStep(s, n);
        assert s[n..] == raw[i + n..];
        SeamMark(lead, es, s[1..n - 1], Cut(s[n..]));
        es, i := es + [Element(s[1..n - 1], "")], i + n;
      } else {
        CutStep(s, 1);
        assert s[1..] == raw[i + 1..];
        SeamChar(lead, es, s[0], Cut(s[1..]));
        if es == [] {
          lead := lead + [s[0]];
        } else {
          es := es[..|es| - 1] + [Element(es[|es| - 1].ai, es[|es| - 1].value + [s[0]])];
        }
        i := i + 1;
      }
    }
    CutNothing();
    assert raw[i..] == "";
    assert Seam((lead, es), ("", [])) == (lead, es) by { SeamEnd(lead, es); }
    r := if es == [] || lead != "" then Err(BAD_PARENTHESES) else Ok(es);
  }

  lemma CutNothing()
    ensures Cut("") == ("", [])
  {
  }

  lemma CutStep(s: string, n: nat)
    requires s != "" && n == if Marked(s) then MarkLength(s) else 1
    ensures Cut(s) == CutOne(s, n, Marked(s), Cut(s[n..]))
  {
  }

  lemma SeamNothing(later: (string, seq<Element>))
    ensures Seam(("", []), later) == later
  {
    assert "" + later.0 == later.0;
  }

  lemma SeamEnd(lead: string, es: seq<Element>)
    ensures Seam((lead, es), ("", [])) == (lead, es)
  {
    assert lead + "" == lead;
    if es != [] {
      var last := es[|es| - 1];
      assert last.value + "" == last.value && Element(last.ai, last.value) == last;
      assert es == es[..|es| - 1] + [last] + [];
    }
  }

  lemma SeamMark(lead: string, es: seq<Element>, ai: string, later: (string, seq<Element>))
    ensures Seam((lead, es), ("", [Element(ai, later.0)] + later.1)) == Seam((lead, es + [Element(ai, "")]), later)
  {
    var e := Element(ai, later.0);
    assert "" + later.0 == later.0 && lead + "" == lead && (es + [Element(ai, "")])[..|es|] == es;
    if es != [] {
      var last := es[|es| - 1];
      assert last.value + "" == last.value && Element(last.ai, last.value) == last;
      assert es[..|es| - 1] + [last] == es;
      assert es[..|es| - 1] + [last] + ([e] + later.1) == es + [e] + later.1;
    } else {
      assert es + [e] + later.1 == [e] + later.1;
    }
    assert Seam((lead, es + [Element(ai, "")]), later) == (lead, es + [e] + later.1);
  }

  lemma SeamChar(lead: string, es: seq<Element>, c: char, later: (string, seq<Element>))
    ensures Seam((lead, es), ([c] + later.0, later.1))
            == Seam(if es == [] then (lead + [c], es)
                    else (lead, es[..|es| - 1] + [Element(es[|es| - 1].ai, es[|es| - 1].value + [c])]), later)
  {
    if es == [] {
      assert lead + ([c] + later.0) == lead + [c] + later.0;
    } else {
      var n := |es| - 1;
      var grown := es[..n] + [Element(es[n].ai, es[n].value + [c])];
      assert es[n].value + ([c] + later.0) == es[n].value + [c] + later.0 && grown[..n] == es[..n];
    }
  }

  function Scanned(raw: string): Result<ProductLink> {
    Product(if raw != "" && raw[0] == '(' then Parenthesised(raw) else Elements(raw))
  }

  method ScanElements(raw: string) returns (r: Result<ProductLink>)
    ensures r == Scanned(raw)
  {
    var pairs;
    if raw != "" && raw[0] == '(' { pairs := ParseParenthesised(raw); } else { pairs := ParseElements(raw); }
    if pairs.Err? { return Err(pairs.message); }
    var fields := CollectFields(pairs.value);
    r := if fields.Err? then Err(fields.message) else ProductOf(fields.value);
  }
}
