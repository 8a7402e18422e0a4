/** GS1 element strings with group separators, and the parenthesised notation for people. */
module Gs1Elements {
  import opened Prelude
  import opened Gtin

  const GS: char := 29 as char

  /** An application identifier with its value. */
  datatype Element = Element(ai: string, value: string)

  const TRUNCATED := "Truncated fixed-length GS1 field."
  const BAD_AI := "Unsupported GS1 AI or missing variable-field separator."
  const TRAILING := "Trailing GS1 separator has no following field."
  const BAD_PARENTHESES := "Malformed parenthesized GS1 notation."

  predicate Fixed(ai: string) { ai == "01" || ai == "17" }

  predicate Variable(ai: string) { ai == "10" || ai == "21" }

  function FixedSize(ai: string): nat { if ai == "01" then 14 else 6 }

  /** Where a variable-length value ends: at the next separator or at the end. */
  function UpTo(s: string): (n: nat)
    ensures n <= |s|
  {
    if s == "" || s[0] == GS then 0 else 1 + UpTo(s[1..])
  }

  function Before(e: Element, later: Result<seq<Element>>): Result<seq<Element>> {
    if later.Ok? then Ok([e] + later.value) else later
  }

  /** What an element string says, field by field. */
  function Read(s: string): Result<seq<Element>>
    decreases |s|, 0
  {
    if s == "" then Ok([])
    else
      var ai, rest := s[..Min(2, |s|)], s[Min(2, |s|)..];
      if Fixed(ai) then
        if |rest| < FixedSize(ai) then Err(TRUNCATED)
        else Continue(Element(ai, rest[..FixedSize(ai)]), rest[FixedSize(ai)..])
      else if Variable(ai) then Continue(Element(ai, rest[..UpTo(rest)]), rest[UpTo(rest)..])
      else Err(BAD_AI)
  }

  /** After a field: at most one separator, which something must follow. */
  function Continue(e: Element, rest: string): Result<seq<Element>>
    decreases |rest|, 1
  {
    if rest != "" && rest[0] == GS then
      if |rest| == 1 then Err(TRAILING) else Before(e, Read(rest[1..]))
    else Before(e, Read(rest))
  }

  /** An initial separator stands for FNC1 and is skipped. */
  function Elements(raw: string): Result<seq<Element>> {
    Read(if raw != "" && raw[0] == GS then raw[1..] else raw)
  }

  // ---- the cursor loop ----

  /** `raw.find(GS, cursor)`, with the end of the string for "not found". */
  method Find(raw: string, cursor: nat) returns (end: nat)
    requires cursor <= |raw|
    ensures cursor <= end <= |raw| && end == cursor + UpTo(raw[cursor..])
  {
    end := cursor;
    while end < |raw| && raw[end] != GS
      invariant cursor <= end <= |raw| && cursor + UpTo(raw[cursor..]) == end + UpTo(raw[end..])
    {
      assert raw[end..][1..] == raw[end + 1..];
      end := end + 1;
    }
  }

  /** Fields read so far, in front of what is still to be read. */
  function Joined(pairs: seq<Element>, later: Result<seq<Element>>): Result<seq<Element>> {
    if later.Ok? then Ok(pairs + later.value) else later
  }

  lemma JoinedOne(pairs: seq<Element>, e: Element, later: Result<seq<Element>>)
    ensures Joined(pairs, Before(e, later)) == Joined(pairs + [e], later)
  {
    if later.Ok? { assert pairs + ([e] + later.value) == pairs + [e] + later.value; }
  }

  lemma JoinedNone(later: Result<seq<Element>>)
    ensures Joined([], later) == later
  {
    if later.Ok? { assert [] + later.value == later.value; }
  }

  /** A field by its first two characters and what follows them. */
  lemma ReadOf(s: string, ai: string, rest: string)
    requires s != "" && ai == s[..Min(2, |s|)] && rest == s[Min(2, |s|)..]
    ensures Fixed(ai) && |rest| < FixedSize(ai) ==> Read(s) == Err(TRUNCATED)
    ensures Fixed(ai) && |rest| >= FixedSize(ai) ==>
              Read(s) == Continue(Element(ai, rest[..FixedSize(ai)]), rest[FixedSize(ai)..])
    ensures !Fixed(ai) && Variable(ai) ==> Read(s) == Continue(Element(ai, rest[..UpTo(rest)]), rest[UpTo(rest)..])
    ensures !Fixed(ai) && !Variable(ai) ==> Read(s) == Err(BAD_AI)
  {
    hide Fixed, Variable, FixedSize, Continue, UpTo;
  }

  /** One field at the cursor: the field and where it ends, or why there is none. */
  method ReadField(raw: string, cursor: nat) returns (r: Result<(Element, nat)>)
    requires cursor < |raw|
    ensures r.Err? ==> Read(raw[cursor..]) == Err(r.message)
    ensures r.Ok? ==> cursor < r.value.1 <= |raw| && Read(raw[cursor..]) == Continue(r.value.0, raw[r.value.1..])
  {
    hide Read, Fixed, Variable, FixedSize, Continue, UpTo;
    ghost var s := raw[cursor..];
    var start := Min(cursor + 2, |raw|);
    var ai := raw[cursor..start];
    assert ai == s[..Min(2, |s|)] && s[Min(2, |s|)..] == raw[start..];
    ReadOf(s, ai, raw[start..]);
    if Fixed(ai) {
      if |raw| - start < FixedSize(ai) { return Err(TRUNCATED); }
      Slices(raw, start, start + FixedSize(ai));
      return Ok((Element(ai, raw[start..start + FixedSize(ai)]), start + FixedSize(ai)));
    }
    if Variable(ai) {
      var end := Find(raw, start);
      Slices(raw, start, end);
      return Ok((Element(ai, raw[start..end]), end));
    }
    r := Err(BAD_AI);
  }

  lemma Slices(raw: string, start: nat, end: nat)
    requires start <= end <= |raw|
    ensures raw[start..][..end - start] == raw[start..end] && raw[start..][end - start..] == raw[end..]
  {
  }

  /** The loop over the cursor; it always ends, since every round moves the cursor on. */
  method ParseElements(raw: string) returns (r: Result<seq<Element>>)
    ensures r == Elements(raw)
  {
    hide Read;
    var cursor := if raw != "" && raw[0] == GS then 1 else 0;
    var pairs: seq<Element> := [];
    assert cursor == 0 ==> raw[cursor..] == raw;
    JoinedNone(Read(raw[cursor..]));
    while cursor < |raw|
      invariant cursor <= |raw| && Elements(raw) == Joined(pairs, Read(raw[cursor..]))
      decreases |raw| - cursor
    {
      var field := ReadField(raw, cursor);
      if field.Err? { return Err(field.message); }
      var (e, next) := field.value;
      if next < |raw| && raw[next] == GS {
        if next + 1 == |raw| { return Err(TRAILING); }
        next := next + 1;
        assert raw[next - 1..][1..] == raw[next..];
      }
      JoinedOne(pairs, e, Read(raw[next..]));
      pairs, cursor := pairs + [e], next;
    }
    ReadNothing();
    assert raw[cursor..] == "" && pairs + [] == pairs;
    r := Ok(pairs);
  }

  lemma ReadNothing()
    ensures Read("") == Ok([])
  {
  }

  // ---- writing element strings ----

  /** Fields in order, each but the last followed by a separator where `seps` says so. */
  function Encode(es: seq<Element>, seps: seq<bool>): string
    requires |es| == |seps|
  {
    if es == [] then ""
    else es[0].ai + es[0].value + (if |es| > 1 && seps[0] then [GS] else "") + Encode(es[1..], seps[1..])
  }

  predicate Encodable(e: Element) {
    (Fixed(e.ai) && |e.value| == FixedSize(e.ai)) || (Variable(e.ai) && GS !in e.value)
  }

  /** Separators after every variable field but the last; after fixed ones they are optional. */
  predicate Separated(es: seq<Element>, seps: seq<bool>) {
    && |es| == |seps| && (forall i :: 0 <= i < |es| ==> Encodable(es[i]))
    && (forall i :: 0 <= i < |es| - 1 && Variable(es[i].ai) ==> seps[i])
  }

  lemma {:induction false} UpToValue(value: string, rest: string)
    requires GS !in value && (rest == "" || rest[0] == GS)
    ensures UpTo(value + rest) == |value|
  {
    if value == "" {
      assert value + rest == rest;
    } else {
      assert (value + rest)[1..] == value[1..] + rest;
      UpToValue(value[1..], rest);
    }
  }

  lemma EncodeStartsWithDigit(es: seq<Element>, seps: seq<bool>)
    requires es != [] && Separated(es, seps)
    ensures |Encode(es, seps)| >= 2 && Encode(es, seps)[0] != GS && Encode(es, seps)[..2] == es[0].ai
  {
    assert |es[0].ai| == 2;
  }

  /** One field at a time. */
  lemma ReadOne(e: Element, rest: string)
    requires Encodable(e) && (Variable(e.ai) && rest != "" ==> rest[0] == GS)
    ensures Read(e.ai + e.value + rest) == Continue(e, rest)
  {
    var s := e.ai + e.value + rest;
    assert |e.ai| == 2 && s[..2] == e.ai && s[2..] == e.value + rest;
    if Variable(e.ai) { UpToValue(e.value, rest); }
    var n := |e.value|;
    assert (e.value + rest)[..n] == e.value && (e.value + rest)[n..] == rest;
  }

  /** Whatever is written is read back: exactly those fields, in that order. */
  lemma {:induction false} ReadEncoded(es: seq<Element>, seps: seq<bool>)
    requires Separated(es, seps)
    ensures Read(Encode(es, seps)) == Ok(es)
    decreases |es|
  {
    if es != [] {
      var tail := Encode(es[1..], seps[1..]);
      var gap := if |es| > 1 && seps[0] then [GS] else "";
      assert Encode(es, seps) == es[0].ai + es[0].value + (gap + tail);
      if |es| > 1 { EncodeStartsWithDigit(es[1..], seps[1..]); }
      hide Read, Encode, Fixed, Variable, FixedSize;
      ReadEncoded(es[1..], seps[1..]);
      assert es[0] == es[0] && Encodable(es[0]);
      ReadOne(es[0], gap + tail);
      assert |es| > 1 && seps[0] ==> (gap + tail)[1..] == tail;
      assert !(|es| > 1 && seps[0]) ==> gap + tail == tail;
      assert es == [es[0]] + es[1..];
    }
  }

  lemma {:induction false} UpToIsFirst(s: string)
    ensures GS !in s[..UpTo(s)] && (UpTo(s) < |s| ==> s[UpTo(s)] == GS)
  {
    if s != "" && s[0] != GS {
      UpToIsFirst(s[1..]);
      assert s[..UpTo(s)] == [s[0]] + s[1..][..UpTo(s[1..])];
    }
  }

  lemma FirstField(s: string) returns (e: Element, after: string)
    requires s != "" && Read(s).Ok?
    ensures Encodable(e) && |after| < |s| && s == e.ai + e.value + after && Read(s) == Continue(e, after)
    ensures Variable(e.ai) && after != "" ==> after[0] == GS
  {
    hide Fixed, Variable, FixedSize, Continue;
    OneKind(s[..Min(2, |s|)]);
    var ai, rest := s[..Min(2, |s|)], s[Min(2, |s|)..];
    var n := if Fixed(ai) then FixedSize(ai) else UpTo(rest);
    UpToIsFirst(rest);
    hide UpTo;
    e, after := Element(ai, rest[..n]), rest[n..];
  }

  lemma OneKind(ai: string)
    ensures !(Fixed(ai) && Variable(ai))
  {
  }

  /** The first field of an accepted string, what is left, and whether a separator stood between. */
  lemma SplitOne(s: string) returns (e: Element, separated: bool, tail: string)
    requires s != "" && Read(s).Ok?
    ensures Encodable(e) && |tail| < |s| && Read(tail).Ok? && Read(s) == Ok([e] + Read(tail).value)
    ensures s == e.ai + e.value + (if separated then [GS] else "") + tail
    ensures separated ==> tail != ""
    ensures Variable(e.ai) && tail != "" ==> separated
  {
    var after;
    e, after := FirstField(s);
    hide Fixed, Variable, FixedSize, Read, Encodable;
    separated := after != "" && after[0] == GS;
    tail := if separated then after[1..] else after;
    assert separated ==> after == [GS] + tail;
  }

  lemma EncodeOne(e: Element, later: seq<Element>, separated: bool, seps: seq<bool>)
    requires |later| == |seps| && (separated ==> later != [])
    ensures Encode([e] + later, [separated] + seps) == e.ai + e.value + (if separated then [GS] else "") + Encode(later, seps)
  {
    assert ([e] + later)[1..] == later && ([separated] + seps)[1..] == seps;
  }

  /** Conversely, whatever is accepted was written that way. */
  lemma {:induction false} ReadIsEncoded(s: string) returns (seps: seq<bool>)
    requires Read(s).Ok?
    ensures Separated(Read(s).value, seps) && Encode(Read(s).value, seps) == s
    decreases |s|
  {
    if s == "" {
      seps := [];
    } else {
      var e, separated, tail := SplitOne(s);
      var more := ReadIsEncoded(tail);
      var later := Read(tail).value;
      assert later == [] ==> tail == "";
      seps := [separated] + more;
      assert tail == "" ==> later == [];
      hide Read, Encode, Encodable;
      EncodeOne(e, later, separated, more);
      var es := [e] + later;
      forall i | 0 <= i < |es|
        ensures Encodable(es[i])
        ensures i < |es| - 1 && Variable(es[i].ai) ==> seps[i]
      {
        if i > 0 { assert es[i] == later[i - 1] && seps[i] == more[i - 1]; }
      }
    }
  }

  /** Reading accepts exactly the written element strings, with or without the initial separator. */
  lemma ElementsIffEncoded(raw: string, es: seq<Element>)
    ensures Elements(raw) == Ok(es) <==>
            exists seps :: Separated(es, seps) && (raw == Encode(es, seps) || raw == [GS] + Encode(es, seps))
  {
    if Elements(raw) == Ok(es) {
      var seps := ReadIsEncoded(if raw != "" && raw[0] == GS then raw[1..] else raw);
      assert raw != "" && raw[0] == GS ==> raw == [GS] + raw[1..];
    }
    if seps :| Separated(es, seps) && (raw == Encode(es, seps) || raw == [GS] + Encode(es, seps)) {
      ReadEncoded(es, seps);
      if es != [] { EncodeStartsWithDigit(es, seps); }
      assert ([GS] + Encode(es, seps))[1..] == Encode(es, seps);
    }
  }

  // ---- parenthesised notation ----

  /** How many digits the string starts with. */
  function DigitRun(s: string): (n: nat)
    ensures n <= |s|
  {
    if s == "" || !IsDigit(s[0]) then 0 else 1 + DigitRun(s[1..])
  }

  /** A match of `\\(([0-9]{2,4})\\)` at the start. */
  predicate Marked(s: string) {
    s != "" && s[0] == '(' && var n := DigitRun(s[1..]); 2 <= n <= 4 && n + 1 < |s| && s[n + 1] == ')'
  }

  function MarkLength(s: string): (n: nat)
    requires Marked(s)
    ensures 4 <= n <= |s|
  {
    DigitRun(s[1..]) + 2
  }

  /** The text before the first match, and each match with the text up to the next. */
  function Cut(s: string): (string, seq<Element>)
    decreases |s|
  {
    if s == "" then ("", [])
    else if Marked(s) then
      var n := MarkLength(s);
      var (lead, es) := Cut(s[n..]);
      ("", [Element(s[1..n - 1], lead)] + es)
    else
      var (lead, es) := Cut(s[1..]);
      ([s[0]] + lead, es)
  }

  function Parenthesised(raw: string): Result<seq<Element>> {
    var (lead, es) := Cut(raw);
    if es == [] || lead != "" then Err(BAD_PARENTHESES) else Ok(es)
  }

  function Render(es: seq<Element>): string {
    if es == [] then "" else "(" + (es[0].ai + (")" + (es[0].value + Render(es[1..]))))
  }

  /** Some match starts inside the value. */
  predicate ContainsMark(value: string) { Cut(value).1 != [] }

  predicate IsIdentifier(ai: string) { 2 <= |ai| <= 4 && Digits(ai) }

  lemma {:induction false} DigitRunStops(digits: string, rest: string)
    requires Digits(digits) && (rest == "" || !IsDigit(rest[0]))
    ensures DigitRun(digits + rest) == |digits|
  {
    if digits == "" {
      assert digits + rest == rest;
    } else {
      assert (digits + rest)[1..] == digits[1..] + rest;
      DigitRunStops(digits[1..], rest);
    }
  }

  /** A match does not reach past a following parenthesis. */
  lemma {:induction false} DigitRunWithin(s: string, rest: string)
    requires rest == "" || rest[0] == '('
    ensures DigitRun(s + rest) == DigitRun(s)
  {
    if s == "" {
      assert s + rest == rest;
    } else if IsDigit(s[0]) {
      assert (s + rest)[1..] == s[1..] + rest;
      DigitRunWithin(s[1..], rest);
    }
  }

  lemma MarkedWithin(s: string, rest: string)
    requires s != "" && (rest == "" || rest[0] == '(')
    ensures Marked(s + rest) <==> Marked(s)
    ensures Marked(s) ==> MarkLength(s + rest) == MarkLength(s)
  {
    assert (s + rest)[1..] == s[1..] + rest;
    DigitRunWithin(s[1..], rest);
  }

  /** Cutting a value and what follows it is cutting each, joined at the seam. */
  lemma {:induction false} CutJoins(s: string, rest: string)
    requires rest == "" || rest[0] == '('
    ensures Cut(s + rest) == Seam(Cut(s), Cut(rest))
    decreases |s|
  {
    if s == "" {
      assert s + rest == rest && "" + Cut(rest).0 == Cut(rest).0;
    } else {
      MarkedWithin(s, rest);
      var n := if Marked(s) then MarkLength(s) else 1;
      Prefix(s, rest, n);
      CutJoins(s[n..], rest);
      var marked := Marked(s);
      assert Cut(s) == CutOne(s, n, marked, Cut(s[n..]));
      assert Cut(s + rest) == CutOne(s, n, marked, Cut(s[n..] + rest));
      hide Cut, Marked;
      JoinOne(s, n, marked, Cut(s[n..]), Cut(rest));
    }
  }

  lemma Prefix(s: string, rest: string, n: nat)
    requires 1 <= n <= |s|
    ensures (s + rest)[n..] == s[n..] + rest && (n >= 2 ==> (s + rest)[1..n - 1] == s[1..n - 1]) && (s + rest)[0] == s[0]
  {
  }

  /** One step of a cut, given the cut of the rest. */
  function CutOne(s: string, n: nat, marked: bool, later: (string, seq<Element>)): (string, seq<Element>)
    requires 1 <= n <= |s| && (marked ==> n >= 2)
  {
    if marked then ("", [Element(s[1..n - 1], later.0)] + later.1) else ([s[0]] + later.0, later.1)
  }

  function Seam(first: (string, seq<Element>), next: (string, seq<Element>)): (string, seq<Element>) {
    var (lead, es) := first;
    if es == [] then (lead + next.0, next.1)
    else (lead, es[..|es| - 1] + [Element(es[|es| - 1].ai, es[|es| - 1].value + next.0)] + next.1)
  }

  lemma JoinOne(s: string, n: nat, marked: bool, later: (string, seq<Element>), next: (string, seq<Element>))
    requires 1 <= n <= |s| && (marked ==> n >= 2)
    ensures CutOne(s, n, marked, Seam(later, next)) == Seam(CutOne(s, n, marked, later), next)
  {
    var (lead, es) := later;
    if marked {
      var e := Element(s[1..n - 1], lead);
      if es == [] {
        var glued := Element(s[1..n - 1], lead + next.0);
        assert ([e] + es)[..0] == [] && [] + [glued] + next.1 == [glued] + next.1;
      } else {
        var last := Element(es[|es| - 1].ai, es[|es| - 1].value + next.0);
        assert ([e] + es)[..|es|] == [e] + es[..|es| - 1];
        assert [e] + (es[..|es| - 1] + [last] + next.1) == [e] + es[..|es| - 1] + [last] + next.1;
      }
    } else {
      assert [s[0]] + (lead + next.0) == [s[0]] + lead + next.0;
    }
  }

  lemma {:induction false} RenderStarts(es: seq<Element>)
    ensures Render(es) == "" || Render(es)[0] == '('
  {
  }

  lemma MarkedField(ai: string, after: string)
    requires IsIdentifier(ai)
    ensures Marked("(" + (ai + (")" + after))) && MarkLength("(" + (ai + (")" + after))) == |ai| + 2
  {
    var s := "(" + (ai + (")" + after));
    assert s[1..] == ai + (")" + after);
    DigitRunStops(ai, ")" + after);
    hide DigitRun, Digits;
    assert s[|ai| + 1] == ')' && s[0] == '(' && |s| >= |ai| + 2;
  }

  lemma FieldSlices(ai: string, after: string)
    ensures var s := "(" + (ai + (")" + after));
            |s| >= |ai| + 2 && s[1..|ai| + 1] == ai && s[|ai| + 2..] == after
  {
    var s, n := "(" + (ai + (")" + after)), |ai|;
    assert s[1..] == ai + (")" + after);
    assert s[1..][..n] == s[1..n + 1];
    assert s[1..][n + 1..] == s[n + 2..];
  }

  /** Every rendered field is one match, followed by the matches inside its value. */
  lemma CutRendered(e: Element, rest: string)
    requires IsIdentifier(e.ai)
    ensures var (lead, es) := Cut(e.value + rest);
            Cut("(" + (e.ai + (")" + (e.value + rest)))) == ("", [Element(e.ai, lead)] + es)
  {
    var s := "(" + (e.ai + (")" + (e.value + rest)));
    MarkedField(e.ai, e.value + rest);
    FieldSlices(e.ai, e.value + rest);
    hide Marked, MarkLength, IsIdentifier;
  }

  lemma {:induction false} PlainRoundTrip(es: seq<Element>)
    requires forall i :: 0 <= i < |es| ==> IsIdentifier(es[i].ai) && !ContainsMark(es[i].value)
    ensures Cut(Render(es)) == ("", es)
  {
    if es != [] {
      var rest := Render(es[1..]);
      RenderStarts(es[1..]);
      PlainRoundTrip(es[1..]);
      assert es[1..] != [] ==> Cut(rest).0 == "";
      CutRendered(es[0], rest);
      CutJoins(es[0].value, rest);
      NoMarkIsLead(es[0].value);
      assert Render(es) == "(" + (es[0].ai + (")" + (es[0].value + rest)));
      hide Cut, Render;
      assert es[0].value + "" == es[0].value && es == [es[0]] + es[1..] && Element(es[0].ai, es[0].value) == es[0];
    }
  }

  lemma {:induction false} NoMarkIsLead(s: string)
    requires !ContainsMark(s)
    ensures Cut(s) == (s, [])
    decreases |s|
  {
    if s != "" {
      NoMarkIsLead(s[1..]);
      assert s == [s[0]] + s[1..];
    }
  }

  /** One match more for every match inside a value. */
  lemma {:induction false} RenderedCount(es: seq<Element>)
    requires forall i :: 0 <= i < |es| ==> IsIdentifier(es[i].ai)
    ensures |Cut(Render(es)).1| >= |es|
    ensures (exists i :: 0 <= i < |es| && ContainsMark(es[i].value)) ==> |Cut(Render(es)).1| > |es|
  {
    if es != [] {
      var rest := Render(es[1..]);
      RenderStarts(es[1..]);
      RenderedCount(es[1..]);
      CutRendered(es[0], rest);
      CutJoins(es[0].value, rest);
      assert Render(es) == "(" + (es[0].ai + (")" + (es[0].value + rest)));
      hide Cut, Render;
      if exists i :: 0 <= i < |es| && ContainsMark(es[i].value) {
        var i :| 0 <= i < |es| && ContainsMark(es[i].value);
        assert i > 0 ==> es[1..][i - 1] == es[i];
      }
    }
  }

  lemma ParenthesisedAs(raw: string, es: seq<Element>)
    requires es != []
    ensures Parenthesised(raw) == Ok(es) <==> Cut(raw) == ("", es)
  {
    hide Cut;
  }

  /** Parenthesised notation is read back as written exactly when no value looks like another field. */
  lemma {:induction false} ParenthesisedRoundTripIff(es: seq<Element>)
    requires es != [] && forall i :: 0 <= i < |es| ==> IsIdentifier(es[i].ai)
    ensures Parenthesised(Render(es)) == Ok(es) <==> forall i :: 0 <= i < |es| ==> !ContainsMark(es[i].value)
  {
    hide *;
    RenderedCount(es);
    ParenthesisedAs(Render(es), es);
    if forall i :: 0 <= i < |es| ==> !ContainsMark(es[i].value) { PlainRoundTrip(es); }
  }
}
