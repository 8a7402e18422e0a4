/** Signed events, their validation, and the part of the evidence that counts. */
module CoreEvents {
  import opened Prelude
  import opened Ordering
  import opened NoticeGraph

  datatype Tag = Text(value: string) | Other

  /** What recomputing the id and checking the signature says. */
  datatype Check = Verified | WrongId | BadSignature | Unavailable

  /** `data` is the event's canonical JSON, the key the evidence is sorted by. */
  datatype Event = Event(id: string, kind: int, signer: string, tags: seq<seq<Tag>>, check: Check, data: string)

  datatype Code =
    | TimestampNotVerified
    | InvalidEventId | InvalidSignature | VerificationUnavailable
    | ArtifactMismatch | InvalidAnchorAction | InvalidNoticeAction
    | InvalidNoticeParent | InvalidNoticeType | UnsupportedEventKind
    | NoticeCycle | NoticeParentInvalid | NoticeParentMissing | NoticeSignerMismatch
    | UnsupportedNoticeType | ConflictingNotices | MultipleCandidateAnchors | AnchorNotFound

  datatype Finding = Finding(code: Code, eventId: Option<string>)

  function Named(tags: seq<seq<Tag>>, name: string): seq<seq<Tag>> {
    if tags == [] then []
    else (if tags[0] != [] && tags[0][0] == Text(name) then [tags[0]] else []) + Named(tags[1..], name)
  }

  /** `tag`: the value of the only tag of that name, if it is a string. */
  function TagOf(e: Event, name: string): Option<string> {
    var values := Named(e.tags, name);
    if |values| != 1 || |values[0]| < 2 || !values[0][1].Text? then None else Some(values[0][1].value)
  }

  function TextOf(v: Option<string>): string { if v.Some? then v.value else "" }

  function CryptoCodes(e: Event): seq<Code> {
    match e.check
    case Verified => []
    case WrongId => [InvalidEventId]
    case BadSignature => [InvalidSignature]
    case Unavailable => [VerificationUnavailable]
  }

  function When(failed: bool, code: Code): seq<Code> { if failed then [code] else [] }

  function ShapeCodes(e: Event, digest: string): seq<Code> {
    When(TagOf(e, "o") != Some(digest), ArtifactMismatch)
    + if e.kind == 1415 then When(TagOf(e, "action") != Some("issue"), InvalidAnchorAction)
      else if e.kind == 1416 then
        When(TagOf(e, "action") != Some("notice"), InvalidNoticeAction)
        + When(!Hex64(TextOf(TagOf(e, "e"))), InvalidNoticeParent)
        + When(TextOf(TagOf(e, "notice_type")) == "", InvalidNoticeType)
      else [UnsupportedEventKind]
  }

  function Findings(codes: seq<Code>, id: string): seq<Finding> {
    seq(|codes|, i requires 0 <= i < |codes| => Finding(codes[i], Some(id)))
  }

  function Errors(e: Event, digest: string): seq<Finding> {
    Findings(CryptoCodes(e) + ShapeCodes(e, digest), e.id)
  }

  method FailedChecks(e: Event, digest: string) returns (codes: seq<Code>)
    ensures codes == ShapeCodes(e, digest)
  {
    hide TagOf, Hex64, TextOf;
    codes := if TagOf(e, "o") != Some(digest) then [ArtifactMismatch] else [];
    if e.kind == 1415 {
      if TagOf(e, "action") != Some("issue") { codes := codes + [InvalidAnchorAction]; }
    } else if e.kind == 1416 {
      if TagOf(e, "action") != Some("notice") { codes := codes + [InvalidNoticeAction]; }
      if !Hex64(TextOf(TagOf(e, "e"))) { codes := codes + [InvalidNoticeParent]; }
      if TextOf(TagOf(e, "notice_type")) == "" { codes := codes + [InvalidNoticeType]; }
    } else {
      codes := codes + [UnsupportedEventKind];
    }
  }

  /** `validate`, as a list built up check by check. */
  method Validate(e: Event, digest: string) returns (findings: seq<Finding>)
    ensures findings == Errors(e, digest)
  {
    hide ShapeCodes, CryptoCodes;
    var codes := FailedChecks(e, digest);
    codes := CryptoCodes(e) + codes;
    findings := [];
    for i := 0 to |codes|
      invariant |findings| == i && forall k :: 0 <= k < i ==> findings[k] == Finding(codes[k], Some(e.id))
    {
      findings := findings + [Finding(codes[i], Some(e.id))];
    }
  }

  /** What a reader of the ruleset expects of a qualifying event. */
  predicate Qualifies(e: Event, digest: string) {
    && e.check.Verified? && TagOf(e, "o") == Some(digest)
    && ((e.kind == 1415 && TagOf(e, "action") == Some("issue"))
        || (e.kind == 1416 && TagOf(e, "action") == Some("notice")
            && TagOf(e, "e").Some? && Hex64(TagOf(e, "e").value)
            && TagOf(e, "notice_type").Some? && TagOf(e, "notice_type").value != ""))
  }

  /** An event is accepted exactly when it qualifies; a rejection names at least one fault, each about it. */
  lemma ErrorsDecideQualification(e: Event, digest: string)
    ensures Errors(e, digest) == [] <==> Qualifies(e, digest)
    ensures forall i :: 0 <= i < |Errors(e, digest)| ==> Errors(e, digest)[i].eventId == Some(e.id)
    ensures Finding(VerificationUnavailable, Some(e.id)) in Errors(e, digest) <==> e.check.Unavailable?
  {
    assert !Hex64("");
    hide TagOf, Hex64;
    var codes := CryptoCodes(e) + ShapeCodes(e, digest);
    assert Errors(e, digest) == [] <==> codes == [];
    assert codes == [] <==> Qualifies(e, digest);
    assert VerificationUnavailable !in ShapeCodes(e, digest);
    assert e.check.Unavailable? ==> Errors(e, digest)[0] == Finding(VerificationUnavailable, Some(e.id));
  }

  // ---- the order of the evidence ----

  predicate InOrder(s: seq<Event>) { forall i, j :: 0 <= i < j < |s| ==> LessEq(s[i].data, s[j].data) }

  /** Insert after everything that does not sort later: Python's sort is stable. */
  function Inserted(s: seq<Event>, e: Event): seq<Event> {
    if s == [] || LessEq(s[|s| - 1].data, e.data) then s + [e]
    else Inserted(s[..|s| - 1], e) + [s[|s| - 1]]
  }

  function SortedByData(events: seq<Event>): seq<Event> {
    if events == [] then [] else Inserted(SortedByData(events[..|events| - 1]), events[|events| - 1])
  }

  lemma AppendInOrder(s: seq<Event>, e: Event)
    requires InOrder(s) && forall i :: 0 <= i < |s| ==> LessEq(s[i].data, e.data)
    ensures InOrder(s + [e])
  {
  }

  lemma {:induction false} InsertedIsInOrder(s: seq<Event>, e: Event)
    requires InOrder(s)
    ensures InOrder(Inserted(s, e)) && multiset(Inserted(s, e)) == multiset(s) + multiset{e}
  {
    if s != [] && !LessEq(s[|s| - 1].data, e.data) {
      var n := |s| - 1;
      InsertedIsInOrder(s[..n], e);
      assert s == s[..n] + [s[n]];
      LessEqTotal(s[n].data, e.data);
      var r := Inserted(s[..n], e);
      forall i | 0 <= i < |r|
        ensures LessEq(r[i].data, s[n].data)
      {
        assert r[i] in multiset(r);
        assert r[i] == e || r[i] in s[..n];
      }
      hide LessEq;
      AppendInOrder(r, s[n]);
    } else {
      forall i | 0 <= i < |s|
        ensures LessEq(s[i].data, e.data)
      {
        LessEqTotal(s[i].data, s[i].data);
        LessEqTransitive(s[i].data, s[|s| - 1].data, e.data);
      }
      hide LessEq;
      AppendInOrder(s, e);
    }
  }

  lemma {:induction false} SortedIsInOrder(events: seq<Event>)
    ensures InOrder(SortedByData(events)) && multiset(SortedByData(events)) == multiset(events)
  {
    if events != [] {
      var n := |events| - 1;
      SortedIsInOrder(events[..n]);
      InsertedIsInOrder(SortedByData(events[..n]), events[n]);
      assert events == events[..n] + [events[n]];
    }
  }

  /** The JSON contains every field, so it tells events apart. */
  predicate DataTellsApart(events: seq<Event>) {
    forall d, e :: d in events && e in events && d.data == e.data ==> d == e
  }

  lemma SameLast(s: seq<Event>, t: seq<Event>)
    requires s != [] && InOrder(s) && InOrder(t) && multiset(s) == multiset(t) && DataTellsApart(s)
    ensures t != [] && s[|s| - 1] == t[|t| - 1]
  {
    var n, m := |s| - 1, |t| - 1;
    assert |multiset(s)| == |multiset(t)|;
    assert s[n] in multiset(t) && t[m] in multiset(s);
    var i :| 0 <= i < |t| && t[i] == s[n];
    var j :| 0 <= j < |s| && s[j] == t[m];
    LessEqTotal(s[n].data, s[n].data);
    LessEqTotal(t[m].data, t[m].data);
    LessEqAntisymmetric(s[n].data, t[m].data);
  }

  lemma DropLast(s: seq<Event>)
    requires s != []
    ensures multiset(s[..|s| - 1]) == multiset(s) - multiset{s[|s| - 1]}
  {
    assert s == s[..|s| - 1] + [s[|s| - 1]];
  }

  lemma {:induction false} OneOrder(s: seq<Event>, t: seq<Event>)
    requires InOrder(s) && InOrder(t) && multiset(s) == multiset(t) && DataTellsApart(s)
    ensures s == t
  {
    hide LessEq;
    assert |multiset(s)| == |s| && |multiset(t)| == |t|;
    if s != [] {
      SameLast(s, t);
      DropLast(s);
      DropLast(t);
      var n := |s| - 1;
      OneOrder(s[..n], t[..n]);
      assert s == s[..n] + [s[n]] && t == t[..n] + [t[n]];
    }
  }

  /** Any reordering of the supplied events gives the same evidence. */
  lemma {:induction false} PermutedEvidence(a: seq<Event>, b: seq<Event>)
    requires multiset(a) == multiset(b) && DataTellsApart(a)
    ensures SortedByData(a) == SortedByData(b)
  {
    SortedIsInOrder(a);
    SortedIsInOrder(b);
    forall d, e | d in SortedByData(a) && e in SortedByData(a) && d.data == e.data
      ensures d == e
    {
      assert d in multiset(SortedByData(a)) && e in multiset(SortedByData(a));
      assert d in multiset(a) && e in multiset(a);
    }
    OneOrder(SortedByData(a), SortedByData(b));
  }

  // ---- the events that count ----

  /** `valid`: per id the last qualifying copy in the sorted evidence. */
  function ValidMap(s: seq<Event>, digest: string): map<string, Event> {
    if s == [] then map[]
    else
      var e, earlier := s[|s| - 1], ValidMap(s[..|s| - 1], digest);
      if Errors(e, digest) == [] then earlier[e.id := e] else earlier
  }

  /** The copy that wins an id: qualifying, supplied, and none later in the order. */
  predicate Wins(e: Event, id: string, events: set<Event>, digest: string) {
    && e in events && e.id == id && Qualifies(e, digest)
    && forall d :: d in events && d.id == id && Qualifies(d, digest) ==> LessEq(d.data, e.data)
  }

  function EventSet(s: seq<Event>): set<Event> { set e | e in s }

  lemma {:induction false} ValidMapWins(s: seq<Event>, digest: string)
    requires InOrder(s)
    ensures forall id :: id in ValidMap(s, digest) ==> Wins(ValidMap(s, digest)[id], id, EventSet(s), digest)
    ensures forall e :: e in s && Qualifies(e, digest) ==> e.id in ValidMap(s, digest)
  {
    if s != [] {
      var n := |s| - 1;
      var e := s[n];
      assert s == s[..n] + [e];
      ValidMapWins(s[..n], digest);
      ErrorsDecideQualification(e, digest);
      LessEqTotal(e.data, e.data);
      forall id | id in ValidMap(s, digest)
        ensures Wins(ValidMap(s, digest)[id], id, EventSet(s), digest)
      {
        forall d | d in s
          ensures d in s[..n] || d == e
          ensures LessEq(d.data, e.data)
        {
        }
        if ValidMap(s, digest)[id] != e {
          assert Wins(ValidMap(s[..n], digest)[id], id, EventSet(s[..n]), digest);
        }
      }
    }
  }

  predicate SameQualifying(s: seq<Event>, t: seq<Event>, digest: string) {
    forall e :: e in s + t && Qualifies(e, digest) ==> e in s && e in t
  }

  lemma WinnerCarriesOver(s: seq<Event>, t: seq<Event>, digest: string, id: string)
    requires InOrder(s) && InOrder(t) && SameQualifying(s, t, digest) && id in ValidMap(s, digest)
    ensures var e := ValidMap(s, digest)[id];
            && e in s && id in ValidMap(t, digest) && ValidMap(t, digest)[id] in t
            && LessEq(e.data, ValidMap(t, digest)[id].data)
  {
    ValidMapWins(s, digest);
    ValidMapWins(t, digest);
    hide LessEq, InOrder, ValidMap, Qualifies;
    var e := ValidMap(s, digest)[id];
    assert Wins(e, id, EventSet(s), digest);
    assert e in s + t && e in t && e in EventSet(t);
    var f := ValidMap(t, digest)[id];
    assert Wins(f, id, EventSet(t), digest);
  }

  /** Which events count depends only on which qualifying events were supplied: not on copies, order or the rest. */
  lemma {:induction false} SameQualifyingSameValid(s: seq<Event>, t: seq<Event>, digest: string)
    requires InOrder(s) && InOrder(t) && DataTellsApart(s + t) && SameQualifying(s, t, digest)
    ensures ValidMap(s, digest) == ValidMap(t, digest)
  {
    hide LessEq, InOrder, ValidMap, Qualifies, SameQualifying;
    assert SameQualifying(t, s, digest) by { SwapQualifying(s, t, digest); }
    var v, w := ValidMap(s, digest), ValidMap(t, digest);
    forall id
      ensures id in v <==> id in w
      ensures id in v && id in w ==> v[id] == w[id]
    {
      if id in v { WinnerCarriesOver(s, t, digest, id); }
      if id in w { WinnerCarriesOver(t, s, digest, id); }
      if id in v && id in w { LessEqAntisymmetric(v[id].data, w[id].data); }
    }
    assert v.Keys == w.Keys;
  }

  lemma SwapQualifying(s: seq<Event>, t: seq<Event>, digest: string)
    requires SameQualifying(s, t, digest)
    ensures SameQualifying(t, s, digest)
  {
    forall e | e in t + s
      ensures e in s + t
    {
    }
  }

  /** The graph the qualifying events span. */
  function GraphOf(valid: map<string, Event>): Graph {
    map id | id in valid ::
      if valid[id].kind == 1415 then Anchor(valid[id].signer)
      else Notice(valid[id].signer, TextOf(TagOf(valid[id], "e")))
  }
}
