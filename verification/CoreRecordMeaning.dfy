/**
 What a report says about the events that were supplied: each standing, position, finding and
 rejection as a condition on the events themselves, whichever way the evaluator arrived at it.
 */
module CoreRecordMeaning {
  import opened Prelude
  import opened Ordering
  import opened NoticeGraph
  import opened CoreEvents
  import opened NoticeFates
  import opened CoreRecord
  import opened CoreRecordTheorems

  // ---- one event ----

  predicate HasName(t: seq<Tag>, name: string) { t != [] && t[0] == Text(name) }

  lemma {:induction false} NamedAre(tags: seq<seq<Tag>>, name: string)
    ensures forall t :: t in Named(tags, name) <==> t in tags && HasName(t, name)
    ensures |Named(tags, name)| > 1 <==> exists i, j :: 0 <= i < j < |tags| && HasName(tags[i], name) && HasName(tags[j], name)
  {
    if tags != [] {
      NamedAre(tags[1..], name);
      var rest := Named(tags[1..], name);
      assert tags == [tags[0]] + tags[1..];
      if |Named(tags, name)| > 1 {
        if HasName(tags[0], name) {
          assert rest[0] in rest;
          var j :| 0 <= j < |tags[1..]| && tags[1..][j] == rest[0];
          assert HasName(tags[0], name) && HasName(tags[j + 1], name);
        } else {
          var i, j :| 0 <= i < j < |tags[1..]| && HasName(tags[1..][i], name) && HasName(tags[1..][j], name);
          assert HasName(tags[i + 1], name) && HasName(tags[j + 1], name);
        }
      }
      if i, j :| 0 <= i < j < |tags| && HasName(tags[i], name) && HasName(tags[j], name) {
        assert tags[j] == tags[1..][j - 1];
        if i > 0 { assert tags[i] == tags[1..][i - 1]; } else { assert tags[j] in rest; }
      }
    }
  }

  /** A tag's value is the string after its name, where exactly one tag has that name. */
  lemma TagMeans(e: Event, name: string, value: string)
    ensures TagOf(e, name) == Some(value) <==>
            exists i :: 0 <= i < |e.tags| && HasName(e.tags[i], name) && |e.tags[i]| > 1 && e.tags[i][1] == Text(value)
                        && forall j :: 0 <= j < |e.tags| && HasName(e.tags[j], name) ==> j == i
  {
    NamedAre(e.tags, name);
    var values := Named(e.tags, name);
    hide Named;
    if TagOf(e, name) == Some(value) {
      assert values[0] in values;
      var i :| 0 <= i < |e.tags| && e.tags[i] == values[0];
      forall j | 0 <= j < |e.tags| && HasName(e.tags[j], name)
        ensures j == i
      {
      }
    }
    if i :| 0 <= i < |e.tags| && HasName(e.tags[i], name) && |e.tags[i]| > 1 && e.tags[i][1] == Text(value)
            && forall j :: 0 <= j < |e.tags| && HasName(e.tags[j], name) ==> j == i
    {
      assert e.tags[i] in values;
      assert values[0] in values;
    }
  }

  predicate NotHex64(v: Option<string>) { v.None? || !Hex64(v.value) }

  /** When a check of an event finds this fault. */
  predicate Faulty(e: Event, digest: string, code: Code) {
    match code
    case InvalidEventId => e.check.WrongId?
    case InvalidSignature => e.check.BadSignature?
    case VerificationUnavailable => e.check.Unavailable?
    case ArtifactMismatch => TagOf(e, "o") != Some(digest)
    case InvalidAnchorAction => e.kind == 1415 && TagOf(e, "action") != Some("issue")
    case InvalidNoticeAction => e.kind == 1416 && TagOf(e, "action") != Some("notice")
    case InvalidNoticeParent => e.kind == 1416 && NotHex64(TagOf(e, "e"))
    case InvalidNoticeType => e.kind == 1416 && (TagOf(e, "notice_type").None? || TagOf(e, "notice_type") == Some(""))
    case UnsupportedEventKind => e.kind != 1415 && e.kind != 1416
    case _ => false
  }

  /** The order in which the checks are made. */
  function Rank(code: Code): nat {
    match code
    case InvalidEventId => 0
    case InvalidSignature => 0
    case VerificationUnavailable => 0
    case ArtifactMismatch => 1
    case InvalidAnchorAction => 2
    case InvalidNoticeAction => 2
    case UnsupportedEventKind => 2
    case InvalidNoticeParent => 3
    case InvalidNoticeType => 4
    case _ => 5
  }

  /** Every fault of an event is found, once, in the order of the checks, and nothing else is. */
  lemma ErrorsAreFaults(e: Event, digest: string)
    ensures forall code :: Finding(code, Some(e.id)) in Errors(e, digest) <==> Faulty(e, digest, code)
    ensures forall f :: f in Errors(e, digest) ==> f.eventId == Some(e.id)
    ensures forall i, j :: 0 <= i < j < |Errors(e, digest)| ==> Rank(Errors(e, digest)[i].code) < Rank(Errors(e, digest)[j].code)
  {
    var codes := CryptoCodes(e) + ShapeCodes(e, digest);
    CodesAreFaults(e, digest);
    CodesAreRanked(e, digest);
    hide CryptoCodes, ShapeCodes, Faulty, Rank;
    forall code
      ensures Finding(code, Some(e.id)) in Errors(e, digest) <==> Faulty(e, digest, code)
    {
      FindingsAre(codes, e.id, code);
    }
  }

  lemma WhenHas(failed: bool, code: Code, c: Code)
    ensures c in When(failed, code) <==> failed && c == code
  {
  }

  lemma InEither<T>(a: seq<T>, b: seq<T>, x: T)
    ensures x in a + b <==> x in a || x in b
  {
  }

  lemma ShapeHas(e: Event, digest: string, c: Code)
    ensures c in ShapeCodes(e, digest) <==>
            || (TagOf(e, "o") != Some(digest) && c == ArtifactMismatch)
            || (e.kind == 1415 && TagOf(e, "action") != Some("issue") && c == InvalidAnchorAction)
            || (e.kind == 1416 && TagOf(e, "action") != Some("notice") && c == InvalidNoticeAction)
            || (e.kind == 1416 && !Hex64(TextOf(TagOf(e, "e"))) && c == InvalidNoticeParent)
            || (e.kind == 1416 && TextOf(TagOf(e, "notice_type")) == "" && c == InvalidNoticeType)
            || (e.kind != 1415 && e.kind != 1416 && c == UnsupportedEventKind)
  {
    hide TagOf, Hex64, TextOf, When;
    WhenHas(TagOf(e, "o") != Some(digest), ArtifactMismatch, c);
    if e.kind == 1415 {
      WhenHas(TagOf(e, "action") != Some("issue"), InvalidAnchorAction, c);
    } else if e.kind == 1416 {
      WhenHas(TagOf(e, "action") != Some("notice"), InvalidNoticeAction, c);
      WhenHas(!Hex64(TextOf(TagOf(e, "e"))), InvalidNoticeParent, c);
      WhenHas(TextOf(TagOf(e, "notice_type")) == "", InvalidNoticeType, c);
    }
  }

  lemma ParentAndType(e: Event)
    ensures !Hex64(TextOf(TagOf(e, "e"))) <==> NotHex64(TagOf(e, "e"))
    ensures TextOf(TagOf(e, "notice_type")) == "" <==> TagOf(e, "notice_type").None? || TagOf(e, "notice_type") == Some("")
  {
    assert !Hex64("");
    hide TagOf, Hex64;
  }

  lemma CodesAreFaults(e: Event, digest: string)
    ensures forall code :: code in CryptoCodes(e) + ShapeCodes(e, digest) <==> Faulty(e, digest, code)
  {
    ParentAndType(e);
    hide TagOf, NotHex64, Hex64, TextOf, ShapeCodes;
    forall code
      ensures code in CryptoCodes(e) + ShapeCodes(e, digest) <==> Faulty(e, digest, code)
    {
      InEither(CryptoCodes(e), ShapeCodes(e, digest), code);
      ShapeHas(e, digest, code);
    }
  }

  lemma CodesAreRanked(e: Event, digest: string)
    ensures var codes := CryptoCodes(e) + ShapeCodes(e, digest);
            forall i, j :: 0 <= i < j < |codes| ==> Rank(codes[i]) < Rank(codes[j])
  {
    hide TagOf, Hex64, TextOf;
  }

  lemma FindingsAre(codes: seq<Code>, id: string, code: Code)
    ensures Finding(code, Some(id)) in Findings(codes, id) <==> code in codes
  {
    if code in codes {
      var i :| 0 <= i < |codes| && codes[i] == code;
      assert Findings(codes, id)[i] == Finding(code, Some(id));
    }
  }

  // ---- the events that count ----

  /** The last qualifying copy of its id in the order of the evidence. */
  predicate Counts(s: seq<Event>, digest: string, i: int) {
    0 <= i < |s| && Qualifies(s[i], digest) && forall j :: i < j < |s| && s[j].id == s[i].id ==> !Qualifies(s[j], digest)
  }

  lemma {:induction false} ValidMapCounts(s: seq<Event>, digest: string)
    ensures forall id :: id in ValidMap(s, digest) ==> exists i :: Counts(s, digest, i) && s[i].id == id && ValidMap(s, digest)[id] == s[i]
    ensures forall i :: Counts(s, digest, i) ==> s[i].id in ValidMap(s, digest) && ValidMap(s, digest)[s[i].id] == s[i]
  {
    hide Qualifies, Errors;
    if s != [] {
      var n := |s| - 1;
      var t, e := s[..n], s[n];
      assert s == t + [e];
      ValidMapCounts(t, digest);
      ErrorsDecideQualification(e, digest);
      assert ValidMap(s, digest) == if Qualifies(e, digest) then ValidMap(t, digest)[e.id := e] else ValidMap(t, digest);
      forall id | id in ValidMap(s, digest)
        ensures exists i :: Counts(s, digest, i) && s[i].id == id && ValidMap(s, digest)[id] == s[i]
      {
        if Qualifies(e, digest) && e.id == id {
          assert Counts(s, digest, n);
        } else {
          assert id in ValidMap(t, digest) && ValidMap(t, digest)[id] == ValidMap(s, digest)[id];
          var i :| Counts(t, digest, i) && t[i].id == id && ValidMap(t, digest)[id] == t[i];
          assert Counts(s, digest, i);
        }
      }
      forall i | Counts(s, digest, i)
        ensures s[i].id in ValidMap(s, digest) && ValidMap(s, digest)[s[i].id] == s[i]
      {
        if i < n {
          assert t[i] == s[i] && forall j :: i < j < n ==> t[j] == s[j];
          assert Counts(t, digest, i);
        }
      }
    }
  }

  // ---- the standing ----

  /** The copy of this id that counts is an anchor. */
  predicate AnchorCounts(s: seq<Event>, digest: string, id: string) {
    exists i :: 0 <= i < |s| && Counts(s, digest, i) && s[i].kind == 1415 && s[i].id == id
  }

  lemma AnchorsAre(s: seq<Event>, digest: string, id: string)
    ensures id in IdsOfKind(ValidMap(s, digest), 1415) <==> AnchorCounts(s, digest, id)
  {
    ValidMapCounts(s, digest);
    hide ValidMap, Qualifies;
    if id in IdsOfKind(ValidMap(s, digest), 1415) {
      var i :| Counts(s, digest, i) && s[i].id == id && ValidMap(s, digest)[id] == s[i];
      assert AnchorCounts(s, digest, id);
    }
  }

  lemma SizeMeans(ids: set<string>)
    ensures |ids| > 1 <==> exists x, y :: x in ids && y in ids && x != y
    ensures |ids| == 0 <==> forall x :: x !in ids
  {
    if ids != {} {
      var x :| x in ids;
      var rest := ids - {x};
      assert |ids| == |rest| + 1;
      if rest == {} {
        assert forall y :: y in ids ==> y == x || y in rest;
      } else {
        assert |rest| > 0;
        var y :| y in rest;
        assert y in ids && x != y;
      }
    }
  }

  /**
   The five standings over the evidence as sorted: more than one anchor counts, exactly one does,
   or none does and then something could not be checked, an anchor was at least attempted, or not.
   */
  lemma StandingMeans(events: seq<Event>, digest: string, source: string)
    ensures var s, standing := SortedByData(events), Evaluation(SortedByData(events), digest, source).standing;
            && (standing == MultipleAnchors <==> exists x, y :: AnchorCounts(s, digest, x) && AnchorCounts(s, digest, y) && x != y)
            && (standing == Anchored <==>
                  (exists x :: AnchorCounts(s, digest, x)) && forall x, y :: AnchorCounts(s, digest, x) && AnchorCounts(s, digest, y) ==> x == y)
            && (standing == Unchecked <==> (forall x :: !AnchorCounts(s, digest, x)) && exists e :: e in events && e.check.Unavailable?)
            && (standing == InvalidAnchorEvidence <==>
                  (forall x :: !AnchorCounts(s, digest, x)) && (forall e :: e in events ==> !e.check.Unavailable?)
                  && exists e :: e in events && e.kind == 1415)
            && (standing == NotAnchored <==>
                  (forall x :: !AnchorCounts(s, digest, x)) && (forall e :: e in events ==> !e.check.Unavailable? && e.kind != 1415))
  {
    var s := SortedByData(events);
    var ids := IdsOfKind(ValidMap(s, digest), 1415);
    SizeMeans(ids);
    forall x
      ensures x in ids <==> AnchorCounts(s, digest, x)
    {
      AnchorsAre(s, digest, x);
    }
    SameMembers(events);
    StandingIs(s, digest, source);
    hide SortedByData, IdsOfKind, AnchorCounts, Evaluation;
  }

  lemma SameMembers(events: seq<Event>)
    ensures forall e :: (e in EventSet(SortedByData(events)) <==> e in events) && (e in SortedByData(events) <==> e in events)
  {
    SortedKeepsEvents(events);
    forall e
      ensures e in SortedByData(events) <==> e in events
    {
      assert e in EventSet(SortedByData(events)) <==> e in EventSet(events);
    }
  }

  lemma StandingIs(s: seq<Event>, digest: string, source: string)
    ensures var standing, n := Evaluation(s, digest, source).standing, |IdsOfKind(ValidMap(s, digest), 1415)|;
            && (standing == MultipleAnchors <==> n > 1) && (standing == Anchored <==> n == 1)
            && (standing == Unchecked <==> n == 0 && exists e :: e in EventSet(s) && e.check.Unavailable?)
            && (standing == InvalidAnchorEvidence <==>
                  n == 0 && (forall e :: e in EventSet(s) ==> !e.check.Unavailable?) && exists e :: e in EventSet(s) && e.kind == 1415)
            && (standing == NotAnchored <==> n == 0 && forall e :: e in EventSet(s) ==> !e.check.Unavailable? && e.kind != 1415)
  {
    hide IdsOfKind, ValidMap, CandidatesIn, WalkRejections, EventRejections;
  }

  /** An id that checks out is the digest of one content, so verified copies of it are of one kind. */
  predicate IdsTellKinds(events: seq<Event>) {
    forall d, e :: d in events && e in events && d.id == e.id && d.check.Verified? && e.check.Verified? ==> d.kind == e.kind
  }

  /** A qualifying anchor of this id was supplied. */
  predicate AnchorSupplied(events: seq<Event>, digest: string, id: string) {
    exists e :: e in events && e.kind == 1415 && e.id == id && Qualifies(e, digest)
  }

  lemma {:induction false} SomeCopyCounts(s: seq<Event>, digest: string, i: nat) returns (k: nat)
    requires i < |s| && Qualifies(s[i], digest)
    ensures Counts(s, digest, k) && s[k].id == s[i].id
    decreases |s| - i
  {
    hide Qualifies;
    if j :| i < j < |s| && s[j].id == s[i].id && Qualifies(s[j], digest) {
      k := SomeCopyCounts(s, digest, j);
    } else {
      k := i;
    }
  }

  lemma SuppliedCounts(events: seq<Event>, digest: string, id: string)
    requires IdsTellKinds(events)
    ensures AnchorCounts(SortedByData(events), digest, id) <==> AnchorSupplied(events, digest, id)
  {
    var s := SortedByData(events);
    SameMembers(events);
    assert forall e :: Qualifies(e, digest) ==> e.check.Verified?;
    hide SortedByData, Qualifies;
    if AnchorCounts(s, digest, id) {
      var i :| 0 <= i < |s| && Counts(s, digest, i) && s[i].kind == 1415 && s[i].id == id;
      assert s[i] in s;
    }
    if e :| e in events && e.kind == 1415 && e.id == id && Qualifies(e, digest) {
      var i :| 0 <= i < |s| && s[i] == e;
      var k := SomeCopyCounts(s, digest, i);
      assert s[k] in s && s[k] in events;
    }
  }

  /** The same over the supplied events, in any order, where a verified id tells the kind. */
  lemma StandingOfSupplied(events: seq<Event>, digest: string, source: string)
    requires IdsTellKinds(events)
    ensures var standing := Evaluation(SortedByData(events), digest, source).standing;
            && (standing == MultipleAnchors <==> exists x, y :: AnchorSupplied(events, digest, x) && AnchorSupplied(events, digest, y) && x != y)
            && (standing == Anchored <==>
                  (exists x :: AnchorSupplied(events, digest, x))
                  && forall x, y :: AnchorSupplied(events, digest, x) && AnchorSupplied(events, digest, y) ==> x == y)
            && (standing == Unchecked <==> (forall x :: !AnchorSupplied(events, digest, x)) && exists e :: e in events && e.check.Unavailable?)
            && (standing == InvalidAnchorEvidence <==>
                  (forall x :: !AnchorSupplied(events, digest, x)) && (forall e :: e in events ==> !e.check.Unavailable?)
                  && exists e :: e in events && e.kind == 1415)
            && (standing == NotAnchored <==> forall e :: e in events ==> !e.check.Unavailable? && e.kind != 1415)
  {
    StandingMeans(events, digest, source);
    forall id
      ensures AnchorCounts(SortedByData(events), digest, id) <==> AnchorSupplied(events, digest, id)
    {
      SuppliedCounts(events, digest, id);
    }
    assert (forall e :: e in events ==> e.kind != 1415) ==> forall x :: !AnchorSupplied(events, digest, x);
    hide SortedByData, Evaluation, AnchorCounts, AnchorSupplied;
  }

  // ---- the graph and the positions ----

  /** The graph: one entry per id with a qualifying copy, with the signer and the parent of the copy that counts. */
  lemma GraphMeans(s: seq<Event>, digest: string)
    ensures var g := GraphIn(s, digest);
            && (forall id :: id in g <==> exists i :: Counts(s, digest, i) && s[i].id == id)
            && forall i :: Counts(s, digest, i) ==>
                 var id := s[i].id;
                 && id in g && g[id].signer == s[i].signer && (g[id].Anchor? <==> s[i].kind == 1415)
                 && (g[id].Notice? ==> TagOf(s[i], "e") == Some(g[id].parent))
  {
    ValidMapCounts(s, digest);
    hide ValidMap, TagOf, Hex64;
    var g := GraphIn(s, digest);
    forall id
      ensures id in g <==> exists i :: Counts(s, digest, i) && s[i].id == id
    {
      if i :| Counts(s, digest, i) && s[i].id == id { assert s[i].id in ValidMap(s, digest); }
    }
  }

  /** The terminals: the rooted notices that no rooted notice has as its parent. */
  lemma TerminalMeans(g: Graph, anchor: string, t: string)
    ensures t in Terminals(g, anchor) <==> RootedAt(g, t, anchor) && forall id :: RootedAt(g, id, anchor) ==> id in g && g[id].Notice? && g[id].parent != t
  {
    forall id | RootedAt(g, id, anchor)
      ensures IsNotice(g, id) && id in Rooted(g, anchor)
    {
      RootedIsClosed(g, id, anchor);
    }
    hide RootedAt;
    if t in Terminals(g, anchor) {
      forall id | RootedAt(g, id, anchor)
        ensures g[id].parent != t
      {
        assert g[id].parent in Parents(g, Rooted(g, anchor));
      }
    }
  }

  /** A chain of this signer's notices leaves the evidence at an id that nothing supplied carries. */
  ghost predicate GapIn(s: seq<Event>, g: Graph, signer: string) {
    exists id :: IsNotice(g, id) && g[id].signer == signer && BreaksOff(s, g, id)
  }

  ghost predicate BreaksOff(s: seq<Event>, g: Graph, id: string) {
    exists k: nat :: Leaves(g, id, k) && forall e :: e in s ==> e.id != Anc(g, id, k)
  }

  /** A notice of this signer was supplied, and some copy of its id could not be checked. */
  predicate UncheckedIn(s: seq<Event>, signer: string) {
    exists d, e :: d in s && e in s && d.id == e.id && e.kind == 1416 && e.signer == signer && d.check.Unavailable?
  }

  lemma MissingMeans(s: seq<Event>, g: Graph, id: string)
    ensures id in MissingParents(g, Ids(EventSet(s))) <==> IsNotice(g, id) && BreaksOff(s, g, id)
  {
    var known := Ids(EventSet(s));
    forall x
      ensures x in known <==> exists e :: e in s && e.id == x
    {
      if e :| e in s && e.id == x { assert e in EventSet(s); }
    }
    if IsNotice(g, id) { EveryNoticeHasOneFate(g, known, id); }
    hide FateOf, Leaves, Anc, Climbs;
  }

  lemma UncheckedMeans(s: seq<Event>, signer: string)
    ensures SomeUnavailable(EventSet(s), signer) <==> UncheckedIn(s, signer)
  {
    if SomeUnavailable(EventSet(s), signer) {
      var e :| e in EventSet(s) && e.kind == 1416 && e.signer == signer && UnavailableId(EventSet(s), e.id);
      var d :| d in EventSet(s) && d.id == e.id && d.check.Unavailable?;
      assert d in s && e in s;
    }
    if d, e :| d in s && e in s && d.id == e.id && e.kind == 1416 && e.signer == signer && d.check.Unavailable? {
      assert d in EventSet(s) && e in EventSet(s);
      assert UnavailableId(EventSet(s), e.id);
    }
  }

  /** The notice types of the ruleset. */
  predicate Known(kind: Option<string>) {
    kind.Some? && kind.value in {"information", "caution", "do_not_use", "withdrawn", "superseded", "corrected", "other"}
  }

  lemma KnownMeans(kind: Option<string>)
    ensures Supported(kind) <==> Known(kind)
  {
  }

  /**
   The six positions of an anchor's publisher: two branches end apart; otherwise a chain of its
   notices is incomplete; otherwise one of them could not be checked; otherwise there is none, or
   the one at the end says what it says, if the ruleset knows it.
   */
  lemma PositionMeans(s: seq<Event>, digest: string, anchor: string)
    requires anchor in GraphIn(s, digest)
    ensures var g, valid := GraphIn(s, digest), ValidMap(s, digest);
            var position, ends := PositionOf(g, valid, EventSet(s), anchor), Terminals(g, anchor);
            var gap, unchecked := GapIn(s, g, g[anchor].signer), UncheckedIn(s, g[anchor].signer);
            && ends <= valid.Keys
            && (position == Conflicting <==> exists t, u :: t in ends && u in ends && t != u)
            && (position == Incomplete <==> gap && forall t, u :: t in ends && u in ends ==> t == u)
            && (position == Unverifiable <==> unchecked && !gap && forall t, u :: t in ends && u in ends ==> t == u)
            && (position == NoNoticeFound <==> !gap && !unchecked && ends == {})
            && (forall n :: position == Stated(n) <==>
                  !gap && !unchecked && Known(Some(n)) && exists t :: t in ends && ends == {t} && TagOf(valid[t], "notice_type") == Some(n))
            && (position == UnsupportedType <==>
                  !gap && !unchecked && exists t :: t in ends && ends == {t} && !Known(TagOf(valid[t], "notice_type")))
  {
    var g, valid := GraphIn(s, digest), ValidMap(s, digest);
    var ends, signer := Terminals(g, anchor), g[anchor].signer;
    EndsAreValid(g, valid, anchor);
    AscendingLists(ends);
    SizeMeans(ends);
    UncheckedMeans(s, signer);
    GapMeans(s, g, signer);
    var none: Option<string> := None;
    if |ends| == 1 {
      var t := Ascending(ends)[0];
      assert t in Ascending(ends);
      SingleMember(ends, t);
      KnownMeans(TagOf(valid[t], "notice_type"));
    }
    hide GapIn, UncheckedIn, SomeMissing, SomeUnavailable, Terminals, GraphOf, ValidMap, TagOf, Ascending, Supported, Known, GraphIn;
  }

  lemma GapMeans(s: seq<Event>, g: Graph, signer: string)
    ensures SomeMissing(g, Ids(EventSet(s)), signer) <==> GapIn(s, g, signer)
  {
    forall id
      ensures id in MissingParents(g, Ids(EventSet(s))) <==> IsNotice(g, id) && BreaksOff(s, g, id)
    {
      MissingMeans(s, g, id);
    }
    hide BreaksOff, MissingParents;
  }

  lemma EndsAreValid(g: Graph, valid: map<string, Event>, anchor: string)
    requires g.Keys == valid.Keys
    ensures Terminals(g, anchor) <= valid.Keys
  {
  }

  // ---- the candidates ----

  /** One candidate per anchor that counts, in the order of their ids. */
  lemma CandidatesAreAnchors(s: seq<Event>, digest: string)
    ensures var candidates := CandidatesIn(s, digest);
            && (forall id :: AnchorCounts(s, digest, id) <==> exists i :: 0 <= i < |candidates| && candidates[i].anchor == id)
            && (forall i, j :: 0 <= i < j < |candidates| ==>
                  candidates[i].anchor != candidates[j].anchor && LessEq(candidates[i].anchor, candidates[j].anchor))
  {
    var ids := IdsOfKind(ValidMap(s, digest), 1415);
    AscendingLists(ids);
    AscendingIsOrdered(ids);
    var candidates := CandidatesIn(s, digest);
    AnchorsNamed(s, digest);
    forall id
      ensures AnchorCounts(s, digest, id) <==> exists i :: 0 <= i < |candidates| && candidates[i].anchor == id
    {
      AnchorsAre(s, digest, id);
      if id in ids {
        assert id in Ascending(ids);
        var i :| 0 <= i < |Ascending(ids)| && Ascending(ids)[i] == id;
        assert candidates[i].anchor == id;
      }
      if i :| 0 <= i < |candidates| && candidates[i].anchor == id { assert Ascending(ids)[i] in Ascending(ids); }
    }
  }

  lemma AnchorsNamed(s: seq<Event>, digest: string)
    ensures var ids, candidates := Ascending(IdsOfKind(ValidMap(s, digest), 1415)), CandidatesIn(s, digest);
            |candidates| == |ids| && forall i :: 0 <= i < |ids| ==> candidates[i].anchor == ids[i]
  {
    AscendingLists(IdsOfKind(ValidMap(s, digest), 1415));
    hide ValidMap, PositionOf, Chains, Rooted, Terminals, Incompletes;
  }

  /** A candidate's findings: a conflict of its notices, each incomplete chain of its publisher, each notice of a type unknown to the ruleset. */
  lemma CandidateFindingsMean(s: seq<Event>, digest: string, anchor: string, f: Finding)
    requires anchor in GraphIn(s, digest)
    ensures var g, valid := GraphIn(s, digest), ValidMap(s, digest);
            f in CandidateOf(g, valid, EventSet(s), anchor).findings <==>
            || (f == Finding(ConflictingNotices, Some(anchor)) && exists t, u :: t in Terminals(g, anchor) && u in Terminals(g, anchor) && t != u)
            || (exists id :: IsNotice(g, id) && g[id].signer == g[anchor].signer && BreaksOff(s, g, id) && f == Finding(NoticeParentMissing, Some(id)))
            || (exists id :: RootedAt(g, id, anchor) && id in valid && !Known(TagOf(valid[id], "notice_type")) && f == Finding(UnsupportedNoticeType, Some(id)))
  {
    var g, valid := GraphIn(s, digest), ValidMap(s, digest);
    var known := Ids(EventSet(s));
    var gaps, odd := Incompletes(g, known, g[anchor].signer), Only(Ascending(Rooted(g, anchor)), UnsupportedNotices(valid));
    AscendingLists(Terminals(g, anchor));
    SizeMeans(Terminals(g, anchor));
    GapsMean(s, g, g[anchor].signer);
    OddMean(g, valid, anchor);
    forall code, ids
      ensures f in Each(ids, code) <==> f.code == code && f.eventId.Some? && f.eventId.value in ids
    {
      EachMeans(ids, code, f);
    }
    var conflicts := if |Ascending(Terminals(g, anchor))| > 1 then [Finding(ConflictingNotices, Some(anchor))] else [];
    FindingsJoin(g, valid, EventSet(s), anchor);
    hide GraphIn, CandidateOf, BreaksOff, RootedAt, Known, TagOf, Incompletes, Only, Ascending, Terminals, Each, UnsupportedNotices, Rooted, GraphOf, ValidMap;
    assert f in conflicts + Each(gaps, NoticeParentMissing) + Each(odd, UnsupportedNoticeType)
           <==> f in conflicts || f in Each(gaps, NoticeParentMissing) || f in Each(odd, UnsupportedNoticeType);
  }

  lemma FindingsJoin(g: Graph, valid: map<string, Event>, events: set<Event>, anchor: string)
    requires anchor in g
    ensures CandidateOf(g, valid, events, anchor).findings
            == (if |Ascending(Terminals(g, anchor))| > 1 then [Finding(ConflictingNotices, Some(anchor))] else [])
               + Each(Incompletes(g, Ids(events), g[anchor].signer), NoticeParentMissing)
               + Each(Only(Ascending(Rooted(g, anchor)), UnsupportedNotices(valid)), UnsupportedNoticeType)
  {
  }

  lemma EachMeans(ids: seq<string>, code: Code, f: Finding)
    ensures f in Each(ids, code) <==> f.code == code && f.eventId.Some? && f.eventId.value in ids
  {
    if f.code == code && f.eventId.Some? && f.eventId.value in ids {
      var i :| 0 <= i < |ids| && ids[i] == f.eventId.value;
      assert Each(ids, code)[i] == f;
    }
  }

  lemma GapsMean(s: seq<Event>, g: Graph, signer: string)
    ensures forall id :: id in Incompletes(g, Ids(EventSet(s)), signer) <==> IsNotice(g, id) && g[id].signer == signer && BreaksOff(s, g, id)
  {
    var missing := set id | id in MissingParents(g, Ids(EventSet(s))) && id in g && g[id].signer == signer;
    AscendingLists(Notices(g));
    OnlyIsFilter(Ascending(Notices(g)), missing);
    forall id
      ensures id in missing <==> IsNotice(g, id) && g[id].signer == signer && BreaksOff(s, g, id)
    {
      MissingMeans(s, g, id);
    }
    hide BreaksOff, MissingParents, Ascending, Only;
  }

  lemma OddMean(g: Graph, valid: map<string, Event>, anchor: string)
    ensures forall id :: id in Only(Ascending(Rooted(g, anchor)), UnsupportedNotices(valid)) <==>
                         id in g && RootedAt(g, id, anchor) && id in valid && !Known(TagOf(valid[id], "notice_type"))
  {
    AscendingLists(Rooted(g, anchor));
    OnlyIsFilter(Ascending(Rooted(g, anchor)), UnsupportedNotices(valid));
    forall id | id in valid
      ensures Supported(TagOf(valid[id], "notice_type")) <==> Known(TagOf(valid[id], "notice_type"))
    {
      KnownMeans(TagOf(valid[id], "notice_type"));
    }
    hide RootedAt, TagOf, Supported, Known, Ascending, Only;
  }

  // ---- the rejections and the findings ----

  lemma {:induction false} EventRejectionsMean(s: seq<Event>, digest: string, x: Rejection)
    ensures x in EventRejections(s, digest) <==> exists e :: e in s && !Qualifies(e, digest) && x == Rejection(e.id, Errors(e, digest))
  {
    hide Qualifies, Errors;
    if s != [] {
      var n := |s| - 1;
      assert s == s[..n] + [s[n]];
      EventRejectionsMean(s[..n], digest, x);
      ErrorsDecideQualification(s[n], digest);
    }
  }

  lemma {:induction false} AllFindingsMean(rejected: seq<Rejection>, f: Finding)
    ensures f in AllFindings(rejected) <==> exists r :: r in rejected && f in r.findings
  {
    if rejected != [] {
      var n := |rejected| - 1;
      assert rejected == rejected[..n] + [rejected[n]];
      AllFindingsMean(rejected[..n], f);
    }
  }

  lemma {:induction false} CandidateFindingsAre(candidates: seq<Candidate>, f: Finding)
    ensures f in CandidateFindings(candidates) <==> exists c :: c in candidates && f in c.findings
  {
    if candidates != [] {
      var n := |candidates| - 1;
      assert candidates == candidates[..n] + [candidates[n]];
      CandidateFindingsAre(candidates[..n], f);
    }
  }

  lemma {:induction false} WalkRejectionsMean(g: Graph, known: set<string>, ids: seq<string>, x: Rejection)
    requires forall id :: id in ids ==> IsNotice(g, id)
    ensures x in WalkRejections(g, known, ids) <==>
            exists id :: id in ids && FateOf(g, known, id).Unrooted? && x == Rejection(id, [Finding(FateOf(g, known, id).code, Some(id))])
  {
    hide HasFate;
    if ids != [] {
      var n := |ids| - 1;
      assert ids == ids[..n] + [ids[n]];
      WalkRejectionsMean(g, known, ids[..n], x);
    }
  }

  /**
   What is rejected: every supplied copy that does not qualify, with its faults, and every
   qualifying notice that is not rooted, with what became of it. And the report's findings are
   those of the rejections and candidates, with what is said of the whole.
   */
  lemma ReportMeans(events: seq<Event>, digest: string, source: string)
    ensures var s, r := SortedByData(events), Evaluation(SortedByData(events), digest, source);
            && r.digest == digest && r.source == source && r.evidence == s && r.candidates == CandidatesIn(s, digest)
            && (forall x :: x in r.rejected <==>
                  || (exists e :: e in s && !Qualifies(e, digest) && x == Rejection(e.id, Errors(e, digest)))
                  || (exists id :: IsNotice(GraphIn(s, digest), id) && FateOf(GraphIn(s, digest), Ids(EventSet(s)), id).Unrooted?
                                   && x == Rejection(id, [Finding(FateOf(GraphIn(s, digest), Ids(EventSet(s)), id).code, Some(id))])))
            && (forall f :: f in r.findings <==>
                  || f == Finding(TimestampNotVerified, None)
                  || (exists x :: x in r.rejected && f in x.findings)
                  || (f == Finding(MultipleCandidateAnchors, None) && r.standing == MultipleAnchors)
                  || (f == Finding(AnchorNotFound, None) && r.candidates == [])
                  || (exists c :: c in r.candidates && f in c.findings))
  {
    var s := SortedByData(events);
    var g, known := GraphIn(s, digest), Ids(EventSet(s));
    AscendingLists(Notices(g));
    var ids := Ascending(Notices(g));
    var walked, own := WalkRejections(g, known, ids), EventRejections(s, digest);
    var rejected, candidates, standing := own + walked, CandidatesIn(s, digest), StandingIn(s, digest);
    EvaluationIs(s, digest, source);
    hide SortedByData, GraphIn, Evaluation, Qualifies, Errors, WalkRejections, EventRejections, CandidatesIn, StandingIn, Ascending, Ids, EventSet;
    forall x
      ensures x in rejected <==>
                || (exists e :: e in s && !Qualifies(e, digest) && x == Rejection(e.id, Errors(e, digest)))
                || (exists id :: IsNotice(g, id) && FateOf(g, known, id).Unrooted? && x == Rejection(id, [Finding(FateOf(g, known, id).code, Some(id))]))
    {
      EventRejectionsMean(s, digest, x);
      WalkRejectionsMean(g, known, ids, x);
      InEither(own, walked, x);
    }
    forall f
      ensures f in AllFindings(rejected) <==> exists x :: x in rejected && f in x.findings
      ensures f in CandidateFindings(candidates) <==> exists c :: c in candidates && f in c.findings
    {
      AllFindingsMean(rejected, f);
      CandidateFindingsAre(candidates, f);
    }
  }

  lemma EvaluationIs(s: seq<Event>, digest: string, source: string)
    requires forall id :: id in Ascending(Notices(GraphIn(s, digest))) ==> IsNotice(GraphIn(s, digest), id)
    ensures var r, candidates, standing := Evaluation(s, digest, source), CandidatesIn(s, digest), StandingIn(s, digest);
            var rejected := EventRejections(s, digest) + WalkRejections(GraphIn(s, digest), Ids(EventSet(s)), Ascending(Notices(GraphIn(s, digest))));
            && r.digest == digest && r.source == source && r.evidence == s && r.candidates == candidates && r.standing == standing
            && r.rejected == rejected
            && forall f :: f in r.findings <==>
                 || f == Finding(TimestampNotVerified, None) || f in AllFindings(rejected)
                 || (f == Finding(MultipleCandidateAnchors, None) && standing == MultipleAnchors)
                 || (f == Finding(AnchorNotFound, None) && candidates == []) || f in CandidateFindings(candidates)
  {
    hide ValidMap, GraphOf, WalkRejections, EventRejections, CandidatesIn, StandingIn, AllFindings, CandidateFindings, Ascending;
  }
}
