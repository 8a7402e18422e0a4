/** What the report guarantees, for every body of evidence. */
module CoreRecordTheorems {
  import opened Prelude
  import opened Ordering
  import opened NoticeGraph
  import opened CoreEvents
  import opened NoticeFates
  import opened CoreRecord

  ghost function GraphIn(s: seq<Event>, digest: string): Graph { GraphOf(ValidMap(s, digest)) }

  ghost predicate IsAnchorIn(s: seq<Event>, digest: string, anchor: string) {
    anchor in ValidMap(s, digest) && ValidMap(s, digest)[anchor].kind == 1415
  }

  /** The order in which the evidence arrives makes no difference to the report. */
  lemma {:induction false} ReportIgnoresOrder(a: seq<Event>, b: seq<Event>, digest: string, source: string)
    requires multiset(a) == multiset(b) && DataTellsApart(a)
    ensures Evaluation(SortedByData(a), digest, source) == Evaluation(SortedByData(b), digest, source)
  {
    PermutedEvidence(a, b);
  }

  lemma SortedKeepsEvents(a: seq<Event>)
    ensures InOrder(SortedByData(a)) && EventSet(SortedByData(a)) == EventSet(a)
  {
    SortedIsInOrder(a);
    forall e
      ensures e in SortedByData(a) <==> e in a
    {
      assert e in multiset(SortedByData(a)) <==> e in multiset(a);
    }
  }

  lemma {:induction false} SortedTellApart(a: seq<Event>, b: seq<Event>)
    requires DataTellsApart(a + b)
    ensures DataTellsApart(SortedByData(a) + SortedByData(b))
  {
    SortedKeepsEvents(a);
    SortedKeepsEvents(b);
    forall e | e in SortedByData(a) + SortedByData(b)
      ensures e in a + b
    {
      assert e in EventSet(SortedByData(a)) || e in EventSet(SortedByData(b));
      assert e in EventSet(a) || e in EventSet(b);
    }
  }

  lemma SameEventsSameValid(a: seq<Event>, b: seq<Event>, digest: string)
    requires DataTellsApart(a + b) && SameQualifying(a, b, digest)
    ensures ValidMap(SortedByData(a), digest) == ValidMap(SortedByData(b), digest)
  {
    var s, t := SortedByData(a), SortedByData(b);
    SortedKeepsEvents(a);
    SortedKeepsEvents(b);
    SortedTellApart(a, b);
    forall e | e in s + t && Qualifies(e, digest)
      ensures e in s && e in t
    {
      assert e in EventSet(s) || e in EventSet(t);
      assert e in EventSet(a) || e in EventSet(b);
      assert e in a + b;
      assert e in EventSet(a) && e in EventSet(b);
    }
    hide Qualifies, InOrder, DataTellsApart, SortedByData, ValidMap;
    SameQualifyingSameValid(s, t, digest);
  }

  /** Supplying copies again changes neither the candidates nor the overall state. */
  lemma {:induction false} CandidatesIgnoreCopies(a: seq<Event>, b: seq<Event>, digest: string)
    requires EventSet(a) == EventSet(b) && DataTellsApart(a + b)
    ensures CandidatesIn(SortedByData(a), digest) == CandidatesIn(SortedByData(b), digest)
    ensures StandingIn(SortedByData(a), digest) == StandingIn(SortedByData(b), digest)
  {
    forall e | e in a + b
      ensures e in a && e in b
    {
      assert e in EventSet(a) && e in EventSet(b);
    }
    hide Qualifies, DataTellsApart, SortedByData, ValidMap, GraphOf, CandidatesOf;
    SameEventsSameValid(a, b, digest);
    SortedKeepsEvents(a);
    SortedKeepsEvents(b);
  }

  // ---- evidence that does not qualify ----

  lemma MissingShrinks(g: Graph, known: set<string>, more: set<string>)
    requires known <= more
    ensures MissingParents(g, more) <= MissingParents(g, known)
  {
    hide FateOf;
    forall id | id in MissingParents(g, more)
      ensures id in MissingParents(g, known)
    {
      MoreIdsOnlyFindParents(g, known, more, id);
    }
  }

  /** How a candidate can change when the graph stays and more events are supplied. */
  ghost predicate SameNotices(c: Candidate, d: Candidate) {
    && c.publisher == d.publisher && c.notices == d.notices && c.terminals == d.terminals && c.chains == d.chains
    && (c.position.Conflicting? <==> d.position.Conflicting?)
    && (d.position.Incomplete? ==> c.position.Incomplete?)
    && (c.position.Unverifiable? ==> d.position.Unverifiable?)
    && (c.position != d.position ==> c.position.Incomplete? || d.position.Unverifiable?)
  }

  lemma PositionMoves(g: Graph, valid: map<string, Event>, e: set<Event>, f: set<Event>, anchor: string)
    requires anchor in g && e <= f
    ensures var p, q := PositionOf(g, valid, e, anchor), PositionOf(g, valid, f, anchor);
            && (p.Conflicting? <==> q.Conflicting?) && (q.Incomplete? ==> p.Incomplete?)
            && (p.Unverifiable? ==> q.Unverifiable?) && (p != q ==> p.Incomplete? || q.Unverifiable?)
  {
    var signer := g[anchor].signer;
    assert Ids(e) <= Ids(f);
    MissingShrinks(g, Ids(e), Ids(f));
    assert SomeMissing(g, Ids(f), signer) ==> SomeMissing(g, Ids(e), signer);
    if SomeUnavailable(e, signer) { MoreUnavailable(e, f, signer); }
    hide SomeMissing, SomeUnavailable, Terminals, Supported, Ids, TagOf, Ascending;
  }

  /** The notice's chain leaves the graph at x, which nothing supplied carries as its id. */
  ghost predicate MissesAt(g: Graph, known: set<string>, id: string, x: string) {
    IsNotice(g, id) && x !in known && exists k: nat :: Leaves(g, id, k) && Anc(g, id, k) == x
  }

  /** Every parent this signer's notices miss is among the ids. */
  ghost predicate AllFound(g: Graph, known: set<string>, ids: set<string>, signer: string) {
    forall id, x :: MissesAt(g, known, id, x) && g[id].signer == signer ==> x in ids
  }

  /** With the added events, an id of one of this signer's notices could not be checked. */
  predicate NowUnchecked(e: set<Event>, added: set<Event>, signer: string) {
    exists n, d :: n in e + added && d in e + added && (n in added || d in added)
                   && n.kind == 1416 && n.signer == signer && d.id == n.id && d.check.Unavailable?
  }

  /** What adding events that leave the graph alone does to a position, in terms of the added events. */
  ghost predicate Moves(g: Graph, e: set<Event>, added: set<Event>, anchor: string)
    requires anchor in g
  {
    var signer := g[anchor].signer;
    && |Terminals(g, anchor)| <= 1
    && if SomeMissing(g, Ids(e), signer) then AllFound(g, Ids(e), Ids(added), signer)
       else !SomeUnavailable(e, signer) && NowUnchecked(e, added, signer)
  }

  lemma MissingIsMissed(g: Graph, known: set<string>, id: string)
    requires IsNotice(g, id)
    ensures id in MissingParents(g, known) <==> exists x :: MissesAt(g, known, id, x)
  {
    EveryNoticeHasOneFate(g, known, id);
    if k: nat :| Leaves(g, id, k) && Anc(g, id, k) !in known { assert MissesAt(g, known, id, Anc(g, id, k)); }
  }

  lemma SomeMissingIff(g: Graph, known: set<string>, added: set<string>, signer: string)
    ensures SomeMissing(g, known + added, signer) <==> !AllFound(g, known, added, signer)
  {
    if SomeMissing(g, known + added, signer) {
      var id :| id in MissingParents(g, known + added) && g[id].signer == signer;
      MissingIsMissed(g, known + added, id);
      var x :| MissesAt(g, known + added, id, x);
      assert MissesAt(g, known, id, x);
    }
    if !AllFound(g, known, added, signer) {
      var id, x :| MissesAt(g, known, id, x) && g[id].signer == signer && x !in added;
      assert MissesAt(g, known + added, id, x);
      MissingIsMissed(g, known + added, id);
    }
  }

  lemma UncheckedIff(e: set<Event>, added: set<Event>, signer: string)
    ensures SomeUnavailable(e + added, signer) <==> SomeUnavailable(e, signer) || NowUnchecked(e, added, signer)
  {
    if SomeUnavailable(e, signer) { MoreUnavailable(e, e + added, signer); }
    if SomeUnavailable(e + added, signer) {
      var n :| n in e + added && n.kind == 1416 && n.signer == signer && UnavailableId(e + added, n.id);
      var d :| d in e + added && d.id == n.id && d.check.Unavailable?;
      if n !in added && d !in added { assert UnavailableId(e, n.id); }
    }
    if NowUnchecked(e, added, signer) {
      var n, d :| n in e + added && d in e + added && (n in added || d in added)
                  && n.kind == 1416 && n.signer == signer && d.id == n.id && d.check.Unavailable?;
      assert UnavailableId(e + added, n.id);
    }
  }

  /** The position moves exactly then. */
  lemma PositionMovesIff(g: Graph, valid: map<string, Event>, e: set<Event>, f: set<Event>, anchor: string)
    requires anchor in g && e <= f
    ensures PositionOf(g, valid, e, anchor) != PositionOf(g, valid, f, anchor) <==> Moves(g, e, f - e, anchor)
  {
    var signer, added := g[anchor].signer, f - e;
    assert f == e + added;
    assert Ids(f) == Ids(e) + Ids(added) by { IdsOfUnion(e, added); }
    SomeMissingIff(g, Ids(e), Ids(added), signer);
    UncheckedIff(e, added, signer);
    FoundIsMissing(g, Ids(e), Ids(added), signer);
    hide SomeMissing, SomeUnavailable, Terminals, Supported, Ids, TagOf, Ascending, AllFound, NowUnchecked;
  }

  lemma IdsOfUnion(e: set<Event>, f: set<Event>)
    ensures Ids(e + f) == Ids(e) + Ids(f)
  {
  }

  lemma FoundIsMissing(g: Graph, known: set<string>, added: set<string>, signer: string)
    ensures !SomeMissing(g, known, signer) ==> AllFound(g, known, added, signer)
  {
    if !AllFound(g, known, added, signer) {
      var id, x :| MissesAt(g, known, id, x) && g[id].signer == signer && x !in added;
      MissingIsMissed(g, known, id);
    }
  }

  lemma CandidateMoves(g: Graph, valid: map<string, Event>, e: set<Event>, f: set<Event>, anchor: string)
    requires anchor in g && e <= f
    ensures SameNotices(CandidateOf(g, valid, e, anchor), CandidateOf(g, valid, f, anchor))
    ensures CandidateOf(g, valid, e, anchor).position != CandidateOf(g, valid, f, anchor).position <==> Moves(g, e, f - e, anchor)
  {
    PositionMoves(g, valid, e, f, anchor);
    PositionMovesIff(g, valid, e, f, anchor);
    hide *;
    CandidateParts(g, valid, e, anchor);
    CandidateParts(g, valid, f, anchor);
    SameParts(CandidateOf(g, valid, e, anchor), CandidateOf(g, valid, f, anchor));
  }

  lemma CandidateParts(g: Graph, valid: map<string, Event>, e: set<Event>, anchor: string)
    requires anchor in g
    ensures var c := CandidateOf(g, valid, e, anchor);
            && c.publisher == g[anchor].signer && c.position == PositionOf(g, valid, e, anchor)
            && c.notices == Ascending(Rooted(g, anchor)) && c.terminals == Ascending(Terminals(g, anchor))
            && c.chains == Chains(g, anchor, Ascending(Terminals(g, anchor)))
  {
  }

  lemma SameParts(c: Candidate, d: Candidate)
    requires c.publisher == d.publisher && c.notices == d.notices && c.terminals == d.terminals && c.chains == d.chains
    requires (c.position.Conflicting? <==> d.position.Conflicting?) && (d.position.Incomplete? ==> c.position.Incomplete?)
    requires (c.position.Unverifiable? ==> d.position.Unverifiable?)
    requires (c.position != d.position ==> c.position.Incomplete? || d.position.Unverifiable?)
    ensures SameNotices(c, d)
  {
  }

  /**
   Adding events that do not qualify leaves the graph, and with it every anchor's notices,
   terminals and chains, alone. The position moves exactly when there is no conflict and the
   added events either carry every id that the publisher's chains miss, or - where none was
   missing and everything was checked - make an id of one of its notices uncheckable.
   */
  lemma {:induction false} InvalidEventsLeaveNoticesAlone(a: seq<Event>, b: seq<Event>, digest: string, anchor: string)
    requires EventSet(a) <= EventSet(b) && DataTellsApart(a + b) && SameQualifying(a, b, digest)
    requires IsAnchorIn(SortedByData(a), digest, anchor)
    ensures GraphIn(SortedByData(a), digest) == GraphIn(SortedByData(b), digest)
    ensures IsAnchorIn(SortedByData(b), digest, anchor)
    ensures SameNotices(CandidateOf(GraphIn(SortedByData(a), digest), ValidMap(SortedByData(a), digest), EventSet(a), anchor),
                        CandidateOf(GraphIn(SortedByData(b), digest), ValidMap(SortedByData(b), digest), EventSet(b), anchor))
    ensures var c := CandidateOf(GraphIn(SortedByData(a), digest), ValidMap(SortedByData(a), digest), EventSet(a), anchor);
            var d := CandidateOf(GraphIn(SortedByData(b), digest), ValidMap(SortedByData(b), digest), EventSet(b), anchor);
            c.position != d.position <==> Moves(GraphIn(SortedByData(a), digest), EventSet(a), EventSet(b) - EventSet(a), anchor)
  {
    hide Qualifies, SortedByData, ValidMap, DataTellsApart, SameNotices, CandidateOf, SameQualifying, Moves;
    SameEventsSameValid(a, b, digest);
    CandidateMoves(GraphIn(SortedByData(a), digest), ValidMap(SortedByData(a), digest), EventSet(a), EventSet(b), anchor);
  }

  // An anchor, and a notice on it whose parent is x.
  function AnchorEvent(digest: string): Event {
    Event("a", 1415, "p", [[Text("o"), Text(digest)], [Text("action"), Text("issue")]], Verified, "1")
  }

  function LooseNotice(digest: string, x: string): Event {
    Event("n", 1416, "p", [[Text("o"), Text(digest)], [Text("action"), Text("notice")], [Text("e"), Text(x)],
                           [Text("notice_type"), Text("other")]], Verified, "2")
  }

  lemma LooseEvents(digest: string, x: string)
    requires Hex64(x)
    ensures Qualifies(AnchorEvent(digest), digest) && Qualifies(LooseNotice(digest, x), digest)
    ensures TagOf(LooseNotice(digest, x), "e") == Some(x)
  {
    var a, n := AnchorEvent(digest), LooseNotice(digest, x);
    assert Named(a.tags[2..], "o") == [] && Named(a.tags[1..], "o") == [] && Named(a.tags, "o") == [a.tags[0]];
    assert Named(a.tags[2..], "action") == [] && Named(a.tags[1..], "action") == [a.tags[1]] && Named(a.tags, "action") == [a.tags[1]];
    NoticeTag(digest, x, "o", 0);
    NoticeTag(digest, x, "action", 1);
    NoticeTag(digest, x, "e", 2);
    NoticeTag(digest, x, "notice_type", 3);
    hide Named;
  }

  lemma NoticeTag(digest: string, x: string, name: string, i: nat)
    requires i < 4 && name == ["o", "action", "e", "notice_type"][i]
    ensures Named(LooseNotice(digest, x).tags, name) == [LooseNotice(digest, x).tags[i]]
  {
    var t := LooseNotice(digest, x).tags;
    assert t[4..] == [] && t[3..] == [t[3]] && t[2..] == [t[2], t[3]] && t[1..] == [t[1], t[2], t[3]];
    assert |"o"| == 1 && |"action"| == 6 && |"e"| == 1 && |"notice_type"| == 11 && "o"[0] != "e"[0];
    assert Named(t[4..], name) == [];
    assert Named(t[3..], name) == if i == 3 then [t[3]] else [];
    assert t[2..][1..] == t[3..] && t[1..][1..] == t[2..];
    assert Named(t[2..], name) == if i >= 2 then [t[i]] else [];
    assert Named(t[1..], name) == if i >= 1 then [t[i]] else [];
  }

  lemma LooseValid(digest: string, x: string, bad: Event)
    requires Hex64(x) && bad.kind != 1416 && bad.check.WrongId?
    ensures !Qualifies(bad, digest)
    ensures var a, n := AnchorEvent(digest), LooseNotice(digest, x);
            && ValidMap([a, n], digest) == map["a" := a, "n" := n] && ValidMap([a, n, bad], digest) == map["a" := a, "n" := n]
  {
    var a, n := AnchorEvent(digest), LooseNotice(digest, x);
    LooseEvents(digest, x);
    ErrorsDecideQualification(a, digest);
    ErrorsDecideQualification(n, digest);
    ErrorsDecideQualification(bad, digest);
    assert a.id == "a" && n.id == "n";
    assert !Qualifies(bad, digest);
    hide TagOf, Qualifies, Errors, AnchorEvent, LooseNotice;
    assert [a, n][..1] == [a] && [a, n, bad][..2] == [a, n] && [a][..0] == [];
    assert ValidMap([a], digest) == map["a" := a];
  }

  /** The position does move: an event that merely claims the missing parent's id makes the gap disappear from it. */
  lemma InvalidEventCanHideAGap(digest: string, x: string, bad: Event)
    requires Hex64(x) && bad.id == x && bad.kind != 1416 && bad.check.WrongId?
    ensures !Qualifies(bad, digest)
    ensures var s, t := [AnchorEvent(digest), LooseNotice(digest, x)], [AnchorEvent(digest), LooseNotice(digest, x), bad];
            && IsAnchorIn(s, digest, "a") && ValidMap(s, digest) == ValidMap(t, digest)
            && PositionOf(GraphIn(s, digest), ValidMap(s, digest), EventSet(s), "a").Incomplete?
            && PositionOf(GraphIn(s, digest), ValidMap(s, digest), EventSet(t), "a").NoNoticeFound?
  {
    var a, n := AnchorEvent(digest), LooseNotice(digest, x);
    var s, t := [a, n], [a, n, bad];
    LooseValid(digest, x, bad);
    assert TagOf(n, "e") == Some(x) by { LooseEvents(digest, x); }
    hide TagOf, Qualifies, ValidMap;
    var g := GraphIn(s, digest);
    assert g == map["a" := Anchor("p"), "n" := Notice("p", x)];
    LooseGraph(g, x);
    assert EventSet(s) == {a, n} && EventSet(t) == {a, n, bad};
    assert Ids(EventSet(s)) == {"a", "n"} && Ids(EventSet(t)) == {"a", "n", x};
    assert x !in {"a", "n"};
    hide MissingParents, Rooted, Terminals, GraphIn;
    assert SomeMissing(g, Ids(EventSet(s)), "p");
    assert !SomeMissing(g, Ids(EventSet(t)), "p");
    assert !SomeUnavailable(EventSet(t), "p");
  }

  /** And the other way: a copy of a notice that cannot be checked takes the position away. */
  lemma UncheckedEventHidesThePosition(digest: string, bad: Event)
    requires bad.kind == 1416 && bad.signer == "p" && bad.check.Unavailable?
    ensures !Qualifies(bad, digest)
    ensures var s, t := [AnchorEvent(digest)], [AnchorEvent(digest), bad];
            && IsAnchorIn(s, digest, "a") && ValidMap(s, digest) == ValidMap(t, digest)
            && PositionOf(GraphIn(s, digest), ValidMap(s, digest), EventSet(s), "a").NoNoticeFound?
            && PositionOf(GraphIn(s, digest), ValidMap(s, digest), EventSet(t), "a").Unverifiable?
  {
    var a := AnchorEvent(digest);
    var s, t := [a], [a, bad];
    AloneValid(digest, bad);
    var g := GraphIn(s, digest);
    assert g == map["a" := Anchor("p")] by { hide ValidMap; }
    AloneGraph(g);
    hide TagOf, Qualifies, ValidMap, Rooted, Terminals, MissingParents;
    assert EventSet(s) == {a} && EventSet(t) == {a, bad};
    assert UnavailableId(EventSet(t), bad.id);
    assert SomeUnavailable(EventSet(t), "p");
    assert !SomeUnavailable(EventSet(s), "p");
  }

  lemma AloneValid(digest: string, bad: Event)
    requires bad.check.Unavailable?
    ensures !Qualifies(bad, digest)
    ensures var a := AnchorEvent(digest);
            ValidMap([a], digest) == map["a" := a] && ValidMap([a, bad], digest) == map["a" := a]
  {
    var a := AnchorEvent(digest);
    LooseEvents(digest, seq(64, _ => 'a'));
    ErrorsDecideQualification(a, digest);
    ErrorsDecideQualification(bad, digest);
    assert a.id == "a" && !Qualifies(bad, digest);
    hide TagOf, Qualifies, Errors, AnchorEvent;
    assert [a, bad][..1] == [a] && [a][..0] == [];
    assert ValidMap([a], digest) == map["a" := a];
  }

  lemma AloneGraph(g: Graph)
    requires g == map["a" := Anchor("p")]
    ensures Rooted(g, "a") == {} && Terminals(g, "a") == {}
    ensures forall known :: MissingParents(g, known) == {}
  {
    forall id
      ensures !RootedAt(g, id, "a")
    {
      if RootedAt(g, id, "a") { RootedIsClosed(g, id, "a"); }
    }
  }

  lemma LooseGraph(g: Graph, x: string)
    requires |x| == 64 && g == map["a" := Anchor("p"), "n" := Notice("p", x)]
    ensures Rooted(g, "a") == {} && Terminals(g, "a") == {}
    ensures forall known :: "n" in MissingParents(g, known) <==> x !in known
    ensures forall known, id :: id in MissingParents(g, known) ==> id == "n"
  {
    assert x != "a" && x != "n";
    assert Climbs(g, "n", 1) && Anc(g, "n", 1) == x && Leaves(g, "n", 1);
    assert !RootedAt(g, x, "a");
    forall id
      ensures !RootedAt(g, id, "a")
    {
      if RootedAt(g, id, "a") { RootedIsClosed(g, id, "a"); }
    }
    forall known
      ensures "n" in MissingParents(g, known) <==> x !in known
    {
      FateAtTheEnd(g, known, "n", 1, FateOf(g, known, "n"));
    }
  }

  lemma MoreUnavailable(e: set<Event>, f: set<Event>, signer: string)
    requires e <= f && SomeUnavailable(e, signer)
    ensures SomeUnavailable(f, signer)
  {
    var n :| n in e && n.kind == 1416 && n.signer == signer && UnavailableId(e, n.id);
    assert UnavailableId(f, n.id);
  }

  // ---- one position exactly when there is one line ----

  ghost predicate OneLine(g: Graph, anchor: string, line: seq<string>) {
    |line| > 0 && Linear(g, anchor, line) && Distinct(line) && Elements(line) == Rooted(g, anchor)
  }

  lemma OneTerminalIffOneLine(g: Graph, anchor: string)
    requires anchor in g && g[anchor].Anchor?
    ensures |Terminals(g, anchor)| == 1 <==> exists line :: OneLine(g, anchor, line)
    ensures forall line :: OneLine(g, anchor, line) ==> Ascending(Terminals(g, anchor)) == [line[|line| - 1]]
  {
    if |Terminals(g, anchor)| == 1 {
      AscendingLists(Terminals(g, anchor));
      var t := Ascending(Terminals(g, anchor))[0];
      assert Terminals(g, anchor) == {t} by { SingleMember(Terminals(g, anchor), t); }
      OneTerminalIsLinear(g, anchor, t);
      assert OneLine(g, anchor, Reversed(Upward(g, t, anchor)));
    }
    forall line | OneLine(g, anchor, line)
      ensures |Terminals(g, anchor)| == 1 && Ascending(Terminals(g, anchor)) == [line[|line| - 1]]
    {
      LineHasOneTerminal(g, anchor, line);
      AscendingLists(Terminals(g, anchor));
      assert Ascending(Terminals(g, anchor))[0] in Terminals(g, anchor);
    }
  }

  lemma SingleMember<T>(s: set<T>, t: T)
    requires |s| == 1 && t in s
    ensures s == {t}
  {
    assert |s - {t}| == 0;
    assert s == (s - {t}) + {t};
  }

  lemma PositionCases(g: Graph, valid: map<string, Event>, events: set<Event>, anchor: string)
    requires anchor in g
    ensures var position, terminals := PositionOf(g, valid, events, anchor), Terminals(g, anchor);
            && (position.Stated? || position.UnsupportedType? <==>
                |terminals| == 1 && !SomeUnavailable(events, g[anchor].signer)
                && !SomeMissing(g, Ids(events), g[anchor].signer))
            && (position.Stated? ==> |Ascending(terminals)| == 1
                                     && (Ascending(terminals)[0] in valid ==>
                                           TagOf(valid[Ascending(terminals)[0]], "notice_type") == Some(position.notice)))
            && (position.NoNoticeFound? ==> terminals == {})
  {
    AscendingLists(Terminals(g, anchor));
    var none: Option<string> := None;
    assert !Supported(none);
    hide TagOf, SomeMissing, SomeUnavailable, Rooted, Terminals, Ascending, Ids;
  }

  /**
   A publisher's own statement is reported exactly when all its notices form one line and
   nothing is known to be missing or unchecked; it is then the statement at the end of the line.
   */
  lemma OnePositionIffOneLine(g: Graph, valid: map<string, Event>, events: set<Event>, anchor: string)
    requires anchor in g && g[anchor].Anchor?
    ensures var position := PositionOf(g, valid, events, anchor);
            && (position.Stated? || position.UnsupportedType? <==>
                (exists line :: OneLine(g, anchor, line))
                && !SomeMissing(g, Ids(events), g[anchor].signer)
                && !SomeUnavailable(events, g[anchor].signer))
            && (forall line :: position.Stated? && OneLine(g, anchor, line) && line[|line| - 1] in valid ==>
                                 TagOf(valid[line[|line| - 1]], "notice_type") == Some(position.notice))
            && (position.NoNoticeFound? ==> Rooted(g, anchor) == {})
  {
    OneTerminalIffOneLine(g, anchor);
    if Rooted(g, anchor) != {} { TerminalsExist(g, anchor); }
    PositionCases(g, valid, events, anchor);
    forall line | OneLine(g, anchor, line)
      ensures |line| > 0
    {
    }
    hide PositionOf, TagOf, OneLine, SomeMissing, SomeUnavailable, Rooted, Terminals, Ascending, Ids;
  }

  /** The chains of a candidate: one per terminal, each from the anchor down in parent order, and together they show every notice. */
  lemma ChainsShowEverything(g: Graph, anchor: string)
    requires anchor in g && g[anchor].Anchor?
    ensures var terminals := Ascending(Terminals(g, anchor));
            var chains := Chains(g, anchor, terminals);
            && |chains| == |Terminals(g, anchor)|
            && (forall i :: 0 <= i < |chains| ==>
                  |chains[i]| > 1 && chains[i][0] == anchor && chains[i][|chains[i]| - 1] == terminals[i]
                  && Linear(g, anchor, chains[i][1..]) && Distinct(chains[i][1..]) && Elements(chains[i][1..]) <= Rooted(g, anchor))
            && (forall id :: id in Rooted(g, anchor) ==> exists i :: 0 <= i < |chains| && id in chains[i])
  {
    var terminals := Ascending(Terminals(g, anchor));
    var chains := Chains(g, anchor, terminals);
    AscendingLists(Terminals(g, anchor));
    forall i | 0 <= i < |chains|
      ensures |chains[i]| > 1 && chains[i][0] == anchor && chains[i][|chains[i]| - 1] == terminals[i]
      ensures Linear(g, anchor, chains[i][1..]) && Distinct(chains[i][1..]) && Elements(chains[i][1..]) <= Rooted(g, anchor)
    {
      assert terminals[i] in Terminals(g, anchor);
      ChainShape(g, terminals[i], anchor);
      assert chains[i] == [anchor] + Reversed(Upward(g, terminals[i], anchor));
      assert chains[i][1..] == Reversed(Upward(g, terminals[i], anchor));
    }
    forall id | id in Rooted(g, anchor)
      ensures exists i :: 0 <= i < |chains| && id in chains[i]
    {
      EveryNoticeIsReported(g, anchor, id);
      var t :| t in Terminals(g, anchor) && RootedAt(g, t, anchor) && id in Reversed(Upward(g, t, anchor));
      assert t in terminals;
      var i :| 0 <= i < |terminals| && terminals[i] == t;
      assert chains[i] == [anchor] + Reversed(Upward(g, t, anchor));
    }
  }

  // ---- every notice is accounted for once ----

  lemma {:induction false} WalkRejectionsName(g: Graph, known: set<string>, ids: seq<string>)
    requires forall id :: id in ids ==> IsNotice(g, id)
    requires Distinct(ids)
    ensures var w := WalkRejections(g, known, ids);
            && (forall i, j :: 0 <= i < j < |w| ==> w[i].eventId != w[j].eventId)
            && (forall i :: 0 <= i < |w| ==> w[i].eventId in ids && FateOf(g, known, w[i].eventId).Unrooted?)
            && (forall i :: 0 <= i < |w| ==>
                              w[i].findings == [Finding(FateOf(g, known, w[i].eventId).code, Some(w[i].eventId))])
            && (forall id :: id in ids && FateOf(g, known, id).Unrooted? ==> exists i :: 0 <= i < |w| && w[i].eventId == id)
  {
    hide HasFate;
    if ids != [] {
      var n := |ids| - 1;
      var prior := WalkRejections(g, known, ids[..n]);
      assert ids == ids[..n] + [ids[n]];
      WalkRejectionsName(g, known, ids[..n]);
      var w := WalkRejections(g, known, ids);
      forall i | 0 <= i < |prior|
        ensures prior[i].eventId != ids[n]
      {
        assert prior[i].eventId in ids[..n];
      }
      forall id | id in ids && FateOf(g, known, id).Unrooted?
        ensures exists i :: 0 <= i < |w| && w[i].eventId == id
      {
        if id in ids[..n] {
          var i :| 0 <= i < |prior| && prior[i].eventId == id;
          assert w[i] == prior[i];
        } else {
          assert w[|prior|].eventId == id;
        }
      }
    }
  }

  /** The i-th rejection is the only one about this notice, and gives one of the four reasons. */
  ghost predicate RejectedHere(w: seq<Rejection>, i: nat, id: string)
    requires i < |w|
  {
    && w[i].eventId == id && (forall j :: 0 <= j < |w| && j != i ==> w[j].eventId != id)
    && |w[i].findings| == 1 && w[i].findings[0].eventId == Some(id)
    && w[i].findings[0].code in {NoticeCycle, NoticeParentInvalid, NoticeParentMissing, NoticeSignerMismatch}
  }

  /**
   A qualifying notice is either listed under exactly one anchor and not rejected, or listed
   under none and rejected exactly once, with exactly one of the four codes.
   */
  lemma EveryNoticeIsPlacedOnce(g: Graph, known: set<string>, id: string)
    requires IsNotice(g, id)
    requires forall n :: n in Ascending(Notices(g)) ==> IsNotice(g, n)
    ensures var w := WalkRejections(g, known, Ascending(Notices(g)));
            if exists a :: id in Rooted(g, a) then
              && (forall a, b :: id in Rooted(g, a) && id in Rooted(g, b) ==> a == b)
              && (forall i :: 0 <= i < |w| ==> w[i].eventId != id)
            else
              exists i :: 0 <= i < |w| && RejectedHere(w, i, id)
  {
    var ids := Ascending(Notices(g));
    AscendingLists(Notices(g));
    assert Distinct(ids);
    WalkRejectionsName(g, known, ids);
    EveryNoticeHasOneFate(g, known, id);
    var fate := FateOf(g, known, id);
    var w := WalkRejections(g, known, ids);
    assert id in ids;
    hide RootedAt, Ascending;
    if fate.Unrooted? {
      var i :| 0 <= i < |w| && w[i].eventId == id;
      assert w[i].findings == [Finding(fate.code, Some(id))];
      assert fate.code in {NoticeCycle, NoticeParentInvalid, NoticeParentMissing, NoticeSignerMismatch};
      assert RejectedHere(w, i, id);
    } else {
      assert id in Rooted(g, fate.anchor);
    }
  }
}
