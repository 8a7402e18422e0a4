/** The evaluator itself, loop by loop, proved to produce the report. */
module CoreRecordEvaluator {
  import opened Prelude
  import opened Ordering
  import opened NoticeGraph
  import opened CoreEvents
  import opened NoticeFates
  import opened CoreRecord

  lemma {:induction false} ValidMapIsWellformed(s: seq<Event>, digest: string)
    ensures Wellformed(ValidMap(s, digest), digest)
  {
    if s != [] {
      ValidMapIsWellformed(s[..|s| - 1], digest);
      ErrorsDecideQualification(s[|s| - 1], digest);
      hide Qualifies, Errors;
    }
  }

  lemma {:induction false} AllFindingsJoin(a: seq<Rejection>, b: seq<Rejection>)
    ensures AllFindings(a + b) == AllFindings(a) + AllFindings(b)
  {
    if b == [] {
      assert a + b == a;
    } else {
      var n := |b| - 1;
      assert (a + b)[..|a + b| - 1] == a + b[..n];
      AllFindingsJoin(a, b[..n]);
    }
  }

  lemma OneMore(rejected: seq<Rejection>, r: Rejection)
    ensures AllFindings(rejected + [r]) == AllFindings(rejected) + r.findings
  {
    assert (rejected + [r])[..|rejected|] == rejected;
  }

  lemma NoFindings()
    ensures AllFindings([]) == []
  {
  }

  // ---- checking the events ----

  method CheckEvents(s: seq<Event>, digest: string)
    returns (valid: map<string, Event>, rejected: seq<Rejection>, findings: seq<Finding>)
    ensures valid == ValidMap(s, digest) && Wellformed(valid, digest)
    ensures rejected == EventRejections(s, digest)
    ensures findings == [Finding(TimestampNotVerified, None)] + AllFindings(rejected)
  {
    hide Errors, Wellformed;
    valid, rejected := map[], [];
    findings := [Finding(TimestampNotVerified, None)];
    assert s[..0] == [];
    for i := 0 to |s|
      invariant valid == ValidMap(s[..i], digest) && rejected == EventRejections(s[..i], digest)
      invariant findings == [Finding(TimestampNotVerified, None)] + AllFindings(rejected)
    {
      var e := s[i];
      assert s[..i + 1][..i] == s[..i] && s[..i + 1][i] == e;
      var errors := Validate(e, digest);
      if errors != [] {
        var r := Rejection(e.id, errors);
        OneMore(rejected, r);
        rejected := rejected + [r];
        findings := findings + errors;
      } else {
        valid := valid[e.id := e];
      }
    }
    assert s[..|s|] == s;
    ValidMapIsWellformed(s, digest);
  }

  /** The findings remember exactly which ids could not be checked. */
  lemma {:induction false} EventFindingsTellUnavailable(s: seq<Event>, digest: string, id: string)
    ensures Finding(VerificationUnavailable, Some(id)) in AllFindings(EventRejections(s, digest))
            <==> UnavailableId(EventSet(s), id)
  {
    hide Errors;
    if s != [] {
      var n := |s| - 1;
      var e := s[n];
      assert EventSet(s) == EventSet(s[..n]) + {e} by { assert s == s[..n] + [e]; }
      EventFindingsTellUnavailable(s[..n], digest, id);
      ErrorsDecideQualification(e, digest);
      var earlier := EventRejections(s[..n], digest);
      assert Finding(VerificationUnavailable, Some(id)) in Errors(e, digest) <==> e.id == id && e.check.Unavailable?;
      if Errors(e, digest) != [] {
        OneMore(earlier, Rejection(e.id, Errors(e, digest)));
      } else {
        assert earlier + [] == earlier;
      }
      assert UnavailableId(EventSet(s), id) <==> UnavailableId(EventSet(s[..n]), id) || (e.id == id && e.check.Unavailable?);
    }
  }

  lemma {:induction false} WalkFindingsAreAboutParents(g: Graph, known: set<string>, ids: seq<string>, f: Finding)
    requires forall id :: id in ids ==> IsNotice(g, id)
    requires f in AllFindings(WalkRejections(g, known, ids))
    ensures !f.code.VerificationUnavailable?
  {
    hide HasFate;
    if ids != [] {
      var n := |ids| - 1;
      var id := ids[n];
      var fate := FateOf(g, known, id);
      assert fate.Unrooted? ==> !fate.code.VerificationUnavailable? by { FateCodes(g, known, id); }
      if fate.Unrooted? {
        var r := Rejection(id, [Finding(fate.code, Some(id))]);
        OneMore(WalkRejections(g, known, ids[..n]), r);
      } else {
        assert WalkRejections(g, known, ids[..n]) + [] == WalkRejections(g, known, ids[..n]);
      }
      if f in AllFindings(WalkRejections(g, known, ids[..n])) {
        WalkFindingsAreAboutParents(g, known, ids[..n], f);
      }
    }
  }

  lemma FateCodes(g: Graph, known: set<string>, id: string)
    requires IsNotice(g, id)
    ensures var fate := FateOf(g, known, id);
            fate.Unrooted? ==> fate.code in {NoticeCycle, NoticeParentInvalid, NoticeParentMissing, NoticeSignerMismatch}
  {
  }

  // ---- following the notices ----

  /** `roots` records who is rooted where. */
  ghost predicate RootsAre(g: Graph, known: set<string>, ids: seq<string>, roots: map<string, string>)
    requires forall id :: id in ids ==> IsNotice(g, id)
  {
    && (forall id :: id in roots <==> id in ids && FateOf(g, known, id).RootedTo?)
    && (forall id :: id in roots ==> IsNotice(g, id) && FateOf(g, known, id) == RootedTo(roots[id]))
  }

  lemma MissingTellsFate(g: Graph, known: set<string>, id: string)
    requires IsNotice(g, id)
    ensures id in MissingParents(g, known) <==> FateOf(g, known, id) == Unrooted(NoticeParentMissing)
  {
  }

  method FollowNotices(valid: map<string, Event>, digest: string, known: set<string>, ids: seq<string>)
    returns (roots: map<string, string>, unresolved: seq<string>, rejected: seq<Rejection>, findings: seq<Finding>)
    requires Wellformed(valid, digest) && forall id :: id in ids ==> IsNotice(GraphOf(valid), id)
    ensures RootsAre(GraphOf(valid), known, ids, roots)
    ensures unresolved == Only(ids, MissingParents(GraphOf(valid), known))
    ensures rejected == WalkRejections(GraphOf(valid), known, ids) && findings == AllFindings(rejected)
  {
    hide Wellformed, HasFate, GraphOf, FateOf, AllFindings, MissingParents, Climbs;
    roots, unresolved, rejected, findings := map[], [], [], [];
    assert AllFindings([]) == [] by { NoFindings(); }
    ghost var g := GraphOf(valid);
    assert ids[..0] == [];
    for i := 0 to |ids|
      invariant RootsAre(g, known, ids[..i], roots)
      invariant unresolved == Only(ids[..i], MissingParents(g, known))
      invariant rejected == WalkRejections(g, known, ids[..i]) && findings == AllFindings(rejected)
    {
      var id := ids[i];
      assert ids[..i + 1] == ids[..i] + [id] && ids[..i + 1][..i] == ids[..i];
      var fate := Walk(valid, digest, known, id);
      MissingTellsFate(g, known, id);
      if fate.RootedTo? {
        roots := roots[id := fate.anchor];
      } else {
        var item := Finding(fate.code, Some(id));
        var r := Rejection(id, [item]);
        OneMore(rejected, r);
        findings, rejected := findings + [item], rejected + [r];
        if fate.code == NoticeParentMissing { unresolved := unresolved + [id]; }
      }
    }
    assert ids[..|ids|] == ids;
  }

  // ---- one candidate ----

  /** From a terminal up to the anchor, then reversed; no lookup can miss. */
  method Chain(valid: map<string, Event>, digest: string, anchor: string, terminal: string) returns (chain: seq<string>)
    requires Wellformed(valid, digest) && RootedAt(GraphOf(valid), terminal, anchor)
    ensures chain == ChainTo(GraphOf(valid), anchor, terminal)
  {
    hide Wellformed, GraphOf, RootedAt;
    ghost var g := GraphOf(valid);
    var up := [terminal];
    ghost var last := terminal;
    RootedIsClosed(g, last, anchor);
    KeysAgree(valid);
    Entries(valid, digest, last);
    var parent := TextOf(TagOf(valid[terminal], "e"));
    while parent != anchor
      invariant |up| > 0 && up[|up| - 1] == last && IsNotice(g, last) && g[last].parent == parent
      invariant RootedAt(g, last, anchor) && up[..|up| - 1] + Upward(g, last, anchor) == Upward(g, terminal, anchor)
      decreases Depth(g, last, anchor)
    {
      DepthOfParent(g, last, anchor);
      assert Upward(g, last, anchor) == [last] + Upward(g, parent, anchor);
      assert up[..|up| - 1] + [last] == up;
      assert (up + [parent])[..|up|] == up;
      up := up + [parent];
      last := parent;
      RootedIsClosed(g, last, anchor);
      Entries(valid, digest, last);
      parent := TextOf(TagOf(valid[up[|up| - 1]], "e"));
    }
    assert Upward(g, last, anchor) == [last];
    assert up == Upward(g, terminal, anchor);
    chain := [anchor] + Reversed(up);
  }

  method ChainsTo(valid: map<string, Event>, digest: string, anchor: string, terminals: seq<string>) returns (chains: seq<seq<string>>)
    requires Wellformed(valid, digest) && forall t :: t in terminals ==> RootedAt(GraphOf(valid), t, anchor)
    ensures chains == Chains(GraphOf(valid), anchor, terminals)
  {
    hide Wellformed, GraphOf, RootedAt, ChainTo;
    chains := [];
    for i := 0 to |terminals|
      invariant |chains| == i && forall k :: 0 <= k < i ==> chains[k] == ChainTo(GraphOf(valid), anchor, terminals[k])
    {
      var c := Chain(valid, digest, anchor, terminals[i]);
      chains := chains + [c];
    }
  }

  /** `[n for n in ids if n in s]` */
  method Filter(ids: seq<string>, s: set<string>) returns (r: seq<string>)
    ensures r == Only(ids, s)
  {
    r := [];
    assert ids[..0] == [];
    for i := 0 to |ids|
      invariant r == Only(ids[..i], s)
    {
      assert ids[..i + 1][..i] == ids[..i];
      if ids[i] in s { r := r + [ids[i]]; }
    }
    assert ids[..|ids|] == ids;
  }

  lemma {:induction false} OnlyTwice(ids: seq<string>, s: set<string>, t: set<string>)
    ensures Only(Only(ids, s), t) == Only(ids, s * t)
  {
    if ids != [] {
      var n := |ids| - 1;
      OnlyTwice(ids[..n], s, t);
      var k := Only(ids[..n], s);
      if ids[n] in s {
        assert (k + [ids[n]])[..|k|] == k;
      } else {
        assert k + [] == k && Only(k, t) + [] == Only(k, t);
      }
    }
  }

  lemma {:induction false} SameFilter(ids: seq<string>, s: set<string>, t: set<string>)
    requires forall id :: id in ids ==> (id in s <==> id in t)
    ensures Only(ids, s) == Only(ids, t)
  {
    if ids != [] { SameFilter(ids[..|ids| - 1], s, t); }
  }

  lemma RootedInRoots(g: Graph, known: set<string>, roots: map<string, string>, anchor: string)
    requires (forall id :: id in Ascending(Notices(g)) ==> IsNotice(g, id)) && RootsAre(g, known, Ascending(Notices(g)), roots)
    ensures (set id | id in roots && roots[id] == anchor) == Rooted(g, anchor)
  {
    AscendingLists(Notices(g));
    hide FateOf, RootedAt, Ascending, RootsAre;
    forall id
      ensures id in roots && roots[id] == anchor <==> id in Rooted(g, anchor)
    {
      if id in roots || id in Rooted(g, anchor) { RootsTellFate(g, known, roots, id, anchor); }
    }
  }

  lemma RootsTellFate(g: Graph, known: set<string>, roots: map<string, string>, id: string, anchor: string)
    requires (forall n :: n in Ascending(Notices(g)) ==> IsNotice(g, n)) && RootsAre(g, known, Ascending(Notices(g)), roots)
    requires id in roots || id in Rooted(g, anchor)
    ensures id in roots && roots[id] == anchor <==> RootedAt(g, id, anchor)
    ensures id in roots ==> id in g
  {
    AscendingLists(Notices(g));
    if id in Rooted(g, anchor) { RootedIsClosed(g, id, anchor); }
    assert id in Ascending(Notices(g)) && IsNotice(g, id);
    EveryNoticeHasOneFate(g, known, id);
  }

  lemma RootedAreNotices(g: Graph, anchor: string)
    ensures forall id :: id in Rooted(g, anchor) ==> IsNotice(g, id)
  {
    forall id | id in Rooted(g, anchor)
      ensures IsNotice(g, id)
    {
      RootedIsClosed(g, id, anchor);
    }
  }

  lemma ParentTags(valid: map<string, Event>, digest: string, ids: set<string>)
    requires Wellformed(valid, digest) && forall id :: id in ids ==> IsNotice(GraphOf(valid), id)
    ensures forall id :: id in ids ==> id in valid
    ensures (set id | id in ids :: TextOf(TagOf(valid[id], "e"))) == Parents(GraphOf(valid), ids)
  {
    KeysAgree(valid);
    hide TagOf, Wellformed;
    var g := GraphOf(valid);
    forall id | id in ids
      ensures id in valid && g[id].parent == TextOf(TagOf(valid[id], "e"))
    {
      Entries(valid, digest, id);
    }
    forall p
      ensures p in (set id | id in ids :: TextOf(TagOf(valid[id], "e"))) <==> p in Parents(g, ids)
    {
      if p in Parents(g, ids) {
        var id :| id in ids && IsNotice(g, id) && g[id].parent == p;
      }
    }
  }

  /** Notice ids and terminals of one anchor. */
  method Terminate(valid: map<string, Event>, digest: string, ghost known: set<string>, roots: map<string, string>, anchor: string)
    returns (ids: seq<string>, terminals: seq<string>)
    requires Wellformed(valid, digest)
    requires forall id :: id in Ascending(Notices(GraphOf(valid))) ==> IsNotice(GraphOf(valid), id)
    requires RootsAre(GraphOf(valid), known, Ascending(Notices(GraphOf(valid))), roots)
    ensures ids == Ascending(Rooted(GraphOf(valid), anchor)) && terminals == Ascending(Terminals(GraphOf(valid), anchor))
  {
    ghost var g := GraphOf(valid);
    RootedInRoots(g, known, roots, anchor);
    RootedAreNotices(g, anchor);
    var rooted := set id | id in roots && roots[id] == anchor;
    ParentTags(valid, digest, rooted);
    hide RootsAre, GraphOf, Wellformed, TagOf, RootedAt, Ascending;
    ids := SortIds(rooted);
    var parents := set id | id in rooted :: TextOf(TagOf(valid[id], "e"));
    terminals := SortIds(rooted - parents);
  }

  lemma MissingAreNotices(g: Graph, known: set<string>)
    ensures MissingParents(g, known) <= Notices(g)
  {
  }

  lemma UnresolvedAreValid(valid: map<string, Event>, digest: string, known: set<string>, unresolved: seq<string>)
    requires Wellformed(valid, digest)
    requires unresolved == Only(Ascending(Notices(GraphOf(valid))), MissingParents(GraphOf(valid), known))
    ensures forall id :: id in unresolved <==> id in MissingParents(GraphOf(valid), known)
    ensures forall id :: id in unresolved ==> id in valid && GraphOf(valid)[id].signer == valid[id].signer
  {
    KeysAgree(valid);
    OnlyIsFilter(Ascending(Notices(GraphOf(valid))), MissingParents(GraphOf(valid), known));
    AscendingLists(Notices(GraphOf(valid)));
    MissingAreNotices(GraphOf(valid), known);
    hide Ascending, MissingParents, Wellformed;
    forall id | id in unresolved
      ensures id in valid && GraphOf(valid)[id].signer == valid[id].signer
    {
      Entries(valid, digest, id);
    }
  }

  lemma OwnUnresolved(g: Graph, known: set<string>, publisher: string, own: set<string>)
    requires forall id :: id in MissingParents(g, known) ==> (id in own <==> g[id].signer == publisher)
    ensures Only(Only(Ascending(Notices(g)), MissingParents(g, known)), own) == Incompletes(g, known, publisher)
    ensures Incompletes(g, known, publisher) != [] <==> SomeMissing(g, known, publisher)
  {
    var ids, missing := Ascending(Notices(g)), MissingParents(g, known);
    var theirs := set id | id in missing && id in g && g[id].signer == publisher;
    MissingAreNotices(g, known);
    AscendingLists(Notices(g));
    hide MissingParents, Ascending;
    OnlyTwice(ids, missing, own);
    SameFilter(ids, missing * own, theirs);
    OnlyIsFilter(ids, theirs);
    if Incompletes(g, known, publisher) != [] { assert Incompletes(g, known, publisher)[0] in theirs; }
  }

  /** The notices of this publisher whose chain is incomplete. */
  method FindIncomplete(valid: map<string, Event>, digest: string, ghost known: set<string>, unresolved: seq<string>, publisher: string)
    returns (incomplete: seq<string>)
    requires Wellformed(valid, digest)
    requires unresolved == Only(Ascending(Notices(GraphOf(valid))), MissingParents(GraphOf(valid), known))
    ensures incomplete == Incompletes(GraphOf(valid), known, publisher)
    ensures incomplete != [] <==> SomeMissing(GraphOf(valid), known, publisher)
  {
    hide *;
    UnresolvedAreValid(valid, digest, known, unresolved);
    var own := set id | id in unresolved && valid[id].signer == publisher;
    OwnUnresolved(GraphOf(valid), known, publisher, own);
    incomplete := Filter(unresolved, own);
  }

  /** Whether some notice of this signer could not be checked, read off the findings. */
  method AnyUnavailable(supplied: seq<Event>, findings: seq<Finding>, signer: string) returns (found: bool)
    requires forall id :: Finding(VerificationUnavailable, Some(id)) in findings <==> UnavailableId(EventSet(supplied), id)
    ensures found == SomeUnavailable(EventSet(supplied), signer)
  {
    hide UnavailableId;
    found := exists e :: e in supplied && e.kind == 1416 && e.signer == signer
                         && Finding(VerificationUnavailable, Some(e.id)) in findings;
  }

  method Place(valid: map<string, Event>, digest: string, supplied: seq<Event>, findings: seq<Finding>,
               anchor: string, terminals: seq<string>, incomplete: seq<string>)
    returns (position: Position)
    requires Wellformed(valid, digest) && anchor in GraphOf(valid) && anchor in valid
    requires terminals == Ascending(Terminals(GraphOf(valid), anchor))
    requires incomplete != [] <==> SomeMissing(GraphOf(valid), Ids(EventSet(supplied)), GraphOf(valid)[anchor].signer)
    requires forall id :: Finding(VerificationUnavailable, Some(id)) in findings <==> UnavailableId(EventSet(supplied), id)
    ensures position == PositionOf(GraphOf(valid), valid, EventSet(supplied), anchor)
  {
    ghost var g := GraphOf(valid);
    AscendingLists(Terminals(g, anchor));
    RootedAreNotices(g, anchor);
    Entries(valid, digest, anchor);
    KeysAgree(valid);
    hide EventSet, GraphOf, Wellformed, TagOf, RootedAt, Ascending, UnavailableId, MissingParents, SomeMissing, Supported, SomeUnavailable;
    if |terminals| > 1 { return Conflicting; }
    if incomplete != [] { return Incomplete; }
    var unavailable := AnyUnavailable(supplied, findings, valid[anchor].signer);
    if unavailable { return Unverifiable; }
    if terminals != [] {
      assert terminals[0] in Terminals(g, anchor);
      var value := TagOf(valid[terminals[0]], "notice_type");
      SupportedIsSome(value);
      position := if Supported(value) then Stated(value.value) else UnsupportedType;
    } else {
      position := NoNoticeFound;
    }
  }

  lemma SupportedIsSome(value: Option<string>)
    ensures Supported(value) ==> value.Some?
  {
  }

  method Flag(ids: seq<string>, code: Code) returns (findings: seq<Finding>)
    ensures findings == Each(ids, code)
  {
    findings := [];
    for i := 0 to |ids|
      invariant |findings| == i && forall k :: 0 <= k < i ==> findings[k] == Finding(code, Some(ids[k]))
    {
      findings := findings + [Finding(code, Some(ids[i]))];
    }
  }

  method Describe(valid: map<string, Event>, digest: string, supplied: seq<Event>, roots: map<string, string>,
                  unresolved: seq<string>, findings: seq<Finding>, anchor: string)
    returns (c: Candidate)
    requires Wellformed(valid, digest) && anchor in GraphOf(valid) && anchor in valid
    requires forall id :: id in Ascending(Notices(GraphOf(valid))) ==> IsNotice(GraphOf(valid), id)
    requires RootsAre(GraphOf(valid), Ids(EventSet(supplied)), Ascending(Notices(GraphOf(valid))), roots)
    requires unresolved == Only(Ascending(Notices(GraphOf(valid))), MissingParents(GraphOf(valid), Ids(EventSet(supplied))))
    requires forall id :: Finding(VerificationUnavailable, Some(id)) in findings <==> UnavailableId(EventSet(supplied), id)
    ensures c == CandidateOf(GraphOf(valid), valid, EventSet(supplied), anchor)
  {
    ghost var g, known := GraphOf(valid), Ids(EventSet(supplied));
    Entries(valid, digest, anchor);
    KeysAgree(valid);
    RootedAreNotices(g, anchor);
    AscendingLists(Rooted(g, anchor));
    AscendingLists(Terminals(g, anchor));
    hide GraphOf, Wellformed, TagOf, RootedAt, Ascending, RootsAre, MissingParents, UnavailableId, PositionOf, Chains, Incompletes;
    var ids, terminals := Terminate(valid, digest, known, roots, anchor);
    var incomplete := FindIncomplete(valid, digest, known, unresolved, valid[anchor].signer);
    var position := Place(valid, digest, supplied, findings, anchor, terminals, incomplete);
    TerminalsAreRooted(g, anchor);
    var chains := ChainsTo(valid, digest, anchor, terminals);
    var conflicts := if |terminals| > 1 then [Finding(ConflictingNotices, Some(anchor))] else [];
    var gaps := Flag(incomplete, NoticeParentMissing);
    var odd := set id | id in ids && !Supported(TagOf(valid[id], "notice_type"));
    SameFilter(ids, odd, UnsupportedNotices(valid));
    var others := Filter(ids, odd);
    var unsupported := Flag(others, UnsupportedNoticeType);
    c := Candidate(anchor, valid[anchor].signer, position, terminals, ids, chains, conflicts + gaps + unsupported);
  }

  lemma TerminalsAreRooted(g: Graph, anchor: string)
    ensures forall t :: t in Terminals(g, anchor) ==> RootedAt(g, t, anchor)
  {
  }

  // ---- the whole evaluation ----

  lemma FindingsTellUnavailable(s: seq<Event>, digest: string, ids: seq<string>, findings: seq<Finding>)
    requires forall id :: id in ids ==> IsNotice(GraphOf(ValidMap(s, digest)), id)
    requires findings == [Finding(TimestampNotVerified, None)] + AllFindings(EventRejections(s, digest))
                         + AllFindings(WalkRejections(GraphOf(ValidMap(s, digest)), Ids(EventSet(s)), ids))
    ensures forall id :: Finding(VerificationUnavailable, Some(id)) in findings <==> UnavailableId(EventSet(s), id)
  {
    forall id
      ensures Finding(VerificationUnavailable, Some(id)) in findings <==> UnavailableId(EventSet(s), id)
    {
      var f := Finding(VerificationUnavailable, Some(id));
      EventFindingsTellUnavailable(s, digest, id);
      if f in AllFindings(WalkRejections(GraphOf(ValidMap(s, digest)), Ids(EventSet(s)), ids)) {
        WalkFindingsAreAboutParents(GraphOf(ValidMap(s, digest)), Ids(EventSet(s)), ids, f);
      }
    }
  }

  lemma {:induction false} EventFindingsNameEvents(s: seq<Event>, digest: string, f: Finding)
    requires f in AllFindings(EventRejections(s, digest))
    ensures f.eventId.Some?
  {
    hide Errors, AllFindings;
    NoFindings();
    if s != [] {
      var n := |s| - 1;
      var e, earlier := s[n], EventRejections(s[..n], digest);
      ErrorsDecideQualification(e, digest);
      if Errors(e, digest) != [] {
        OneMore(earlier, Rejection(e.id, Errors(e, digest)));
      } else {
        assert earlier + [] == earlier;
      }
      if f in AllFindings(earlier) { EventFindingsNameEvents(s[..n], digest, f); }
    }
  }

  lemma UnavailableInFindings(s: seq<Event>, digest: string, ids: seq<string>, findings: seq<Finding>)
    requires forall id :: id in ids ==> IsNotice(GraphOf(ValidMap(s, digest)), id)
    requires findings == [Finding(TimestampNotVerified, None)] + AllFindings(EventRejections(s, digest))
                         + AllFindings(WalkRejections(GraphOf(ValidMap(s, digest)), Ids(EventSet(s)), ids))
    ensures (exists f :: f in findings && f.code.VerificationUnavailable?)
            <==> exists e :: e in EventSet(s) && e.check.Unavailable?
  {
    FindingsTellUnavailable(s, digest, ids, findings);
    if f :| f in findings && f.code.VerificationUnavailable? {
      if f in AllFindings(WalkRejections(GraphOf(ValidMap(s, digest)), Ids(EventSet(s)), ids)) {
        WalkFindingsAreAboutParents(GraphOf(ValidMap(s, digest)), Ids(EventSet(s)), ids, f);
      } else {
        EventFindingsNameEvents(s, digest, f);
        assert f == Finding(VerificationUnavailable, Some(f.eventId.value));
      }
    }
    if e :| e in EventSet(s) && e.check.Unavailable? {
      assert UnavailableId(EventSet(s), e.id);
      assert Finding(VerificationUnavailable, Some(e.id)) in findings;
    }
  }

  lemma KindsPartition(valid: map<string, Event>, digest: string)
    requires Wellformed(valid, digest)
    ensures IdsOfKind(valid, 1416) == Notices(GraphOf(valid))
    ensures forall id :: id in IdsOfKind(valid, 1415) ==> id in GraphOf(valid) && id in valid
    ensures forall id :: id in Notices(GraphOf(valid)) ==> IsNotice(GraphOf(valid), id)
  {
    hide Wellformed;
    KeysAgree(valid);
    forall id | id in valid
      ensures id in IdsOfKind(valid, 1416) <==> id in Notices(GraphOf(valid))
    {
      Entries(valid, digest, id);
    }
  }

  method DescribeAll(valid: map<string, Event>, digest: string, supplied: seq<Event>, roots: map<string, string>,
                     unresolved: seq<string>, findings: seq<Finding>, anchors: seq<string>)
    returns (candidates: seq<Candidate>, items: seq<Finding>)
    requires Wellformed(valid, digest) && forall a :: a in anchors ==> a in GraphOf(valid) && a in valid
    requires forall id :: id in Ascending(Notices(GraphOf(valid))) ==> IsNotice(GraphOf(valid), id)
    requires RootsAre(GraphOf(valid), Ids(EventSet(supplied)), Ascending(Notices(GraphOf(valid))), roots)
    requires unresolved == Only(Ascending(Notices(GraphOf(valid))), MissingParents(GraphOf(valid), Ids(EventSet(supplied))))
    requires forall id :: Finding(VerificationUnavailable, Some(id)) in findings <==> UnavailableId(EventSet(supplied), id)
    ensures candidates == CandidatesOf(GraphOf(valid), valid, EventSet(supplied), anchors)
    ensures items == CandidateFindings(candidates)
  {
    hide GraphOf, Wellformed, RootsAre, Ascending, MissingParents, UnavailableId, CandidateOf, Only;
    candidates, items := [], [];
    for i := 0 to |anchors|
      invariant |candidates| == i && items == CandidateFindings(candidates)
      invariant forall k :: 0 <= k < i ==> candidates[k] == CandidateOf(GraphOf(valid), valid, EventSet(supplied), anchors[k])
    {
      var c := Describe(valid, digest, supplied, roots, unresolved, findings, anchors[i]);
      assert (candidates + [c])[..|candidates|] == candidates;
      candidates, items := candidates + [c], items + c.findings;
    }
  }

  method Settle(anchors: set<string>, supplied: seq<Event>, findings: seq<Finding>) returns (standing: Standing)
    requires (exists f :: f in findings && f.code.VerificationUnavailable?)
             <==> exists e :: e in EventSet(supplied) && e.check.Unavailable?
    ensures standing == StandingOf(|anchors|, EventSet(supplied))
  {
    if |anchors| > 1 {
      standing := MultipleAnchors;
    } else if anchors != {} {
      standing := Anchored;
    } else if exists f :: f in findings && f.code.VerificationUnavailable? {
      standing := Unchecked;
    } else if exists e :: e in supplied && e.kind == 1415 {
      assert exists e :: e in EventSet(supplied) && e.kind == 1415;
      standing := InvalidAnchorEvidence;
    } else {
      standing := NotAnchored;
    }
  }

  lemma StandingOfValid(s: seq<Event>, digest: string)
    ensures StandingIn(s, digest) == StandingOf(|IdsOfKind(ValidMap(s, digest), 1415)|, EventSet(s))
    ensures StandingIn(s, digest) == MultipleAnchors <==> |IdsOfKind(ValidMap(s, digest), 1415)| > 1
  {
  }

  lemma CandidatesOfValid(s: seq<Event>, digest: string)
    requires forall id :: id in Ascending(IdsOfKind(ValidMap(s, digest), 1415)) ==> id in GraphOf(ValidMap(s, digest))
    ensures CandidatesIn(s, digest)
            == CandidatesOf(GraphOf(ValidMap(s, digest)), ValidMap(s, digest), EventSet(s), Ascending(IdsOfKind(ValidMap(s, digest), 1415)))
    ensures |CandidatesIn(s, digest)| == |Ascending(IdsOfKind(ValidMap(s, digest), 1415))|
  {
  }

  lemma EvaluationOfValid(s: seq<Event>, digest: string, source: string)
    requires forall id :: id in Ascending(Notices(GraphOf(ValidMap(s, digest)))) ==> IsNotice(GraphOf(ValidMap(s, digest)), id)
    ensures var standing, candidates := StandingIn(s, digest), CandidatesIn(s, digest);
            var g := GraphOf(ValidMap(s, digest));
            var rejected := EventRejections(s, digest) + WalkRejections(g, Ids(EventSet(s)), Ascending(Notices(g)));
            Evaluation(s, digest, source)
            == Report(digest, source, standing, candidates, rejected,
                      [Finding(TimestampNotVerified, None)] + AllFindings(rejected)
                      + (if standing == MultipleAnchors then [Finding(MultipleCandidateAnchors, None)] else [])
                      + (if |candidates| == 0 then [Finding(AnchorNotFound, None)] else [])
                      + CandidateFindings(candidates), s)
  {
  }

  lemma EventsOf(s: seq<Event>)
    ensures EventSet(s) == set e | e in s
  {
  }

  lemma Sizes(ids: set<string>)
    ensures |Ascending(ids)| == |ids| && forall x :: x in Ascending(ids) <==> x in ids
  {
    AscendingLists(ids);
  }

  method WriteReport(digest: string, supplied: seq<Event>, source: string) returns (report: Report)
    ensures report == Evaluation(supplied, digest, source)
  {
    hide *;
    var valid, rejected, findings := CheckEvents(supplied, digest);
    KindsPartition(valid, digest);
    Sizes(Notices(GraphOf(valid)));
    Sizes(IdsOfKind(valid, 1415));
    EventsOf(supplied);
    var noticeIds := SortIds(IdsOfKind(valid, 1416));
    var events := set e | e in supplied;
    var roots, unresolved, walked, items := FollowNotices(valid, digest, Ids(events), noticeIds);
    AllFindingsJoin(rejected, walked);
    rejected, findings := rejected + walked, findings + items;
    FindingsTellUnavailable(supplied, digest, noticeIds, findings);
    UnavailableInFindings(supplied, digest, noticeIds, findings);
    var anchors := IdsOfKind(valid, 1415);
    var keys := SortIds(anchors);
    var candidates, more := DescribeAll(valid, digest, supplied, roots, unresolved, findings, keys);
    CandidatesOfValid(supplied, digest);
    StandingOfValid(supplied, digest);
    EvaluationOfValid(supplied, digest, source);
    var standing := Settle(anchors, supplied, findings);
    if standing == MultipleAnchors { findings := findings + [Finding(MultipleCandidateAnchors, None)]; }
    if |anchors| == 0 { findings := findings + [Finding(AnchorNotFound, None)]; }
    findings := findings + more;
    report := Report(digest, source, standing, candidates, rejected, findings, supplied);
  }

  /**
   The evaluator: it refuses what is no digest once stripped and in lower case, and an unknown
   source; otherwise it returns the report of the sorted evidence.
   */
  method EvaluateCoreRecord(digest: string, events: seq<Event>, source: string) returns (r: Result<Report>)
    ensures r.Ok? <==> Hex64(Lower(Strip(digest))) && source in {"computed", "supplied"}
    ensures r.Ok? ==> r.value == Evaluation(SortedByData(events), Lower(Strip(digest)), source)
  {
    hide Hex64, Lower, Strip;
    var plain := Lower(Strip(digest));
    if !Hex64(plain) { return Err("OpenETR artifact digest must be a 64-character SHA-256 value"); }
    if source !in {"computed", "supplied"} { return Err("Unknown artifact digest source"); }
    hide *;
    var supplied := SortedByData(events);
    var report := WriteReport(plain, supplied, source);
    r := Ok(report);
  }
}
