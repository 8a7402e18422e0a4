/** The Core Record report: what it says about a body of evidence, and the evaluator that builds it. */
module CoreRecord {
  import opened Prelude
  import opened Ordering
  import opened NoticeGraph
  import opened CoreEvents
  import opened NoticeFates

  datatype Position = NoNoticeFound | Stated(notice: string) | UnsupportedType | Conflicting | Incomplete | Unverifiable

  datatype Candidate = Candidate(anchor: string, publisher: string, position: Position, terminals: seq<string>,
                                 notices: seq<string>, chains: seq<seq<string>>, findings: seq<Finding>)

  datatype Standing = MultipleAnchors | Anchored | Unchecked | InvalidAnchorEvidence | NotAnchored

  datatype Rejection = Rejection(eventId: string, findings: seq<Finding>)

  datatype Report = Report(digest: string, source: string, standing: Standing, candidates: seq<Candidate>,
                           rejected: seq<Rejection>, findings: seq<Finding>, evidence: seq<Event>)

  const NOTICE_TYPES := {"information", "caution", "do_not_use", "withdrawn", "superseded", "corrected", "other"}

  predicate Supported(notice: Option<string>) { notice.Some? && notice.value in NOTICE_TYPES }

  function Ids(events: set<Event>): set<string> { set e | e in events :: e.id }

  function IdsOfKind(valid: map<string, Event>, kind: int): set<string> {
    set id | id in valid && valid[id].kind == kind
  }

  /** The members of s, in the order of ids. */
  function Only(ids: seq<string>, s: set<string>): seq<string> {
    if ids == [] then [] else Only(ids[..|ids| - 1], s) + if ids[|ids| - 1] in s then [ids[|ids| - 1]] else []
  }

  lemma {:induction false} OnlyIsFilter(ids: seq<string>, s: set<string>)
    ensures forall x :: x in Only(ids, s) <==> x in ids && x in s
  {
    if ids != [] {
      OnlyIsFilter(ids[..|ids| - 1], s);
      assert ids == ids[..|ids| - 1] + [ids[|ids| - 1]];
    }
  }

  // ---- what the report says ----

  /** Errors of the rejected events, event by event. */
  function EventRejections(s: seq<Event>, digest: string): seq<Rejection> {
    if s == [] then []
    else
      var e := s[|s| - 1];
      EventRejections(s[..|s| - 1], digest) + if Errors(e, digest) == [] then [] else [Rejection(e.id, Errors(e, digest))]
  }

  function AllFindings(rejected: seq<Rejection>): seq<Finding> {
    if rejected == [] then [] else AllFindings(rejected[..|rejected| - 1]) + rejected[|rejected| - 1].findings
  }

  /** One rejection, with one finding, for every notice that is not rooted. */
  ghost function WalkRejections(g: Graph, known: set<string>, ids: seq<string>): seq<Rejection>
    requires forall id :: id in ids ==> IsNotice(g, id)
  {
    if ids == [] then []
    else
      var id := ids[|ids| - 1];
      var fate := FateOf(g, known, id);
      WalkRejections(g, known, ids[..|ids| - 1])
      + if fate.RootedTo? then [] else [Rejection(id, [Finding(fate.code, Some(id))])]
  }

  /** Notices whose chain leaves the evidence altogether. */
  ghost function MissingParents(g: Graph, known: set<string>): set<string> {
    set id | id in g && g[id].Notice? && FateOf(g, known, id) == Unrooted(NoticeParentMissing)
  }

  /** Some notice of this signer has such a chain. */
  ghost predicate SomeMissing(g: Graph, known: set<string>, signer: string) {
    exists id :: id in MissingParents(g, known) && g[id].signer == signer
  }

  /** Some notice of this signer could not be checked. */
  predicate SomeUnavailable(events: set<Event>, signer: string) {
    exists e :: e in events && e.kind == 1416 && e.signer == signer && UnavailableId(events, e.id)
  }

  predicate UnavailableId(events: set<Event>, id: string) {
    exists d :: d in events && d.id == id && d.check.Unavailable?
  }

  ghost function PositionOf(g: Graph, valid: map<string, Event>, events: set<Event>, anchor: string): Position
    requires anchor in g
  {
    var terminals := Terminals(g, anchor);
    if |terminals| > 1 then Conflicting
    else if SomeMissing(g, Ids(events), g[anchor].signer) then Incomplete
    else if SomeUnavailable(events, g[anchor].signer) then Unverifiable
    else if terminals == {} then NoNoticeFound
    else
      var t := Ascending(terminals)[0];
      var notice := if t in valid then TagOf(valid[t], "notice_type") else None;
      if Supported(notice) then Stated(notice.value) else UnsupportedType
  }

  /** The anchor, then the notices down to a terminal, each after its parent. */
  ghost function ChainTo(g: Graph, anchor: string, id: string): seq<string> {
    if RootedAt(g, id, anchor) then [anchor] + Reversed(Upward(g, id, anchor)) else []
  }

  ghost function Chains(g: Graph, anchor: string, terminals: seq<string>): seq<seq<string>> {
    seq(|terminals|, i requires 0 <= i < |terminals| => ChainTo(g, anchor, terminals[i]))
  }

  ghost function Incompletes(g: Graph, known: set<string>, signer: string): seq<string> {
    Only(Ascending(Notices(g)), set id | id in MissingParents(g, known) && id in g && g[id].signer == signer)
  }

  ghost function Notices(g: Graph): set<string> { set id | id in g && g[id].Notice? }

  function Each(ids: seq<string>, code: Code): seq<Finding> {
    seq(|ids|, i requires 0 <= i < |ids| => Finding(code, Some(ids[i])))
  }

  function UnsupportedNotices(valid: map<string, Event>): set<string> {
    set id | id in valid && !Supported(TagOf(valid[id], "notice_type"))
  }

  ghost function CandidateOf(g: Graph, valid: map<string, Event>, events: set<Event>, anchor: string): Candidate
    requires anchor in g
  {
    var terminals, ids := Ascending(Terminals(g, anchor)), Ascending(Rooted(g, anchor));
    Candidate(anchor, g[anchor].signer, PositionOf(g, valid, events, anchor), terminals, ids,
              Chains(g, anchor, terminals),
              (if |terminals| > 1 then [Finding(ConflictingNotices, Some(anchor))] else [])
              + Each(Incompletes(g, Ids(events), g[anchor].signer), NoticeParentMissing)
              + Each(Only(ids, UnsupportedNotices(valid)), UnsupportedNoticeType))
  }

  ghost function CandidatesOf(g: Graph, valid: map<string, Event>, events: set<Event>, anchors: seq<string>): seq<Candidate>
    requires forall a :: a in anchors ==> a in g
  {
    seq(|anchors|, i requires 0 <= i < |anchors| => CandidateOf(g, valid, events, anchors[i]))
  }

  function CandidateFindings(candidates: seq<Candidate>): seq<Finding> {
    if candidates == [] then []
    else CandidateFindings(candidates[..|candidates| - 1]) + candidates[|candidates| - 1].findings
  }

  function StandingOf(anchors: nat, events: set<Event>): Standing {
    if anchors > 1 then MultipleAnchors
    else if anchors == 1 then Anchored
    else if exists e :: e in events && e.check.Unavailable? then Unchecked
    else if exists e :: e in events && e.kind == 1415 then InvalidAnchorEvidence
    else NotAnchored
  }

  ghost function CandidatesIn(s: seq<Event>, digest: string): seq<Candidate> {
    var valid := ValidMap(s, digest);
    AscendingLists(IdsOfKind(valid, 1415));
    CandidatesOf(GraphOf(valid), valid, EventSet(s), Ascending(IdsOfKind(valid, 1415)))
  }

  ghost function StandingIn(s: seq<Event>, digest: string): Standing {
    StandingOf(|IdsOfKind(ValidMap(s, digest), 1415)|, EventSet(s))
  }

  ghost function Evaluation(s: seq<Event>, digest: string, source: string): Report {
    var valid := ValidMap(s, digest);
    var g, events := GraphOf(valid), EventSet(s);
    AscendingLists(Notices(g));
    var rejected := EventRejections(s, digest) + WalkRejections(g, Ids(events), Ascending(Notices(g)));
    var candidates, standing := CandidatesIn(s, digest), StandingIn(s, digest);
    Report(digest, source, standing, candidates, rejected,
           [Finding(TimestampNotVerified, None)] + AllFindings(rejected)
           + (if standing == MultipleAnchors then [Finding(MultipleCandidateAnchors, None)] else [])
           + (if |candidates| == 0 then [Finding(AnchorNotFound, None)] else [])
           + CandidateFindings(candidates),
           s)
  }
}
