/** Walking from each qualifying notice to its anchor, and the one verdict every notice gets. */
module NoticeFates {
  import opened NoticeGraph
  import opened CoreEvents

  datatype Fate = RootedTo(anchor: string) | Unrooted(code: Code)

  /** What a verdict claims about the graph, however it was reached. */
  ghost predicate HasFate(g: Graph, known: set<string>, id: string, fate: Fate) {
    if fate.RootedTo? then RootedAt(g, id, fate.anchor)
    else if fate.code.NoticeCycle? then Cyclic(g, id)
    else if fate.code.NoticeParentInvalid? then exists k: nat :: Leaves(g, id, k) && Anc(g, id, k) in known
    else if fate.code.NoticeParentMissing? then exists k: nat :: Leaves(g, id, k) && Anc(g, id, k) !in known
    else fate.code.NoticeSignerMismatch? && exists k: nat :: Foreign(g, id, k)
  }

  /** The walk lands on an anchor but some notice on the way is signed by someone else. */
  ghost predicate Foreign(g: Graph, id: string, k: nat) {
    exists a :: Lands(g, id, k, a) && !SameSigner(g, id, k, g[a].signer)
  }

  lemma FateAtTheEnd(g: Graph, known: set<string>, id: string, k: nat, fate: Fate)
    requires IsNotice(g, id) && Climbs(g, id, k) && !IsNotice(g, Anc(g, id, k)) && HasFate(g, known, id, fate)
    ensures var end := Anc(g, id, k);
            fate == if end !in g then Unrooted(if end in known then NoticeParentInvalid else NoticeParentMissing)
                    else if SameSigner(g, id, k, g[end].signer) then RootedTo(end)
                    else Unrooted(NoticeSignerMismatch)
  {
    EndIsNotCyclic(g, id, k);
    forall j: nat | Climbs(g, id, j) && !IsNotice(g, Anc(g, id, j))
      ensures j == k
    {
      EndIsUnique(g, id, j, k);
    }
  }

  /** No notice gets two verdicts. */
  lemma FateIsUnique(g: Graph, known: set<string>, id: string, e: Fate, f: Fate)
    requires IsNotice(g, id) && HasFate(g, known, id, e) && HasFate(g, known, id, f)
    ensures e == f
  {
    if exists k: nat :: Climbs(g, id, k) && !IsNotice(g, Anc(g, id, k)) {
      var k: nat :| Climbs(g, id, k) && !IsNotice(g, Anc(g, id, k));
      FateAtTheEnd(g, known, id, k, e);
      FateAtTheEnd(g, known, id, k, f);
    } else {
      assert e.Unrooted? && e.code.NoticeCycle?;
      assert f.Unrooted? && f.code.NoticeCycle?;
    }
  }

  lemma {:induction false} ClimbStops(g: Graph, id: string, k: nat) returns (j: nat)
    requires !Climbs(g, id, k)
    ensures j < k && Climbs(g, id, j) && !IsNotice(g, Anc(g, id, j))
  {
    if Climbs(g, id, k - 1) {
      j := k - 1;
      ClimbOne(g, id, j);
    } else {
      j := ClimbStops(g, id, k - 1);
    }
  }

  /** Every notice gets a verdict, whatever the parent links do. */
  lemma FateExists(g: Graph, known: set<string>, id: string) returns (fate: Fate)
    requires IsNotice(g, id)
    ensures HasFate(g, known, id, fate)
  {
    if k: nat :| !Climbs(g, id, k) {
      var j := ClimbStops(g, id, k);
      var end := Anc(g, id, j);
      if end in g {
        assert Lands(g, id, j, end);
        if SameSigner(g, id, j, g[end].signer) {
          fate := RootedTo(end);
        } else {
          assert Foreign(g, id, j);
          fate := Unrooted(NoticeSignerMismatch);
        }
      } else {
        assert Leaves(g, id, j);
        fate := Unrooted(if end in known then NoticeParentInvalid else NoticeParentMissing);
      }
    } else {
      fate := Unrooted(NoticeCycle);
    }
  }

  /** The verdict. */
  ghost function FateOf(g: Graph, known: set<string>, id: string): (fate: Fate)
    requires IsNotice(g, id)
    ensures HasFate(g, known, id, fate)
  {
    assert exists f :: HasFate(g, known, id, f) by {
      var f := FateExists(g, known, id);
    }
    var fate :| HasFate(g, known, id, fate);
    fate
  }

  /**
   Exactly one of five things happens to a notice: it is rooted, at one anchor only,
   or it is turned down with one of four codes.
   */
  lemma EveryNoticeHasOneFate(g: Graph, known: set<string>, id: string)
    requires IsNotice(g, id)
    ensures forall a :: RootedAt(g, id, a) <==> FateOf(g, known, id) == RootedTo(a)
    ensures Cyclic(g, id) <==> FateOf(g, known, id) == Unrooted(NoticeCycle)
    ensures (exists k: nat :: Leaves(g, id, k) && Anc(g, id, k) in known) <==> FateOf(g, known, id) == Unrooted(NoticeParentInvalid)
    ensures (exists k: nat :: Leaves(g, id, k) && Anc(g, id, k) !in known) <==> FateOf(g, known, id) == Unrooted(NoticeParentMissing)
    ensures (exists k: nat :: Foreign(g, id, k)) <==> FateOf(g, known, id) == Unrooted(NoticeSignerMismatch)
  {
    var fate := FateOf(g, known, id);
    forall f | HasFate(g, known, id, f)
      ensures f == fate
    {
      FateIsUnique(g, known, id, f, fate);
    }
    hide FateOf, RootedAt, Cyclic, Leaves, Foreign;
    forall a
      ensures RootedAt(g, id, a) <==> fate == RootedTo(a)
    {
      assert HasFate(g, known, id, RootedTo(a)) <==> RootedAt(g, id, a);
    }
    assert HasFate(g, known, id, Unrooted(NoticeCycle)) <==> Cyclic(g, id);
    assert HasFate(g, known, id, Unrooted(NoticeParentInvalid)) <==> exists k: nat :: Leaves(g, id, k) && Anc(g, id, k) in known;
    assert HasFate(g, known, id, Unrooted(NoticeParentMissing)) <==> exists k: nat :: Leaves(g, id, k) && Anc(g, id, k) !in known;
    assert HasFate(g, known, id, Unrooted(NoticeSignerMismatch)) <==> exists k: nat :: Foreign(g, id, k);
  }

  /** More supplied ids, same qualifying events: a missing parent may become an invalid one, and nothing else moves. */
  lemma MoreIdsOnlyFindParents(g: Graph, known: set<string>, more: set<string>, id: string)
    requires IsNotice(g, id) && known <= more
    ensures FateOf(g, more, id) == FateOf(g, known, id)
            || (FateOf(g, known, id) == Unrooted(NoticeParentMissing) && FateOf(g, more, id) == Unrooted(NoticeParentInvalid)
                && exists k: nat :: Leaves(g, id, k) && Anc(g, id, k) in more - known)
  {
    EveryNoticeHasOneFate(g, known, id);
    EveryNoticeHasOneFate(g, more, id);
    var e, f := FateOf(g, known, id), FateOf(g, more, id);
    assert HasFate(g, known, id, e) && HasFate(g, more, id, f);
    if !(e.Unrooted? && e.code.NoticeParentMissing?) {
      assert HasFate(g, more, id, e);
    } else {
      var k: nat :| Leaves(g, id, k) && Anc(g, id, k) !in known;
      assert Anc(g, id, k) in more ==> Leaves(g, id, k) && Anc(g, id, k) in more - known;
      assert HasFate(g, more, id, Unrooted(if Anc(g, id, k) in more then NoticeParentInvalid else NoticeParentMissing));
    }
  }

  // ---- the walk ----

  /** The qualifying events by id. */
  predicate Wellformed(valid: map<string, Event>, digest: string) {
    forall id :: id in valid ==> valid[id].id == id && Qualifies(valid[id], digest)
  }

  lemma Entries(valid: map<string, Event>, digest: string, id: string)
    requires Wellformed(valid, digest) && id in valid
    ensures var g := GraphOf(valid);
            && id in g && g[id].signer == valid[id].signer
            && (valid[id].kind == 1415 || valid[id].kind == 1416)
            && (g[id].Anchor? <==> valid[id].kind == 1415)
            && (g[id].Notice? ==> g[id].parent == TextOf(TagOf(valid[id], "e")))
  {
  }

  /** The ids passed in the first k links. */
  function Passed(g: Graph, id: string, k: nat): set<string>
    requires Climbs(g, id, k)
    decreases k
  {
    if k == 0 then {} else {id} + Passed(g, g[id].parent, k - 1)
  }

  lemma {:induction false} AncIsPassed(g: Graph, id: string, j: nat, k: nat)
    requires j < k && Climbs(g, id, k)
    ensures Climbs(g, id, j) && Anc(g, id, j) in Passed(g, id, k)
    decreases j
  {
    if j > 0 { AncIsPassed(g, g[id].parent, j - 1, k - 1); }
  }

  lemma {:induction false} PassedIsAnc(g: Graph, id: string, k: nat, x: string) returns (j: nat)
    requires Climbs(g, id, k) && x in Passed(g, id, k)
    ensures j < k && Climbs(g, id, j) && Anc(g, id, j) == x && IsNotice(g, x)
    decreases k
  {
    if x == id {
      j := 0;
    } else {
      var i := PassedIsAnc(g, g[id].parent, k - 1, x);
      j := i + 1;
    }
  }

  /** x is met within the first k links. */
  ghost predicate Met(g: Graph, id: string, k: nat, x: string) {
    exists j: nat :: j < k && Climbs(g, id, j) && Anc(g, id, j) == x
  }

  lemma {:induction false} PassedAre(g: Graph, id: string, k: nat)
    requires Climbs(g, id, k)
    ensures forall x :: x in Passed(g, id, k) <==> Met(g, id, k, x)
    ensures forall x :: x in Passed(g, id, k) ==> IsNotice(g, x)
  {
    forall x
      ensures x in Passed(g, id, k) ==> IsNotice(g, x)
      ensures x in Passed(g, id, k) <==> Met(g, id, k, x)
    {
      if x in Passed(g, id, k) { var j := PassedIsAnc(g, id, k, x); }
      if j: nat :| j < k && Climbs(g, id, j) && Anc(g, id, j) == x { AncIsPassed(g, id, j, k); }
    }
  }

  lemma PassOne(g: Graph, id: string, k: nat)
    requires Climbs(g, id, k + 1) && Climbs(g, id, k)
    ensures Passed(g, id, k + 1) == Passed(g, id, k) + {Anc(g, id, k)}
  {
    PassedAre(g, id, k);
    PassedAre(g, id, k + 1);
    forall x
      ensures x in Passed(g, id, k + 1) <==> x in Passed(g, id, k) + {Anc(g, id, k)}
    {
      if x in Passed(g, id, k + 1) {
        var j: nat :| j < k + 1 && Climbs(g, id, j) && Anc(g, id, j) == x;
      }
    }
  }

  /** The verdict when the walk stands on a notice it has met before. */
  lemma MetAgain(g: Graph, known: set<string>, id: string, k: nat)
    requires IsNotice(g, id) && Climbs(g, id, k) && Anc(g, id, k) in Passed(g, id, k)
    ensures FateOf(g, known, id) == Unrooted(NoticeCycle)
  {
    PassedAre(g, id, k);
    var j: nat :| j < k && Climbs(g, id, j) && Anc(g, id, j) == Anc(g, id, k);
    forall n: nat
      ensures Climbs(g, id, n)
    {
      RepeatIsCyclic(g, id, j, k, n);
    }
    FateIsUnique(g, known, id, FateOf(g, known, id), Unrooted(NoticeCycle));
  }

  /** Comparing the signers of the ids passed with the anchor's is comparing all signers on the way. */
  lemma PassedSigners(g: Graph, id: string, k: nat, signer: string)
    requires Climbs(g, id, k)
    ensures (forall x :: x in Passed(g, id, k) ==> IsNotice(g, x) && g[x].signer == signer) <==> SameSigner(g, id, k, signer)
  {
    PassedAre(g, id, k);
    if SameSigner(g, id, k, signer) {
      forall x | x in Passed(g, id, k)
        ensures g[x].signer == signer
      {
        var j: nat :| j < k && Climbs(g, id, j) && Anc(g, id, j) == x;
      }
    }
  }

  /** One notice's walk: parent by parent, remembering where it has been. */
  method Walk(valid: map<string, Event>, digest: string, known: set<string>, id: string) returns (fate: Fate)
    requires Wellformed(valid, digest) && IsNotice(GraphOf(valid), id)
    ensures fate == FateOf(GraphOf(valid), known, id)
  {
    hide HasFate, Cyclic, RootedAt, Qualifies, GraphOf, Wellformed;
    ghost var g, k: nat := GraphOf(valid), 0;
    assert forall x :: x in g <==> x in valid by { KeysAgree(valid); }
    Entries(valid, digest, id);
    var path, current := {}, valid[id];
    assert current.id == id by { OwnId(valid, digest, id); }
    while current.kind == 1416
      invariant Climbs(g, id, k) && path == Passed(g, id, k)
      invariant current.id == Anc(g, id, k) && current.id in valid && valid[current.id] == current
      invariant path <= valid.Keys
      decreases valid.Keys - path
    {
      Entries(valid, digest, current.id);
      if current.id in path {
        MetAgain(g, known, id, k);
        return Unrooted(NoticeCycle);
      }
      ClimbOne(g, id, k);
      PassOne(g, id, k);
      k := k + 1;
      path := path + {current.id};
      var parent := TextOf(TagOf(current, "e"));
      if parent !in valid {
        fate := Unrooted(if parent in known then NoticeParentInvalid else NoticeParentMissing);
        FateAtTheEnd(g, known, id, k, FateOf(g, known, id));
        return;
      }
      OwnId(valid, digest, parent);
      current := valid[parent];
    }
    Entries(valid, digest, current.id);
    PassedAre(g, id, k);
    PassedSigners(g, id, k, current.signer);
    forall x | x in path
      ensures g[x].signer == valid[x].signer
    {
      Entries(valid, digest, x);
    }
    FateAtTheEnd(g, known, id, k, FateOf(g, known, id));
    if exists item :: item in path && valid[item].signer != current.signer {
      fate := Unrooted(NoticeSignerMismatch);
    } else {
      fate := RootedTo(current.id);
    }
  }

  lemma KeysAgree(valid: map<string, Event>)
    ensures forall x :: x in GraphOf(valid) <==> x in valid
  {
  }

  lemma OwnId(valid: map<string, Event>, digest: string, id: string)
    requires Wellformed(valid, digest) && id in valid
    ensures valid[id].id == id
  {
  }
}
