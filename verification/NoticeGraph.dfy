/**
 Notices pointing at parents: what it means for a notice to be rooted at an
 anchor, to run in a cycle or to leave the evidence, independently of how an
 evaluator finds out; and the shape of the notices rooted at one anchor.
 */
module NoticeGraph {

  datatype Entry = Anchor(signer: string) | Notice(signer: string, parent: string)

  type Graph = map<string, Entry>

  predicate IsNotice(g: Graph, id: string) { id in g && g[id].Notice? }

  /** Following parent links k times passes notices only. */
  predicate Climbs(g: Graph, id: string, k: nat)
    decreases k
  {
    k == 0 || (IsNotice(g, id) && Climbs(g, g[id].parent, k - 1))
  }

  /** The k-th ancestor. */
  function Anc(g: Graph, id: string, k: nat): string
    requires Climbs(g, id, k)
    decreases k
  {
    if k == 0 then id else Anc(g, g[id].parent, k - 1)
  }

  /** The k-th ancestor is an anchor. */
  predicate Lands(g: Graph, id: string, k: nat, a: string) {
    Climbs(g, id, k) && Anc(g, id, k) == a && a in g && g[a].Anchor?
  }

  /** The k-th ancestor is not part of the graph. */
  predicate Leaves(g: Graph, id: string, k: nat) {
    Climbs(g, id, k) && Anc(g, id, k) !in g
  }

  predicate SameSigner(g: Graph, id: string, k: nat, signer: string) {
    Climbs(g, id, k) && forall j :: 0 <= j < k && Climbs(g, id, j) && IsNotice(g, Anc(g, id, j)) ==> g[Anc(g, id, j)].signer == signer
  }

  ghost predicate Cyclic(g: Graph, id: string) { forall k: nat :: Climbs(g, id, k) }

  ghost predicate RootedAt(g: Graph, id: string, a: string) {
    exists k: nat :: k > 0 && Lands(g, id, k, a) && SameSigner(g, id, k, g[a].signer)
  }

  // ---- following links ----

  lemma {:induction false} ClimbsLess(g: Graph, id: string, j: nat, k: nat)
    requires j <= k && Climbs(g, id, k)
    ensures Climbs(g, id, j)
    decreases j
  {
    if j > 0 { ClimbsLess(g, g[id].parent, j - 1, k - 1); }
  }

  lemma {:induction false} ClimbOn(g: Graph, id: string, j: nat, k: nat)
    requires Climbs(g, id, j)
    ensures Climbs(g, id, j + k) <==> Climbs(g, Anc(g, id, j), k)
    ensures Climbs(g, id, j + k) ==> Anc(g, id, j + k) == Anc(g, Anc(g, id, j), k)
    decreases j
  {
    if j > 0 { ClimbOn(g, g[id].parent, j - 1, k); }
  }

  /** One more link. */
  lemma ClimbOne(g: Graph, id: string, k: nat)
    requires Climbs(g, id, k)
    ensures Climbs(g, id, k + 1) <==> IsNotice(g, Anc(g, id, k))
    ensures Climbs(g, id, k + 1) ==> Anc(g, id, k + 1) == g[Anc(g, id, k)].parent
  {
    ClimbOn(g, id, k, 1);
    var top := Anc(g, id, k);
    assert Climbs(g, top, 1) <==> IsNotice(g, top);
    assert Climbs(g, top, 1) ==> Anc(g, top, 1) == Anc(g, g[top].parent, 0);
  }

  /** An ancestor met twice is met forever. */
  lemma {:induction false} RepeatIsCyclic(g: Graph, id: string, i: nat, j: nat, k: nat)
    requires i < j && Climbs(g, id, j) && Climbs(g, id, i) && Anc(g, id, i) == Anc(g, id, j)
    ensures Climbs(g, id, k)
    decreases k
  {
    if k <= j {
      ClimbsLess(g, id, k, j);
    } else {
      RepeatIsCyclic(g, id, i, j, k - (j - i));
      ClimbOn(g, id, i, k - j);
      ClimbOn(g, id, j, k - j);
    }
  }

  /** A walk that ends, at an anchor or outside the graph, ends in one place. */
  lemma EndIsUnique(g: Graph, id: string, j: nat, k: nat)
    requires Climbs(g, id, j) && !IsNotice(g, Anc(g, id, j))
    requires Climbs(g, id, k) && !IsNotice(g, Anc(g, id, k))
    ensures j == k
  {
    NothingBeyondTheEnd(g, id, j, k);
    NothingBeyondTheEnd(g, id, k, j);
  }

  lemma NothingBeyondTheEnd(g: Graph, id: string, j: nat, k: nat)
    requires Climbs(g, id, j) && !IsNotice(g, Anc(g, id, j)) && Climbs(g, id, k)
    ensures k <= j
  {
    ClimbOne(g, id, j);
    if j < k { ClimbsLess(g, id, j + 1, k); }
  }

  lemma EndIsNotCyclic(g: Graph, id: string, k: nat)
    requires Climbs(g, id, k) && !IsNotice(g, Anc(g, id, k))
    ensures !Cyclic(g, id)
  {
    ClimbOne(g, id, k);
  }

  lemma RootIsUnique(g: Graph, id: string, a: string, b: string)
    requires RootedAt(g, id, a) && RootedAt(g, id, b)
    ensures a == b
  {
    var j: nat :| j > 0 && Lands(g, id, j, a) && SameSigner(g, id, j, g[a].signer);
    var k: nat :| k > 0 && Lands(g, id, k, b) && SameSigner(g, id, k, g[b].signer);
    EndIsUnique(g, id, j, k);
  }

  // ---- the notices rooted at one anchor ----

  ghost function Rooted(g: Graph, a: string): set<string> {
    set id | id in g && RootedAt(g, id, a)
  }

  ghost function Parents(g: Graph, ids: set<string>): set<string> {
    set id | id in ids && IsNotice(g, id) :: g[id].parent
  }

  ghost function Terminals(g: Graph, a: string): set<string> {
    Rooted(g, a) - Parents(g, Rooted(g, a))
  }

  /** Rooted notices are closed under taking parents, and all carry the anchor's signer. */
  lemma RootedIsClosed(g: Graph, id: string, a: string)
    requires RootedAt(g, id, a)
    ensures IsNotice(g, id) && a in g && g[a].Anchor? && g[id].signer == g[a].signer
    ensures g[id].parent == a || RootedAt(g, g[id].parent, a)
  {
    var k: nat :| k > 0 && Lands(g, id, k, a) && SameSigner(g, id, k, g[a].signer);
    assert Climbs(g, id, 0) && Anc(g, id, 0) == id;
    var up := g[id].parent;
    assert Anc(g, id, k) == Anc(g, up, k - 1);
    if k > 1 {
      assert Lands(g, up, k - 1, a);
      forall j | 0 <= j < k - 1 && Climbs(g, up, j) && IsNotice(g, Anc(g, up, j))
        ensures g[Anc(g, up, j)].signer == g[a].signer
      {
        assert Climbs(g, id, j + 1) && Anc(g, id, j + 1) == Anc(g, up, j);
      }
      assert SameSigner(g, up, k - 1, g[a].signer);
    }
  }

  lemma ChildIsRooted(g: Graph, id: string, a: string)
    requires IsNotice(g, id) && a in g && g[a].Anchor? && g[id].signer == g[a].signer
    requires g[id].parent == a || RootedAt(g, g[id].parent, a)
    ensures RootedAt(g, id, a)
  {
    var up := g[id].parent;
    var k: nat := 0;
    if up != a {
      k :| k > 0 && Lands(g, up, k, a) && SameSigner(g, up, k, g[a].signer);
    }
    assert Climbs(g, up, k) && Anc(g, up, k) == a;
    assert Lands(g, id, k + 1, a);
    forall j | 0 <= j < k + 1 && Climbs(g, id, j) && IsNotice(g, Anc(g, id, j))
      ensures g[Anc(g, id, j)].signer == g[a].signer
    {
      if j > 0 {
        assert Climbs(g, up, j - 1) && Anc(g, id, j) == Anc(g, up, j - 1);
      }
    }
    assert SameSigner(g, id, k + 1, g[a].signer);
  }

  /** So being rooted is decided one link at a time. */
  lemma RootedByParent(g: Graph, id: string, a: string)
    ensures RootedAt(g, id, a) <==>
              && IsNotice(g, id) && a in g && g[a].Anchor? && g[id].signer == g[a].signer
              && (g[id].parent == a || RootedAt(g, g[id].parent, a))
  {
    if RootedAt(g, id, a) { RootedIsClosed(g, id, a); }
    if IsNotice(g, id) && a in g && g[a].Anchor? && g[id].signer == g[a].signer
       && (g[id].parent == a || RootedAt(g, g[id].parent, a)) {
      ChildIsRooted(g, id, a);
    }
  }

  /** How many links a rooted notice is from its anchor. */
  ghost function Depth(g: Graph, id: string, a: string): (d: nat)
    requires RootedAt(g, id, a)
    ensures d > 0 && Lands(g, id, d, a)
  {
    var k: nat :| k > 0 && Lands(g, id, k, a) && SameSigner(g, id, k, g[a].signer); k
  }

  lemma {:induction false} DepthOfParent(g: Graph, id: string, a: string)
    requires RootedAt(g, id, a)
    ensures IsNotice(g, id)
    ensures g[id].parent == a ==> Depth(g, id, a) == 1
    ensures g[id].parent != a ==> RootedAt(g, g[id].parent, a) && Depth(g, g[id].parent, a) == Depth(g, id, a) - 1
  {
    RootedIsClosed(g, id, a);
    var d := Depth(g, id, a);
    assert Climbs(g, g[id].parent, d - 1) && Anc(g, g[id].parent, d - 1) == a;
    if g[id].parent == a {
      EndIsUnique(g, a, 0, d - 1);
    } else {
      EndIsUnique(g, g[id].parent, d - 1, Depth(g, g[id].parent, a));
    }
  }

  /** From a notice up to, but not including, its anchor. */
  ghost function Upward(g: Graph, id: string, a: string): (c: seq<string>)
    requires RootedAt(g, id, a)
    ensures |c| == Depth(g, id, a) && c[0] == id
    decreases Depth(g, id, a)
  {
    DepthOfParent(g, id, a);
    if g[id].parent == a then [id] else [id] + Upward(g, g[id].parent, a)
  }

  /** A chain listed as the evaluator lists it: each notice after its parent, the first on the anchor. */
  predicate Linear(g: Graph, a: string, chain: seq<string>) {
    && (forall i :: 0 <= i < |chain| ==> IsNotice(g, chain[i]))
    && (|chain| > 0 ==> g[chain[0]].parent == a)
    && (forall i :: 0 <= i < |chain| - 1 ==> g[chain[i + 1]].parent == chain[i])
  }

  predicate Distinct(s: seq<string>) { forall i, j :: 0 <= i < j < |s| ==> s[i] != s[j] }

  function Elements(s: seq<string>): set<string> { set x | x in s }

  function Reversed(s: seq<string>): (r: seq<string>)
    ensures |r| == |s| && forall i :: 0 <= i < |s| ==> r[i] == s[|s| - 1 - i]
  {
    if s == [] then [] else Reversed(s[1..]) + [s[0]]
  }

  lemma {:induction false} UpwardShape(g: Graph, id: string, a: string)
    requires RootedAt(g, id, a)
    ensures var c := Upward(g, id, a);
            && (forall i :: 0 <= i < |c| ==> c[i] in Rooted(g, a) && Depth(g, c[i], a) == |c| - i)
            && (forall i :: 0 <= i < |c| - 1 ==> g[c[i]].parent == c[i + 1])
            && g[c[|c| - 1]].parent == a
    decreases Depth(g, id, a)
  {
    DepthOfParent(g, id, a);
    if g[id].parent != a {
      UpwardShape(g, g[id].parent, a);
      assert Upward(g, id, a) == [id] + Upward(g, g[id].parent, a);
    }
  }

  /** The reported chain of a notice lists it last, its oldest ancestor first, nothing twice. */
  lemma ChainShape(g: Graph, id: string, a: string)
    requires RootedAt(g, id, a)
    ensures var chain := Reversed(Upward(g, id, a));
            && Linear(g, a, chain) && Distinct(chain) && Elements(chain) <= Rooted(g, a)
            && |chain| > 0 && chain[|chain| - 1] == id
  {
    UpwardShape(g, id, a);
    var c := Upward(g, id, a);
    var chain := Reversed(c);
    assert forall i :: 0 <= i < |chain| ==> Depth(g, chain[i], a) == i + 1;
  }

  lemma {:induction false} DistinctFits(s: seq<string>, t: set<string>)
    requires Distinct(s) && Elements(s) <= t
    ensures |s| <= |t|
  {
    if s != [] {
      var n := |s| - 1;
      forall x | x in Elements(s[..n])
        ensures x in t - {s[n]}
      {
        var i :| 0 <= i < n && s[..n][i] == x;
        assert s[i] == x && x in Elements(s);
      }
      assert s[n] in Elements(s);
      DistinctFits(s[..n], t - {s[n]});
    }
  }

  lemma DepthFits(g: Graph, id: string, a: string)
    requires RootedAt(g, id, a)
    ensures Depth(g, id, a) <= |Rooted(g, a)|
  {
    ChainShape(g, id, a);
    DistinctFits(Reversed(Upward(g, id, a)), Rooted(g, a));
  }

  /** Below every rooted notice there is a terminal whose chain contains it. */
  lemma {:induction false} TerminalBelow(g: Graph, id: string, a: string) returns (t: string)
    requires RootedAt(g, id, a) && id in g
    ensures t in Terminals(g, a) && RootedAt(g, t, a) && id in Upward(g, t, a)
    decreases |Rooted(g, a)| - Depth(g, id, a)
  {
    if id in Terminals(g, a) {
      t := id;
      assert Upward(g, id, a)[0] == id;
    } else {
      var child :| child in Rooted(g, a) && IsNotice(g, child) && g[child].parent == id;
      DepthOfParent(g, child, a);
      RootedIsClosed(g, id, a);
      DepthFits(g, child, a);
      t := TerminalBelow(g, child, a);
      UpwardContainsParents(g, t, a, child);
    }
  }

  lemma UpwardContainsParents(g: Graph, t: string, a: string, child: string)
    requires RootedAt(g, t, a) && child in Upward(g, t, a) && IsNotice(g, child)
    requires g[child].parent in g && g[g[child].parent].Notice? && a in g && g[a].Anchor?
    ensures g[child].parent in Upward(g, t, a)
  {
    UpwardShape(g, t, a);
    var c := Upward(g, t, a);
    var i :| 0 <= i < |c| && c[i] == child;
    assert i < |c| - 1 ==> c[i + 1] == g[child].parent;
  }

  // ---- main results about terminals and chains ----

  /** Whenever anything is rooted at an anchor there is a terminal. */
  lemma TerminalsExist(g: Graph, a: string)
    requires Rooted(g, a) != {}
    ensures Terminals(g, a) != {}
  {
    var id :| id in Rooted(g, a);
    var t := TerminalBelow(g, id, a);
  }

  /** Every rooted notice is on the reported chain of some terminal. */
  lemma {:induction false} EveryNoticeIsReported(g: Graph, a: string, id: string)
    requires id in Rooted(g, a)
    ensures exists t :: t in Terminals(g, a) && RootedAt(g, t, a) && id in Reversed(Upward(g, t, a))
  {
    var t := TerminalBelow(g, id, a);
    var c := Upward(g, t, a);
    var i :| 0 <= i < |c| && c[i] == id;
    assert Reversed(c)[|c| - 1 - i] == id;
  }

  /** A single terminal's chain is all there is, once each, in parent order. */
  lemma {:induction false} OneTerminalIsLinear(g: Graph, a: string, t: string)
    requires Terminals(g, a) == {t}
    ensures t in Rooted(g, a)
    ensures var chain := Reversed(Upward(g, t, a));
            Linear(g, a, chain) && Distinct(chain) && Elements(chain) == Rooted(g, a)
  {
    assert t in Terminals(g, a);
    var chain := Reversed(Upward(g, t, a));
    ChainShape(g, t, a);
    forall id | id in Rooted(g, a)
      ensures id in chain
    {
      EveryNoticeIsReported(g, a, id);
    }
  }

  /** Conversely, notices that form one line have its end as their only terminal. */
  lemma LineHasOneTerminal(g: Graph, a: string, chain: seq<string>)
    requires a in g && g[a].Anchor?
    requires |chain| > 0 && Linear(g, a, chain) && Distinct(chain) && Elements(chain) == Rooted(g, a)
    ensures Terminals(g, a) == {chain[|chain| - 1]}
  {
    var n := |chain| - 1;
    forall i | 0 <= i < n
      ensures chain[i] !in Terminals(g, a)
    {
      assert chain[i + 1] in Elements(chain);
      assert g[chain[i + 1]].parent == chain[i];
    }
    assert chain[n] in Elements(chain);
    forall id | id in Rooted(g, a) && IsNotice(g, id)
      ensures g[id].parent != chain[n]
    {
      assert id in Elements(chain);
      var i :| 0 <= i < |chain| && chain[i] == id;
      assert i > 0 ==> g[id].parent == chain[i - 1];
    }
  }
}
