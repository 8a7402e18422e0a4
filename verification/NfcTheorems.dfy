/** What holds of one wallet's cards over every run that begins with an empty table. */
module NfcTheorems {
  import opened Prelude
  import opened NfcPolicy

  ghost predicate Reachable(w: World) { exists w0, steps :: Init(w0) && w == Run(w0, steps) }

  lemma ReachableInv(w: World)
    requires Reachable(w)
    ensures Inv(w)
  {
    var w0, steps :| Init(w0) && w == Run(w0, steps);
    RunKeepsInv(w0, steps);
  }

  /**
   The row is determined by what was committed: the revision counts the changes of cards and so
   never goes back, and the failure count stays between 0 and 5.
   */
  lemma RowFollowsLog(w: World, steps: seq<Step>)
    requires Reachable(w) && w.policy.Some?
    ensures var v := Run(w, steps);
            && v.policy.Some? && w.log <= v.log
            && v.policy.value.revision == RevisionIn(v.log) && w.policy.value.revision <= v.policy.value.revision
            && v.policy.value.active == ActiveIn(v.log) && v.policy.value.pending == PendingIn(v.log)
            && v.policy.value.failures == FailuresIn(v.log) <= 5
  {
    ReachableInv(w);
    RunKeepsInv(w, steps);
    PolicyStays(w, steps);
    RevisionGrows(w.log, Run(w, steps).log);
    hide Run, Lawful, Consistent;
  }

  lemma {:induction false} PolicyStays(w: World, steps: seq<Step>)
    requires w.policy.Some?
    ensures Run(w, steps).policy.Some?
    decreases |steps|
  {
    if steps != [] { PolicyStays(Next(w, steps[0]), steps[1..]); }
  }

  lemma {:induction false} RevisionGrows(log: seq<Event>, later: seq<Event>)
    requires log <= later
    ensures RevisionIn(log) <= RevisionIn(later)
    decreases |later|
  {
    if log != later { RevisionGrows(log, later[..|later| - 1]); }
    else { assert log == later; }
  }

  lemma {:induction false} PendingSince(log: seq<Event>)
    requires PendingIn(log).Some?
    ensures exists j :: 0 <= j < |log| && log[j] == Prepared(PendingIn(log).value)
                        && forall k :: j < k < |log| ==> !ChangesCards(log[k])
  {
    var n := |log| - 1;
    if log[n].Prepared? {
      assert log[n] == Prepared(PendingIn(log).value);
    } else {
      PendingSince(log[..n]);
      var j :| 0 <= j < n && log[..n][j] == Prepared(PendingIn(log).value) && forall k :: j < k < n ==> !ChangesCards(log[..n][k]);
      assert log[j] == log[..n][j] && forall k :: j < k < n ==> log[k] == log[..n][k];
    }
  }

  /** Only the card prepared last becomes active, and nothing else happened to the cards since. */
  lemma OnlyLatestPreparedActivates(w: World, i: nat)
    requires Reachable(w) && i < |w.log| && w.log[i].Activated?
    ensures exists j :: 0 <= j < i && w.log[j] == Prepared(w.log[i].generation)
                        && forall k :: j < k < i ==> !ChangesCards(w.log[k])
  {
    ReachableInv(w);
    assert Allowed(w.log[..i], w.log[i]);
    PendingSince(w.log[..i]);
    var j :| 0 <= j < i && w.log[..i][j] == Prepared(w.log[i].generation) && forall k :: j < k < i ==> !ChangesCards(w.log[..i][k]);
    assert w.log[j] == w.log[..i][j] && forall k :: j < k < i ==> w.log[k] == w.log[..i][k];
  }

  /** Between j and i the card g was active throughout and the failures never ran out. */
  predicate UsableSince(log: seq<Event>, j: nat, i: nat, g: string)
    requires j < i <= |log|
  {
    && log[j] == Activated(g)
    && (forall k :: j < k < i ==> !log[k].Activated? && !log[k].Revoked?)
    && (forall k :: j < k <= i ==> FailuresIn(log[..k]) < 5)
  }

  lemma {:induction false} ActiveSince(log: seq<Event>)
    requires ActiveIn(log).Some?
    ensures exists j :: 0 <= j < |log| && log[j] == Activated(ActiveIn(log).value)
                        && forall k :: j < k < |log| ==> !log[k].Activated? && !log[k].Revoked?
  {
    var n := |log| - 1;
    if log[n].Activated? {
      assert log[n] == Activated(ActiveIn(log).value);
    } else {
      ActiveSince(log[..n]);
      var j :| 0 <= j < n && log[..n][j] == Activated(ActiveIn(log).value)
               && forall k :: j < k < n ==> !log[..n][k].Activated? && !log[..n][k].Revoked?;
      assert log[j] == log[..n][j] && forall k :: j < k < n ==> log[k] == log[..n][k];
    }
  }

  /** Five failures stay five failures until another activation. */
  lemma {:induction false} LockHolds(log: seq<Event>, k: nat, i: nat)
    requires Lawful(log) && k <= i <= |log| && FailuresIn(log[..k]) >= ATTEMPTS
    requires forall m :: k <= m < i ==> !log[m].Activated?
    ensures FailuresIn(log[..i]) >= ATTEMPTS
    decreases i
  {
    if k < i {
      LockHolds(log, k, i - 1);
      assert Allowed(log[..i - 1], log[i - 1]);
      assert log[..i] == log[..i - 1] + [log[i - 1]];
      Append(log[..i - 1], log[i - 1]);
    }
  }

  /**
   Every login, right or wrong PIN, is with a card that was activated, has not been replaced or
   revoked since, and was never locked by five failures since. So after a revocation or a lock
   no login succeeds until another activation commits, however requests interleave.
   */
  lemma LoginsUseAUsableCard(w: World, i: nat)
    requires Reachable(w) && i < |w.log| && (w.log[i].Granted? || w.log[i].Wrong?)
    ensures exists j: nat :: j < i && UsableSince(w.log, j, i, w.log[i].generation)
  {
    ReachableInv(w);
    var log := w.log;
    assert Lawful(log) && Allowed(log[..i], log[i]);
    ActiveSince(log[..i]);
    var j :| 0 <= j < i && log[..i][j] == Activated(log[i].generation)
             && forall k :: j < k < i ==> !log[..i][k].Activated? && !log[..i][k].Revoked?;
    assert log[j] == log[..i][j] && forall k :: j < k < i ==> log[k] == log[..i][k];
    forall k | j < k <= i
      ensures FailuresIn(log[..k]) < ATTEMPTS
    {
      if FailuresIn(log[..k]) >= ATTEMPTS { LockHolds(log, k, i); }
    }
    assert UsableSince(log, j, i, log[i].generation);
  }

  lemma {:induction false} PreparedEarlier(log: seq<Event>, i: nat, k: nat)
    requires i < k <= |log| && log[i].Prepared?
    ensures log[i].generation in PreparedIn(log[..k])
    decreases k
  {
    assert log[..k] == log[..k - 1] + [log[k - 1]];
    Append(log[..k - 1], log[k - 1]);
    if i < k - 1 { PreparedEarlier(log, i, k - 1); }
  }

  /** A card is activated at most once; replaced or revoked, it is never used again. */
  lemma ReplacedCardIsDead(w: World, i: nat, j: nat, k: nat)
    requires Reachable(w) && i < j < k < |w.log|
    requires w.log[i].Activated? && (w.log[j].Activated? || w.log[j].Revoked?)
    requires w.log[k].Granted? || w.log[k].Wrong? || w.log[k].Activated?
    ensures w.log[k].generation != w.log[i].generation
  {
    var log := w.log;
    var a: nat := k;
    if !log[k].Activated? {
      LoginsUseAUsableCard(w, k);
      var c: nat :| c < k && UsableSince(log, c, k, log[k].generation);
      a := c;
    }
    assert i < a && log[a] == Activated(log[k].generation);
    OnlyLatestPreparedActivates(w, a);
    var p :| 0 <= p < a && log[p] == Prepared(log[a].generation) && forall m :: p < m < a ==> !ChangesCards(log[m]);
    assert i < p;
    OnlyLatestPreparedActivates(w, i);
    var q :| 0 <= q < i && log[q] == Prepared(log[i].generation) && forall m :: q < m < i ==> !ChangesCards(log[m]);
    ReachableInv(w);
    PreparedEarlier(log, q, p);
    assert Allowed(log[..p], log[p]);
  }

  // ---- and a login does happen ----

  const CARD := Card("g", "d", 1)
  const EMPTY := World(None, 0, map[], {}, [])

  lemma ReachableStep(w: World, step: Step)
    requires Reachable(w)
    ensures Reachable(Next(w, step))
  {
    var w0, steps :| Init(w0) && w == Run(w0, steps);
    RunOneMore(w0, steps, step);
  }

  lemma {:induction false} RunOneMore(w: World, steps: seq<Step>, last: Step)
    ensures Run(w, steps + [last]) == Next(Run(w, steps), last)
    decreases |steps|
  {
    if steps == [] {
      assert steps + [last] == [last] && Run(Next(w, last), []) == Next(w, last);
    } else {
      assert (steps + [last])[1..] == steps[1..] + [last];
      RunOneMore(Next(w, steps[0]), steps[1..], last);
    }
  }

  /** Preparing, activating and using one card: a run in which the results above speak about something. */
  lemma LoginIsPossible() returns (w: World)
    ensures Reachable(w) && w.log == [Prepared("g"), Activated("g"), Granted("g")]
    ensures w.policy.Some? && w.policy.value.revision == 2 && w.policy.value.active == Some("g")
  {
    assert Init(EMPTY) && Run(EMPTY, []) == EMPTY;
    assert Reachable(EMPTY);
    hide Reachable;
    w := EMPTY;
    ReachableStep(w, Ensure);
    w := Next(w, Ensure);
    ReachableStep(w, Read("r"));
    w := Next(w, Read("r"));
    ReachableStep(w, Prepare("r", CARD));
    w := Next(w, Prepare("r", CARD));
    assert w.log == [Prepared("g")];
    ReachableStep(w, Read("r"));
    w := Next(w, Read("r"));
    ReachableStep(w, Activate("r", CARD, 1, 0));
    w := Next(w, Activate("r", CARD, 1, 0));
    assert w.log == [Prepared("g"), Activated("g")];
    ReachableStep(w, Read("r"));
    w := Next(w, Read("r"));
    ReachableStep(w, Authorize("r", CARD, true, 0));
    w := Next(w, Authorize("r", CARD, true, 0));
  }
}
