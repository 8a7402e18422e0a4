/**
 The discovery stage as a run of the machine: a batch is selected, the mints are asked, every
 finding is written in its own commit, and the cooldowns are persisted mint by mint, with
 everybody else's steps between any two of these.
 */
module DiscoveryRun {
  import opened Prelude
  import opened PaymentDatabase
  import opened PaymentRows
  import opened PaymentMachine
  import opened PaymentSafety
  import opened PaymentSteps
  import opened PaymentWorker
  import opened SettlementQueue
  import opened MintDiscovery

  /** One actor per invoice of the batch, numbered from `first`. */
  function Selects(first: nat, batch: seq<string>, now: real): seq<Step> {
    seq(|batch|, i requires 0 <= i < |batch| => SelectDue(first + i, batch[i], now))
  }

  predicate HeldBy(s: State, a: nat, pid: string, seen: Payment) {
    a in s.acts && s.acts[a] == Polling(pid, seen) && pid in s.rows && pid in s.hist
  }

  /** The actors first, first + 1, ... hold the rows they selected, from the n-th on. */
  predicate PolledFrom(s: State, first: nat, batch: seq<string>, seen: seq<Payment>, n: nat) {
    |batch| == |seen| && forall i :: n <= i < |batch| ==> HeldBy(s, first + i, batch[i], seen[i])
  }

  lemma SelectDueIs(cfg: Config, s: State, a: nat, pid: string, now: real)
    requires Fresh(s, a, pid) && DueInvoice(s.rows[pid], now)
    ensures Next(cfg, s, SelectDue(a, pid, now)) == Begin(s, a, Polling(pid, s.rows[pid]))
  {
  }

  method Hold(w: Worker, a: nat, pid: string, now: real) returns (seen: Payment)
    requires w.Valid() && a !in w.acts && pid in w.db.rows && DueInvoice(w.db.rows[pid], now)
    modifies w`acts, w`trace
    ensures w.Valid() && w.trace == old(w.trace) + [SelectDue(a, pid, now)] && seen == w.db.rows[pid]
    ensures w.acts == old(w.acts)[a := Polling(pid, seen)] && pid in w.hist
  {
    ghost var before := w.World();
    KeysMatch(w.cfg, before);
    hide Inv, Next, Run;
    SelectDueIs(w.cfg, before, a, pid, now);
    seen := w.db.rows[pid];
    w.acts := w.acts[a := Polling(pid, seen)];
    w.Book(SelectDue(a, pid, now), before);
  }

  lemma SelectsOneMore(first: nat, batch: seq<string>, i: nat, now: real)
    requires i < |batch|
    ensures Selects(first, batch[..i + 1], now) == Selects(first, batch[..i], now) + [SelectDue(first + i, batch[i], now)]
  {
  }

  lemma BatchIsDue(rows: Rows, now: real, batch: seq<string>)
    requires IsBatch(rows, now, batch)
    ensures forall i :: 0 <= i < |batch| ==> batch[i] in rows && DueInvoice(rows[batch[i]], now)
  {
    assert forall i :: 0 <= i < |batch| ==> batch[i] in DueInvoices(rows, now);
  }

  /** The first n rows of the batch are held as they are, and no later actor exists. */
  predicate Taken(s: State, first: nat, batch: seq<string>, seen: seq<Payment>, n: nat) {
    && |seen| == n <= |batch|
    && (forall a :: a in s.acts ==> a < first + n)
    && (forall k :: 0 <= k < n ==> HeldBy(s, first + k, batch[k], seen[k]) && seen[k] == s.rows[batch[k]])
  }

  lemma TakenOneMore(s: State, t: State, first: nat, batch: seq<string>, seen: seq<Payment>, n: nat)
    requires n < |batch| && Taken(s, first, batch, seen, n) && batch[n] in s.rows && batch[n] in s.hist
    requires t == s.(acts := s.acts[first + n := Polling(batch[n], s.rows[batch[n]])])
    ensures Taken(t, first, batch, seen + [s.rows[batch[n]]], n + 1)
  {
    forall k | 0 <= k < n
      ensures HeldBy(t, first + k, batch[k], seen[k])
    {
      assert HeldBy(s, first + k, batch[k], seen[k]);
    }
  }

  lemma TakenAll(s: State, first: nat, batch: seq<string>, seen: seq<Payment>)
    requires Taken(s, first, batch, seen, |batch|)
    ensures PolledFrom(s, first, batch, seen, 0)
    ensures forall i :: 0 <= i < |batch| ==> batch[i] in s.rows && seen[i] == s.rows[batch[i]]
  {
    forall i | 0 <= i < |batch|
      ensures batch[i] in s.rows && seen[i] == s.rows[batch[i]]
    {
      assert HeldBy(s, first + i, batch[i], seen[i]);
    }
  }

  method HoldAll(w: Worker, batch: seq<string>, now: real) returns (seen: seq<Payment>)
    requires w.Valid() && forall a :: a in w.acts ==> a < w.me
    requires forall i :: 0 <= i < |batch| ==> batch[i] in w.db.rows && DueInvoice(w.db.rows[batch[i]], now)
    modifies w`acts, w`trace
    ensures w.Valid() && w.trace == old(w.trace) + Selects(w.me, batch, now) && Taken(w.World(), w.me, batch, seen, |batch|)
  {
    hide DueInvoice, HeldBy, Worker.Valid;
    seen := [];
    assert Selects(w.me, batch[..0], now) == [];
    for i := 0 to |batch|
      invariant w.Valid() && w.trace == old(w.trace) + Selects(w.me, batch[..i], now)
      invariant Taken(w.World(), w.me, batch, seen, i)
    {
      ghost var before := w.World();
      FreeNext(before, w.me, batch, seen, i);
      SelectsOneMore(w.me, batch, i, now);
      hide Taken, Selects;
      var row := Hold(w, w.me + i, batch[i], now);
      TakenOneMore(before, w.World(), w.me, batch, seen, i);
      seen := seen + [row];
    }
    assert batch[..|batch|] == batch;
  }

  /** The batch is one SELECT: nothing changes but who holds which row. */
  method SelectBatch(w: Worker, now: real, limit: int) returns (batch: seq<string>, seen: seq<Payment>)
    requires w.Valid() && forall a :: a in w.acts ==> a < w.me
    modifies w`acts, w`trace
    ensures w.Valid() && w.trace == old(w.trace) + Selects(w.me, batch, now)
    ensures IsBatch(w.db.rows, now, batch) && |batch| == Min(Max(1, limit), |DueInvoices(w.db.rows, now)|)
    ensures PolledFrom(w.World(), w.me, batch, seen, 0)
    ensures forall i :: 0 <= i < |batch| ==> batch[i] in w.db.rows && seen[i] == w.db.rows[batch[i]]
  {
    hide Selects, Taken, PolledFrom, Worker.Valid, IsBatch, DueInvoices, DueInvoice;
    batch := DueSettlements(w.db.rows, now, limit);
    BatchIsDue(w.db.rows, now, batch);
    seen := HoldAll(w, batch, now);
    TakenAll(w.World(), w.me, batch, seen);
  }

  lemma FreeNext(s: State, first: nat, batch: seq<string>, seen: seq<Payment>, n: nat)
    requires Taken(s, first, batch, seen, n)
    ensures first + n !in s.acts
  {
  }

  predicate AllForeign(steps: seq<Step>, first: nat, n: nat) {
    forall a: nat :: first <= a <= first + n ==> Foreign(steps, a)
  }

  /** Nobody else's steps change what an actor holds, and rows stay. */
  lemma {:induction false} HeldStays(cfg: Config, s: State, a: nat, pid: string, seen: Payment, steps: seq<Step>)
    requires Inv(cfg, s) && HeldBy(s, a, pid, seen) && Foreign(steps, a)
    ensures HeldBy(Run(cfg, s, steps), a, pid, seen)
  {
    RunIsGood(cfg, s, steps);
    hide Inv, Run, Next, Foreign, Follows;
    ForeignRun(cfg, s, steps, a);
  }

  lemma {:induction false} PolledStays(cfg: Config, s: State, first: nat, batch: seq<string>, seen: seq<Payment>, n: nat, steps: seq<Step>)
    requires Inv(cfg, s) && PolledFrom(s, first, batch, seen, n) && AllForeign(steps, first, |batch|)
    ensures PolledFrom(Run(cfg, s, steps), first, batch, seen, n)
  {
    hide Inv, Run, Next, Foreign, HeldBy;
    forall i | n <= i < |batch|
      ensures HeldBy(Run(cfg, s, steps), first + i, batch[i], seen[i])
    {
      HeldStays(cfg, s, first + i, batch[i], seen[i], steps);
    }
  }

  // ---- writing the findings ----

  /** The commits of the recording loop, each after whatever others did, at the clock it reads. */
  function Recording(first: nat, states: map<string, Cooldown>, seen: seq<Payment>, findings: seq<Finding>,
                     gaps: seq<seq<Step>>, clocks: seq<real>): seq<Step>
    requires |seen| == |findings| == |gaps| == |clocks|
  {
    if seen == [] then []
    else
      var n := |seen| - 1;
      Recording(first, states, seen[..n], findings[..n], gaps[..n], clocks[..n])
      + gaps[n] + [PollResult(first + n, Verdict(states, seen[n], findings[n], clocks[n]), clocks[n])]
  }

  lemma PollIs(cfg: Config, s: State, a: nat, poll: PollOutcome, now: real)
    requires Holds(s, a) && s.acts[a].Polling?
    ensures Next(cfg, s, PollResult(a, poll, now))
            == State(Swap(s.rows, s.acts[a].pid, {s.acts[a].seen.status}, PollChanges(s.acts[a].seen, poll, now), now),
                     s.zaps, s.hist, s.acts - {a})
  {
    hide PollChanges, Apply;
    assert s.hist[s.acts[a].pid := s.hist[s.acts[a].pid]] == s.hist;
  }

  /** What one finding makes of the invoice it was read for, branch by branch. */
  method Earned(states: map<string, Cooldown>, seen: Payment, finding: Finding, now: real) returns (c: Changes)
    ensures c == PollChanges(seen, Verdict(states, seen, finding, now), now)
  {
    if finding.Replied? && finding.reply.QuoteState? {
      if finding.reply.paid {
        return Changes(status := Set(PaidReconciliationPending), attempts := Set(seen.attempts + 1), error := Set(None),
                       nextCheckAt := Set(None));
      }
      var attempts := seen.attempts + 1;
      var stale := seen.status == SettlementUnconfirmed || attempts >= MAX_SETTLEMENT_ATTEMPTS;
      return Changes(status := Set(if stale then SettlementUnconfirmed else InvoicePending), attempts := Set(attempts),
                     error := Set(if stale then Some(UNCONFIRMED) else None),
                     nextCheckAt := Set(Some(now + RecheckSeconds(MaxR(0.0, now - seen.createdAt)))));
    }
    if finding.Replied? && finding.reply.OtherFailure? && finding.reply.quoteGone {
      return Changes(status := Set(Failed), error := Set(Some(QUOTE_NOT_FOUND)), attempts := Set(seen.attempts + 1),
                     nextCheckAt := Set(None));
    }
    var delay := StateOf(states, seen.mint).until - now;
    if delay <= 0.0 { delay := 300.0; }
    var summary := if finding.Deferred? then "Mint cooldown" else if finding.Replied? then finding.summary else "RuntimeError";
    c := Changes(attempts := Set(seen.attempts + if finding.Deferred? then 0 else 1),
                 error := Set(Some("Settlement discovery deferred: " + summary)), nextCheckAt := Set(Some(now + delay)));
  }

  /** One finding, written by compare-and-swap on the status its invoice was selected in. */
  method RecordFinding(w: Worker, a: nat, states: map<string, Cooldown>, pid: string, seen: Payment, finding: Finding, now: real)
    requires w.Valid() && HeldBy(w.World(), a, pid, seen)
    modifies w.db`rows, w`acts, w`trace
    ensures w.Valid() && w.trace == old(w.trace) + [PollResult(a, Verdict(states, seen, finding, now), now)]
    ensures w.acts == old(w.acts) - {a} && w.db.rows.Keys == old(w.db.rows).Keys
  {
    hide Inv, Next, Run, PollChanges, Verdict, Swap;
    ghost var before := w.World();
    ghost var poll := Verdict(states, seen, finding, now);
    var c := Earned(states, seen, finding, now);
    var _ := w.db.Transition(pid, {seen.status}, c, now);
    w.acts := w.acts - {a};
    PollIs(w.cfg, before, a, poll, now);
    SwapKeys(before.rows, pid, {seen.status}, PollChanges(seen, poll, now), now);
    w.Book(PollResult(a, poll, now), before);
  }

  /** The recording loop, with others acting before each commit. */
  method RecordFindings(w: Worker, states: map<string, Cooldown>, batch: seq<string>, seen: seq<Payment>, findings: seq<Finding>,
                        gaps: seq<seq<Step>>, clocks: seq<real>)
    requires w.Valid() && PolledFrom(w.World(), w.me, batch, seen, 0)
    requires |batch| == |findings| == |gaps| == |clocks| && forall i :: 0 <= i < |gaps| ==> AllForeign(gaps[i], w.me, |batch|)
    modifies w.db`rows, w.db`zaps, w`hist, w`acts, w`trace
    ensures w.Valid() && w.trace == old(w.trace) + Recording(w.me, states, seen, findings, gaps, clocks)
  {
    hide Inv, Next, Run, Foreign, Verdict, HeldBy, Recording, Worker.Valid;
    RecordedNothing(w.me, states, seen, findings, gaps, clocks);
    for i := 0 to |batch|
      invariant w.Valid() && PolledFrom(w.World(), w.me, batch, seen, i)
      invariant w.trace == old(w.trace) + Recording(w.me, states, seen[..i], findings[..i], gaps[..i], clocks[..i])
    {
      ValidInv(w);
      PolledStays(w.cfg, w.World(), w.me, batch, seen, i, gaps[i]);
      w.Others(gaps[i]);
      ghost var before := w.World();
      RecordFinding(w, w.me + i, states, batch[i], seen[i], findings[i], clocks[i]);
      RecordedOneMore(w.me, states, seen, findings, gaps, clocks, i);
      RowStays(before, w.World(), w.me, batch, seen, i);
    }
    assert seen[..|batch|] == seen && findings[..|batch|] == findings && gaps[..|batch|] == gaps && clocks[..|batch|] == clocks;
  }

  lemma ValidInv(w: Worker)
    requires w.Valid()
    ensures Inv(w.cfg, w.World())
  {
  }

  lemma RecordedNothing(first: nat, states: map<string, Cooldown>, seen: seq<Payment>, findings: seq<Finding>,
                        gaps: seq<seq<Step>>, clocks: seq<real>)
    requires |seen| == |findings| == |gaps| == |clocks|
    ensures Recording(first, states, seen[..0], findings[..0], gaps[..0], clocks[..0]) == []
  {
  }

  lemma RecordedOneMore(first: nat, states: map<string, Cooldown>, seen: seq<Payment>, findings: seq<Finding>,
                        gaps: seq<seq<Step>>, clocks: seq<real>, i: nat)
    requires i < |seen| == |findings| == |gaps| == |clocks|
    ensures Recording(first, states, seen[..i + 1], findings[..i + 1], gaps[..i + 1], clocks[..i + 1])
            == Recording(first, states, seen[..i], findings[..i], gaps[..i], clocks[..i])
               + gaps[i] + [PollResult(first + i, Verdict(states, seen[i], findings[i], clocks[i]), clocks[i])]
  {
    hide Verdict;
    assert seen[..i + 1][..i] == seen[..i] && findings[..i + 1][..i] == findings[..i];
    assert gaps[..i + 1][..i] == gaps[..i] && clocks[..i + 1][..i] == clocks[..i];
  }

  lemma SwapKeys(rows: Rows, pid: string, expected: set<Status>, c: Changes, now: real)
    ensures Swap(rows, pid, expected, c, now).Keys == rows.Keys
  {
  }

  lemma RowStays(s: State, t: State, first: nat, batch: seq<string>, seen: seq<Payment>, i: nat)
    requires PolledFrom(s, first, batch, seen, i) && i < |batch|
    requires t.acts == s.acts - {first + i} && t.rows.Keys == s.rows.Keys && t.hist == s.hist
    ensures PolledFrom(t, first, batch, seen, i + 1)
  {
    forall k | i + 1 <= k < |batch|
      ensures HeldBy(t, first + k, batch[k], seen[k])
    {
      assert HeldBy(s, first + k, batch[k], seen[k]);
    }
  }

  // ---- persisting the cooldowns ----

  /** One UPDATE for each mint that still cools when its turn comes, in the order of the states. */
  function Persisting(states: map<string, Cooldown>, order: seq<string>, gaps: seq<seq<Step>>, clocks: seq<real>): seq<Step>
    requires |order| == |gaps| == |clocks| && forall mint :: mint in order ==> mint in states
  {
    if order == [] then []
    else
      var n := |order| - 1;
      Persisting(states, order[..n], gaps[..n], clocks[..n]) + gaps[n]
      + if states[order[n]].until > clocks[n] then [Persist(order[n], states[order[n]].until)] else []
  }

  lemma PersistedOneMore(states: map<string, Cooldown>, order: seq<string>, gaps: seq<seq<Step>>, clocks: seq<real>, i: nat)
    requires i < |order| == |gaps| == |clocks| && forall mint :: mint in order ==> mint in states
    ensures Persisting(states, order[..i + 1], gaps[..i + 1], clocks[..i + 1])
            == Persisting(states, order[..i], gaps[..i], clocks[..i]) + gaps[i]
               + if states[order[i]].until > clocks[i] then [Persist(order[i], states[order[i]].until)] else []
  {
    assert order[..i + 1][..i] == order[..i] && gaps[..i + 1][..i] == gaps[..i] && clocks[..i + 1][..i] == clocks[..i];
  }

  /** UPDATE ... WHERE mint = ? AND status IN (...) AND (next_check_at IS NULL OR next_check_at < deadline). */
  method PersistMint(db: Tables, mint: string, deadline: real)
    modifies db`rows
    ensures db.rows == PersistAll(old(db.rows), mint, deadline)
  {
    db.rows := map pid | pid in db.rows ::
      if db.rows[pid].mint == mint && (db.rows[pid].status == InvoicePending || db.rows[pid].status == SettlementUnconfirmed)
         && (db.rows[pid].nextCheckAt.None? || db.rows[pid].nextCheckAt.value < deadline)
      then db.rows[pid].(nextCheckAt := Some(deadline)) else db.rows[pid];
  }

  /** Every mint that still cools when its turn comes has the rows of its whole queue postponed. */
  method PersistCooldowns(w: Worker, states: map<string, Cooldown>, order: seq<string>, gaps: seq<seq<Step>>, clocks: seq<real>)
    requires w.Valid() && |order| == |gaps| == |clocks| && forall mint :: mint in order ==> mint in states
    requires forall i :: 0 <= i < |gaps| ==> Foreign(gaps[i], w.me)
    modifies w.db`rows, w.db`zaps, w`hist, w`acts, w`trace
    ensures w.Valid() && w.trace == old(w.trace) + Persisting(states, order, gaps, clocks)
  {
    hide Inv, Run, Next, Foreign;
    for i := 0 to |order|
      invariant w.Valid() && w.trace == old(w.trace) + Persisting(states, order[..i], gaps[..i], clocks[..i])
    {
      w.Others(gaps[i]);
      PersistedOneMore(states, order, gaps, clocks, i);
      var remaining := states[order[i]].until - clocks[i];
      if remaining > 0.0 {
        ghost var before := w.World();
        var deadline := clocks[i] + remaining;
        PersistMint(w.db, order[i], deadline);
        PersistIs(w.cfg, before, order[i], deadline);
        w.Book(Persist(order[i], deadline), before);
      }
    }
    assert order[..|order|] == order && gaps[..|order|] == gaps && clocks[..|order|] == clocks;
  }

  // ---- the stage ----

  /** In which order the invoices of the batch got their mints' locks: `place[k]` was the k-th. */
  predicate LockOrder(place: seq<nat>, turns: seq<Turn>, seen: seq<Payment>) {
    && |place| == |turns| == |seen|
    && (forall j, k :: 0 <= j < k < |place| ==> place[j] != place[k])
    && (forall k :: 0 <= k < |place| ==>
          && place[k] < |seen| && turns[k].mint == seen[place[k]].mint
          && (turns[k].hasQuote <==> seen[place[k]].mintQuote.Some? && seen[place[k]].mintQuote.value != ""))
  }

  /**
   From the selected batch on: the mints are asked, each finding is recorded for the invoice it was
   read for, and the cooldowns are persisted. Whatever others do in between, it is a run of the machine.
   */
  method AskAndRecord(w: Worker, mints: MintStates, batch: seq<string>, seen: seq<Payment>, turns: seq<Turn>, place: seq<nat>,
                      during: seq<Step>, gaps: seq<seq<Step>>, clocks: seq<real>,
                      order: seq<string>, laterGaps: seq<seq<Step>>, laterClocks: seq<real>)
    returns (findings: seq<Finding>)
    requires w.Valid() && PolledFrom(w.World(), w.me, batch, seen, 0) && LockOrder(place, turns, seen)
    requires AllForeign(during, w.me, |batch|) && |gaps| == |clocks| == |batch|
    requires forall i :: 0 <= i < |gaps| ==> AllForeign(gaps[i], w.me, |batch|)
    requires |order| == |laterGaps| == |laterClocks| && forall mint :: mint in order ==> mint in Played(mints.states, turns)
    requires forall i :: 0 <= i < |laterGaps| ==> Foreign(laterGaps[i], w.me)
    modifies w.db`rows, w.db`zaps, w`hist, w`acts, w`trace, mints`states
    ensures w.Valid() && mints.states == Played(old(mints.states), turns) && |findings| == |batch|
    ensures forall k :: 0 <= k < |turns| ==> findings[place[k]] == TurnFinding(Played(old(mints.states), turns[..k]), turns[k])
    ensures w.trace == old(w.trace) + during + Recording(w.me, mints.states, seen, findings, gaps, clocks)
                       + Persisting(mints.states, order, laterGaps, laterClocks)
  {
    hide Inv, Run, Next, Foreign, Played, Recording, Persisting, TurnFinding;
    var found := mints.DiscoverAll(turns);
    findings := seq(|batch|, _ => QuoteMissing);
    for k := 0 to |turns|
      invariant |findings| == |batch| && forall j :: 0 <= j < k ==> findings[place[j]] == found[j]
    {
      findings := findings[place[k] := found[k]];
    }
    PolledStays(w.cfg, w.World(), w.me, batch, seen, 0, during);
    w.Others(during);
    RecordFindings(w, mints.states, batch, seen, findings, gaps, clocks);
    PersistCooldowns(w, mints.states, order, laterGaps, laterClocks);
  }
}
