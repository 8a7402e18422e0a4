/** What holds of one provider payment over every run of the machine. */
module PaymentTheorems {
  import opened Prelude
  import opened PaymentRows
  import opened PaymentMachine
  import opened PaymentSafety
  import opened PaymentSteps
  import opened LegacyRecovery

  predicate Start(w: System) { Init(w.state) && w.recovering == map[] }

  /**
   The systems any number of actors can bring about, as long as no recovery writes back a
   payment that was settled since it selected it - which the process lock guarantees.
   */
  ghost predicate Reachable(cfg: Config, w: System) {
    exists w0, moves :: Start(w0) && AllUndisturbed(cfg, w0, moves) && w == Play(cfg, w0, moves)
  }

  predicate Known(s: State, pid: string) { pid in s.rows && pid in s.hist }

  lemma {:induction false} ReachableInv(cfg: Config, w: System)
    requires Reachable(cfg, w)
    ensures SystemInv(cfg, w)
  {
    var w0, moves :| Start(w0) && AllUndisturbed(cfg, w0, moves) && w == Play(cfg, w0, moves);
    InitEstablishes(cfg, w0.state);
    PlayIsGood(cfg, w0, moves);
  }

  lemma {:induction false} UndisturbedParts(cfg: Config, w: System, a: seq<Move>, b: seq<Move>)
    requires AllUndisturbed(cfg, w, a + b)
    ensures AllUndisturbed(cfg, w, a) && AllUndisturbed(cfg, Play(cfg, w, a), b)
    decreases |a|
  {
    hide Moved, Undisturbed;
    if a == [] {
      assert a + b == b;
    } else {
      assert (a + b)[0] == a[0] && (a + b)[1..] == a[1..] + b;
      UndisturbedParts(cfg, Moved(cfg, w, a[0]), a[1..], b);
    }
  }

  /** Under the process lock every run is such a run from its start on, so all that follows holds of it. */
  lemma {:induction false} LockedRunsAreReachable(cfg: Config, w0: System, before: seq<Move>, after: seq<Move>)
    requires Start(w0) && RecoversAlone(cfg, w0, before + after)
    ensures Reachable(cfg, Play(cfg, w0, before)) && AllUndisturbed(cfg, Play(cfg, w0, before), after)
  {
    InitEstablishes(cfg, w0.state);
    LockedIsUndisturbed(cfg, w0, before + after);
    UndisturbedParts(cfg, w0, before, after);
  }

  /** What a reachable system says about a payment, and what any continuation adds. */
  lemma {:induction false} PaymentFacts(cfg: Config, w: System, moves: seq<Move>, pid: string)
    requires Reachable(cfg, w) && AllUndisturbed(cfg, w, moves) && Known(w.state, pid)
    ensures PaymentInv(cfg, w.state.rows[pid], ZapOf(w.state, pid), w.state.hist[pid])
    ensures var s, t := w.state, Play(cfg, w, moves).state;
            && Known(t, pid)
            && PaymentInv(cfg, t.rows[pid], ZapOf(t, pid), t.hist[pid])
            && Follows(s.rows[pid], s.hist[pid], t.rows[pid], t.hist[pid])
  {
    hide PaymentInv, Follows;
    ReachableInv(cfg, w);
    PlayIsGood(cfg, w, moves);
  }

  // ---- main results ----

  /**
   At most one ambiguous publication. Once a send succeeded or failed other than
   retryably, no further send starts, whatever else happens. While it has not
   reported, a further send is only possible after it reports a retryable failure;
   so none ever starts after a send that never reports.
   */
  lemma {:induction false} AtMostOncePublication(cfg: Config, w: System, moves: seq<Move>, pid: string)
    requires Reachable(cfg, w) && AllUndisturbed(cfg, w, moves)
    requires Known(w.state, pid) && |w.state.hist[pid].sends| > 0
    ensures Known(Play(cfg, w, moves).state, pid)
    ensures
      var sends, later := w.state.hist[pid].sends, Play(cfg, w, moves).state.hist[pid].sends;
      var n := |sends|;
      && (sends[n - 1].Success? || sends[n - 1].OtherError? ==> later == sends)
      && (|later| > n ==> later[n - 1] == Retryable)
  {
    PaymentFacts(cfg, w, moves, pid);
    OpenSendsAreLast(w.state.hist[pid].sends, Play(cfg, w, moves).state.hist[pid].sends);
  }

  lemma OpenSendsAreLast(a: seq<Outcome>, b: seq<Outcome>)
    requires 0 < |a| <= |b| && AtMostOneOpen(a) && AtMostOneOpen(b)
    requires forall k :: 0 <= k < |a| ==> a[k] == Unreported || b[k] == a[k]
    ensures a[|a| - 1].Success? || a[|a| - 1].OtherError? ==> b == a
    ensures |b| > |a| ==> b[|a| - 1] == Retryable
  {
  }

  /**
   No resurrection. A payment that was ever SETTLED is never again selected for a
   quote, a settlement poll or issuance, and legacy recovery never picks it up;
   one an operator closed stays FAILED.
   */
  lemma {:induction false} SettledIsNeverResurrected(cfg: Config, w: System, moves: seq<Move>, pid: string)
    requires Reachable(cfg, w) && AllUndisturbed(cfg, w, moves) && Known(w.state, pid) && w.state.hist[pid].settled
    ensures
      var s, t := w.state, Play(cfg, w, moves).state;
      && Known(t, pid) && t.hist[pid].settled
      && (PostSettlement(t.rows[pid].status) || t.rows[pid].status.Failed?)
      && !LegacyTimeout(t.rows[pid])
      && (s.rows[pid].status.Failed? ==> t.rows[pid].status.Failed?)
  {
    PaymentFacts(cfg, w, moves, pid);
  }

  /** In such a status no selection of the quote, polling or issuance stages takes the row. */
  lemma NothingSelectsSettled(cfg: Config, t: State, a: nat, pid: string, now: real)
    requires pid in t.rows && (PostSettlement(t.rows[pid].status) || t.rows[pid].status.Failed?)
    ensures Next(cfg, t, ClaimQuote(a, pid, now)) == t && Next(cfg, t, ZapBegin(a, pid)) == t
    ensures Next(cfg, t, SelectDue(a, pid, now)) == t && Next(cfg, t, SelectPaid(a, pid, now)) == t
  {
  }

  /** Who had selected it before: every answer still to come for a quote, a poll or an issuance. */
  predicate IsEarly(act: Act) { act.ZapQuoting? || act.WorkerQuoting? || act.Polling? || act.Minting? }

  predicate IsAnswer(st: Step) {
    st.ZapStore? || st.ZapFail? || st.WorkerStore? || st.WorkerFail? || st.PollResult? || st.MintResult?
  }

  /** The statuses a swap for a quote, a poll or an issuance expects. */
  predicate Early(t: Status) {
    Creating(t) || t.InvoicePending? || t.SettlementUnconfirmed? || t.PaidReconciliationPending?
  }

  lemma SettledMisses(cfg: Config, s: State, a: nat)
    requires Inv(cfg, s) && a in s.acts && Known(s, s.acts[a].pid) && s.hist[s.acts[a].pid].settled
    ensures !Early(s.rows[s.acts[a].pid].status)
    ensures s.acts[a].Polling? || s.acts[a].Minting? ==> Early(s.acts[a].seen.status)
  {
    assert PaymentInv(cfg, s.rows[s.acts[a].pid], ZapOf(s, s.acts[a].pid), s.hist[s.acts[a].pid]);
    assert ActOk(cfg, s, a);
  }

  lemma MissedAnswer(cfg: Config, s: State, st: Step)
    requires IsAnswer(st) && Holds(s, st.act) && !Early(s.rows[s.acts[st.act].pid].status)
    requires s.acts[st.act].Polling? || s.acts[st.act].Minting? ==> Early(s.acts[st.act].seen.status)
    ensures Next(cfg, s, st).rows == s.rows && Next(cfg, s, st).hist == s.hist
  {
    hide Swap, PollChanges, MintChanges, StoreQuote, FailQuote, QuoteTaken, ZapQuoteText, WorkerQuoteText;
  }

  /** Whoever selected the payment before it settled gets no answer into its row any more. */
  lemma {:induction false} LateAnswersAreDiscarded(cfg: Config, w: System, st: Step)
    requires Reachable(cfg, w) && IsAnswer(st) && st.act in w.state.acts && IsEarly(w.state.acts[st.act])
    requires Known(w.state, w.state.acts[st.act].pid) && w.state.hist[w.state.acts[st.act].pid].settled
    ensures Next(cfg, w.state, st).rows == w.state.rows && Next(cfg, w.state, st).hist == w.state.hist
  {
    ReachableInv(cfg, w);
    hide Reachable, Inv, Next;
    SettledMisses(cfg, w.state, st.act);
    MissedAnswer(cfg, w.state, st);
  }

  // ---- one worker does one thing at a time ----

  /** At most one thing in hand, or a batch of polls of different payments. */
  predicate OneAtATime(s: State) {
    forall a, b :: a in s.acts && b in s.acts && a != b && WorkerAct(s.acts[a]) && WorkerAct(s.acts[b]) ==>
      s.acts[a].Polling? && s.acts[b].Polling? && s.acts[a].pid != s.acts[b].pid
  }

  predicate Starts(st: Step) { st.SelectDue? || st.SelectPaid? || st.SelectSettled? || st.ClaimQuote? || st.ClaimReceipt? }

  /** The worker had this in hand before, or has just started it. */
  predicate Had(s: State, st: Step, b: nat, act: Act) {
    || (b in s.acts && WorkerAct(s.acts[b]) && s.acts[b].pid == act.pid && (s.acts[b].Polling? <==> act.Polling?))
    || (b !in s.acts && Starts(st) && b == st.act && act.pid == st.pid && (act.Polling? <==> st.SelectDue?))
  }

  lemma StartedEarly(cfg: Config, s: State, st: Step, b: nat)
    requires BeforeDelivery(st) && b in Next(cfg, s, st).acts && WorkerAct(Next(cfg, s, st).acts[b])
    ensures Had(s, st, b, Next(cfg, s, st).acts[b])
  {
    hide Swap, Apply, PollChanges, MintChanges, StoreQuote, FailQuote, QuoteTaken, RequestTaken, DueAt, ZapQuoteText, WorkerQuoteText;
  }

  lemma StartedLate(cfg: Config, s: State, st: Step, b: nat)
    requires !BeforeDelivery(st) && b in Next(cfg, s, st).acts && WorkerAct(Next(cfg, s, st).acts[b])
    ensures Had(s, st, b, Next(cfg, s, st).acts[b])
  {
    hide Swap, Apply, DeliveryChanges, ClaimSendChanges, QuarantineAll, ReviveAll, PersistAll, LegacyRows, Closable, CloseRow, DueAt;
  }

  /** What a worker has in hand it had before, or has just started. */
  lemma WorkerActsAreStarted(cfg: Config, s: State, st: Step, b: nat)
    requires b in Next(cfg, s, st).acts && WorkerAct(Next(cfg, s, st).acts[b])
    ensures Had(s, st, b, Next(cfg, s, st).acts[b])
  {
    hide Next, BeforeDelivery, Had, WorkerAct;
    if BeforeDelivery(st) { StartedEarly(cfg, s, st, b); } else { StartedLate(cfg, s, st, b); }
  }

  lemma {:induction false} OneAtATimeStep(cfg: Config, w: System, st: Step)
    requires OneAtATime(w.state) && InTurn(w, Take(st))
    ensures OneAtATime(Next(cfg, w.state, st))
  {
    var s, t := w.state, Next(cfg, w.state, st);
    hide Next;
    forall a, b | a in t.acts && b in t.acts && a != b && WorkerAct(t.acts[a]) && WorkerAct(t.acts[b])
      ensures t.acts[a].Polling? && t.acts[b].Polling? && t.acts[a].pid != t.acts[b].pid
    {
      WorkerActsAreStarted(cfg, s, st, a);
      WorkerActsAreStarted(cfg, s, st, b);
    }
  }

  /** So the lock gives the one look at a payment and the one delivery that the next results ask for. */
  lemma {:induction false} OneWorkerIsEnough(cfg: Config, w: System, moves: seq<Move>)
    requires OneAtATime(w.state) && OneWorker(cfg, w, moves)
    ensures OneLookRun(cfg, w, moves) && OneDeliveryRun(cfg, w, moves)
    decreases |moves|
  {
    hide Next, InTurn, LegacyRows, ReviveAll;
    if moves != [] {
      if moves[0].Take? { OneAtATimeStep(cfg, w, moves[0].step); }
      OneWorkerIsEnough(cfg, Moved(cfg, w, moves[0]), moves[1..]);
    }
  }

  // ---- and with one look at a payment at a time, nobody even asks ----

  predicate LooksAt(act: Act) { act.Polling? || act.Minting? }

  /** No two actors poll or mint the same payment at once. */
  predicate OneLook(s: State) {
    forall a, b :: a in s.acts && b in s.acts && LooksAt(s.acts[a]) && LooksAt(s.acts[b]) && s.acts[a].pid == s.acts[b].pid ==> a == b
  }

  predicate OneLookRun(cfg: Config, w: System, moves: seq<Move>)
    decreases |moves|
  {
    OneLook(w.state) && (moves != [] ==> OneLookRun(cfg, Moved(cfg, w, moves[0]), moves[1..]))
  }

  /** Nobody has a settled payment in hand for a poll or an issuance. */
  predicate LeftAlone(s: State) {
    forall a :: a in s.acts && LooksAt(s.acts[a]) && s.acts[a].pid in s.hist ==> !s.hist[s.acts[a].pid].settled
  }

  lemma LooksAreSelected(cfg: Config, s: State, st: Step, a: nat)
    requires a in Next(cfg, s, st).acts && LooksAt(Next(cfg, s, st).acts[a])
    ensures var act := Next(cfg, s, st).acts[a];
            || (a in s.acts && s.acts[a] == act)
            || (st.SelectDue? && act.pid == st.pid && st.pid in s.rows && Unsettled(s.rows[st.pid]) && DueAt(s.rows[st.pid], st.now))
            || (st.SelectPaid? && act.pid == st.pid && st.pid in s.rows && s.rows[st.pid].status.PaidReconciliationPending?)
  {
    hide Swap, Apply, PollChanges, MintChanges, DeliveryChanges, StoreQuote, FailQuote, QuoteTaken, RequestTaken,
         QuarantineAll, ReviveAll, PersistAll, LegacyRows, Closable, CloseRow;
  }

  lemma EarlySettles(cfg: Config, s: State, st: Step, pid: string)
    requires BeforeDelivery(st) && pid in s.hist && s.hist.Keys == s.rows.Keys
    ensures pid in Next(cfg, s, st).hist
    ensures Next(cfg, s, st).hist[pid].settled && !s.hist[pid].settled ==>
              st.MintResult? && st.act in s.acts && s.acts[st.act].Minting? && s.acts[st.act].pid == pid && st.act !in Next(cfg, s, st).acts
  {
    hide Swap, Apply, PollChanges, MintChanges, StoreQuote, FailQuote, QuoteTaken, RequestTaken;
  }

  lemma LateSettles(cfg: Config, s: State, st: Step, pid: string)
    requires !BeforeDelivery(st) && pid in s.hist
    ensures pid in Next(cfg, s, st).hist && Next(cfg, s, st).hist[pid].settled == s.hist[pid].settled
  {
    hide Swap, Apply, DeliveryChanges, QuarantineAll, ReviveAll, PersistAll, LegacyRows, Closable, CloseRow, RetryDelay;
  }

  /** Only an issuance settles a payment, and it leaves it. */
  lemma SettlesByMinting(cfg: Config, s: State, st: Step, pid: string)
    requires pid in s.hist && s.hist.Keys == s.rows.Keys
    ensures pid in Next(cfg, s, st).hist
    ensures Next(cfg, s, st).hist[pid].settled && !s.hist[pid].settled ==>
              st.MintResult? && st.act in s.acts && s.acts[st.act].Minting? && s.acts[st.act].pid == pid && st.act !in Next(cfg, s, st).acts
  {
    hide Next, BeforeDelivery;
    if BeforeDelivery(st) { EarlySettles(cfg, s, st, pid); } else { LateSettles(cfg, s, st, pid); }
  }

  lemma UnsettledStatus(cfg: Config, s: State, pid: string)
    requires Inv(cfg, s) && pid in s.rows && Early(s.rows[pid].status)
    ensures pid in s.hist && !s.hist[pid].settled
  {
    assert PaymentInv(cfg, s.rows[pid], ZapOf(s, pid), s.hist[pid]);
  }

  lemma ActsAreKnown(cfg: Config, s: State, a: nat)
    requires Inv(cfg, s) && a in s.acts
    ensures s.acts[a].pid in s.hist
  {
    assert ActOk(cfg, s, a);
  }

  lemma {:induction false} LeftAloneStep(cfg: Config, s: State, st: Step)
    requires Inv(cfg, s) && OneLook(s) && LeftAlone(s)
    ensures LeftAlone(Next(cfg, s, st))
  {
    KeysMatch(cfg, s);
    var t := Next(cfg, s, st);
    hide Inv, Next, DueAt;
    forall a | a in t.acts && LooksAt(t.acts[a]) && t.acts[a].pid in t.hist
      ensures !t.hist[t.acts[a].pid].settled
    {
      var pid := t.acts[a].pid;
      LooksAreSelected(cfg, s, st, a);
      if a in s.acts && s.acts[a] == t.acts[a] {
        ActsAreKnown(cfg, s, a);
      } else {
        UnsettledStatus(cfg, s, pid);
      }
      SettlesByMinting(cfg, s, st, pid);
    }
  }

  lemma {:induction false} LeftAloneThroughout(cfg: Config, w: System, moves: seq<Move>)
    requires SystemInv(cfg, w) && LeftAlone(w.state) && AllUndisturbed(cfg, w, moves) && OneLookRun(cfg, w, moves)
    ensures LeftAlone(Play(cfg, w, moves).state)
    decreases |moves|
  {
    hide Inv, Next, LegacyRows, ReviveAll, OneLook, Undisturbed;
    if moves != [] {
      if moves[0].Take? { hide LeftAlone; LeftAloneStep(cfg, w.state, moves[0].step); }
      MoveIsGood(cfg, w, moves[0]);
      LeftAloneThroughout(cfg, Moved(cfg, w, moves[0]), moves[1..]);
    }
  }

  /**
   A payment that ever reached SETTLED is never polled or minted again: with one look at a payment
   at a time, in every run, nobody has a settled payment in hand for either.
   */
  lemma {:induction false} SettledIsLeftAlone(cfg: Config, w: System, moves: seq<Move>)
    requires Start(w) && AllUndisturbed(cfg, w, moves) && OneLookRun(cfg, w, moves)
    ensures LeftAlone(Play(cfg, w, moves).state)
  {
    InitEstablishes(cfg, w.state);
    LeftAloneThroughout(cfg, w, moves);
  }

  /** So it is under the process lock. */
  lemma {:induction false} LockedWorkerLeavesSettledAlone(cfg: Config, w: System, moves: seq<Move>)
    requires Start(w) && Locked(cfg, w, moves)
    ensures LeftAlone(Play(cfg, w, moves).state)
  {
    InitEstablishes(cfg, w.state);
    LockedIsUndisturbed(cfg, w, moves);
    OneWorkerIsEnough(cfg, w, moves);
    SettledIsLeftAlone(cfg, w, moves);
  }

  // ---- quotes and receipts ----

  /**
   A quote is stored at most once, by whichever of the callback and the worker the
   payment was queued for; from then on quote and invoice are the ones delivered
   against, for the same handle and amount.
   */
  lemma {:induction false} QuotesAreWrittenOnce(cfg: Config, w: System, moves: seq<Move>, pid: string)
    requires Reachable(cfg, w) && AllUndisturbed(cfg, w, moves) && Known(w.state, pid)
    ensures
      var s, t := w.state, Play(cfg, w, moves).state;
      && Known(t, pid) && t.hist[pid].quotes <= 1
      && (s.rows[pid].mintQuote.Some? ==> t.rows[pid].mintQuote == s.rows[pid].mintQuote)
      && (s.rows[pid].invoice.Some? ==> t.rows[pid].invoice == s.rows[pid].invoice)
      && t.rows[pid].amountSat == s.rows[pid].amountSat && t.rows[pid].handle == s.rows[pid].handle
      && (Creating(t.rows[pid].status) ==> t.rows[pid].mintQuote.None? && t.hist[pid].quotes == 0)
      && (!Creating(t.rows[pid].status) && !t.rows[pid].status.Failed? ==>
            t.rows[pid].mintQuote.Some? && t.rows[pid].invoice.Some?)
  {
    PaymentFacts(cfg, w, moves, pid);
  }

  /** No two payments share a mint quote, and one signed zap request owns at most one payment. */
  lemma QuotesAndRequestsAreOwnedOnce(cfg: Config, w: System, p: string, q: string)
    requires Reachable(cfg, w)
    ensures var s := w.state;
            && (p in s.rows && q in s.rows && s.rows[p].mintQuote.Some? && s.rows[p].mintQuote == s.rows[q].mintQuote ==> p == q)
            && (p in s.zaps && q in s.zaps && s.zaps[p].requestEventId == s.zaps[q].requestEventId ==> p == q)
            && (p in s.zaps ==> p in s.rows)
  {
    ReachableInv(cfg, w);
  }

  /** Receipts: at most one publication, only after a successful send, and recorded when DELIVERED. */
  lemma ReceiptsFollowDelivery(cfg: Config, w: System, pid: string)
    requires Reachable(cfg, w) && Known(w.state, pid)
    ensures var s := w.state;
            && s.hist[pid].receipts <= 1
            && (s.hist[pid].receipts == 1 || s.rows[pid].status.Delivered? ==> Succeeded(s.hist[pid].sends))
            && (s.rows[pid].status.Delivered? && pid in s.zaps ==> s.zaps[pid].receiptEventId.Some?)
            && (s.rows[pid].status.ReceiptPending? ==> pid in s.zaps && s.hist[pid].receipts == 0)
  {
    PaymentFacts(cfg, w, [], pid);
  }

  // ---- the delivery budget ----

  lemma Doubling(base: real, w: real)
    requires base >= 0.0 && w >= 1.0
    ensures base * w >= 0.0
    ensures base * (w - 1.0) + base * w == base * (2.0 * w - 1.0)
  {
  }

  lemma OneMore(n: nat, top: real)
    ensures n as real * top + top == (n + 1) as real * top
  {
    var x := n as real;
    assert (n + 1) as real == x + 1.0;
    assert x * top + top == (x + 1.0) * top;
  }

  lemma RetryDelayBounds(cfg: Config, n: nat)
    requires cfg.retryBase >= 0.0 && cfg.retryMax >= 0.0 && n > 0
    ensures 0.0 <= RetryDelay(cfg, n) <= cfg.retryMax
    ensures RetryDelay(cfg, n) <= cfg.retryBase * Pow2(n - 1)
  {
    Pow2Positive(n - 1);
    Doubling(cfg.retryBase, Pow2(n - 1));
  }

  lemma {:induction false} DelayLinear(cfg: Config, n: nat)
    requires cfg.retryBase >= 0.0 && cfg.retryMax >= 0.0
    ensures 0.0 <= DelaySum(cfg, n) <= n as real * cfg.retryMax
  {
    hide RetryDelay;
    if n > 0 {
      DelayLinear(cfg, n - 1);
      OneMore(n - 1, cfg.retryMax);
      RetryDelayBounds(cfg, n);
    }
  }

  lemma {:induction false} DelayGeometric(cfg: Config, n: nat)
    requires cfg.retryBase >= 0.0 && cfg.retryMax >= 0.0
    ensures DelaySum(cfg, n) <= cfg.retryBase * (Pow2(n) - 1.0)
  {
    hide RetryDelay;
    if n > 0 {
      var w := Pow2(n - 1);
      assert Pow2(n) == 2.0 * w;
      hide Pow2;
      DelayGeometric(cfg, n - 1);
      Pow2Positive(n - 1);
      Doubling(cfg.retryBase, w);
      RetryDelayBounds(cfg, n);
      assert DelaySum(cfg, n) == DelaySum(cfg, n - 1) + RetryDelay(cfg, n);
    }
  }

  lemma {:induction false} DelayMonotone(cfg: Config, m: nat, n: nat)
    requires cfg.retryBase >= 0.0 && cfg.retryMax >= 0.0 && m <= n
    ensures DelaySum(cfg, m) <= DelaySum(cfg, n)
  {
    if m < n {
      hide RetryDelay;
      DelayMonotone(cfg, m, n - 1);
      RetryDelayBounds(cfg, n);
    }
  }

  /** For N sends allowed: at most (N-1) maximal delays, and at most base * (2^(N-1) - 1). */
  predicate DelayWithin(cfg: Config, delay: real) {
    var n: nat := Allowed(cfg) - 1;
    delay <= n as real * cfg.retryMax && delay <= cfg.retryBase * (Pow2(n) - 1.0)
  }

  lemma DelaySumWithin(cfg: Config, m: nat)
    requires cfg.retryBase >= 0.0 && cfg.retryMax >= 0.0 && m < Allowed(cfg)
    ensures DelayWithin(cfg, DelaySum(cfg, m))
  {
    hide DelaySum, Pow2, Allowed;
    var n: nat := Allowed(cfg) - 1;
    DelayMonotone(cfg, m, n);
    DelayLinear(cfg, n);
    DelayGeometric(cfg, n);
  }

  predicate WithinBudget(cfg: Config, h: Hist) { |h.sends| <= Allowed(cfg) && DelayWithin(cfg, h.delay) }

  /**
   The recorded attempts never exceed the allowance. They equal the claims made
   exactly when no claim was made from a candidate read before another claim;
   then sends and scheduled delay are within the configured budget. A claim is a
   send, except that the newest claimer may not have started its send.
   */
  lemma DeliveryBudget(cfg: Config, w: System, pid: string)
    requires Reachable(cfg, w) && Known(w.state, pid)
    requires cfg.retryBase >= 0.0 && cfg.retryMax >= 0.0
    ensures var s := w.state;
            && s.rows[pid].deliveryAttempts <= Allowed(cfg)
            && |s.hist[pid].sends| <= s.hist[pid].claims <= |s.hist[pid].sends| + 1
            && (s.rows[pid].deliveryAttempts == s.hist[pid].claims <==> s.hist[pid].staleClaims == 0)
            && (s.hist[pid].staleClaims == 0 ==> WithinBudget(cfg, s.hist[pid]))
  {
    hide PaymentInv, Follows;
    PaymentFacts(cfg, w, [], pid);
    BudgetOf(cfg, w.state.rows[pid], ZapOf(w.state, pid), w.state.hist[pid]);
  }

  lemma BudgetOf(cfg: Config, p: Payment, z: Option<Zap>, h: Hist)
    requires PaymentInv(cfg, p, z, h) && cfg.retryBase >= 0.0 && cfg.retryMax >= 0.0
    ensures p.deliveryAttempts <= Allowed(cfg) && |h.sends| <= h.claims <= |h.sends| + 1
    ensures p.deliveryAttempts == h.claims <==> h.staleClaims == 0
    ensures h.staleClaims == 0 ==> WithinBudget(cfg, h)
  {
    hide DelaySum, DelayWithin;
    if h.staleClaims == 0 {
      DelaySumWithin(cfg, if h.settled && !p.status.Settled? then p.deliveryAttempts - 1 else p.deliveryAttempts);
    }
  }

  predicate IsDelivery(act: Act) { act.SettledSeen? || IsSend(act) }

  /** One payment at a time is delivered. */
  predicate OneDelivery(s: State) {
    forall a, b :: a in s.acts && b in s.acts && IsDelivery(s.acts[a]) && IsDelivery(s.acts[b]) ==> a == b
  }

  predicate OneDeliveryRun(cfg: Config, w: System, moves: seq<Move>)
    decreases |moves|
  {
    OneDelivery(w.state) && (moves != [] ==> OneDeliveryRun(cfg, Moved(cfg, w, moves[0]), moves[1..]))
  }

  predicate NothingStale(s: State) {
    && (forall p :: p in s.hist ==> s.hist[p].staleClaims == 0)
    && (forall a :: a in s.acts && s.acts[a].SettledSeen? ==>
          s.acts[a].pid in s.hist && s.acts[a].seenClaims == s.hist[s.acts[a].pid].claims)
  }

  predicate SameClaims(h: Hist, g: Hist) { g.claims == h.claims && g.staleClaims == h.staleClaims }

  /** Only a delivery claim counts claims, and only selecting a SETTLED row adds a candidate. */
  predicate ClaimsKept(s: State, t: State) {
    && (forall p :: p in s.hist ==> p in t.hist && SameClaims(s.hist[p], t.hist[p]))
    && (forall p :: p in t.hist && p !in s.hist ==> t.hist[p].staleClaims == 0)
    && (forall a :: a in t.acts && t.acts[a].SettledSeen? ==>
          (a in s.acts && s.acts[a] == t.acts[a])
          || (t.acts[a].pid in t.hist && t.acts[a].seenClaims == t.hist[t.acts[a].pid].claims))
  }

  /** The shape of every other step on one payment. */
  lemma OneHistory(s: State, t: State, pid: string)
    requires pid in s.hist && pid in t.hist && SameClaims(s.hist[pid], t.hist[pid])
    requires t.hist == s.hist[pid := t.hist[pid]]
    requires forall a :: a in t.acts ==> (a in s.acts && t.acts[a] == s.acts[a]) || !t.acts[a].SettledSeen?
    ensures ClaimsKept(s, t)
  {
  }

  lemma SelectKeepsClaims(cfg: Config, s: State, st: Step)
    requires st.Enqueue? || st.ZapBegin? || st.SelectDue? || st.SelectPaid? || st.SelectSettled?
    requires s.hist.Keys == s.rows.Keys
    ensures ClaimsKept(s, Next(cfg, s, st))
  {
    hide RequestTaken, DueAt;
  }

  lemma StoreKeepsClaims(cfg: Config, s: State, st: Step)
    requires st.ZapStore? || st.WorkerStore? || st.ZapFail? || st.WorkerFail?
    requires s.hist.Keys == s.rows.Keys
    ensures ClaimsKept(s, Next(cfg, s, st))
  {
    hide StoreQuote, FailQuote, Apply, QuoteTaken;
    if Holds(s, st.act) { OneHistory(s, Next(cfg, s, st), s.acts[st.act].pid); }
  }

  lemma PollKeepsClaims(cfg: Config, s: State, st: Step)
    requires st.PollResult? || st.MintResult? || st.ClaimQuote?
    requires s.hist.Keys == s.rows.Keys
    ensures ClaimsKept(s, Next(cfg, s, st))
  {
    hide PollChanges, MintChanges, Apply;
    if st.ClaimQuote? {
      if st.pid in s.hist { OneHistory(s, Next(cfg, s, st), st.pid); }
    } else if Holds(s, st.act) {
      OneHistory(s, Next(cfg, s, st), s.acts[st.act].pid);
    }
  }

  lemma EarlyKeepsClaims(cfg: Config, s: State, st: Step)
    requires BeforeDelivery(st) && s.hist.Keys == s.rows.Keys
    ensures ClaimsKept(s, Next(cfg, s, st))
  {
    hide Next, ClaimsKept;
    if st.ZapStore? || st.WorkerStore? || st.ZapFail? || st.WorkerFail? {
      StoreKeepsClaims(cfg, s, st);
    } else if st.PollResult? || st.MintResult? || st.ClaimQuote? {
      PollKeepsClaims(cfg, s, st);
    } else {
      SelectKeepsClaims(cfg, s, st);
    }
  }

  lemma SendKeepsClaims(cfg: Config, s: State, st: Step)
    requires st.StartSend? || st.SendReturns? || st.FinishSend?
    ensures ClaimsKept(s, Next(cfg, s, st))
  {
    hide DeliveryChanges, Apply, RetryDelay;
  }

  lemma ClaimedKeepsClaims(cfg: Config, s: State, st: Step)
    requires st.ClaimReceipt? || st.StartPublish? || st.FinishReceipt? || st.FailReceipt?
    ensures ClaimsKept(s, Next(cfg, s, st))
  {
    hide Apply, Swap;
  }

  lemma NotedKeepsClaims(cfg: Config, s: State, st: Step)
    requires st.PublishReturns? || st.RecordReceipt? || st.NoteFailure? || st.Crash?
    ensures ClaimsKept(s, Next(cfg, s, st))
  {
    hide Cas, Swap, Apply, DeliveryChanges, StoreStep, FailStep, PollStep, MintStep, ClaimSendStep, FinishSendStep, CloseStep,
         EnqueueStep, QuarantineAll, ReviveAll, PersistAll, LegacyRows, DueAt;
  }

  lemma LateKeepsClaims(cfg: Config, s: State, st: Step)
    requires !BeforeDelivery(st) && !st.ClaimSend?
    ensures ClaimsKept(s, Next(cfg, s, st))
  {
    if st.StartSend? || st.SendReturns? || st.FinishSend? {
      hide Next, ClaimsKept;
      SendKeepsClaims(cfg, s, st);
    } else if st.Quarantine? || st.Reconcile? || st.Close? || st.Persist? {
      hide QuarantineAll, ReviveAll, PersistAll, CloseRow, Closable, LegacyRows;
    } else {
      hide Next, ClaimsKept;
      if st.PublishReturns? || st.RecordReceipt? || st.NoteFailure? || st.Crash? { NotedKeepsClaims(cfg, s, st); }
      else { ClaimedKeepsClaims(cfg, s, st); }
    }
  }

  lemma FreshClaims(cfg: Config, s: State, st: Step)
    requires Inv(cfg, s) && OneDelivery(s) && NothingStale(s)
    ensures NothingStale(Next(cfg, s, st))
  {
    KeysMatch(cfg, s);
    hide Inv, BeforeDelivery;
    if st.ClaimSend? {
      hide Apply;
    } else {
      hide Next;
      if BeforeDelivery(st) { EarlyKeepsClaims(cfg, s, st); } else { LateKeepsClaims(cfg, s, st); }
    }
  }

  lemma {:induction false} SingletonIsFresh(cfg: Config, w: System, moves: seq<Move>)
    requires SystemInv(cfg, w) && AllUndisturbed(cfg, w, moves) && OneDeliveryRun(cfg, w, moves) && NothingStale(w.state)
    ensures NothingStale(Play(cfg, w, moves).state)
    decreases |moves|
  {
    hide Inv, Next, LegacyRows, ReviveAll, OneDelivery;
    if moves != [] {
      if moves[0].Take? { FreshClaims(cfg, w.state, moves[0].step); }
      MoveIsGood(cfg, w, moves[0]);
      SingletonIsFresh(cfg, Moved(cfg, w, moves[0]), moves[1..]);
    }
  }

  /** With one delivery at a time the attempt counter is exact, so the whole budget holds. */
  lemma {:induction false} SingletonBudget(cfg: Config, w: System, moves: seq<Move>, pid: string)
    requires Start(w) && AllUndisturbed(cfg, w, moves) && OneDeliveryRun(cfg, w, moves) && Known(Play(cfg, w, moves).state, pid)
    requires cfg.retryBase >= 0.0 && cfg.retryMax >= 0.0
    ensures var t := Play(cfg, w, moves).state;
            t.rows[pid].deliveryAttempts == t.hist[pid].claims && WithinBudget(cfg, t.hist[pid])
  {
    InitEstablishes(cfg, w.state);
    SingletonIsFresh(cfg, w, moves);
    assert Reachable(cfg, Play(cfg, w, moves));
    hide Inv, OneDeliveryRun, AllUndisturbed;
    DeliveryBudget(cfg, Play(cfg, w, moves), pid);
  }

  /** So it does under the process lock. */
  lemma {:induction false} LockedBudget(cfg: Config, w: System, moves: seq<Move>, pid: string)
    requires Start(w) && Locked(cfg, w, moves) && Known(Play(cfg, w, moves).state, pid)
    requires cfg.retryBase >= 0.0 && cfg.retryMax >= 0.0
    ensures var t := Play(cfg, w, moves).state;
            t.rows[pid].deliveryAttempts == t.hist[pid].claims && WithinBudget(cfg, t.hist[pid])
  {
    InitEstablishes(cfg, w.state);
    LockedIsUndisturbed(cfg, w, moves);
    OneWorkerIsEnough(cfg, w, moves);
    SingletonBudget(cfg, w, moves, pid);
  }

  // ---- legacy recovery ----

  predicate NoLegacy(s: State) { forall p :: p in s.rows ==> !LegacyTimeout(s.rows[p]) }

  /**
   Once one recovery has written, there is never a row for another to select, in any run: while
   it was under way no legacy row appeared that it had not selected.
   */
  lemma {:induction false} LegacyRecoveryHappensOnce(cfg: Config, w: System, r: nat, now: real, moves: seq<Move>)
    requires Reachable(cfg, w) && r in w.recovering && AllUndisturbed(cfg, w, [WriteLegacy(r, now)] + moves)
    ensures NoLegacy(Play(cfg, w, [WriteLegacy(r, now)] + moves).state)
  {
    var write := WriteLegacy(r, now);
    var v := Moved(cfg, w, write);
    assert ([write] + moves)[1..] == moves;
    ReachableInv(cfg, w);
    MoveIsGood(cfg, w, write);
    assert NoLegacy(v.state);
    PlayIsGood(cfg, v, moves);
    KeysMatch(cfg, v.state);
    hide Inv, PaymentInv, AllUndisturbed;
    var t := Play(cfg, v, moves).state;
    forall p | p in t.rows
      ensures !LegacyTimeout(t.rows[p])
    {
      assert p in v.state.rows ==> Follows(v.state.rows[p], v.state.hist[p], t.rows[p], t.hist[p]);
    }
  }
}
