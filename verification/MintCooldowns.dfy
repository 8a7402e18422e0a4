/** What a persisted cooldown is worth: how long it keeps a mint's invoices out of the due batches. */
module MintCooldowns {
  import opened Prelude
  import opened PaymentRows
  import opened PaymentMachine
  import opened PaymentSafety
  import opened PaymentSteps
  import opened PaymentTheorems
  import opened LegacyRecovery
  import opened SettlementQueue

  /** As long as it is unsettled, it is not looked at before the deadline. */
  predicate Later(q: Payment, deadline: real) {
    Unsettled(q) ==> q.nextCheckAt.Some? && q.nextCheckAt.value >= deadline
  }

  /** A payment with its quote which, as long as it is unsettled, is not looked at before the deadline. */
  predicate Waits(s: State, pid: string, deadline: real) {
    && pid in s.rows && s.rows[pid].mintQuote.Some? && !LegacyTimeout(s.rows[pid])
    && Later(s.rows[pid], deadline)
  }

  /** An answer for an invoice that was selected before and asks to look again earlier. */
  predicate AsksSooner(s: State, st: Step, pid: string, deadline: real) {
    && st.PollResult? && st.act in s.acts && s.acts[st.act].Polling? && s.acts[st.act].pid == pid
    && pid in s.rows && s.rows[pid].status == s.acts[st.act].seen.status
    && match st.poll
       case PollUnpaid(recheck) => st.now + recheck < deadline
       case PollDeferred(delay, _, _) => st.now + delay < deadline
       case _ => false
  }

  /** The only writes that bring an unsettled payment forward: such an answer, or a stale legacy recovery. */
  predicate BringsForward(w: System, m: Move, pid: string, deadline: real) {
    match m
    case Take(st) => AsksSooner(w.state, st, pid, deadline)
    case WriteLegacy(r, now) => r in w.recovering && pid in w.recovering[r] && now < deadline
    case _ => false
  }

  // ---- one step ----

  /** No step but a poll's answer, a new quote or a recovery makes a payment unsettled. */
  predicate UnsettledBefore(p: Payment, q: Payment) {
    Unsettled(q) ==> Unsettled(p) && q.nextCheckAt == p.nextCheckAt
  }

  lemma SeenInv(cfg: Config, s: State, a: nat)
    requires Inv(cfg, s) && a in s.acts
    ensures s.acts[a].Polling? ==> Unsettled(s.acts[a].seen)
    ensures s.acts[a].Minting? ==> s.acts[a].seen.status == PaidReconciliationPending
  {
    assert ActOk(cfg, s, a);
  }

  lemma MintStepWaits(cfg: Config, s: State, st: Step, pid: string)
    requires pid in s.rows && st.MintResult?
    requires st.act in s.acts && s.acts[st.act].Minting? ==> s.acts[st.act].seen.status == PaidReconciliationPending
    ensures pid in Next(cfg, s, st).rows && UnsettledBefore(s.rows[pid], Next(cfg, s, st).rows[pid])
  {
  }

  lemma QuoteStepWaits(cfg: Config, s: State, st: Step, pid: string)
    requires pid in s.rows && !Creating(s.rows[pid].status)
    requires st.ZapStore? || st.ZapFail? || st.WorkerStore? || st.WorkerFail? || st.ClaimQuote?
    ensures pid in Next(cfg, s, st).rows && Next(cfg, s, st).rows[pid] == s.rows[pid]
  {
    hide Apply, StoreQuote, FailQuote, QuoteTaken, ZapQuoteText, WorkerQuoteText;
  }

  lemma EarlyStepWaits(cfg: Config, s: State, st: Step, pid: string)
    requires Inv(cfg, s) && pid in s.rows && !Creating(s.rows[pid].status) && BeforeDelivery(st) && !st.PollResult?
    ensures pid in Next(cfg, s, st).rows && UnsettledBefore(s.rows[pid], Next(cfg, s, st).rows[pid])
  {
    hide Inv;
    if st.MintResult? {
      if st.act in s.acts { SeenInv(cfg, s, st.act); }
      hide Next;
      MintStepWaits(cfg, s, st, pid);
    } else if st.Enqueue? || st.ZapBegin? || st.SelectDue? || st.SelectPaid? || st.SelectSettled? {
      hide RequestTaken, DueAt;
    } else {
      hide Next, Creating;
      QuoteStepWaits(cfg, s, st, pid);
    }
  }

  lemma LateStepWaits(cfg: Config, s: State, st: Step, pid: string)
    requires pid in s.rows && !LegacyTimeout(s.rows[pid]) && !BeforeDelivery(st) && !st.Persist?
    ensures pid in Next(cfg, s, st).rows && UnsettledBefore(s.rows[pid], Next(cfg, s, st).rows[pid])
  {
    hide RetryText, ExhaustedText, ReviewText, RetryDelay, LegacyTimeout, Revive;
  }

  lemma PollWaits(cfg: Config, s: State, st: Step, pid: string, deadline: real)
    requires st.PollResult? && pid in s.rows && Later(s.rows[pid], deadline)
    requires st.act in s.acts && s.acts[st.act].Polling? ==> Unsettled(s.acts[st.act].seen)
    requires s.hist.Keys == s.rows.Keys
    ensures Later(Next(cfg, s, st).rows[pid], deadline) <==> !AsksSooner(s, st, pid, deadline)
  {
  }

  lemma PersistLater(p: Payment, mint: string, deadline: real, bound: real)
    requires Later(p, bound)
    ensures Later(PersistRow(p, mint, deadline), bound)
  {
  }

  lemma {:induction false} StepWaits(cfg: Config, s: State, st: Step, pid: string, deadline: real)
    requires Inv(cfg, s) && Waits(s, pid, deadline) && pid in Next(cfg, s, st).rows
    ensures Later(Next(cfg, s, st).rows[pid], deadline) <==> !AsksSooner(s, st, pid, deadline)
  {
    HasQuote(cfg, s, pid);
    KeysMatch(cfg, s);
    hide Inv;
    if st.PollResult? {
      if st.act in s.acts { SeenInv(cfg, s, st.act); }
      hide Next, AsksSooner, LegacyTimeout;
      PollWaits(cfg, s, st, pid, deadline);
    } else if st.Persist? {
      PersistLater(s.rows[pid], st.mint, st.deadline, deadline);
    } else {
      hide Next, BeforeDelivery, LegacyTimeout, Creating;
      if BeforeDelivery(st) { EarlyStepWaits(cfg, s, st, pid); } else { LateStepWaits(cfg, s, st, pid); }
    }
  }

  lemma HasQuote(cfg: Config, s: State, pid: string)
    requires Inv(cfg, s) && pid in s.rows && s.rows[pid].mintQuote.Some?
    ensures !Creating(s.rows[pid].status)
  {
    assert PaymentInv(cfg, s.rows[pid], ZapOf(s, pid), s.hist[pid]);
  }

  lemma WaitsStays(cfg: Config, w: System, v: System, pid: string, deadline: real)
    requires Inv(cfg, w.state) && Waits(w.state, pid, deadline) && Extends(w.state, v.state)
    ensures pid in v.state.rows && v.state.rows[pid].mintQuote.Some? && !LegacyTimeout(v.state.rows[pid])
  {
    KeysMatch(cfg, w.state);
    assert Follows(w.state.rows[pid], w.state.hist[pid], v.state.rows[pid], v.state.hist[pid]);
  }

  /** Exactly those writes end the wait. */
  lemma {:induction false} WaitsUnlessBroughtForward(cfg: Config, w: System, m: Move, pid: string, deadline: real)
    requires SystemInv(cfg, w) && Undisturbed(w, m) && Waits(w.state, pid, deadline)
    ensures Waits(Moved(cfg, w, m).state, pid, deadline) <==> !BringsForward(w, m, pid, deadline)
  {
    MoveIsGood(cfg, w, m);
    hide Inv, Extends, LegacyTimeout, AsksSooner, Next;
    WaitsStays(cfg, w, Moved(cfg, w, m), pid, deadline);
    if m.Take? { StepWaits(cfg, w.state, m.step, pid, deadline); }
  }

  // ---- runs ----

  predicate NeverBroughtForward(cfg: Config, w: System, moves: seq<Move>, pid: string, deadline: real)
    decreases |moves|
  {
    moves != [] ==>
      !BringsForward(w, moves[0], pid, deadline) && NeverBroughtForward(cfg, Moved(cfg, w, moves[0]), moves[1..], pid, deadline)
  }

  lemma {:induction false} WaitsThroughout(cfg: Config, w: System, moves: seq<Move>, pid: string, deadline: real)
    requires SystemInv(cfg, w) && AllUndisturbed(cfg, w, moves) && Waits(w.state, pid, deadline)
    requires NeverBroughtForward(cfg, w, moves, pid, deadline)
    ensures Waits(Play(cfg, w, moves).state, pid, deadline)
    decreases |moves|
  {
    hide SystemInv, Undisturbed, Waits, BringsForward, Moved;
    if moves != [] {
      MoveIsGood(cfg, w, moves[0]);
      WaitsUnlessBroughtForward(cfg, w, moves[0], pid, deadline);
      WaitsThroughout(cfg, Moved(cfg, w, moves[0]), moves[1..], pid, deadline);
    }
  }

  lemma PersistWaits(cfg: Config, w: System, mint: string, deadline: real, pid: string)
    requires SystemInv(cfg, w) && pid in w.state.rows && w.state.rows[pid].mint == mint && Unsettled(w.state.rows[pid])
    ensures Waits(Moved(cfg, w, Take(Persist(mint, deadline))).state, pid, deadline)
  {
    UnsettledHasQuote(cfg, w.state, pid);
    PersistIs(cfg, w.state, mint, deadline);
    hide Inv, Next;
    assert Moved(cfg, w, Take(Persist(mint, deadline))).state.rows[pid] == PersistRow(w.state.rows[pid], mint, deadline);
  }

  lemma UnsettledHasQuote(cfg: Config, s: State, pid: string)
    requires Inv(cfg, s) && pid in s.rows && Unsettled(s.rows[pid])
    ensures s.rows[pid].mintQuote.Some?
  {
    assert PaymentInv(cfg, s.rows[pid], ZapOf(s, pid), s.hist[pid]);
  }

  /**
   A restarted worker has no memory of the cooldowns, and needs none: once a cooldown is persisted,
   no unsettled payment of the mint is in any due batch before the deadline, in any run in which none
   of those writes brings it forward.
   */
  lemma {:induction false} PersistedCooldownHolds(cfg: Config, w: System, mint: string, deadline: real, moves: seq<Move>,
                                                  pid: string, later: real, batch: seq<string>)
    requires SystemInv(cfg, w) && pid in w.state.rows && w.state.rows[pid].mint == mint && Unsettled(w.state.rows[pid])
    requires var v := Moved(cfg, w, Take(Persist(mint, deadline)));
             AllUndisturbed(cfg, v, moves) && NeverBroughtForward(cfg, v, moves, pid, deadline)
    requires later < deadline
    ensures var t := Play(cfg, Moved(cfg, w, Take(Persist(mint, deadline))), moves).state;
            IsBatch(t.rows, later, batch) ==> pid !in batch
  {
    var persist := Take(Persist(mint, deadline));
    var v := Moved(cfg, w, persist);
    PersistWaits(cfg, w, mint, deadline, pid);
    MoveIsGood(cfg, w, persist);
    hide SystemInv, Moved;
    WaitsThroughout(cfg, v, moves, pid, deadline);
    assert pid !in DueInvoices(Play(cfg, v, moves).state.rows, later);
  }

  // ---- when nothing brings it forward ----

  /** Nobody has selected the payment, neither for a poll nor for recovery. */
  predicate Unselected(w: System, pid: string) {
    && (forall a :: a in w.state.acts && w.state.acts[a].Polling? ==> w.state.acts[a].pid != pid)
    && (forall r :: r in w.recovering ==> pid !in w.recovering[r])
  }

  /** Selections of due invoices happen before the deadline. */
  predicate SelectsBefore(moves: seq<Move>, deadline: real) {
    forall i :: 0 <= i < |moves| && moves[i].Take? && moves[i].step.SelectDue? ==> moves[i].step.now < deadline
  }

  lemma UnselectedStays(cfg: Config, w: System, m: Move, pid: string, deadline: real)
    requires Waits(w.state, pid, deadline) && Unselected(w, pid)
    requires m.Take? && m.step.SelectDue? ==> m.step.now < deadline
    ensures Unselected(Moved(cfg, w, m), pid) && !BringsForward(w, m, pid, deadline)
  {
    var v := Moved(cfg, w, m);
    if m.Take? {
      hide Next;
      forall a | a in v.state.acts && v.state.acts[a].Polling?
        ensures v.state.acts[a].pid != pid
      {
        LooksAreSelected(cfg, w.state, m.step, a);
      }
    }
  }

  /**
   Until the deadline nothing does: a payment nobody has in hand is not selected before it, so
   no answer for it is under way.
   */
  lemma {:induction false} CooldownHoldsUntilDeadline(cfg: Config, w: System, moves: seq<Move>, pid: string, deadline: real)
    requires SystemInv(cfg, w) && AllUndisturbed(cfg, w, moves) && Waits(w.state, pid, deadline)
    requires Unselected(w, pid) && SelectsBefore(moves, deadline)
    ensures NeverBroughtForward(cfg, w, moves, pid, deadline)
    decreases |moves|
  {
    hide SystemInv, Undisturbed, Waits, BringsForward, Moved, Unselected;
    if moves != [] {
      UnselectedStays(cfg, w, moves[0], pid, deadline);
      MoveIsGood(cfg, w, moves[0]);
      WaitsUnlessBroughtForward(cfg, w, moves[0], pid, deadline);
      CooldownHoldsUntilDeadline(cfg, Moved(cfg, w, moves[0]), moves[1..], pid, deadline);
    }
  }
}
