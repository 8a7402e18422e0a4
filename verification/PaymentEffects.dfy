/**
 What each step leaves behind in a payment's columns, said without the functions that
 compute it. The stages of the worker and the callback are runs of these steps, so this
 is also what they write.
 */
module PaymentEffects {
  import opened Prelude
  import opened PaymentRows
  import opened PaymentMachine
  import opened PaymentSafety
  import opened PaymentSteps
  import opened LegacyRecovery

  /** Whom the payment is for, how much it is, where it is settled, and when it was asked for. */
  predicate SameOrder(p: Payment, q: Payment) {
    q.id == p.id && q.handle == p.handle && q.amountSat == p.amountSat && q.mint == p.mint && q.createdAt == p.createdAt
  }

  predicate SameInvoice(p: Payment, q: Payment) { q.mintQuote == p.mintQuote && q.invoice == p.invoice }

  predicate SameCounts(p: Payment, q: Payment) { q.attempts == p.attempts && q.deliveryAttempts == p.deliveryAttempts }

  /** Only this payment's row changed. */
  predicate OnlyRow(before: Rows, after: Rows, pid: string) {
    after.Keys == before.Keys && forall q :: q in before && q != pid ==> after[q] == before[q]
  }

  // ---- what was asked for ----

  /** A whole number of satoshis, rounded down from what the payer was asked for. */
  predicate AmountOf(amountSat: nat, amountMsat: nat) { amountSat * 1000 <= amountMsat < (amountSat + 1) * 1000 }

  predicate AskedFor(p: Payment, st: Step) {
    st.Enqueue? && p.id == st.id && p.handle == st.handle && p.mint == st.mint && p.createdAt == st.now
    && AmountOf(p.amountSat, st.amountMsat)
  }

  /** A new payment is what its caller asked for, with nothing done yet. */
  lemma EnqueueEffect(cfg: Config, s: State, st: Step)
    requires st.Enqueue?
    ensures var t := Next(cfg, s, st);
            if st.pid in s.rows || (st.request.Some? && exists q :: q in s.zaps && s.zaps[q].requestEventId == st.request.value)
            then t == s
            else
              && t.rows.Keys == s.rows.Keys + {st.pid} && (forall q :: q in s.rows ==> t.rows[q] == s.rows[q])
              && var p := t.rows[st.pid];
              && AskedFor(p, st) && p.status == (if st.callback then QuoteCreating else QuotePending)
              && p.mintQuote.None? && p.invoice.None? && p.deliveryEventId.None? && p.error.None? && p.nextCheckAt.None?
              && p.attempts == 0 && p.deliveryAttempts == 0 && p.updatedAt == st.now
              && (st.request.Some? ==> t.zaps == s.zaps[st.pid := Zap(st.request.value, None, None)])
              && (st.request.None? ==> t.zaps == s.zaps)
  {
  }

  lemma StepKeepsOrders(cfg: Config, s: State, st: Step, pid: string)
    requires Inv(cfg, s) && pid in Next(cfg, s, st).rows
    ensures if pid in s.rows then Fixed(s.rows[pid], Next(cfg, s, st).rows[pid]) else st.Enqueue? && st.pid == pid
  {
    KeysMatch(cfg, s);
    NextIsGood(cfg, s, st);
    if pid in s.rows {
      hide Inv, Next;
      assert Follows(s.rows[pid], s.hist[pid], Next(cfg, s, st).rows[pid], Next(cfg, s, st).hist[pid]);
    } else {
      hide Inv, Good;
      OnlyEnqueueAdds(cfg, s, st);
    }
  }

  lemma OnlyEnqueueAdds(cfg: Config, s: State, st: Step)
    ensures Next(cfg, s, st).rows.Keys <= s.rows.Keys + if st.Enqueue? then {st.pid} else {}
  {
    hide Apply, PollChanges, MintChanges, DeliveryChanges, StoreQuote, FailQuote, QuoteTaken, RequestTaken, LegacyRows,
         Closable, CloseRow, QuarantineRow, PersistRow, Revive, DueAt;
  }

  predicate SameCall(p: Payment, q: Payment) { q.id == p.id && q.handle == p.handle && q.amountSat == p.amountSat && q.mint == p.mint }

  /** The row is what some enqueueing among the moves asked for. */
  predicate WasAskedFor(p: Payment, pid: string, moves: seq<Move>) {
    exists i :: 0 <= i < |moves| && moves[i].Take? && moves[i].step.Enqueue? && moves[i].step.pid == pid && Requested(p, moves[i].step)
  }

  predicate Requested(p: Payment, st: Step)
    requires st.Enqueue?
  {
    p.id == st.id && p.handle == st.handle && p.mint == st.mint && AmountOf(p.amountSat, st.amountMsat)
  }

  lemma MoveKeepsOrders(cfg: Config, w: System, m: Move, pid: string)
    requires SystemInv(cfg, w) && Undisturbed(w, m) && pid in Moved(cfg, w, m).state.rows
    ensures pid in w.state.rows ==> SameCall(w.state.rows[pid], Moved(cfg, w, m).state.rows[pid])
    ensures pid !in w.state.rows ==> m.Take? && m.step.Enqueue? && m.step.pid == pid && Requested(Moved(cfg, w, m).state.rows[pid], m.step)
  {
    hide Inv, Next, Unsettling, LegacyRows;
    if m.Take? {
      StepKeepsOrders(cfg, w.state, m.step, pid);
      if m.step.Enqueue? { EnqueueEffect(cfg, w.state, m.step); }
    }
  }

  /** Over every run, each payment is one that was there before or is for the handle, mint and amount of the call that enqueued it. */
  lemma {:induction false} PaymentsWereAskedFor(cfg: Config, w: System, moves: seq<Move>, pid: string)
    requires SystemInv(cfg, w) && AllUndisturbed(cfg, w, moves) && pid in Play(cfg, w, moves).state.rows
    ensures var p := Play(cfg, w, moves).state.rows[pid];
            if pid in w.state.rows then SameCall(w.state.rows[pid], p) else WasAskedFor(p, pid, moves)
    decreases |moves|
  {
    if moves != [] {
      var v := Moved(cfg, w, moves[0]);
      MoveIsGood(cfg, w, moves[0]);
      hide SystemInv, Moved, Undisturbed;
      PaymentsWereAskedFor(cfg, v, moves[1..], pid);
      var p := Play(cfg, v, moves[1..]).state.rows[pid];
      if pid in v.state.rows {
        MoveKeepsOrders(cfg, w, moves[0], pid);
        if pid !in w.state.rows { assert moves[0].step.pid == pid && Requested(p, moves[0].step); }
      } else {
        RowsOnlyGrow(cfg, w, moves[0]);
        var i :| 0 <= i < |moves[1..]| && moves[1..][i].Take? && moves[1..][i].step.Enqueue? && moves[1..][i].step.pid == pid
                 && Requested(p, moves[1..][i].step);
        assert moves[i + 1] == moves[1..][i];
      }
    }
  }

  lemma RowsOnlyGrow(cfg: Config, w: System, m: Move)
    requires SystemInv(cfg, w) && Undisturbed(w, m)
    ensures w.state.rows.Keys <= Moved(cfg, w, m).state.rows.Keys
  {
    KeysMatch(cfg, w.state);
    MoveIsGood(cfg, w, m);
    hide Inv, Next, Moved;
  }

  // ---- the quote ----

  /** The status in which each of the two may store its quote. */
  function Waiting(act: Act): Status { if act.ZapQuoting? then QuoteCreating else WorkerQuoteCreating }

  predicate IsQuoteAnswer(s: State, st: Step) {
    (st.ZapStore? || st.ZapFail? || st.WorkerStore? || st.WorkerFail?) && Holds(s, st.act)
    && (if st.ZapStore? || st.ZapFail? then s.acts[st.act].ZapQuoting? else s.acts[st.act].WorkerQuoting?)
  }

  /** No other payment has that quote. */
  predicate Unused(rows: Rows, pid: string, quote: string) {
    forall o :: o in rows && o != pid ==> rows[o].mintQuote != Some(quote)
  }

  predicate Invoiced(q: Payment, quote: string, invoice: string, now: real) {
    q.status == InvoicePending && q.mintQuote == Some(quote) && q.invoice == Some(invoice) && q.error.None? && q.nextCheckAt == Some(now)
  }

  lemma UnusedIsFree(rows: Rows, pid: string, quote: string)
    ensures Unused(rows, pid, quote) <==> !QuoteTaken(rows, pid, quote)
  {
  }

  lemma StoreEffect(s: State, a: nat, from: Status, quote: string, invoice: string, text: string, now: real)
    requires Holds(s, a)
    ensures var t, pid := StoreStep(s, a, from, quote, invoice, text, now), s.acts[a].pid;
            && OnlyRow(s.rows, t.rows, pid) && t.zaps == s.zaps
            && var p, q := s.rows[pid], t.rows[pid];
            if p.status != from then q == p
            else
              && SameOrder(p, q) && SameCounts(p, q) && q.deliveryEventId == p.deliveryEventId && q.updatedAt == now
              && if Unused(s.rows, pid, quote) then Invoiced(q, quote, invoice, now)
                 else q.status == Failed && SameInvoice(p, q) && q.error.Some? && q.nextCheckAt == p.nextCheckAt
  {
    UnusedIsFree(s.rows, s.acts[a].pid, quote);
    hide Unused, QuoteTaken;
  }

  lemma FailEffect(s: State, a: nat, from: Status, text: string, now: real)
    requires Holds(s, a)
    ensures var t, pid := FailStep(s, a, from, text, now), s.acts[a].pid;
            && OnlyRow(s.rows, t.rows, pid) && t.zaps == s.zaps
            && var p, q := s.rows[pid], t.rows[pid];
            if p.status != from then q == p
            else
              && SameOrder(p, q) && SameCounts(p, q) && SameInvoice(p, q) && q.deliveryEventId == p.deliveryEventId
              && q.updatedAt == now && q.status == Failed && q.error.Some? && q.nextCheckAt == p.nextCheckAt
  {
  }

  /** A quote nobody else has makes an invoice that is checked at once; anything else fails the payment and says so. */
  lemma QuoteEffect(cfg: Config, s: State, st: Step)
    requires IsQuoteAnswer(s, st)
    ensures var t, pid := Next(cfg, s, st), s.acts[st.act].pid;
            && OnlyRow(s.rows, t.rows, pid) && t.zaps == s.zaps
            && var p, q := s.rows[pid], t.rows[pid];
            if p.status != Waiting(s.acts[st.act]) then q == p
            else
              && SameOrder(p, q) && SameCounts(p, q) && q.deliveryEventId == p.deliveryEventId && q.updatedAt == st.now
              && if (st.ZapStore? || st.WorkerStore?) && Unused(s.rows, pid, st.quote) then Invoiced(q, st.quote, st.invoice, st.now)
                 else q.status == Failed && SameInvoice(p, q) && q.error.Some? && q.nextCheckAt == p.nextCheckAt
  {
    hide ZapQuoteText, WorkerQuoteText, StoreStep, FailStep, OnlyRow, Unused, Invoiced;
    var from := Waiting(s.acts[st.act]);
    if st.ZapStore? || st.WorkerStore? {
      StoreEffect(s, st.act, from, st.quote, st.invoice,
                  if st.ZapStore? then ZapQuoteText("IntegrityError") else WorkerQuoteText("IntegrityError"), st.now);
    } else {
      FailEffect(s, st.act, from, if st.ZapFail? then ZapQuoteText(st.kind) else WorkerQuoteText(st.kind), st.now);
    }
  }

  // ---- the claims ----

  /** A claim takes the payment out of its queue, once, and counts a delivery from the row the worker had read. */
  lemma ClaimEffect(cfg: Config, s: State, st: Step, pid: string)
    requires st.ClaimQuote? || st.ClaimReceipt? || st.ClaimSend?
    requires if st.ClaimSend? then Holds(s, st.act) && s.acts[st.act].SettledSeen? && s.acts[st.act].pid == pid
             else Fresh(s, st.act, pid) && st.pid == pid
    ensures var t := Next(cfg, s, st);
            && OnlyRow(s.rows, t.rows, pid) && t.zaps == s.zaps
            && var p, q := s.rows[pid], t.rows[pid];
            if p.status == (if st.ClaimQuote? then QuotePending else if st.ClaimReceipt? then ReceiptPending else Settled)
            then
              && SameOrder(p, q) && SameInvoice(p, q) && q.attempts == p.attempts && q.deliveryEventId == p.deliveryEventId
              && q.updatedAt == st.now
              && (st.ClaimQuote? ==> q.status == WorkerQuoteCreating && q.error.None? && q.nextCheckAt.None?)
              && (st.ClaimReceipt? ==> q.status == ReceiptPublishing && q.error == p.error && q.nextCheckAt == p.nextCheckAt)
              && (st.ClaimSend? ==> q.status == Delivering && q.error == p.error && q.nextCheckAt.None?)
              && q.deliveryAttempts == (if st.ClaimSend? then s.acts[st.act].seen.deliveryAttempts + 1 else p.deliveryAttempts)
            else q == p
  {
  }

  // ---- settlement ----

  /** A poll's answer moves the payment on, fails it, or says when to look again; from the 60th check on it counts as unconfirmed. */
  lemma PollEffect(cfg: Config, s: State, a: nat, poll: PollOutcome, now: real)
    requires Holds(s, a) && s.acts[a].Polling?
    ensures var t, pid, seen := Next(cfg, s, PollResult(a, poll, now)), s.acts[a].pid, s.acts[a].seen;
            && OnlyRow(s.rows, t.rows, pid) && t.zaps == s.zaps
            && var p, q := s.rows[pid], t.rows[pid];
            if p.status != seen.status then q == p
            else
              && SameOrder(p, q) && SameInvoice(p, q) && q.deliveryAttempts == p.deliveryAttempts
              && q.deliveryEventId == p.deliveryEventId && q.updatedAt == now
              && q.attempts - seen.attempts == (if poll.PollDeferred? && !poll.requested then 0 else 1)
              && match poll
                 case PollPaid => q.status == PaidReconciliationPending && q.error.None? && q.nextCheckAt.None?
                 case QuoteGone => q.status == Failed && q.error == Some("Mint quote not found") && q.nextCheckAt.None?
                 case PollDeferred(delay, _, _) => q.status == p.status && q.error.Some? && q.nextCheckAt == Some(now + delay)
                 case PollUnpaid(recheck) =>
                   && q.nextCheckAt == Some(now + recheck)
                   && (q.status == SettlementUnconfirmed <==> p.status == SettlementUnconfirmed || q.attempts >= 60)
                   && (q.status != SettlementUnconfirmed ==> q.status == InvoicePending)
                   && (q.error.Some? <==> q.status == SettlementUnconfirmed)
  {
  }

  /** An issuance makes the payment deliverable at once, fails it, or is tried again in five seconds. */
  lemma MintEffect(cfg: Config, s: State, a: nat, minted: MintOutcome, now: real)
    requires Holds(s, a) && s.acts[a].Minting?
    ensures var t, pid, seen := Next(cfg, s, MintResult(a, minted, now)), s.acts[a].pid, s.acts[a].seen;
            && OnlyRow(s.rows, t.rows, pid) && t.zaps == s.zaps
            && var p, q := s.rows[pid], t.rows[pid];
            if p.status != seen.status then q == p
            else
              && SameOrder(p, q) && SameInvoice(p, q) && q.deliveryAttempts == p.deliveryAttempts
              && q.deliveryEventId == p.deliveryEventId && q.updatedAt == now && q.attempts == seen.attempts + 1
              && match minted
                 case MintPaid => q.status == Settled && q.error.None? && q.nextCheckAt.None?
                 case MintQuoteGone => q.status == Failed && q.error == Some("Mint quote not found") && q.nextCheckAt.None?
                 case MintUnpaid => q.status == PaidReconciliationPending && q.error.Some? && q.nextCheckAt == Some(now + 5.0)
  {
  }

  // ---- delivery ----

  /** The first retry waits the base delay and each further one twice as long, up to the maximum. */
  lemma {:induction false} RetryDelayDoubles(cfg: Config, n: nat)
    requires cfg.retryBase >= 0.0 && cfg.retryMax >= 0.0 && n > 0
    ensures RetryDelay(cfg, 1) == MinR(cfg.retryMax, cfg.retryBase)
    ensures RetryDelay(cfg, n + 1) == MinR(cfg.retryMax, RetryDelay(cfg, n) + RetryDelay(cfg, n))
  {
    var x, w := cfg.retryBase, Pow2(n - 1);
    assert Pow2(0) == 1.0 && Pow2(n) == 2.0 * w;
    Pow2Positive(n - 1);
    assert x * (2.0 * w) == x * w + x * w && x * w >= 0.0;
    assert x * 1.0 == x;
  }

  /** What a reported send earns: done, a retry while sends are left, or a person's review. */
  lemma DeliveryEffect(cfg: Config, s: State, st: Step)
    requires st.FinishSend? && Holds(s, st.act) && s.acts[st.act].SendReturned?
    requires s.acts[st.act].k < |s.hist[s.acts[st.act].pid].sends|
    ensures var t, act := Next(cfg, s, st), s.acts[st.act];
            var outcome := s.hist[act.pid].sends[act.k];
            && OnlyRow(s.rows, t.rows, act.pid) && t.zaps == s.zaps
            && var p, q := s.rows[act.pid], t.rows[act.pid];
            if p.status != Delivering then q == p
            else
              && SameOrder(p, q) && SameInvoice(p, q) && SameCounts(p, q) && q.updatedAt == st.now
              && if outcome.Success? && !st.raised then
                   && q.status == (if act.pid in s.zaps then ReceiptPending else Delivered)
                   && q.deliveryEventId == st.eventId && q.error.None? && q.nextCheckAt.None?
                 else
                   && q.deliveryEventId == p.deliveryEventId && q.error.Some?
                   && if outcome.Retryable? && (act.attempt < 1 || act.attempt < cfg.retryAttempts)
                      then q.status == Settled && q.nextCheckAt == Some(st.now + RetryDelay(cfg, act.attempt))
                      else q.status == DeliveryFailed && q.nextCheckAt.None?
  {
    hide RetryText, ExhaustedText, ReviewText, RetryDelay;
  }

  // ---- receipts ----

  /** A publication's outcome is noted in the zap row, where the event id of a receipt is never lost. */
  lemma ReceiptNoted(cfg: Config, s: State, a: nat, kind: string)
    requires Holds(s, a) && s.acts[a].pid in s.zaps
    ensures s.acts[a].Published? ==>
              var t, z := Next(cfg, s, RecordReceipt(a)), s.zaps[s.acts[a].pid];
              t.rows == s.rows && t.zaps == s.zaps[s.acts[a].pid := Zap(z.requestEventId, Some(s.acts[a].eventId), None)]
    ensures s.acts[a].PublishFailed? ==>
              var t, z := Next(cfg, s, NoteFailure(a, kind)), s.zaps[s.acts[a].pid];
              && t.rows == s.rows && t.zaps[s.acts[a].pid].receiptError.Some?
              && t.zaps == s.zaps[s.acts[a].pid := Zap(z.requestEventId, z.receiptEventId, t.zaps[s.acts[a].pid].receiptError)]
  {
  }

  /** Which of the three ends a payment's receipt has. */
  predicate EndsReceipt(s: State, st: Step) {
    || (st.StartPublish? && Holds(s, st.act) && s.acts[st.act].ReceiptClaimed?)
    || (st.FinishReceipt? && Holds(s, st.act) && s.acts[st.act].Recorded?)
    || (st.FailReceipt? && Holds(s, st.act) && s.acts[st.act].FailureNoted?)
  }

  /** The row moved to this status, with this error, and otherwise only its time of change. */
  predicate Ends(p: Payment, q: Payment, status: Status, now: real) {
    && SameOrder(p, q) && SameInvoice(p, q) && SameCounts(p, q)
    && q.deliveryEventId == p.deliveryEventId && q.nextCheckAt == p.nextCheckAt && q.updatedAt == now && q.status == status
  }

  lemma UnzappedEffect(cfg: Config, s: State, a: nat, now: real)
    requires Holds(s, a) && s.acts[a].ReceiptClaimed?
    ensures var t, pid := Next(cfg, s, StartPublish(a, now)), s.acts[a].pid;
            && OnlyRow(s.rows, t.rows, pid) && t.zaps == s.zaps
            && if s.rows[pid].status != ReceiptPublishing || pid in s.zaps then t.rows[pid] == s.rows[pid]
               else Ends(s.rows[pid], t.rows[pid], Delivered, now) && t.rows[pid].error == s.rows[pid].error
  {
  }

  lemma PublishedEffect(cfg: Config, s: State, a: nat, now: real)
    requires Holds(s, a) && s.acts[a].Recorded?
    ensures var t, pid := Next(cfg, s, FinishReceipt(a, now)), s.acts[a].pid;
            && OnlyRow(s.rows, t.rows, pid) && t.zaps == s.zaps
            && if s.rows[pid].status != ReceiptPublishing then t.rows[pid] == s.rows[pid]
               else Ends(s.rows[pid], t.rows[pid], Delivered, now) && t.rows[pid].error.None?
  {
  }

  lemma UnpublishedEffect(cfg: Config, s: State, a: nat, now: real)
    requires Holds(s, a) && s.acts[a].FailureNoted?
    ensures var t, pid := Next(cfg, s, FailReceipt(a, now)), s.acts[a].pid;
            && OnlyRow(s.rows, t.rows, pid) && t.zaps == s.zaps
            && if s.rows[pid].status != ReceiptPublishing then t.rows[pid] == s.rows[pid]
               else Ends(s.rows[pid], t.rows[pid], ReceiptFailed, now) && t.rows[pid].error.Some?
  {
  }

  /** Without a zap the payment is delivered at once; with one its receipt is published first, and ends as that went. */
  lemma ReceiptEffect(cfg: Config, s: State, st: Step)
    requires EndsReceipt(s, st)
    ensures var t, pid := Next(cfg, s, st), s.acts[st.act].pid;
            && OnlyRow(s.rows, t.rows, pid) && t.zaps == s.zaps
            && var p, q := s.rows[pid], t.rows[pid];
            if p.status != ReceiptPublishing || (st.StartPublish? && pid in s.zaps) then q == p
            else
              && Ends(p, q, if st.FailReceipt? then ReceiptFailed else Delivered, st.now)
              && (st.FinishReceipt? ==> q.error.None?) && (st.FailReceipt? ==> q.error.Some?) && (st.StartPublish? ==> q.error == p.error)
  {
    hide Next, OnlyRow, Ends;
    if st.StartPublish? {
      UnzappedEffect(cfg, s, st.act, st.now);
    } else if st.FinishReceipt? {
      PublishedEffect(cfg, s, st.act, st.now);
    } else {
      UnpublishedEffect(cfg, s, st.act, st.now);
    }
  }

  // ---- whole tables ----

  /** Quarantine takes exactly the claims last touched before the cutoff, and nothing is lost of them. */
  lemma QuarantineEffect(cfg: Config, s: State, cutoff: real, now: real, pid: string)
    requires pid in s.rows
    ensures var t := Next(cfg, s, Quarantine(cutoff, now));
            && t.rows.Keys == s.rows.Keys
            && var p, q := s.rows[pid], t.rows[pid];
            if p.updatedAt >= cutoff || p.status !in {WorkerQuoteCreating, Delivering, ReceiptPublishing} then q == p
            else
              && SameOrder(p, q) && SameInvoice(p, q) && SameCounts(p, q) && q.deliveryEventId == p.deliveryEventId
              && q.error.Some? && q.nextCheckAt.None? && q.updatedAt == now
              && q.status == (if p.status == WorkerQuoteCreating then Failed else if p.status == Delivering then DeliveryFailed else ReceiptFailed)
  {
  }

  /** Recovery takes exactly the failures of the former timeout that have their quote and invoice, and polls them at once. */
  lemma RecoveryEffect(cfg: Config, s: State, now: real, pid: string)
    requires pid in s.rows
    ensures var t := Next(cfg, s, Reconcile(now));
            && t.rows.Keys == s.rows.Keys
            && var p, q := s.rows[pid], t.rows[pid];
            if p.status == Failed && p.error == Some("Invoice settlement timed out") && p.mintQuote.Some? && p.invoice.Some?
            then SameOrder(p, q) && SameInvoice(p, q) && SameCounts(p, q) && q.deliveryEventId == p.deliveryEventId
                 && q.status == SettlementUnconfirmed && q.error.Some? && q.nextCheckAt == Some(now) && q.updatedAt == now
            else q == p
  {
  }

  /** The same in two statements: what is selected is held, and whatever has become of it is written later. */
  lemma RecoveryMoves(cfg: Config, w: System, r: nat, now: real, pid: string)
    requires pid in w.state.rows
    ensures var v := Moved(cfg, w, SelectLegacy(r));
            && v.state == w.state && r in v.recovering
            && if r in w.recovering then v == w
               else
                 var p := w.state.rows[pid];
                 pid in v.recovering[r] <==>
                 p.status == Failed && p.error == Some("Invoice settlement timed out") && p.mintQuote.Some? && p.invoice.Some?
    ensures var v := Moved(cfg, w, WriteLegacy(r, now));
            && r !in v.recovering && v.state.rows.Keys == w.state.rows.Keys
            && var p, q := w.state.rows[pid], v.state.rows[pid];
            if r in w.recovering && pid in w.recovering[r]
            then SameOrder(p, q) && SameInvoice(p, q) && SameCounts(p, q) && q.deliveryEventId == p.deliveryEventId
                 && q.status == SettlementUnconfirmed && q.error.Some? && q.nextCheckAt == Some(now) && q.updatedAt == now
            else q == p
  {
  }

  /** An operator closes only a failed delivery without an event, as inspected, of the handle and amount named. */
  lemma CloseEffect(cfg: Config, s: State, st: Step)
    requires st.Close? && st.pid in s.rows
    ensures var t := Next(cfg, s, st);
            && OnlyRow(s.rows, t.rows, st.pid)
            && var p, q := s.rows[st.pid], t.rows[st.pid];
            if p.id == st.seen.id && p.status == DeliveryFailed && p.deliveryEventId.None? && p.updatedAt == st.seen.updatedAt
               && p.handle == st.handle && p.amountSat == st.amountSat
            then SameOrder(p, q) && SameInvoice(p, q) && SameCounts(p, q) && q.deliveryEventId.None? && q.error == p.error
                 && q.status == Failed && q.nextCheckAt.None? && q.updatedAt == st.now
            else q == p
  {
  }

  /** A persisted cooldown only postpones, and only the unsettled payments of its mint. */
  lemma PersistEffect(cfg: Config, s: State, mint: string, deadline: real, pid: string)
    requires pid in s.rows
    ensures var t := Next(cfg, s, Persist(mint, deadline));
            && t.rows.Keys == s.rows.Keys
            && var p, q := s.rows[pid], t.rows[pid];
            && SameOrder(p, q) && SameInvoice(p, q) && SameCounts(p, q) && q.status == p.status && q.error == p.error
            && q.deliveryEventId == p.deliveryEventId && q.updatedAt == p.updatedAt
            && if p.mint == mint && p.status in {InvoicePending, SettlementUnconfirmed}
               then q.nextCheckAt.Some? && q.nextCheckAt.value >= deadline
                    && (q.nextCheckAt == Some(deadline) || q.nextCheckAt == p.nextCheckAt)
               else q.nextCheckAt == p.nextCheckAt
  {
  }

  // ---- who holds what ----

  /** When a payment may be looked at again. */
  predicate IsDue(p: Payment, now: real) { p.nextCheckAt.Some? ==> p.nextCheckAt.value <= now }

  /** A selection changes no table: it holds the row as it was read, of a payment in the right status and due. */
  lemma SelectEffect(cfg: Config, s: State, a: nat, pid: string, now: real)
    requires Fresh(s, a, pid)
    ensures var p := s.rows[pid];
            && Next(cfg, s, SelectDue(a, pid, now))
               == (if p.status in {InvoicePending, SettlementUnconfirmed} && IsDue(p, now) then s.(acts := s.acts[a := Polling(pid, p)]) else s)
            && Next(cfg, s, SelectPaid(a, pid, now))
               == (if p.status == PaidReconciliationPending && IsDue(p, now) && p.mintQuote.Some? && p.mintQuote.value != ""
                   then s.(acts := s.acts[a := Minting(pid, p)]) else s)
            && Next(cfg, s, SelectSettled(a, pid, now))
               == (if p.status == Settled && IsDue(p, now) then s.(acts := s.acts[a := SettledSeen(pid, p, s.hist[pid].claims)]) else s)
            && Next(cfg, s, ZapBegin(a, pid))
               == (if pid in s.zaps && p.status == QuoteCreating && (p.invoice.None? || p.invoice.value == "")
                   then s.(acts := s.acts[a := ZapQuoting(pid)]) else s)
  {
  }

  // ---- what the histories record ----

  /** A claim that hits is counted, and counted as stale when another one came after the row was read. */
  lemma ClaimIsCounted(cfg: Config, s: State, a: nat, now: real)
    requires Holds(s, a) && s.acts[a].SettledSeen?
    ensures var t, act := Next(cfg, s, ClaimSend(a, now)), s.acts[a];
            if s.rows[act.pid].status == Settled then
              var h, g := s.hist[act.pid], t.hist[act.pid];
              && t.hist == s.hist[act.pid := g] && g == h.(claims := g.claims, staleClaims := g.staleClaims)
              && g.claims == h.claims + 1 && g.staleClaims == (if act.seenClaims < h.claims then h.staleClaims + 1 else h.staleClaims)
              && t.acts == s.acts[a := SendClaimed(act.pid, act.seen.deliveryAttempts + 1)]
            else t.hist == s.hist && t.acts == s.acts - {a}
  {
  }

  /** Every send is recorded as it starts, and its outcome when it is reported. */
  lemma SendIsRecorded(cfg: Config, s: State, a: nat, outcome: Outcome)
    requires Holds(s, a)
    ensures var pid, h := s.acts[a].pid, s.hist[s.acts[a].pid];
            && (s.acts[a].SendClaimed? ==>
                  var t := Next(cfg, s, StartSend(a));
                  t == s.(hist := s.hist[pid := h.(sends := h.sends + [Unreported])],
                          acts := s.acts[a := Sending(pid, s.acts[a].attempt, |h.sends|)]))
            && (s.acts[a].Sending? && s.acts[a].k < |h.sends| && outcome != Unreported ==>
                  var t := Next(cfg, s, SendReturns(a, outcome));
                  t == s.(hist := s.hist[pid := h.(sends := h.sends[s.acts[a].k := outcome])],
                          acts := s.acts[a := SendReturned(pid, s.acts[a].attempt, s.acts[a].k)]))
  {
  }

  /** A payment's settlement is recorded with the issuance that settles it, and a retry with the delay it waits. */
  lemma SettlingIsRecorded(cfg: Config, s: State, a: nat, minted: MintOutcome, now: real)
    requires Holds(s, a) && s.acts[a].Minting?
    ensures var t, pid := Next(cfg, s, MintResult(a, minted, now)), s.acts[a].pid;
            t.hist == if s.rows[pid].status == s.acts[a].seen.status && minted == MintPaid then s.hist[pid := s.hist[pid].(settled := true)] else s.hist
  {
    var pid := s.acts[a].pid;
    assert s.hist[pid := s.hist[pid]] == s.hist && s.hist[pid].(settled := s.hist[pid].settled) == s.hist[pid];
  }

  lemma RetryIsRecorded(cfg: Config, s: State, st: Step)
    requires st.FinishSend? && Holds(s, st.act) && s.acts[st.act].SendReturned?
    requires s.acts[st.act].k < |s.hist[s.acts[st.act].pid].sends|
    ensures var t, act := Next(cfg, s, st), s.acts[st.act];
            var h := s.hist[act.pid];
            t.hist == if s.rows[act.pid].status == Delivering && h.sends[act.k] == Retryable && (act.attempt < 1 || act.attempt < cfg.retryAttempts)
                      then s.hist[act.pid := h.(delay := h.delay + RetryDelay(cfg, act.attempt))] else s.hist
  {
    hide RetryText, ExhaustedText, ReviewText, RetryDelay;
    var pid := s.acts[st.act].pid;
    assert s.hist[pid := s.hist[pid]] == s.hist;
  }

  /** A stored quote and a started publication are counted. */
  lemma QuoteIsCounted(cfg: Config, s: State, st: Step)
    requires IsQuoteAnswer(s, st)
    ensures var t, pid := Next(cfg, s, st), s.acts[st.act].pid;
            t.hist == if (st.ZapStore? || st.WorkerStore?) && s.rows[pid].status == Waiting(s.acts[st.act]) && Unused(s.rows, pid, st.quote)
                      then s.hist[pid := s.hist[pid].(quotes := s.hist[pid].quotes + 1)] else s.hist
  {
    hide ZapQuoteText, WorkerQuoteText, Unused, QuoteTaken, Apply;
    var pid := s.acts[st.act].pid;
    assert s.hist[pid := s.hist[pid]] == s.hist;
    if st.ZapStore? || st.WorkerStore? { UnusedIsFree(s.rows, pid, st.quote); }
  }

  lemma PublicationIsCounted(cfg: Config, s: State, a: nat, now: real)
    requires Holds(s, a) && s.acts[a].ReceiptClaimed?
    ensures var t, pid := Next(cfg, s, StartPublish(a, now)), s.acts[a].pid;
            if pid in s.zaps then
              t == s.(hist := s.hist[pid := s.hist[pid].(receipts := s.hist[pid].receipts + 1)], acts := s.acts[a := Publishing(pid)])
            else t.hist == s.hist && t.acts == s.acts - {a}
  {
    var pid := s.acts[a].pid;
    assert s.hist[pid := s.hist[pid]] == s.hist;
  }
}
