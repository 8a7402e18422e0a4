/**
 Provider payments as a state machine. Any number of workers, zap callbacks,
 restarts and operators act on the two tables; a step is one committed statement,
 or the start or the return of one external call. `acts` holds what each actor
 read and has in flight, so a stale result is a step like any other.
 `hist` records, per payment, what was done to the outside world.
 */
module PaymentMachine {
  import opened Prelude
  import opened PaymentRows

  const MAX_SETTLEMENT_ATTEMPTS := 60
  const RECHECK_SECONDS := 5.0

  datatype Config = Config(retryAttempts: int, retryBase: real, retryMax: real)

  /** Sends allowed to one payment. */
  function Allowed(cfg: Config): nat { Max(1, cfg.retryAttempts) }

  function RetryDelay(cfg: Config, attempt: nat): real {
    MinR(cfg.retryMax, cfg.retryBase * Pow2(Max(0, attempt - 1)))
  }

  /** Delays after the first n failed attempts together. */
  function DelaySum(cfg: Config, n: nat): real {
    if n == 0 then 0.0 else DelaySum(cfg, n - 1) + RetryDelay(cfg, n)
  }

  datatype Outcome = Unreported | Success | Retryable | OtherError

  /** What happened outside the tables for one payment. */
  datatype Hist = Hist(
    sends: seq<Outcome>,   // one entry per send_ecash_transfer started
    settled: bool,         // the row has been SETTLED
    claims: nat,           // SETTLED -> DELIVERING updates that hit
    staleClaims: nat,      // those whose candidate was read before another claim
    delay: real,           // retry delays scheduled so far
    quotes: nat,           // quote-storing updates that hit
    receipts: nat)         // zap receipt publications started

  const NEW := Hist([], false, 0, 0, 0.0, 0, 0)

  datatype Act =
    | ZapQuoting(pid: string)
    | WorkerQuoting(pid: string)
    | Polling(pid: string, seen: Payment)
    | Minting(pid: string, seen: Payment)
    | SettledSeen(pid: string, seen: Payment, seenClaims: nat)
    | SendClaimed(pid: string, attempt: nat)
    | Sending(pid: string, attempt: nat, k: nat)
    | SendReturned(pid: string, attempt: nat, k: nat)
    | ReceiptClaimed(pid: string)
    | Publishing(pid: string)
    | Published(pid: string, eventId: string)
    | Recorded(pid: string)
    | PublishFailed(pid: string)
    | FailureNoted(pid: string)

  datatype State = State(rows: Rows, zaps: Zaps, hist: map<string, Hist>, acts: map<nat, Act>)

  datatype PollOutcome =
    | QuoteGone
    | PollDeferred(delay: real, summary: string, requested: bool)
    | PollPaid
    | PollUnpaid(recheck: real)

  datatype MintOutcome = MintPaid | MintQuoteGone | MintUnpaid

  datatype Step =
    | Enqueue(pid: string, id: nat, handle: string, amountMsat: nat, mint: string,
              request: Option<string>, callback: bool, now: real)
    | ZapBegin(act: nat, pid: string)
    | ZapStore(act: nat, quote: string, invoice: string, now: real)
    | ZapFail(act: nat, kind: string, now: real)
    | ClaimQuote(act: nat, pid: string, now: real)
    | WorkerStore(act: nat, quote: string, invoice: string, now: real)
    | WorkerFail(act: nat, kind: string, now: real)
    | SelectDue(act: nat, pid: string, now: real)
    | PollResult(act: nat, poll: PollOutcome, now: real)
    | SelectPaid(act: nat, pid: string, now: real)
    | MintResult(act: nat, minted: MintOutcome, now: real)
    | SelectSettled(act: nat, pid: string, now: real)
    | ClaimSend(act: nat, now: real)
    | StartSend(act: nat)
    | SendReturns(act: nat, outcome: Outcome)
    | FinishSend(act: nat, eventId: Option<string>, raised: bool, kind: string, detail: string, now: real)
    | ClaimReceipt(act: nat, pid: string, now: real)
    | StartPublish(act: nat, now: real)
    | PublishReturns(act: nat, eventId: Option<string>)
    | RecordReceipt(act: nat)
    | FinishReceipt(act: nat, now: real)
    | NoteFailure(act: nat, kind: string)
    | FailReceipt(act: nat, now: real)
    | Crash(act: nat)
    | Quarantine(cutoff: real, now: real)
    | Reconcile(now: real)
    | Close(pid: string, seen: Payment, handle: string, amountSat: int, now: real)
    | Persist(mint: string, deadline: real)

  // ---- the tables as the selections see them ----

  predicate DueAt(p: Payment, now: real) {
    p.nextCheckAt.None? || p.nextCheckAt.value <= now
  }

  predicate Unsettled(p: Payment) {
    p.status == InvoicePending || p.status == SettlementUnconfirmed
  }

  function ZapOf(s: State, pid: string): Option<Zap> {
    if pid in s.zaps then Some(s.zaps[pid]) else None
  }

  // ---- the partial updates the worker passes to transition_provider_payment ----

  function StoreQuote(quote: string, invoice: string, now: real): Changes {
    Changes(status := Set(InvoicePending), mintQuote := Set(Some(quote)), invoice := Set(Some(invoice)),
            error := Set(None), nextCheckAt := Set(Some(now)))
  }

  function FailQuote(text: string): Changes {
    Changes(status := Set(Failed), error := Set(Some(text)))
  }

  function PollChanges(seen: Payment, poll: PollOutcome, now: real): Changes {
    match poll
    case QuoteGone =>
      Changes(status := Set(Failed), error := Set(Some(QUOTE_NOT_FOUND)),
              attempts := Set(seen.attempts + 1), nextCheckAt := Set(None))
    case PollDeferred(delay, summary, requested) =>
      Changes(attempts := Set(seen.attempts + if requested then 1 else 0),
              error := Set(Some("Settlement discovery deferred: " + summary)),
              nextCheckAt := Set(Some(now + delay)))
    case PollPaid =>
      Changes(status := Set(PaidReconciliationPending), attempts := Set(seen.attempts + 1),
              error := Set(None), nextCheckAt := Set(None))
    case PollUnpaid(recheck) =>
      var stale := seen.status == SettlementUnconfirmed || seen.attempts + 1 >= MAX_SETTLEMENT_ATTEMPTS;
      Changes(status := Set(if stale then SettlementUnconfirmed else InvoicePending),
              attempts := Set(seen.attempts + 1),
              error := Set(if stale then Some(UNCONFIRMED) else None),
              nextCheckAt := Set(Some(now + recheck)))
  }

  function MintChanges(seen: Payment, minted: MintOutcome, now: real): Changes {
    match minted
    case MintPaid =>
      Changes(status := Set(Settled), attempts := Set(seen.attempts + 1), error := Set(None), nextCheckAt := Set(None))
    case MintQuoteGone =>
      Changes(status := Set(Failed), attempts := Set(seen.attempts + 1),
              error := Set(Some(QUOTE_NOT_FOUND)), nextCheckAt := Set(None))
    case MintUnpaid =>
      Changes(status := Set(PaidReconciliationPending), attempts := Set(seen.attempts + 1),
              error := Set(Some(ISSUANCE_PENDING)), nextCheckAt := Set(Some(now + RECHECK_SECONDS)))
  }

  function ClaimSendChanges(seen: Payment): Changes {
    Changes(status := Set(Delivering), deliveryAttempts := Set(seen.deliveryAttempts + 1), nextCheckAt := Set(None))
  }

  /** What the worker writes once a send has reported `outcome`. */
  function DeliveryChanges(cfg: Config, attempt: nat, outcome: Outcome, hasZap: bool, raised: bool,
                           eventId: Option<string>, kind: string, detail: string, now: real): Changes {
    match outcome
    case Success =>
      if raised then
        Changes(status := Set(DeliveryFailed), error := Set(Some(ReviewText(kind, detail))), nextCheckAt := Set(None))
      else
        Changes(status := Set(if hasZap then ReceiptPending else Delivered),
                deliveryEventId := Set(eventId), error := Set(None), nextCheckAt := Set(None))
    case Retryable =>
      if attempt < Allowed(cfg) then
        Changes(status := Set(Settled), error := Set(Some(RetryText(kind, detail))),
                nextCheckAt := Set(Some(now + RetryDelay(cfg, attempt))))
      else
        Changes(status := Set(DeliveryFailed), error := Set(Some(ExhaustedText(kind, detail))), nextCheckAt := Set(None))
    case _ =>
      Changes(status := Set(DeliveryFailed), error := Set(Some(ReviewText(kind, detail))), nextCheckAt := Set(None))
  }

  function PersistRow(p: Payment, mint: string, deadline: real): Payment {
    if p.mint == mint && Unsettled(p) && (p.nextCheckAt.None? || p.nextCheckAt.value < deadline)
    then p.(nextCheckAt := Some(deadline)) else p
  }

  function PersistAll(rows: Rows, mint: string, deadline: real): Rows {
    map pid | pid in rows :: PersistRow(rows[pid], mint, deadline)
  }

  // ---- steps ----

  predicate Holds(s: State, a: nat) {
    a in s.acts && s.acts[a].pid in s.rows && s.acts[a].pid in s.hist
  }

  predicate Fresh(s: State, a: nat, pid: string) {
    a !in s.acts && pid in s.rows && pid in s.hist
  }

  function Begin(s: State, a: nat, act: Act): State { s.(acts := s.acts[a := act]) }

  function Done(s: State, a: nat): State { s.(acts := s.acts - {a}) }

  /** One compare-and-swap that also amends the history when it hits. */
  function Cas(s: State, pid: string, expected: set<Status>, c: Changes, h: Hist, now: real): State {
    if Hits(s.rows, pid, expected)
    then s.(rows := Swap(s.rows, pid, expected, c, now), hist := s.hist[pid := h])
    else s
  }

  function EnqueueStep(s: State, st: Step): State
    requires st.Enqueue?
  {
    if st.pid in s.rows || (st.request.Some? && RequestTaken(s.zaps, st.request.value)) then s
    else
      var p := Payment(st.id, st.handle, st.amountMsat / 1000, st.mint,
                       if st.callback then QuoteCreating else QuotePending,
                       None, None, None, None, 0, 0, st.now, st.now, None);
      State(s.rows[st.pid := p],
            if st.request.Some? then s.zaps[st.pid := Zap(st.request.value, None, None)] else s.zaps,
            s.hist[st.pid := NEW], s.acts)
  }

  /** The callback and the worker store a quote the same way, from different statuses. */
  function StoreStep(s: State, a: nat, from: Status, quote: string, invoice: string, text: string, now: real): State
    requires Holds(s, a)
  {
    var pid := s.acts[a].pid;
    var h := s.hist[pid];
    Done(if QuoteTaken(s.rows, pid, quote)
         then Cas(s, pid, {from}, FailQuote(text), h, now)
         else Cas(s, pid, {from}, StoreQuote(quote, invoice, now), h.(quotes := h.quotes + 1), now), a)
  }

  function FailStep(s: State, a: nat, from: Status, text: string, now: real): State
    requires Holds(s, a)
  {
    Done(Cas(s, s.acts[a].pid, {from}, FailQuote(text), s.hist[s.acts[a].pid], now), a)
  }

  function PollStep(s: State, a: nat, poll: PollOutcome, now: real): State
    requires Holds(s, a) && s.acts[a].Polling?
  {
    var pid := s.acts[a].pid;
    Done(Cas(s, pid, {s.acts[a].seen.status}, PollChanges(s.acts[a].seen, poll, now), s.hist[pid], now), a)
  }

  function MintStep(s: State, a: nat, minted: MintOutcome, now: real): State
    requires Holds(s, a) && s.acts[a].Minting?
  {
    var pid := s.acts[a].pid;
    var h := s.hist[pid];
    Done(Cas(s, pid, {s.acts[a].seen.status}, MintChanges(s.acts[a].seen, minted, now),
             h.(settled := h.settled || minted.MintPaid?), now), a)
  }

  function ClaimSendStep(s: State, a: nat, now: real): State
    requires Holds(s, a) && s.acts[a].SettledSeen?
  {
    var act := s.acts[a];
    var h := s.hist[act.pid];
    if Hits(s.rows, act.pid, {Settled}) then
      Begin(Cas(s, act.pid, {Settled}, ClaimSendChanges(act.seen),
                h.(claims := h.claims + 1,
                   staleClaims := h.staleClaims + if act.seenClaims < h.claims then 1 else 0), now),
            a, SendClaimed(act.pid, act.seen.deliveryAttempts + 1))
    else Done(s, a)
  }

  function StartSendStep(s: State, a: nat): State
    requires Holds(s, a) && s.acts[a].SendClaimed?
  {
    var act := s.acts[a];
    var h := s.hist[act.pid];
    Begin(s.(hist := s.hist[act.pid := h.(sends := h.sends + [Unreported])]), a,
          Sending(act.pid, act.attempt, |h.sends|))
  }

  function SendReturnsStep(s: State, a: nat, outcome: Outcome): State
    requires Holds(s, a) && s.acts[a].Sending?
  {
    var act := s.acts[a];
    var h := s.hist[act.pid];
    if outcome.Unreported? || act.k >= |h.sends| then s
    else Begin(s.(hist := s.hist[act.pid := h.(sends := h.sends[act.k := outcome])]), a,
               SendReturned(act.pid, act.attempt, act.k))
  }

  function FinishSendStep(cfg: Config, s: State, st: Step): State
    requires st.FinishSend? && Holds(s, st.act) && s.acts[st.act].SendReturned?
  {
    var act := s.acts[st.act];
    var h := s.hist[act.pid];
    if act.k >= |h.sends| then s
    else
      var c := DeliveryChanges(cfg, act.attempt, h.sends[act.k], act.pid in s.zaps, st.raised,
                               st.eventId, st.kind, st.detail, st.now);
      var h' := if c.status == Set(Settled) then h.(delay := h.delay + RetryDelay(cfg, act.attempt)) else h;
      Done(Cas(s, act.pid, {Delivering}, c, h', st.now), st.act)
  }

  function ClaimReceiptStep(s: State, a: nat, pid: string, now: real): State
    requires Fresh(s, a, pid)
  {
    if !Hits(s.rows, pid, {ReceiptPending}) then s
    else
      Begin(Cas(s, pid, {ReceiptPending}, Changes(status := Set(ReceiptPublishing)), s.hist[pid], now),
            a, ReceiptClaimed(pid))
  }

  function StartPublishStep(s: State, a: nat, now: real): State
    requires Holds(s, a) && s.acts[a].ReceiptClaimed?
  {
    var pid := s.acts[a].pid;
    var h := s.hist[pid];
    if pid in s.zaps then
      Begin(s.(hist := s.hist[pid := h.(receipts := h.receipts + 1)]), a, Publishing(pid))
    else
      Done(Cas(s, pid, {ReceiptPublishing}, Changes(status := Set(Delivered)), h, now), a)
  }

  function RecordStep(s: State, a: nat): State
    requires Holds(s, a) && s.acts[a].Published?
  {
    var act := s.acts[a];
    if act.pid in s.zaps then
      Begin(s.(zaps := s.zaps[act.pid := s.zaps[act.pid].(receiptEventId := Some(act.eventId), receiptError := None)]),
            a, Recorded(act.pid))
    else Done(s, a)
  }

  function NoteFailureStep(s: State, a: nat, kind: string): State
    requires Holds(s, a)
  {
    var pid := s.acts[a].pid;
    if pid in s.zaps then
      Begin(s.(zaps := s.zaps[pid := s.zaps[pid].(receiptError := Some("Receipt publication failed: " + kind))]),
            a, FailureNoted(pid))
    else Done(s, a)
  }

  function CloseStep(s: State, st: Step): State
    requires st.Close?
  {
    if st.pid in s.rows && Closable(s.rows[st.pid], st.seen, st.handle, st.amountSat)
    then s.(rows := s.rows[st.pid := CloseRow(s.rows[st.pid], st.now)]) else s
  }

  /** A step that is not enabled changes nothing, so every sequence of steps is a run. */
  function Next(cfg: Config, s: State, st: Step): State {
    match st
    case Enqueue(_, _, _, _, _, _, _, _) => EnqueueStep(s, st)
    case ZapBegin(a, pid) =>
      if Fresh(s, a, pid) && pid in s.zaps && s.rows[pid].status == QuoteCreating
         && (s.rows[pid].invoice.None? || s.rows[pid].invoice.value == "")
      then Begin(s, a, ZapQuoting(pid)) else s
    case ZapStore(a, quote, invoice, now) =>
      if Holds(s, a) && s.acts[a].ZapQuoting?
      then StoreStep(s, a, QuoteCreating, quote, invoice, ZapQuoteText("IntegrityError"), now) else s
    case ZapFail(a, kind, now) =>
      if Holds(s, a) && s.acts[a].ZapQuoting? then FailStep(s, a, QuoteCreating, ZapQuoteText(kind), now) else s
    case ClaimQuote(a, pid, now) =>
      if Fresh(s, a, pid) && Hits(s.rows, pid, {QuotePending})
      then Begin(Cas(s, pid, {QuotePending},
                     Changes(status := Set(WorkerQuoteCreating), error := Set(None), nextCheckAt := Set(None)),
                     s.hist[pid], now), a, WorkerQuoting(pid))
      else s
    case WorkerStore(a, quote, invoice, now) =>
      if Holds(s, a) && s.acts[a].WorkerQuoting?
      then StoreStep(s, a, WorkerQuoteCreating, quote, invoice, WorkerQuoteText("IntegrityError"), now) else s
    case WorkerFail(a, kind, now) =>
      if Holds(s, a) && s.acts[a].WorkerQuoting? then FailStep(s, a, WorkerQuoteCreating, WorkerQuoteText(kind), now) else s
    case SelectDue(a, pid, now) =>
      if Fresh(s, a, pid) && Unsettled(s.rows[pid]) && DueAt(s.rows[pid], now)
      then Begin(s, a, Polling(pid, s.rows[pid])) else s
    case PollResult(a, poll, now) =>
      if Holds(s, a) && s.acts[a].Polling?
      then PollStep(s, a, poll, now) else s
    case SelectPaid(a, pid, now) =>
      if Fresh(s, a, pid) && s.rows[pid].status == PaidReconciliationPending && DueAt(s.rows[pid], now)
         && s.rows[pid].mintQuote.Some? && s.rows[pid].mintQuote.value != ""
      then Begin(s, a, Minting(pid, s.rows[pid])) else s
    case MintResult(a, minted, now) =>
      if Holds(s, a) && s.acts[a].Minting? then MintStep(s, a, minted, now) else s
    case SelectSettled(a, pid, now) =>
      if Fresh(s, a, pid) && s.rows[pid].status == Settled && DueAt(s.rows[pid], now)
      then Begin(s, a, SettledSeen(pid, s.rows[pid], s.hist[pid].claims)) else s
    case ClaimSend(a, now) =>
      if Holds(s, a) && s.acts[a].SettledSeen? then ClaimSendStep(s, a, now) else s
    case StartSend(a) =>
      if Holds(s, a) && s.acts[a].SendClaimed? then StartSendStep(s, a) else s
    case SendReturns(a, outcome) =>
      if Holds(s, a) && s.acts[a].Sending? then SendReturnsStep(s, a, outcome) else s
    case FinishSend(a, _, _, _, _, _) =>
      if Holds(s, a) && s.acts[a].SendReturned? then FinishSendStep(cfg, s, st) else s
    case ClaimReceipt(a, pid, now) =>
      if Fresh(s, a, pid) then ClaimReceiptStep(s, a, pid, now) else s
    case StartPublish(a, now) =>
      if Holds(s, a) && s.acts[a].ReceiptClaimed? then StartPublishStep(s, a, now) else s
    case PublishReturns(a, eventId) =>
      if Holds(s, a) && s.acts[a].Publishing?
      then Begin(s, a, if eventId.Some? then Published(s.acts[a].pid, eventId.value) else PublishFailed(s.acts[a].pid))
      else s
    case RecordReceipt(a) =>
      if Holds(s, a) && s.acts[a].Published? then RecordStep(s, a) else s
    case FinishReceipt(a, now) =>
      if Holds(s, a) && s.acts[a].Recorded?
      then Done(Cas(s, s.acts[a].pid, {ReceiptPublishing}, Changes(status := Set(Delivered), error := Set(None)),
                    s.hist[s.acts[a].pid], now), a)
      else s
    case NoteFailure(a, kind) =>
      if Holds(s, a) && (s.acts[a].PublishFailed? || s.acts[a].Recorded?) then NoteFailureStep(s, a, kind) else s
    case FailReceipt(a, now) =>
      if Holds(s, a) && s.acts[a].FailureNoted?
      then Done(Cas(s, s.acts[a].pid, {ReceiptPublishing},
                    Changes(status := Set(ReceiptFailed), error := Set(Some(RECEIPT_REVIEW))),
                    s.hist[s.acts[a].pid], now), a)
      else s
    case Crash(a) => Done(s, a)
    case Quarantine(cutoff, now) => s.(rows := QuarantineAll(s.rows, cutoff, now))
    case Reconcile(now) => s.(rows := ReviveAll(s.rows, LegacyRows(s.rows), now))
    case Close(_, _, _, _, _) => CloseStep(s, st)
    case Persist(mint, deadline) => s.(rows := PersistAll(s.rows, mint, deadline))
  }

  function Run(cfg: Config, s: State, steps: seq<Step>): State
    decreases |steps|
  {
    if steps == [] then s else Run(cfg, Next(cfg, s, steps[0]), steps[1..])
  }

  lemma {:induction false} RunAppends(cfg: Config, s: State, a: seq<Step>, b: seq<Step>)
    ensures Run(cfg, s, a + b) == Run(cfg, Run(cfg, s, a), b)
    decreases |a|
  {
    if a == [] {
      assert a + b == b;
    } else {
      assert (a + b)[0] == a[0] && (a + b)[1..] == a[1..] + b;
      RunAppends(cfg, Next(cfg, s, a[0]), a[1..], b);
    }
  }
}
