/** The zap callback: one payment per signed request, and its quote created while the caller waits. */
module ZapCallback {
  import opened Prelude
  import opened PaymentDatabase
  import opened PaymentEffects
  import opened PaymentRows
  import opened PaymentMachine
  import opened PaymentSafety
  import opened PaymentSteps
  import opened PaymentStages
  import opened PaymentWorker

  const MISSING := "Durable zap payment state is missing"
  const NOT_CREATABLE := "Zap invoice is not creatable"
  const UNABLE := "Unable to create a Lightning invoice"
  const TAKEN := "IntegrityError"

  predicate HasInvoice(p: Payment) { p.invoice.Some? && p.invoice.value != "" }

  const DISAPPEARED := "Provider payment disappeared from the durable queue"
  const CREATION_FAILED := "Provider invoice creation failed"
  const TOO_LATE := "Service Acorn did not create the invoice in time"

  /** What a callback got: the payment of its request, with its invoice, or an error. */
  datatype Answer = Ready(pid: string) | Raised(message: string)

  /** The statuses in which a waiting callback takes the invoice. */
  predicate Servable(t: Status) {
    t.InvoicePending? || t.SettlementUnconfirmed? || t.Settled? || t.Delivering? || t.ReceiptPending?
    || t.ReceiptFailed? || t.Delivered? || t.DeliveryFailed?
  }

  /** All but those in which there is no invoice yet, its payment is being turned into ecash or its receipt published, or all is over. */
  lemma ServableMeans(t: Status)
    ensures Servable(t) <==>
            t !in {QuotePending, QuoteCreating, WorkerQuoteCreating, PaidReconciliationPending, ReceiptPublishing, Failed}
  {
  }

  function AnswerStep(me: nat, reply: QuoteReply, now: real): Step {
    match reply
    case Quoted(quote, invoice) => ZapStore(me, quote, invoice, now)
    case QuoteRaised(kind) => ZapFail(me, kind, now)
  }

  lemma BeginIs(cfg: Config, s: State, me: nat, pid: string)
    requires Fresh(s, me, pid) && pid in s.zaps && s.rows[pid].status == QuoteCreating && !HasInvoice(s.rows[pid])
    ensures Next(cfg, s, ZapBegin(me, pid)) == s.(acts := s.acts[me := ZapQuoting(pid)])
  {
  }

  lemma AnswerIs(cfg: Config, s: State, me: nat, reply: QuoteReply, now: real)
    requires Holds(s, me) && s.acts[me].ZapQuoting?
    ensures var pid := s.acts[me].pid;
            var h := s.hist[pid];
            var t, stored := Next(cfg, s, AnswerStep(me, reply, now)), Storable(s.rows, pid, reply);
            && t.zaps == s.zaps && t.acts == s.acts - {me}
            && t.rows == Swap(s.rows, pid, {QuoteCreating},
                              if stored then StoreQuote(reply.quote, reply.invoice, now)
                              else FailQuote(ZapQuoteText(if reply.QuoteRaised? then reply.kind else "IntegrityError")), now)
            && t.hist == if stored && Hits(s.rows, pid, {QuoteCreating}) then s.hist[pid := h.(quotes := h.quotes + 1)] else s.hist
  {
    hide QuoteTaken, ZapQuoteText, Apply, StoreQuote, FailQuote;
    assert s.hist[s.acts[me].pid := s.hist[s.acts[me].pid]] == s.hist;
  }

  /** Storing the callback's quote, while the row still waits for it; anything else is an error for the caller. */
  method StoreAnswer(w: Worker, reply: QuoteReply, now: real) returns (answer: Answer)
    requires w.Valid() && w.me in w.acts && w.acts[w.me].ZapQuoting?
    modifies w.db`rows, w`hist, w`acts, w`trace
    ensures w.Valid() && w.me !in w.acts && w.trace == old(w.trace) + [AnswerStep(w.me, reply, now)]
    ensures answer.Ready? ==> var pid := old(w.acts)[w.me].pid;
                              answer.pid == pid && reply.Quoted? && pid in w.db.rows && w.db.rows[pid].status == InvoicePending
                              && w.db.rows[pid].mintQuote == Some(reply.quote) && w.db.rows[pid].invoice == Some(reply.invoice)
  {
    hide Inv, Next, Run, ZapQuoteText, QuoteTaken;
    ghost var before := w.World();
    OwnPayment(w.cfg, before, w.me);
    AnswerIs(w.cfg, before, w.me, reply, now);
    var pid := w.acts[w.me].pid;
    w.acts := w.acts - {w.me};
    answer := Raised(UNABLE);
    if reply.Quoted? && !QuoteTaken(w.db.rows, pid, reply.quote) {
      var row := w.db.Transition(pid, {QuoteCreating},
                                 Changes(status := Set(InvoicePending), mintQuote := Set(Some(reply.quote)),
                                         invoice := Set(Some(reply.invoice)), error := Set(None), nextCheckAt := Set(Some(now))), now);
      if row.Ok? && row.value.Some? {
        w.hist := w.hist[pid := w.hist[pid].(quotes := w.hist[pid].quotes + 1)];
        answer := Ready(pid);
      }
    } else {
      var kind := if reply.QuoteRaised? then reply.kind else "IntegrityError";
      var _ := w.db.Transition(pid, {QuoteCreating}, Changes(status := Set(Failed), error := Set(Some(ZapQuoteText(kind)))), now);
    }
    w.Book(AnswerStep(w.me, reply, now), before);
  }

  /** `create_zap_invoice` */
  method CreateZapInvoice(w: Worker, pid: string, during: seq<Step>, reply: QuoteReply, now: real) returns (answer: Answer)
    requires w.Valid() && w.me !in w.acts && Foreign(during, w.me)
    modifies w.db`rows, w.db`zaps, w`hist, w`acts, w`trace
    ensures w.Valid() && w.me !in w.acts
    ensures w.trace == old(w.trace)
            || w.trace == old(w.trace) + [ZapBegin(w.me, pid)] + during + [AnswerStep(w.me, reply, now)]
    ensures answer.Ready? ==> answer.pid == pid && pid in w.db.rows && (HasInvoice(w.db.rows[pid]) || (reply.Quoted? && reply.invoice == ""))
    ensures pid in old(w.db.rows) && HasInvoice(old(w.db.rows)[pid]) && pid in old(w.db.zaps) ==> w.trace == old(w.trace) && answer == Ready(pid)
  {
    hide Inv, Next, Run, Foreign;
    if pid !in w.db.rows || pid !in w.db.zaps { return Raised(MISSING); }
    if HasInvoice(w.db.rows[pid]) { return Ready(pid); }
    if w.db.rows[pid].status != QuoteCreating { return Raised(if w.db.rows[pid].error.Some? then w.db.rows[pid].error.value else NOT_CREATABLE); }
    ghost var before := w.World();
    KeysMatch(w.cfg, before);
    BeginIs(w.cfg, before, w.me, pid);
    w.acts := w.acts[w.me := ZapQuoting(pid)];
    w.Book(ZapBegin(w.me, pid), before);
    w.Others(during);
    answer := StoreAnswer(w, reply, now);
  }

  /** The payment that owns a request. */
  method FindPayment(zaps: Zaps, request: string) returns (found: Option<string>)
    ensures found.Some? ==> found.value in zaps && zaps[found.value].requestEventId == request
    ensures found.None? ==> !RequestTaken(zaps, request)
  {
    var left := zaps.Keys;
    found := None;
    while left != {}
      invariant left <= zaps.Keys && forall q :: q in zaps && q !in left ==> zaps[q].requestEventId != request
      decreases |left|
    {
      var q :| q in left;
      if zaps[q].requestEventId == request { return Some(q); }
      left := left - {q};
    }
  }

  /** For the handle and at the mint of the call, in whole satoshis rounded down. */
  predicate ForCall(p: Payment, handle: string, mint: string, amountMsat: nat) {
    p.handle == handle && p.mint == mint && AmountOf(p.amountSat, amountMsat)
  }

  /** The row and the zap of a new payment, inserted in one transaction. */
  method EnqueuePayment(w: Worker, pid: string, id: nat, handle: string, amountMsat: nat, mint: string, request: string, now: real)
    returns (inserted: bool)
    requires w.Valid()
    modifies w.db`rows, w.db`zaps, w`hist, w`trace
    ensures w.Valid() && w.trace == old(w.trace) + [Enqueue(pid, id, handle, amountMsat, mint, Some(request), true, now)]
    ensures inserted <==> pid !in old(w.db.rows) && !RequestTaken(old(w.db.zaps), request)
    ensures inserted ==> pid in w.db.zaps && w.db.zaps[pid].requestEventId == request && pid in w.db.rows && w.db.rows[pid].status == QuoteCreating
    ensures inserted ==> ForCall(w.db.rows[pid], handle, mint, amountMsat) && w.db.rows[pid].id == id
  {
    hide Inv, Run, RequestTaken;
    ghost var before := w.World();
    inserted := pid !in w.db.rows && !RequestTaken(w.db.zaps, request);
    if inserted {
      w.db.rows := w.db.rows[pid := Payment(id, handle, amountMsat / 1000, mint, QuoteCreating, None, None, None, None, 0, 0, now, now, None)];
      w.db.zaps := w.db.zaps[pid := Zap(request, None, None)];
      w.hist := w.hist[pid := NEW];
    }
    w.Book(Enqueue(pid, id, handle, amountMsat, mint, Some(request), true, now), before);
  }

  lemma {:induction false} ZapsStay(cfg: Config, s: State, steps: seq<Step>, pid: string)
    requires Inv(cfg, s) && pid in s.zaps
    ensures pid in Run(cfg, s, steps).zaps && Run(cfg, s, steps).zaps[pid].requestEventId == s.zaps[pid].requestEventId
    decreases |steps|
  {
    ZapsHaveRows(cfg, s);
    hide Next, Inv;
    if steps != [] {
      NextIsGood(cfg, s, steps[0]);
      ZapStays(cfg, s, steps[0], pid);
      ZapsStay(cfg, Next(cfg, s, steps[0]), steps[1..], pid);
    }
  }

  lemma ZapsHaveRows(cfg: Config, s: State)
    requires Inv(cfg, s)
    ensures s.zaps.Keys <= s.rows.Keys
  {
  }

  predicate KeepsZap(s: State, t: State, pid: string)
    requires pid in s.zaps
  {
    pid in t.zaps && t.zaps[pid].requestEventId == s.zaps[pid].requestEventId
  }

  lemma ZapStaysEarly(cfg: Config, s: State, st: Step, pid: string)
    requires pid in s.zaps && s.zaps.Keys <= s.rows.Keys && BeforeDelivery(st)
    ensures KeepsZap(s, Next(cfg, s, st), pid)
  {
    hide Apply, StoreQuote, FailQuote, PollChanges, MintChanges, RequestTaken, QuoteTaken, DueAt, Swap;
  }

  lemma ZapStaysLate(cfg: Config, s: State, st: Step, pid: string)
    requires pid in s.zaps && !BeforeDelivery(st)
    ensures KeepsZap(s, Next(cfg, s, st), pid)
  {
    hide Apply, DeliveryChanges, ClaimSendChanges, Swap, Closable, CloseRow, QuarantineAll, ReviveAll, PersistAll, LegacyRows, DueAt;
  }

  lemma ZapStays(cfg: Config, s: State, st: Step, pid: string)
    requires pid in s.zaps && s.zaps.Keys <= s.rows.Keys
    ensures KeepsZap(s, Next(cfg, s, st), pid)
  {
    hide Next, BeforeDelivery, KeepsZap;
    if BeforeDelivery(st) { ZapStaysEarly(cfg, s, st, pid); } else { ZapStaysLate(cfg, s, st, pid); }
  }

  /**
   `wait_for_provider_invoice`: look, and sleep while others act, until the invoice is there, its
   creation failed, or the time is up. The callback itself does nothing.
   */
  method WaitForInvoice(w: Worker, pid: string, sleeps: seq<seq<Step>>) returns (answer: Answer, ghost rounds: nat)
    requires w.Valid() && w.me !in w.acts && forall i :: 0 <= i < |sleeps| ==> Foreign(sleeps[i], w.me)
    modifies w.db`rows, w.db`zaps, w`hist, w`acts, w`trace
    ensures w.Valid() && w.me !in w.acts && rounds <= |sleeps| && w.trace == old(w.trace) + Flat(sleeps[..rounds])
    ensures answer.Ready? ==> answer.pid == pid && pid in w.db.rows && HasInvoice(w.db.rows[pid]) && Servable(w.db.rows[pid].status)
    ensures answer.Raised? ==> pid !in w.db.rows || w.db.rows[pid].status.Failed?
                               || (rounds == |sleeps| && !(HasInvoice(w.db.rows[pid]) && Servable(w.db.rows[pid].status)))
  {
    hide Inv, Next, Run, Foreign, HasInvoice, Servable, Flat, Worker.Valid;
    var round := 0;
    FlatNothing(sleeps);
    while true
      invariant w.Valid() && w.me !in w.acts && round <= |sleeps| && w.trace == old(w.trace) + Flat(sleeps[..round])
      decreases |sleeps| - round
    {
      rounds := round;
      if pid !in w.db.rows { return Raised(DISAPPEARED), rounds; }
      var payment := w.db.rows[pid];
      if HasInvoice(payment) && Servable(payment.status) { return Ready(pid), rounds; }
      if payment.status.Failed? {
        return Raised(if payment.error.Some? && payment.error.value != "" then payment.error.value else CREATION_FAILED), rounds;
      }
      if round == |sleeps| { return Raised(TOO_LATE), rounds; }
      FlatOne(sleeps, round);
      w.Others(sleeps[round]);
      round := round + 1;
    }
  }

  lemma FlatNothing(sleeps: seq<seq<Step>>)
    ensures Flat(sleeps[..0]) == []
  {
  }

  /**
   `handle_zap_invoice_request`: a request that is refused changes nothing. One that already owns
   a payment gets that payment, waiting for its invoice if need be and doing nothing itself;
   otherwise a payment is enqueued, unless a competitor enqueued one first. Whatever payment is
   answered owns the request, and no other payment does.
   */
  method HandleZapRequest(w: Worker, refusal: Option<string>, request: string, pid: string, id: nat, handle: string, amountMsat: nat,
                          mint: string, sleeps: seq<seq<Step>>,
                          before: seq<Step>, between: seq<Step>, during: seq<Step>, reply: QuoteReply, now: real)
    returns (answer: Answer, ghost rounds: nat)
    requires w.Valid() && w.me !in w.acts && Foreign(before, w.me) && Foreign(between, w.me) && Foreign(during, w.me)
    requires forall i :: 0 <= i < |sleeps| ==> Foreign(sleeps[i], w.me)
    modifies w.db`rows, w.db`zaps, w`hist, w`acts, w`trace
    ensures w.Valid() && w.me !in w.acts && old(w.trace) <= w.trace && rounds <= |sleeps|
    ensures refusal.Some? ==> w.trace == old(w.trace) && answer == Raised(refusal.value)
    ensures answer.Ready? ==> answer.pid in w.db.zaps && w.db.zaps[answer.pid].requestEventId == request
                              && forall q :: q in w.db.zaps && w.db.zaps[q].requestEventId == request ==> q == answer.pid
    ensures answer.Ready? && !RequestTaken(old(w.db.zaps), request) ==>
              answer.pid == pid && pid in w.db.rows && ForCall(w.db.rows[pid], handle, mint, amountMsat)
    ensures refusal.None? && RequestTaken(old(w.db.zaps), request) ==>
              && w.trace == old(w.trace) + Flat(sleeps[..rounds])
              && (answer.Ready? ==> answer.pid in w.db.rows && HasInvoice(w.db.rows[answer.pid]))
    ensures refusal.None? && (exists q :: q in old(w.db.zaps) && old(w.db.zaps)[q].requestEventId == request
                                          && q in old(w.db.rows) && HasInvoice(old(w.db.rows)[q])) ==>
              w.trace == old(w.trace) && answer.Ready?
  {
    hide Inv, Next, Run, Foreign, HasInvoice, Flat;
    rounds := 0;
    FlatNothing(sleeps);
    if refusal.Some? { return Raised(refusal.value), rounds; }
    var existing := FindPayment(w.db.zaps, request);
    if existing.Some? {
      answer, rounds := AnswerExisting(w, existing.value, sleeps);
      return;
    }
    w.Others(before);
    var inserted := EnqueuePayment(w, pid, id, handle, amountMsat, mint, request, now);
    if !inserted { return Raised(TAKEN), rounds; }
    ZapsStay(w.cfg, w.World(), between, pid);
    OrderStays(w.cfg, w.World(), between, pid);
    w.Others(between);
    ghost var s, trace := w.World(), w.trace;
    answer := CreateZapInvoice(w, pid, during, reply, now);
    RunFrom(w.cfg, w.start, trace, w.trace, s);
    ghost var more := w.trace[|trace|..];
    ZapsStay(w.cfg, s, more, pid);
    OrderStays(w.cfg, s, more, pid);
    OneOwner(w.cfg, w.World(), pid);
  }

  lemma OrderStays(cfg: Config, s: State, steps: seq<Step>, pid: string)
    requires Inv(cfg, s) && pid in s.rows
    ensures pid in Run(cfg, s, steps).rows && SameCall(s.rows[pid], Run(cfg, s, steps).rows[pid])
  {
    KeysMatch(cfg, s);
    RunIsGood(cfg, s, steps);
    hide Inv, Run;
    assert Follows(s.rows[pid], s.hist[pid], Run(cfg, s, steps).rows[pid], Run(cfg, s, steps).hist[pid]);
  }

  /** The request owns a payment already. */
  method AnswerExisting(w: Worker, pid: string, sleeps: seq<seq<Step>>) returns (answer: Answer, ghost rounds: nat)
    requires w.Valid() && w.me !in w.acts && pid in w.db.zaps && forall i :: 0 <= i < |sleeps| ==> Foreign(sleeps[i], w.me)
    modifies w.db`rows, w.db`zaps, w`hist, w`acts, w`trace
    ensures w.Valid() && w.me !in w.acts && rounds <= |sleeps| && w.trace == old(w.trace) + Flat(sleeps[..rounds])
    ensures answer.Ready? ==> answer.pid == pid && pid in w.db.rows && HasInvoice(w.db.rows[pid])
    ensures pid in w.db.zaps && w.db.zaps[pid].requestEventId == old(w.db.zaps)[pid].requestEventId
    ensures forall q :: q in w.db.zaps && w.db.zaps[q].requestEventId == w.db.zaps[pid].requestEventId ==> q == pid
    ensures forall q :: q in old(w.db.zaps) && old(w.db.zaps)[q].requestEventId == old(w.db.zaps)[pid].requestEventId ==> q == pid
    ensures pid in old(w.db.rows) && HasInvoice(old(w.db.rows)[pid]) ==> w.trace == old(w.trace) && answer == Ready(pid)
  {
    hide Inv, Next, Run, Foreign, HasInvoice, Flat;
    rounds := 0;
    FlatNothing(sleeps);
    ghost var s, trace := w.World(), w.trace;
    ZapHasRow(w.cfg, s, pid);
    OneOwner(w.cfg, s, pid);
    if HasInvoice(w.db.rows[pid]) { return Ready(pid), rounds; }
    answer, rounds := WaitForInvoice(w, pid, sleeps);
    RunFrom(w.cfg, w.start, trace, w.trace, s);
    ghost var more := w.trace[|trace|..];
    ZapsStay(w.cfg, s, more, pid);
    OneOwner(w.cfg, w.World(), pid);
  }

  lemma {:induction false} RunFrom(cfg: Config, start: State, trace: seq<Step>, later: seq<Step>, s: State)
    requires trace <= later && s == Run(cfg, start, trace)
    ensures Run(cfg, start, later) == Run(cfg, s, later[|trace|..])
  {
    RunAppends(cfg, start, trace, later[|trace|..]);
    assert later == trace + later[|trace|..];
  }

  lemma ZapHasRow(cfg: Config, s: State, pid: string)
    requires Inv(cfg, s) && pid in s.zaps
    ensures pid in s.rows && RequestTaken(s.zaps, s.zaps[pid].requestEventId)
  {
  }

  lemma OneOwner(cfg: Config, s: State, pid: string)
    requires Inv(cfg, s) && pid in s.zaps
    ensures forall q :: q in s.zaps && s.zaps[q].requestEventId == s.zaps[pid].requestEventId ==> q == pid
  {
  }
}
