/**
 The other stages of `process_provider_payments_once` that change a payment: its
 quote, the issuance of paid quotes, and the zap receipt. Like the delivery stage,
 each is a run of the machine with everybody else's steps in between.
 */
module PaymentStages {
  import opened Prelude
  import opened PaymentDatabase
  import opened PaymentRows
  import opened PaymentMachine
  import opened PaymentSafety
  import opened PaymentSteps
  import opened PaymentWorker
  import opened SettlementQueue

  function Flat(parts: seq<seq<Step>>): seq<Step> {
    if parts == [] then [] else Flat(parts[..|parts| - 1]) + parts[|parts| - 1]
  }

  lemma FlatOne(parts: seq<seq<Step>>, i: nat)
    requires i < |parts|
    ensures Flat(parts[..i + 1]) == Flat(parts[..i]) + parts[i]
  {
    assert parts[..i + 1][..i] == parts[..i];
  }

  lemma {:induction false} RowsStay(cfg: Config, s: State, steps: seq<Step>, pid: string)
    requires Inv(cfg, s) && pid in s.rows
    ensures pid in Run(cfg, s, steps).rows && pid in Run(cfg, s, steps).hist
  {
    RunIsGood(cfg, s, steps);
    KeysMatch(cfg, s);
    hide Inv, Run, Next;
  }

  // ---- claiming with competitors ----

  /** The two claims this file needs: a payment waiting for its quote, or for its receipt. */
  function ClaimStep(source: Status, me: nat, pid: string, now: real): Step
    requires source.QuotePending? || source.ReceiptPending?
  {
    if source.QuotePending? then ClaimQuote(me, pid, now) else ClaimReceipt(me, pid, now)
  }

  function ClaimedAct(source: Status, pid: string): Act {
    if source.QuotePending? then WorkerQuoting(pid) else ReceiptClaimed(pid)
  }

  function ClaimChanges(source: Status): Changes {
    if source.QuotePending? then Changes(status := Set(WorkerQuoteCreating), error := Set(None), nextCheckAt := Set(None))
    else Changes(status := Set(ReceiptPublishing))
  }

  lemma ClaimIs(cfg: Config, s: State, me: nat, source: Status, pid: string, now: real)
    requires (source.QuotePending? || source.ReceiptPending?) && Fresh(s, me, pid) && Hits(s.rows, pid, {source})
    ensures Next(cfg, s, ClaimStep(source, me, pid, now))
            == State(Swap(s.rows, pid, {source}, ClaimChanges(source), now), s.zaps, s.hist, s.acts[me := ClaimedAct(source, pid)])
  {
    assert s.hist[pid := s.hist[pid]] == s.hist;
  }

  /**
   `claim_next_provider_payment` as a run: as often as a competitor takes the candidate,
   another one is selected; at most one row is claimed, in the status that was asked for,
   and none only when no such row is due.
   */
  method ClaimStage(w: Worker, source: Status, others: seq<seq<Step>>, now: real) returns (claimed: Option<string>, rounds: nat)
    requires w.Valid() && w.me !in w.acts && (source.QuotePending? || source.ReceiptPending?)
    requires forall i :: 0 <= i < |others| ==> Foreign(others[i], w.me)
    modifies w.db`rows, w.db`zaps, w`hist, w`acts, w`trace
    ensures w.Valid() && rounds <= |others|
    ensures claimed.None? ==> w.me !in w.acts && w.trace == old(w.trace) + Flat(others[..rounds])
    ensures claimed.None? ==> forall q :: q in w.db.rows ==> !(w.db.rows[q].status == source && DueAt(w.db.rows[q], now))
    ensures claimed.Some? ==> w.trace == old(w.trace) + Flat(others[..rounds]) + [ClaimStep(source, w.me, claimed.value, now)]
    ensures claimed.Some? ==> w.me in w.acts && w.acts[w.me] == ClaimedAct(source, claimed.value)
  {
    hide Inv, Next, Run, Foreign, Apply;
    rounds := 0;
    assert others[..0] == [];
    while true
      invariant w.Valid() && w.me !in w.acts && rounds <= |others| && w.trace == old(w.trace) + Flat(others[..rounds])
      decreases |others| - rounds
    {
      var candidate := NextPayment(w.db.rows, source, now);
      if candidate.None? { return None, rounds; }
      var pid := candidate.value;
      if rounds < |others| {
        RowsStay(w.cfg, w.World(), others[rounds], pid);
        FlatOne(others, rounds);
        w.Others(others[rounds]);
        rounds := rounds + 1;
      }
      assert w.trace == old(w.trace) + Flat(others[..rounds]);
      ghost var before := w.World();
      KeysMatch(w.cfg, before);
      var row := w.db.Transition(pid, {source}, ClaimChanges(source), now);
      if row.Ok? && row.value.Some? {
        ClaimIs(w.cfg, before, w.me, source, pid, now);
        w.acts := w.acts[w.me := ClaimedAct(source, pid)];
        w.Book(ClaimStep(source, w.me, pid, now), before);
        return Some(pid), rounds;
      }
    }
  }

  // ---- the quote ----

  function QuoteStep(me: nat, reply: QuoteReply, now: real): Step {
    match reply
    case Quoted(quote, invoice) => WorkerStore(me, quote, invoice, now)
    case QuoteRaised(kind) => WorkerFail(me, kind, now)
  }

  /** A quote that another payment has already is a failure too. */
  predicate Storable(rows: Rows, pid: string, reply: QuoteReply) {
    reply.Quoted? && !QuoteTaken(rows, pid, reply.quote)
  }

  lemma QuoteIs(cfg: Config, s: State, me: nat, reply: QuoteReply, now: real)
    requires Holds(s, me) && s.acts[me].WorkerQuoting?
    ensures var pid := s.acts[me].pid;
            var h := s.hist[pid];
            var t, stored := Next(cfg, s, QuoteStep(me, reply, now)), Storable(s.rows, pid, reply);
            && t.zaps == s.zaps && t.acts == s.acts - {me}
            && t.rows == Swap(s.rows, pid, {WorkerQuoteCreating},
                              if stored then StoreQuote(reply.quote, reply.invoice, now)
                              else FailQuote(WorkerQuoteText(if reply.QuoteRaised? then reply.kind else "IntegrityError")), now)
            && t.hist == if stored && Hits(s.rows, pid, {WorkerQuoteCreating}) then s.hist[pid := h.(quotes := h.quotes + 1)] else s.hist
  {
    hide QuoteTaken, WorkerQuoteText, Apply, StoreQuote, FailQuote;
    assert s.hist[s.acts[me].pid := s.hist[s.acts[me].pid]] == s.hist;
  }

  /** Storing the quote, or the failure: both only while the row still waits for this quote. */
  method RecordQuote(w: Worker, reply: QuoteReply, now: real)
    requires w.Valid() && w.me in w.acts && w.acts[w.me].WorkerQuoting?
    modifies w.db`rows, w`hist, w`acts, w`trace
    ensures w.Valid() && w.me !in w.acts && w.trace == old(w.trace) + [QuoteStep(w.me, reply, now)]
  {
    hide Inv, Next, Run, WorkerQuoteText, Swap, QuoteTaken;
    ghost var before := w.World();
    OwnPayment(w.cfg, before, w.me);
    QuoteIs(w.cfg, before, w.me, reply, now);
    var pid := w.acts[w.me].pid;
    w.acts := w.acts - {w.me};
    if reply.Quoted? && !QuoteTaken(w.db.rows, pid, reply.quote) {
      var row := w.db.Transition(pid, {WorkerQuoteCreating},
                                 Changes(status := Set(InvoicePending), mintQuote := Set(Some(reply.quote)),
                                         invoice := Set(Some(reply.invoice)), error := Set(None), nextCheckAt := Set(Some(now))), now);
      if row.Ok? && row.value.Some? { w.hist := w.hist[pid := w.hist[pid].(quotes := w.hist[pid].quotes + 1)]; }
    } else {
      var kind := if reply.QuoteRaised? then reply.kind else "IntegrityError";
      var _ := w.db.Transition(pid, {WorkerQuoteCreating}, Changes(status := Set(Failed), error := Set(Some(WorkerQuoteText(kind)))), now);
    }
    w.Book(QuoteStep(w.me, reply, now), before);
  }

  /** The quote stage: claim, ask the mint once, record the answer. */
  method QuoteStage(w: Worker, others: seq<seq<Step>>, during: seq<Step>, reply: QuoteReply, now: real)
    returns (claimed: Option<string>, ghost rounds: nat)
    requires w.Valid() && w.me !in w.acts && Foreign(during, w.me)
    requires forall i :: 0 <= i < |others| ==> Foreign(others[i], w.me)
    modifies w.db`rows, w.db`zaps, w`hist, w`acts, w`trace
    ensures w.Valid() && w.me !in w.acts && rounds <= |others|
    ensures w.trace == old(w.trace) + Flat(others[..rounds])
                       + if claimed.None? then [] else [ClaimQuote(w.me, claimed.value, now)] + during + [QuoteStep(w.me, reply, now)]
  {
    hide Inv, Next, Run, Foreign, Flat;
    claimed, rounds := ClaimStage(w, QuotePending, others, now);
    if claimed.Some? {
      w.Others(during);
      RecordQuote(w, reply, now);
    }
  }

  // ---- issuance ----

  lemma SelectPaidIs(cfg: Config, s: State, me: nat, pid: string, now: real)
    requires Fresh(s, me, pid) && s.rows[pid].status == PaidReconciliationPending && DueAt(s.rows[pid], now)
    requires s.rows[pid].mintQuote.Some? && s.rows[pid].mintQuote.value != ""
    ensures Next(cfg, s, SelectPaid(me, pid, now)) == s.(acts := s.acts[me := Minting(pid, s.rows[pid])])
  {
  }

  lemma MintResultIs(cfg: Config, s: State, me: nat, minted: MintOutcome, now: real)
    requires Holds(s, me) && s.acts[me].Minting?
    ensures var pid, seen := s.acts[me].pid, s.acts[me].seen;
            var h := s.hist[pid];
            var t := Next(cfg, s, MintResult(me, minted, now));
            && t.zaps == s.zaps && t.acts == s.acts - {me}
            && t.rows == Swap(s.rows, pid, {seen.status}, MintChanges(seen, minted, now), now)
            && t.hist == if Hits(s.rows, pid, {seen.status}) then s.hist[pid := h.(settled := h.settled || minted.MintPaid?)] else s.hist
  {
    hide MintChanges, Apply;
  }

  /**
   The issuance stage: one paid quote is minted, and its row moves on only from the status it
   was selected in. A call that never reports leaves the row alone.
   */
  method IssuanceStage(w: Worker, during: seq<Step>, reply: Option<MintOutcome>, now: real) returns (selected: Option<string>)
    requires w.Valid() && w.me !in w.acts && Foreign(during, w.me)
    modifies w.db`rows, w.db`zaps, w`hist, w`acts, w`trace
    ensures w.Valid()
    ensures w.trace == old(w.trace) + if selected.None? then []
                                      else [SelectPaid(w.me, selected.value, now)] + during
                                           + if reply.None? then [] else [MintResult(w.me, reply.value, now)]
    ensures reply.Some? ==> w.me !in w.acts
  {
    hide Inv, Next, Run, Foreign, MintChanges;
    selected := NextPayment(w.db.rows, PaidReconciliationPending, now);
    if selected.Some? && (w.db.rows[selected.value].mintQuote.None? || w.db.rows[selected.value].mintQuote.value == "") { selected := None; }
    if selected.None? { return; }
    var pid := selected.value;
    ghost var before := w.World();
    KeysMatch(w.cfg, before);
    SelectPaidIs(w.cfg, before, w.me, pid, now);
    w.acts := w.acts[w.me := Minting(pid, w.db.rows[pid])];
    w.Book(SelectPaid(w.me, pid, now), before);
    w.Others(during);
    if reply.Some? { RecordIssuance(w, reply.value, now); }
  }

  method RecordIssuance(w: Worker, minted: MintOutcome, now: real)
    requires w.Valid() && w.me in w.acts && w.acts[w.me].Minting?
    modifies w.db`rows, w`hist, w`acts, w`trace
    ensures w.Valid() && w.me !in w.acts && w.trace == old(w.trace) + [MintResult(w.me, minted, now)]
  {
    hide Inv, Next, Run, Swap;
    ghost var before := w.World();
    OwnPayment(w.cfg, before, w.me);
    MintResultIs(w.cfg, before, w.me, minted, now);
    var mine := w.acts[w.me];
    var pid, attempts := mine.pid, mine.seen.attempts + 1;
    w.acts := w.acts - {w.me};
    var c;
    match minted {
      case MintPaid =>
        c := Changes(status := Set(Settled), attempts := Set(attempts), error := Set(None), nextCheckAt := Set(None));
      case MintQuoteGone =>
        c := Changes(status := Set(Failed), attempts := Set(attempts), error := Set(Some(QUOTE_NOT_FOUND)), nextCheckAt := Set(None));
      case MintUnpaid =>
        c := Changes(status := Set(PaidReconciliationPending), attempts := Set(attempts), error := Set(Some(ISSUANCE_PENDING)),
                     nextCheckAt := Set(Some(now + RECHECK_SECONDS)));
    }
    var row := w.db.Transition(pid, {mine.seen.status}, c, now);
    if row.Ok? && row.value.Some? { w.hist := w.hist[pid := w.hist[pid].(settled := w.hist[pid].settled || minted.MintPaid?)]; }
    w.Book(MintResult(w.me, minted, now), before);
  }

  // ---- the zap receipt ----

  /** The statements of a publication that reports. */
  function ReceiptScript(me: nat, reply: PublishReply, gap: seq<Step>, gap2: seq<Step>, now: real): seq<Step> {
    match reply
    case PublishedAs(eventId) => [PublishReturns(me, Some(eventId))] + gap + [RecordReceipt(me)] + gap2 + [FinishReceipt(me, now)]
    case PublishRaised(kind) => [PublishReturns(me, None)] + gap + [NoteFailure(me, kind)] + gap2 + [FailReceipt(me, now)]
  }

  lemma StartPublishIs(cfg: Config, s: State, me: nat, now: real)
    requires Holds(s, me) && s.acts[me].ReceiptClaimed?
    ensures var pid := s.acts[me].pid;
            var h := s.hist[pid];
            var t := Next(cfg, s, StartPublish(me, now));
            && t.zaps == s.zaps
            && (pid in s.zaps ==> t == s.(hist := s.hist[pid := h.(receipts := h.receipts + 1)], acts := s.acts[me := Publishing(pid)]))
            && (pid !in s.zaps ==> t.acts == s.acts - {me} && t.hist == s.hist)
            && (pid !in s.zaps ==> t.rows == Swap(s.rows, pid, {ReceiptPublishing}, Changes(status := Set(Delivered)), now))
  {
    hide Apply;
    assert s.hist[s.acts[me].pid := s.hist[s.acts[me].pid]] == s.hist;
  }

  /** Look the zap up: without one the payment is simply delivered; otherwise its receipt is published. */
  method BeginPublication(w: Worker, now: real) returns (publishing: bool)
    requires w.Valid() && w.me in w.acts && w.acts[w.me].ReceiptClaimed?
    modifies w.db`rows, w`hist, w`acts, w`trace
    ensures w.Valid() && w.trace == old(w.trace) + [StartPublish(w.me, now)]
    ensures publishing ==> w.me in w.acts && w.acts[w.me] == Publishing(old(w.acts)[w.me].pid)
    ensures !publishing ==> w.me !in w.acts
  {
    hide Inv, Next, Run;
    ghost var before := w.World();
    OwnPayment(w.cfg, before, w.me);
    StartPublishIs(w.cfg, before, w.me, now);
    var pid := w.acts[w.me].pid;
    publishing := pid in w.db.zaps;
    if publishing {
      w.hist := w.hist[pid := w.hist[pid].(receipts := w.hist[pid].receipts + 1)];
      w.acts := w.acts[w.me := Publishing(pid)];
    } else {
      w.acts := w.acts - {w.me};
      var _ := w.db.Transition(pid, {ReceiptPublishing}, Changes(status := Set(Delivered)), now);
    }
    w.Book(StartPublish(w.me, now), before);
  }

  lemma PublicationIs(cfg: Config, s: State, me: nat, reply: PublishReply)
    requires Holds(s, me) && s.acts[me].Publishing?
    ensures Next(cfg, s, PublishReturns(me, if reply.PublishedAs? then Some(reply.eventId) else None))
            == s.(acts := s.acts[me := if reply.PublishedAs? then Published(s.acts[me].pid, reply.eventId) else PublishFailed(s.acts[me].pid)])
  {
  }

  lemma NotesAre(cfg: Config, s: State, me: nat, kind: string)
    requires Holds(s, me) && s.acts[me].pid in s.zaps
    ensures var pid := s.acts[me].pid;
            && (s.acts[me].Published? ==>
                 Next(cfg, s, RecordReceipt(me))
                 == s.(zaps := s.zaps[pid := s.zaps[pid].(receiptEventId := Some(s.acts[me].eventId), receiptError := None)],
                       acts := s.acts[me := Recorded(pid)]))
            && (s.acts[me].PublishFailed? ==>
                 Next(cfg, s, NoteFailure(me, kind))
                 == s.(zaps := s.zaps[pid := s.zaps[pid].(receiptError := Some("Receipt publication failed: " + kind))],
                       acts := s.acts[me := FailureNoted(pid)]))
  {
  }

  lemma EndsAre(cfg: Config, s: State, me: nat, now: real)
    requires Holds(s, me)
    ensures var pid := s.acts[me].pid;
            && (s.acts[me].Recorded? ==>
                  Next(cfg, s, FinishReceipt(me, now))
                  == State(Swap(s.rows, pid, {ReceiptPublishing}, RECEIPT_DONE, now), s.zaps, s.hist, s.acts - {me}))
            && (s.acts[me].FailureNoted? ==>
                  Next(cfg, s, FailReceipt(me, now))
                  == State(Swap(s.rows, pid, {ReceiptPublishing}, RECEIPT_LOST, now), s.zaps, s.hist, s.acts - {me}))
  {
    hide Apply;
    assert s.hist[s.acts[me].pid := s.hist[s.acts[me].pid]] == s.hist;
  }

  method PublicationReports(w: Worker, reply: PublishReply)
    requires w.Valid() && w.me in w.acts && w.acts[w.me].Publishing?
    modifies w`acts, w`trace
    ensures w.Valid()
    ensures w.trace == old(w.trace) + [PublishReturns(w.me, if reply.PublishedAs? then Some(reply.eventId) else None)]
    ensures w.me in w.acts && if reply.PublishedAs? then w.acts[w.me].Published? else w.acts[w.me].PublishFailed?
  {
    hide Inv, Next, Run;
    ghost var before := w.World();
    OwnPayment(w.cfg, before, w.me);
    PublicationIs(w.cfg, before, w.me, reply);
    var pid := w.acts[w.me].pid;
    w.acts := w.acts[w.me := if reply.PublishedAs? then Published(pid, reply.eventId) else PublishFailed(pid)];
    w.Book(PublishReturns(w.me, if reply.PublishedAs? then Some(reply.eventId) else None), before);
  }

  /** `update_provider_zap`, with the receipt's id or with what went wrong. */
  method NoteReceipt(w: Worker, kind: string)
    requires w.Valid() && w.me in w.acts && (w.acts[w.me].Published? || w.acts[w.me].PublishFailed?)
    modifies w.db`zaps, w`acts, w`trace
    ensures w.Valid() && w.me in w.acts
    ensures w.trace == old(w.trace) + [if old(w.acts)[w.me].Published? then RecordReceipt(w.me) else NoteFailure(w.me, kind)]
    ensures if old(w.acts)[w.me].Published? then w.acts[w.me].Recorded? else w.acts[w.me].FailureNoted?
  {
    ReceiptHasZap(w.cfg, w.World(), w.me);
    hide Inv, Next, Run;
    ghost var before := w.World();
    OwnPayment(w.cfg, before, w.me);
    NotesAre(w.cfg, before, w.me, kind);
    var mine := w.acts[w.me];
    if mine.Published? {
      w.db.zaps := w.db.zaps[mine.pid := w.db.zaps[mine.pid].(receiptEventId := Some(mine.eventId), receiptError := None)];
      w.acts := w.acts[w.me := Recorded(mine.pid)];
    } else {
      w.db.zaps := w.db.zaps[mine.pid := w.db.zaps[mine.pid].(receiptError := Some("Receipt publication failed: " + kind))];
      w.acts := w.acts[w.me := FailureNoted(mine.pid)];
    }
    w.Book(if mine.Published? then RecordReceipt(w.me) else NoteFailure(w.me, kind), before);
  }

  lemma ReceiptHasZap(cfg: Config, s: State, me: nat)
    requires Inv(cfg, s) && me in s.acts && IsReceipt(s.acts[me])
    ensures s.acts[me].pid in s.zaps
  {
    assert ActOk(cfg, s, me);
  }

  method EndReceipt(w: Worker, now: real)
    requires w.Valid() && w.me in w.acts && (w.acts[w.me].Recorded? || w.acts[w.me].FailureNoted?)
    modifies w.db`rows, w`acts, w`trace
    ensures w.Valid() && w.me !in w.acts
    ensures w.trace == old(w.trace) + [if old(w.acts)[w.me].Recorded? then FinishReceipt(w.me, now) else FailReceipt(w.me, now)]
  {
    hide Inv, Next, Run;
    ghost var before := w.World();
    OwnPayment(w.cfg, before, w.me);
    EndsAre(w.cfg, before, w.me, now);
    var mine := w.acts[w.me];
    w.acts := w.acts - {w.me};
    if mine.Recorded? {
      var _ := w.db.Transition(mine.pid, {ReceiptPublishing}, Changes(status := Set(Delivered), error := Set(None)), now);
    } else {
      var _ := w.db.Transition(mine.pid, {ReceiptPublishing},
                               Changes(status := Set(ReceiptFailed), error := Set(Some(RECEIPT_REVIEW))), now);
    }
    w.Book(if mine.Recorded? then FinishReceipt(w.me, now) else FailReceipt(w.me, now), before);
  }

  /** After the publication started: its outcome is noted in the zap row, then in the payment. */
  method FinishPublication(w: Worker, reply: PublishReply, gaps: seq<seq<Step>>, now: real)
    requires w.Valid() && w.me in w.acts && w.acts[w.me].Publishing?
    requires |gaps| == 2 && Foreign(gaps[0], w.me) && Foreign(gaps[1], w.me)
    modifies w.db`rows, w.db`zaps, w`hist, w`acts, w`trace
    ensures w.Valid() && w.me !in w.acts && w.trace == old(w.trace) + ReceiptScript(w.me, reply, gaps[0], gaps[1], now)
  {
    hide Inv, Next, Run, Foreign;
    PublicationReports(w, reply);
    w.Others(gaps[0]);
    NoteReceipt(w, if reply.PublishRaised? then reply.kind else "");
    w.Others(gaps[1]);
    EndReceipt(w, now);
    assert w.trace == old(w.trace) + ReceiptScript(w.me, reply, gaps[0], gaps[1], now);
  }

  /**
   The receipt stage: claim, publish once if there is a zap, then note the receipt in the zap row
   before the payment becomes DELIVERED. A publication that never reports leaves the row claimed.
   */
  method ReceiptStage(w: Worker, others: seq<seq<Step>>, before: seq<Step>, during: seq<Step>, gaps: seq<seq<Step>>,
                      reply: Option<PublishReply>, now: real)
    returns (claimed: Option<string>, ghost rounds: nat, published: bool)
    requires w.Valid() && w.me !in w.acts && Foreign(before, w.me) && Foreign(during, w.me)
    requires |gaps| == 2 && Foreign(gaps[0], w.me) && Foreign(gaps[1], w.me)
    requires forall i :: 0 <= i < |others| ==> Foreign(others[i], w.me)
    modifies w.db`rows, w.db`zaps, w`hist, w`acts, w`trace
    ensures w.Valid() && rounds <= |others| && (published ==> claimed.Some?)
    ensures var claim := old(w.trace) + Flat(others[..rounds])
                         + if claimed.None? then [] else [ClaimReceipt(w.me, claimed.value, now)] + before + [StartPublish(w.me, now)];
            w.trace == claim + if !published then []
                               else during + if reply.None? then [] else ReceiptScript(w.me, reply.value, gaps[0], gaps[1], now)
    ensures reply.Some? || !published ==> w.me !in w.acts
  {
    hide Inv, Next, Run, Foreign, Flat, ReceiptScript;
    published := false;
    claimed, rounds := ClaimStage(w, ReceiptPending, others, now);
    if claimed.Some? {
      w.Others(before);
      published := BeginPublication(w, now);
      ghost var claim := w.trace;
      if published {
        w.Others(during);
        if reply.Some? {
          FinishPublication(w, reply.value, gaps, now);
          assert w.trace == claim + (during + ReceiptScript(w.me, reply.value, gaps[0], gaps[1], now));
        }
      }
    }
  }
}
