/**
 The provider_payment and provider_zap tables, and every conditional UPDATE the
 application issues against them, as functions on values. Each function is one
 committed statement (or one committed session).
 */
module PaymentRows {
  import opened Prelude

  datatype Status =
    | QuotePending | QuoteCreating | WorkerQuoteCreating
    | InvoicePending | SettlementUnconfirmed | PaidReconciliationPending
    | Settled | Delivering | DeliveryFailed
    | ReceiptPending | ReceiptPublishing | ReceiptFailed
    | Delivered | Failed

  const LEGACY_TIMEOUT := "Invoice settlement timed out"
  const UNCONFIRMED := "Settlement remains unconfirmed; continuing periodic mint checks"
  const QUOTE_NOT_FOUND := "Mint quote not found"
  const ISSUANCE_PENDING := "Lightning payment confirmed; ecash issuance remains pending"
  const RECEIPT_REVIEW := "Ecash delivered; NIP-57 receipt publication requires review"
  const QUOTE_INTERRUPTED := "Invoice creation was interrupted; verify mint state before retrying"
  const DELIVERY_INTERRUPTED := "Delivery was interrupted; verify recipient and service Acorn state"
  const RECEIPT_INTERRUPTED := "Ecash delivered; zap receipt publication was interrupted"

  datatype Payment = Payment(
    id: nat,
    handle: string,
    amountSat: nat,
    mint: string,
    status: Status,
    mintQuote: Option<string>,
    invoice: Option<string>,
    deliveryEventId: Option<string>,
    error: Option<string>,
    attempts: nat,
    deliveryAttempts: nat,
    createdAt: real,
    updatedAt: real,
    nextCheckAt: Option<real>)

  datatype Zap = Zap(requestEventId: string, receiptEventId: Option<string>, receiptError: Option<string>)

  type Rows = map<string, Payment>
  type Zaps = map<string, Zap>

  /** The keyword arguments of `transition_provider_payment`. */
  datatype Changes = Changes(
    status: Field<Status> := Keep,
    mintQuote: Field<Option<string>> := Keep,
    invoice: Field<Option<string>> := Keep,
    deliveryEventId: Field<Option<string>> := Keep,
    error: Field<Option<string>> := Keep,
    attempts: Field<nat> := Keep,
    deliveryAttempts: Field<nat> := Keep,
    nextCheckAt: Field<Option<real>> := Keep)

  function Apply(p: Payment, c: Changes, now: real): Payment {
    p.(status := Over(c.status, p.status),
       mintQuote := Over(c.mintQuote, p.mintQuote),
       invoice := Over(c.invoice, p.invoice),
       deliveryEventId := Over(c.deliveryEventId, p.deliveryEventId),
       error := Over(c.error, p.error),
       attempts := Over(c.attempts, p.attempts),
       deliveryAttempts := Over(c.deliveryAttempts, p.deliveryAttempts),
       nextCheckAt := Over(c.nextCheckAt, p.nextCheckAt),
       updatedAt := now)
  }

  /** The compare-and-swap hits exactly when the row exists in an expected status. */
  predicate Hits(rows: Rows, pid: string, expected: set<Status>) {
    pid in rows && rows[pid].status in expected
  }

  function Swap(rows: Rows, pid: string, expected: set<Status>, c: Changes, now: real): Rows {
    if Hits(rows, pid, expected) then rows[pid := Apply(rows[pid], c, now)] else rows
  }

  /** UNIQUE(mint_quote): SQL compares no NULL, so only equal non-null quotes collide. */
  predicate QuoteTaken(rows: Rows, pid: string, quote: string) {
    exists q :: q in rows && q != pid && rows[q].mintQuote == Some(quote)
  }

  /** UNIQUE(request_event_id). */
  predicate RequestTaken(zaps: Zaps, eventId: string) {
    exists q :: q in zaps && zaps[q].requestEventId == eventId
  }

  /** `quarantine_abandoned_provider_claims`: where an interrupted claim goes, and why. */
  function QuarantineTarget(s: Status): Option<(Status, string)> {
    match s
    case WorkerQuoteCreating => Some((Failed, QUOTE_INTERRUPTED))
    case Delivering => Some((DeliveryFailed, DELIVERY_INTERRUPTED))
    case ReceiptPublishing => Some((ReceiptFailed, RECEIPT_INTERRUPTED))
    case _ => None
  }

  predicate Abandoned(p: Payment, cutoff: real) {
    QuarantineTarget(p.status).Some? && p.updatedAt < cutoff
  }

  function QuarantineRow(p: Payment, cutoff: real, now: real): Payment {
    if Abandoned(p, cutoff) then
      var t := QuarantineTarget(p.status).value;
      p.(status := t.0, error := Some(t.1), nextCheckAt := None, updatedAt := now)
    else p
  }

  function QuarantineAll(rows: Rows, cutoff: real, now: real): Rows {
    map pid | pid in rows :: QuarantineRow(rows[pid], cutoff, now)
  }

  /** The rows `reconcile_legacy_settlement_timeouts` selects. */
  predicate LegacyTimeout(p: Payment) {
    p.status == Failed && p.error == Some(LEGACY_TIMEOUT) && p.mintQuote.Some? && p.invoice.Some?
  }

  function Revive(p: Payment, now: real): Payment {
    p.(status := SettlementUnconfirmed, error := Some(UNCONFIRMED), nextCheckAt := Some(now), updatedAt := now)
  }

  /** The session writes the selected rows by primary key, without comparing status again. */
  function ReviveAll(rows: Rows, picked: set<string>, now: real): Rows {
    map pid | pid in rows :: if pid in picked then Revive(rows[pid], now) else rows[pid]
  }

  function LegacyRows(rows: Rows): set<string> {
    set pid | pid in rows && LegacyTimeout(rows[pid])
  }

  /** The guard of the operator's closing UPDATE, compared in one statement. */
  predicate Closable(p: Payment, seen: Payment, handle: string, amountSat: int) {
    && p.id == seen.id && p.status == DeliveryFailed && p.deliveryEventId.None?
    && p.updatedAt == seen.updatedAt && p.handle == handle && p.amountSat == amountSat
  }

  function CloseRow(p: Payment, now: real): Payment {
    p.(status := Failed, nextCheckAt := None, updatedAt := now)
  }

  // Error texts, with the 500-character limit the worker applies.

  function RetryText(kind: string, detail: string): string {
    Clip("Retryable pre-swap delivery failure: " + kind + ": " + detail, 500)
  }

  function ExhaustedText(kind: string, detail: string): string {
    Clip("Safe delivery retries exhausted: " + kind + ": " + detail, 500)
  }

  function ReviewText(kind: string, detail: string): string {
    Clip("Delivery outcome requires review: " + kind + ": " + detail, 500)
  }

  function WorkerQuoteText(kind: string): string { "Invoice creation failed: " + kind }

  function ZapQuoteText(kind: string): string { "Zap invoice creation failed: " + kind }

  lemma ClipKeepsHead(prefix: string, kind: string, detail: string)
    requires |prefix| > 0
    ensures Clip(prefix + kind + ": " + detail, 500)[0] == prefix[0]
  {
    var whole := prefix + kind + ": " + detail;
    assert whole == prefix + (kind + ": " + detail);
    assert whole[0] == prefix[0];
  }

  /** No text the current code writes can be mistaken for the former timeout. */
  lemma TextsAreNotLegacy(kind: string, detail: string)
    ensures RetryText(kind, detail) != LEGACY_TIMEOUT
    ensures ExhaustedText(kind, detail) != LEGACY_TIMEOUT
    ensures ReviewText(kind, detail) != LEGACY_TIMEOUT
    ensures WorkerQuoteText(kind) != LEGACY_TIMEOUT
    ensures ZapQuoteText(kind) != LEGACY_TIMEOUT
    ensures forall s :: QuarantineTarget(s).Some? ==> QuarantineTarget(s).value.1 != LEGACY_TIMEOUT
    ensures RECEIPT_REVIEW != LEGACY_TIMEOUT && QUOTE_NOT_FOUND != LEGACY_TIMEOUT
  {
    assert LEGACY_TIMEOUT[0] == 'I' && LEGACY_TIMEOUT[8] == 's';
    ClipKeepsHead("Retryable pre-swap delivery failure: ", kind, detail);
    ClipKeepsHead("Safe delivery retries exhausted: ", kind, detail);
    ClipKeepsHead("Delivery outcome requires review: ", kind, detail);
    assert WorkerQuoteText(kind)[8] == 'c';
    assert ZapQuoteText(kind)[0] == 'Z';
    assert |LEGACY_TIMEOUT| == 28 && |QUOTE_NOT_FOUND| == 20 && |RECEIPT_REVIEW| == 59;
    assert |QUOTE_INTERRUPTED| == 67 && |DELIVERY_INTERRUPTED| == 66 && |RECEIPT_INTERRUPTED| == 56;
  }
}
