/**
 What every step of the payment machine keeps. The invariant is local to one
 payment, so each step lemma looks at one row, its history and its actors.
 */
module PaymentSafety {
  import opened Prelude
  import opened PaymentRows
  import opened PaymentMachine

  predicate Creating(t: Status) { t.QuotePending? || t.QuoteCreating? || t.WorkerQuoteCreating? }

  /** Statuses a payment can have once it has been SETTLED, apart from an operator's FAILED. */
  predicate PostSettlement(t: Status) {
    t.Settled? || t.Delivering? || t.DeliveryFailed? || t.Delivered?
    || t.ReceiptPending? || t.ReceiptPublishing? || t.ReceiptFailed?
  }

  predicate Receipting(t: Status) { t.ReceiptPublishing? || t.ReceiptFailed? }

  predicate AllRetryable(sends: seq<Outcome>) {
    forall k :: 0 <= k < |sends| ==> sends[k] == Retryable
  }

  /** Every send but the newest one reported a retryable failure. */
  predicate AtMostOneOpen(sends: seq<Outcome>) {
    forall k :: 0 <= k < |sends| - 1 ==> sends[k] == Retryable
  }

  predicate Succeeded(sends: seq<Outcome>) { |sends| > 0 && sends[|sends| - 1] == Success }

  predicate QuoteInv(p: Payment, h: Hist) {
    && (Creating(p.status) ==> p.mintQuote.None? && p.invoice.None? && h.quotes == 0)
    && (!Creating(p.status) && !p.status.Failed? ==> p.mintQuote.Some? && p.invoice.Some?)
    && h.quotes <= 1
    && (h.quotes == 1 ==> p.mintQuote.Some? && p.invoice.Some?)
  }

  predicate SettledInv(p: Payment, h: Hist) {
    && (PostSettlement(p.status) ==> h.settled)
    && (h.settled ==> PostSettlement(p.status) || p.status.Failed?)
    && (h.settled ==> p.error != Some(LEGACY_TIMEOUT))
    && (!h.settled ==> h.claims == 0 && h.sends == [])
  }

  predicate SendInv(p: Payment, h: Hist) {
    && AtMostOneOpen(h.sends)
    && |h.sends| <= h.claims <= |h.sends| + 1
    && (p.status.Settled? ==> AllRetryable(h.sends) && |h.sends| == h.claims)
    && (Receipting(p.status) || p.status.ReceiptPending? || p.status.Delivered? ==> Succeeded(h.sends))
  }

  predicate ReceiptInv(p: Payment, zap: Option<Zap>, h: Hist) {
    && h.receipts <= 1
    && (h.receipts == 1 ==> Succeeded(h.sends) && (Receipting(p.status) || p.status.Delivered?))
    && (Receipting(p.status) || p.status.ReceiptPending? ==> zap.Some?)
    && (p.status.Delivered? && zap.Some? ==> zap.value.receiptEventId.Some?)
  }

  predicate BudgetInv(cfg: Config, p: Payment, h: Hist) {
    && p.deliveryAttempts <= h.claims
    && (p.deliveryAttempts == h.claims <==> h.staleClaims == 0)
    && p.deliveryAttempts <= Allowed(cfg)
    && (p.status.Settled? ==> p.deliveryAttempts < Allowed(cfg))
    && (h.settled && !p.status.Settled? ==> p.deliveryAttempts >= 1)
    && (h.staleClaims == 0 ==>
          h.delay == DelaySum(cfg, if h.settled && !p.status.Settled? then p.deliveryAttempts - 1 else p.deliveryAttempts))
  }

  predicate PaymentInv(cfg: Config, p: Payment, zap: Option<Zap>, h: Hist) {
    QuoteInv(p, h) && SettledInv(p, h) && SendInv(p, h) && ReceiptInv(p, zap, h) && BudgetInv(cfg, p, h)
  }

  predicate IsSend(act: Act) { act.SendClaimed? || act.Sending? || act.SendReturned? }

  predicate IsReceipt(act: Act) {
    act.ReceiptClaimed? || act.Publishing? || act.Published? || act.Recorded? || act.PublishFailed? || act.FailureNoted?
  }

  /** The row a delivering actor left behind: DELIVERING, or quarantined, or closed since. */
  predicate Claimed(p: Payment) { p.status.Delivering? || p.status.DeliveryFailed? || p.status.Failed? }

  predicate ActInv(cfg: Config, act: Act, p: Payment, zap: Option<Zap>, h: Hist) {
    && (act.Polling? ==> Unsettled(act.seen))
    && (act.Minting? ==> act.seen.status == PaidReconciliationPending)
    && (act.SettledSeen? ==>
          && act.seen.deliveryAttempts <= act.seenClaims <= h.claims
          && act.seen.deliveryAttempts < Allowed(cfg)
          && (act.seenClaims == h.claims ==> act.seen.deliveryAttempts == p.deliveryAttempts))
    && (IsSend(act) ==> h.settled && Claimed(p) && act.attempt == p.deliveryAttempts)
    && (act.SendClaimed? ==> AllRetryable(h.sends) && |h.sends| + 1 == h.claims)
    && (act.Sending? ==> |h.sends| == h.claims && act.k == |h.sends| - 1 && h.sends[act.k] == Unreported)
    && (act.SendReturned? ==> |h.sends| == h.claims && act.k == |h.sends| - 1 && h.sends[act.k] != Unreported)
    && (IsReceipt(act) ==> Receipting(p.status) && zap.Some?)
    && (act.ReceiptClaimed? ==> h.receipts == 0)
    && (act.Recorded? ==> zap.Some? && zap.value.receiptEventId.Some?)
  }

  predicate Exclusive(acts: map<nat, Act>) {
    forall a, b :: a in acts && b in acts && a != b && acts[a].pid == acts[b].pid ==>
      !(IsSend(acts[a]) && IsSend(acts[b])) && !(IsReceipt(acts[a]) && IsReceipt(acts[b]))
  }

  predicate UniqueQuotes(rows: Rows) {
    forall p, q :: p in rows && q in rows && p != q && rows[p].mintQuote.Some? ==> rows[p].mintQuote != rows[q].mintQuote
  }

  predicate UniqueRequests(zaps: Zaps) {
    forall p, q :: p in zaps && q in zaps && p != q ==> zaps[p].requestEventId != zaps[q].requestEventId
  }

  predicate PaymentsOk(cfg: Config, s: State) {
    forall p :: p in s.rows && p in s.hist ==> PaymentInv(cfg, s.rows[p], ZapOf(s, p), s.hist[p])
  }

  predicate ActOk(cfg: Config, s: State, a: nat)
    requires a in s.acts
  {
    var act := s.acts[a];
    act.pid in s.rows && act.pid in s.hist && ActInv(cfg, act, s.rows[act.pid], ZapOf(s, act.pid), s.hist[act.pid])
  }

  predicate Inv(cfg: Config, s: State) {
    && s.hist.Keys == s.rows.Keys
    && s.zaps.Keys <= s.rows.Keys
    && PaymentsOk(cfg, s)
    && (forall a :: a in s.acts ==> ActOk(cfg, s, a))
    && Exclusive(s.acts)
    && UniqueQuotes(s.rows)
    && UniqueRequests(s.zaps)
  }

  /** A row the former version left FAILED, or one waiting for its first quote. */
  predicate InitialRow(p: Payment) {
    && p.deliveryAttempts == 0
    && (LegacyTimeout(p) || ((p.status.QuotePending? || p.status.QuoteCreating?) && p.mintQuote.None? && p.invoice.None?))
  }

  predicate Init(s: State) {
    && s.acts == map[]
    && s.hist.Keys == s.rows.Keys
    && s.zaps.Keys <= s.rows.Keys
    && (forall p :: p in s.rows ==> InitialRow(s.rows[p]) && s.hist[p] == NEW)
    && UniqueQuotes(s.rows)
    && UniqueRequests(s.zaps)
  }

  /** History only grows, and a reported outcome is never rewritten. */
  predicate Grows(h: Hist, g: Hist) {
    && |h.sends| <= |g.sends|
    && (forall k :: 0 <= k < |h.sends| ==> h.sends[k] == Unreported || g.sends[k] == h.sends[k])
    && (h.settled ==> g.settled)
    && h.claims <= g.claims && h.quotes <= g.quotes && h.receipts <= g.receipts
  }

  /** Whom a payment is for, how much it is, and a stored quote are written once. */
  predicate Fixed(p: Payment, q: Payment) {
    && q.id == p.id && q.handle == p.handle && q.amountSat == p.amountSat && q.mint == p.mint
    && (p.mintQuote.Some? ==> q.mintQuote == p.mintQuote)
    && (p.invoice.Some? ==> q.invoice == p.invoice)
  }

  /** What may become of one payment: nothing is undone, nothing closed reopens, no legacy row appears. */
  predicate Follows(p: Payment, h: Hist, q: Payment, g: Hist) {
    && Grows(h, g) && Fixed(p, q)
    && (h.settled && p.status.Failed? ==> q.status.Failed?)
    && (LegacyTimeout(q) ==> LegacyTimeout(p))
  }

  predicate Extends(s: State, t: State) {
    && (forall p :: p in s.rows && p in s.hist ==>
          p in t.rows && p in t.hist && Follows(s.rows[p], s.hist[p], t.rows[p], t.hist[p]))
    && (forall p :: p in t.rows && LegacyTimeout(t.rows[p]) ==> p in s.rows)
  }

  lemma InitEstablishes(cfg: Config, s: State)
    requires Init(s)
    ensures Inv(cfg, s)
  {
  }

  /** One payment's row, zap and history rewritten, and one actor moved on (or gone). */
  function Touched(s: State, pid: string, p: Payment, zaps: Zaps, h: Hist, a: nat, act: Option<Act>): State {
    State(s.rows[pid := p], zaps, s.hist[pid := h], if act.Some? then s.acts[a := act.value] else s.acts - {a})
  }

  predicate SameZaps(s: State, pid: string, zaps: Zaps) {
    zaps == s.zaps ||
    (pid in s.zaps && zaps.Keys == s.zaps.Keys && zaps[pid].requestEventId == s.zaps[pid].requestEventId
     && forall q :: q in zaps && q != pid ==> zaps[q] == s.zaps[q])
  }

  function At(zaps: Zaps, pid: string): Option<Zap> {
    if pid in zaps then Some(zaps[pid]) else None
  }

  /** The other actors on a payment tolerate its new row, zap and history. */
  predicate OthersOk(cfg: Config, s: State, pid: string, p: Payment, z: Option<Zap>, h: Hist, a: nat, act: Option<Act>) {
    forall b :: b in s.acts && b != a && s.acts[b].pid == pid ==>
      && ActInv(cfg, s.acts[b], p, z, h)
      && (act.Some? ==> !(IsSend(act.value) && IsSend(s.acts[b])) && !(IsReceipt(act.value) && IsReceipt(s.acts[b])))
  }

  lemma TouchRows(rows: Rows, pid: string, p: Payment)
    requires pid in rows && UniqueQuotes(rows)
    requires p.mintQuote == rows[pid].mintQuote || (p.mintQuote.Some? && !QuoteTaken(rows, pid, p.mintQuote.value))
    ensures UniqueQuotes(rows[pid := p])
  {
    var t := rows[pid := p];
    forall x, y | x in t && y in t && x != y && t[x].mintQuote.Some?
      ensures t[x].mintQuote != t[y].mintQuote
    {
      if p.mintQuote != rows[pid].mintQuote {
        assert x == pid ==> rows[y].mintQuote != p.mintQuote;
        assert y == pid ==> rows[x].mintQuote != p.mintQuote;
      }
    }
  }

  lemma TouchPayments(cfg: Config, s: State, pid: string, p: Payment, zaps: Zaps, h: Hist)
    requires PaymentsOk(cfg, s) && pid in s.rows && s.hist.Keys == s.rows.Keys
    requires SameZaps(s, pid, zaps)
    requires PaymentInv(cfg, p, At(zaps, pid), h)
    ensures PaymentsOk(cfg, State(s.rows[pid := p], zaps, s.hist[pid := h], s.acts))
  {
    var t := State(s.rows[pid := p], zaps, s.hist[pid := h], s.acts);
    forall q | q in t.rows && q in t.hist
      ensures PaymentInv(cfg, t.rows[q], ZapOf(t, q), t.hist[q])
    {
      if q != pid {
        assert q in s.rows && q in s.hist;
        assert ZapOf(t, q) == ZapOf(s, q);
      } else {
        assert ZapOf(t, q) == At(zaps, pid);
      }
    }
  }

  lemma TouchAct(cfg: Config, s: State, t: State, pid: string, b: nat)
    requires b in s.acts && ActOk(cfg, s, b) && b in t.acts && t.acts[b] == s.acts[b]
    requires s.acts[b].pid != pid
    requires s.acts[b].pid in t.rows && t.rows[s.acts[b].pid] == s.rows[s.acts[b].pid]
    requires s.acts[b].pid in t.hist && t.hist[s.acts[b].pid] == s.hist[s.acts[b].pid]
    requires SameZaps(s, pid, t.zaps)
    ensures ActOk(cfg, t, b)
  {
    assert ZapOf(t, s.acts[b].pid) == ZapOf(s, s.acts[b].pid);
  }

  lemma TouchExclusive(acts: map<nat, Act>, a: nat, act: Act)
    requires Exclusive(acts)
    requires forall b :: b in acts && b != a && acts[b].pid == act.pid ==>
               !(IsSend(act) && IsSend(acts[b])) && !(IsReceipt(act) && IsReceipt(acts[b]))
    ensures Exclusive(acts[a := act])
  {
  }

  lemma TouchRequests(s: State, pid: string, zaps: Zaps)
    requires UniqueRequests(s.zaps) && SameZaps(s, pid, zaps)
    ensures UniqueRequests(zaps)
  {
    forall p, q | p in zaps && q in zaps && p != q
      ensures zaps[p].requestEventId != zaps[q].requestEventId
    {
      assert zaps[p].requestEventId == s.zaps[p].requestEventId;
      assert zaps[q].requestEventId == s.zaps[q].requestEventId;
    }
  }

  lemma TouchActs(cfg: Config, s: State, pid: string, p: Payment, zaps: Zaps, h: Hist, a: nat, act: Option<Act>, b: nat)
    requires Inv(cfg, s) && pid in s.rows && SameZaps(s, pid, zaps)
    requires act.Some? ==> act.value.pid == pid && ActInv(cfg, act.value, p, At(zaps, pid), h)
    requires OthersOk(cfg, s, pid, p, At(zaps, pid), h, a, act)
    requires b in Touched(s, pid, p, zaps, h, a, act).acts
    ensures ActOk(cfg, Touched(s, pid, p, zaps, h, a, act), b)
  {
    hide PaymentInv, ActInv;
    var t := Touched(s, pid, p, zaps, h, a, act);
    assert ZapOf(t, pid) == At(zaps, pid);
    if b != a || act.None? {
      assert b in s.acts && ActOk(cfg, s, b);
      if s.acts[b].pid != pid {
        TouchAct(cfg, s, t, pid, b);
      }
    }
  }

  lemma FollowsItself(p: Payment, h: Hist)
    ensures Follows(p, h, p, h)
  {
  }

  lemma ExtendsItself(s: State, t: State)
    requires t.rows == s.rows && t.hist == s.hist
    ensures Extends(s, t)
  {
    hide Follows;
    forall q | q in s.rows && q in s.hist { FollowsItself(s.rows[q], s.hist[q]); }
  }

  lemma TouchExtends(s: State, pid: string, p: Payment, zaps: Zaps, h: Hist, a: nat, act: Option<Act>)
    requires pid in s.rows && pid in s.hist && Follows(s.rows[pid], s.hist[pid], p, h)
    ensures Extends(s, Touched(s, pid, p, zaps, h, a, act))
  {
    hide Follows, LegacyTimeout;
    forall q | q in s.rows && q in s.hist { FollowsItself(s.rows[q], s.hist[q]); }
  }

  /** A step on one payment keeps the invariant if it keeps that payment's part of it. */
  lemma Touch(cfg: Config, s: State, pid: string, p: Payment, zaps: Zaps, h: Hist, a: nat, act: Option<Act>)
    requires Inv(cfg, s) && pid in s.rows
    requires p.mintQuote == s.rows[pid].mintQuote || (p.mintQuote.Some? && !QuoteTaken(s.rows, pid, p.mintQuote.value))
    requires SameZaps(s, pid, zaps)
    requires PaymentInv(cfg, p, At(zaps, pid), h)
    requires act.Some? ==> act.value.pid == pid && ActInv(cfg, act.value, p, At(zaps, pid), h)
    requires OthersOk(cfg, s, pid, p, At(zaps, pid), h, a, act)
    requires Follows(s.rows[pid], s.hist[pid], p, h)
    ensures Inv(cfg, Touched(s, pid, p, zaps, h, a, act)) && Extends(s, Touched(s, pid, p, zaps, h, a, act))
  {
    hide PaymentInv, ActInv, Follows, Extends;
    var t := Touched(s, pid, p, zaps, h, a, act);
    TouchRows(s.rows, pid, p);
    TouchPayments(cfg, s, pid, p, zaps, h);
    TouchRequests(s, pid, zaps);
    assert PaymentsOk(cfg, t) by {
      assert forall q :: ZapOf(t, q) == ZapOf(State(s.rows[pid := p], zaps, s.hist[pid := h], s.acts), q);
    }
    forall b | b in t.acts
      ensures ActOk(cfg, t, b)
    {
      TouchActs(cfg, s, pid, p, zaps, h, a, act, b);
    }
    TouchExtends(s, pid, p, zaps, h, a, act);
    if act.Some? {
      TouchExclusive(s.acts, a, act.value);
    }
  }
}
