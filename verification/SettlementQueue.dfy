/** The two SELECT ... ORDER BY ... LIMIT statements that decide what the worker looks at next. */
module SettlementQueue {
  import opened Prelude
  import opened PaymentRows
  import opened PaymentMachine

  /** ORDER BY (next_check_at IS NULL first), next_check_at, id. */
  predicate Earlier(p: Payment, q: Payment) {
    match (p.nextCheckAt, q.nextCheckAt)
    case (None, Some(_)) => true
    case (Some(_), None) => false
    case (None, None) => p.id < q.id
    case (Some(x), Some(y)) => x < y || (x == y && p.id < q.id)
  }

  /** ORDER BY (attempts = 0 first), then as above. */
  predicate Sooner(p: Payment, q: Payment) {
    if (p.attempts == 0) != (q.attempts == 0) then p.attempts == 0 else Earlier(p, q)
  }

  predicate DueInvoice(p: Payment, now: real) { Unsettled(p) && DueAt(p, now) }

  function DueInvoices(rows: Rows, now: real): set<string> {
    set pid | pid in rows && DueInvoice(rows[pid], now)
  }

  lemma SoonerIsTransitive(p: Payment, q: Payment, r: Payment)
    ensures !Sooner(q, p) && !Sooner(r, q) ==> !Sooner(r, p)
  {
  }

  /** Checked at once if there is no date, and otherwise on it or later. */
  lemma DueMeans(p: Payment, now: real)
    ensures DueAt(p, now) <==> p.nextCheckAt.None? || now - p.nextCheckAt.value >= 0.0
    ensures DueInvoice(p, now) <==> DueAt(p, now) && p.status in {InvoicePending, SettlementUnconfirmed}
  {
  }

  /** Rows without a date first, then by date; among equals the older row. */
  predicate InQueueOrder(p: Payment, q: Payment) {
    && (q.nextCheckAt.None? ==> p.nextCheckAt.None?)
    && (p.nextCheckAt.Some? && q.nextCheckAt.Some? ==> p.nextCheckAt.value <= q.nextCheckAt.value)
    && (p.nextCheckAt == q.nextCheckAt ==> p.id <= q.id)
  }

  lemma EarlierMeans(p: Payment, q: Payment)
    ensures !Earlier(q, p) <==> InQueueOrder(p, q)
  {
  }

  /** `next_provider_payment`: the due row of one status that no other due row precedes. */
  method NextPayment(rows: Rows, status: Status, now: real) returns (next: Option<string>)
    ensures next.None? <==> forall q :: q in rows ==> !(rows[q].status == status && DueAt(rows[q], now))
    ensures next.Some? ==>
              && next.value in rows && rows[next.value].status == status && DueAt(rows[next.value], now)
              && forall q :: q in rows && rows[q].status == status && DueAt(rows[q], now) ==>
                   !Earlier(rows[q], rows[next.value]) && InQueueOrder(rows[next.value], rows[q])
  {
    next := None;
    var left := rows.Keys;
    while left != {}
      invariant left <= rows.Keys
      invariant next.None? ==>
                  forall q :: q in rows && q !in left ==> !(rows[q].status == status && DueAt(rows[q], now))
      invariant next.Some? ==>
                  && next.value in rows && rows[next.value].status == status && DueAt(rows[next.value], now)
                  && forall q :: q in rows && q !in left && rows[q].status == status && DueAt(rows[q], now) ==>
                       !Earlier(rows[q], rows[next.value]) && InQueueOrder(rows[next.value], rows[q])
      decreases |left|
    {
      var q :| q in left;
      left := left - {q};
      if rows[q].status == status && DueAt(rows[q], now) && (next.None? || Earlier(rows[q], rows[next.value])) {
        next := Some(q);
      }
    }
  }

  /** The soonest of a non-empty set of rows. */
  method Soonest(rows: Rows, among: set<string>) returns (best: string)
    requires among != {} && among <= rows.Keys
    ensures best in among && forall q :: q in among ==> !Sooner(rows[q], rows[best])
  {
    best :| best in among;
    var left := among - {best};
    while left != {}
      invariant left <= among && best in among
      invariant forall q :: q in among && q !in left ==> !Sooner(rows[q], rows[best])
      decreases |left|
    {
      var q :| q in left;
      left := left - {q};
      if Sooner(rows[q], rows[best]) {
        forall r | r in among && r !in left
          ensures !Sooner(rows[r], rows[q])
        {
          SoonerIsTransitive(rows[q], rows[best], rows[r]);
        }
        best := q;
      }
    }
  }

  /** A batch in queue order: every member due, nobody due and left out comes before a member. */
  predicate IsBatch(rows: Rows, now: real, batch: seq<string>) {
    && (forall i :: 0 <= i < |batch| ==> batch[i] in DueInvoices(rows, now))
    && (forall i, j :: 0 <= i < j < |batch| ==> batch[i] != batch[j] && !Sooner(rows[batch[j]], rows[batch[i]]))
    && (forall i, q :: 0 <= i < |batch| && q in DueInvoices(rows, now) && q !in batch ==>
          !Sooner(rows[q], rows[batch[i]]))
  }

  /** So a batch takes the invoices never checked first, and within each half those due longest. */
  lemma BatchIsInOrder(rows: Rows, now: real, batch: seq<string>, i: nat, j: nat)
    requires IsBatch(rows, now, batch) && i < j < |batch|
    ensures batch[i] in rows && batch[j] in rows
    ensures rows[batch[j]].attempts == 0 ==> rows[batch[i]].attempts == 0
    ensures (rows[batch[i]].attempts == 0 <==> rows[batch[j]].attempts == 0) ==> InQueueOrder(rows[batch[i]], rows[batch[j]])
  {
    assert batch[i] in DueInvoices(rows, now) && batch[j] in DueInvoices(rows, now);
    EarlierMeans(rows[batch[i]], rows[batch[j]]);
  }

  /** `due_provider_settlements`. */
  method DueSettlements(rows: Rows, now: real, limit: int) returns (batch: seq<string>)
    ensures IsBatch(rows, now, batch)
    ensures |batch| == Min(Max(1, limit), |DueInvoices(rows, now)|)
  {
    batch := [];
    var left := DueInvoices(rows, now);
    while left != {} && |batch| < Max(1, limit)
      invariant left <= DueInvoices(rows, now)
      invariant forall q :: q in DueInvoices(rows, now) ==> (q in left <==> q !in batch)
      invariant |batch| + |left| == |DueInvoices(rows, now)| && |batch| <= Max(1, limit)
      invariant IsBatch(rows, now, batch)
      decreases |left|
    {
      var best := Soonest(rows, left);
      left := left - {best};
      batch := batch + [best];
    }
  }

  /**
   Fresh invoices come first: while a due invoice that was never checked is left
   out of a batch, the batch takes nobody's retry.
   */
  lemma FirstChecksComeFirst(rows: Rows, now: real, batch: seq<string>, first: string, retried: string)
    requires IsBatch(rows, now, batch)
    requires first in DueInvoices(rows, now) && rows[first].attempts == 0 && first !in batch
    ensures retried in batch ==> rows[retried].attempts == 0
  {
    if retried in batch {
      var i :| 0 <= i < |batch| && batch[i] == retried;
      assert !Sooner(rows[first], rows[batch[i]]);
    }
  }
}
