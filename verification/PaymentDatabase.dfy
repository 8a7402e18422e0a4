/**
 The payment tables as the application updates them: statement by statement, in
 place, with other actors writing between any two statements, each method proved
 against the table functions. The stages of the worker and the zap callback
 update their tables through `Transition`.
 */
module PaymentDatabase {
  import opened Prelude
  import opened PaymentRows

  /** One conditional update by somebody else. */
  datatype Write = Write(pid: string, expected: set<Status>, changes: Changes, now: real)

  function Written(rows: Rows, writes: seq<Write>): Rows
    decreases |writes|
  {
    if writes == [] then rows
    else Written(Swap(rows, writes[0].pid, writes[0].expected, writes[0].changes, writes[0].now), writes[1..])
  }

  lemma {:induction false} WrittenKeys(rows: Rows, writes: seq<Write>)
    ensures Written(rows, writes).Keys == rows.Keys
    decreases |writes|
  {
    hide Apply;
    if writes != [] {
      WrittenKeys(Swap(rows, writes[0].pid, writes[0].expected, writes[0].changes, writes[0].now), writes[1..]);
    }
  }

  datatype Audit = Audit(pid: string, operator: string, reason: string, before: Payment, after: Payment)

  datatype CloseRequest = CloseRequest(handle: string, amountSat: nat, operator: string, reason: string, confirmed: bool)

  datatype CloseReply = NotFound | Mismatch | NotClosable | DryRun | ChangedConcurrently | Closed

  /** The source statuses in the order they are updated. */
  function Source(i: nat): Status {
    if i == 0 then WorkerQuoteCreating else if i == 1 then Delivering else ReceiptPublishing
  }

  function SourcesBefore(i: nat): set<Status> { set k | 0 <= k < i :: Source(k) }

  function Stale(rows: Rows, source: Status, cutoff: real): set<string> {
    set pid | pid in rows && rows[pid].status == source && rows[pid].updatedAt < cutoff
  }

  /** The rows after quarantining the given source statuses. */
  function QuarantinedFrom(rows: Rows, sources: set<Status>, cutoff: real, now: real): Rows {
    map pid | pid in rows :: if rows[pid].status in sources then QuarantineRow(rows[pid], cutoff, now) else rows[pid]
  }

  lemma QuarantinedNothing(rows: Rows, cutoff: real, now: real)
    ensures SourcesBefore(0) == {} && QuarantinedFrom(rows, {}, cutoff, now) == rows
  {
  }

  lemma QuarantinedAll(rows: Rows, sources: set<Status>, cutoff: real, now: real)
    requires sources == SourcesBefore(3)
    ensures sources == {WorkerQuoteCreating, Delivering, ReceiptPublishing}
    ensures QuarantinedFrom(rows, sources, cutoff, now) == QuarantineAll(rows, cutoff, now)
  {
    assert Source(0) in sources && Source(1) in sources && Source(2) in sources;
  }

  /** Quarantine targets are not sources, so a further source sees its rows untouched. */
  lemma QuarantinedOneMore(rows: Rows, i: nat, cutoff: real, now: real)
    requires i < 3
    ensures SourcesBefore(i + 1) == SourcesBefore(i) + {Source(i)}
    ensures QuarantineTarget(Source(i)).Some?
    ensures var done, source := SourcesBefore(i), Source(i);
            var q := QuarantinedFrom(rows, done, cutoff, now);
            && QuarantinedFrom(q, {source}, cutoff, now) == QuarantinedFrom(rows, SourcesBefore(i + 1), cutoff, now)
            && Stale(q, source, cutoff) == Stale(rows, source, cutoff)
  {
    assert SourcesBefore(i + 1) == SourcesBefore(i) + {Source(i)};
  }

  class Tables {
    var rows: Rows
    var zaps: Zaps
    var audits: seq<Audit>

    constructor (rows: Rows, zaps: Zaps)
      ensures this.rows == rows && this.zaps == zaps && audits == []
    {
      this.rows, this.zaps, audits := rows, zaps, [];
    }

    /** `transition_provider_payment`: the refreshed row, or nothing when the swap missed. */
    method Transition(pid: string, expected: set<Status>, c: Changes, now: real) returns (r: Result<Option<Payment>>)
      modifies this`rows
      ensures r.Err? <==> expected == {}
      ensures rows == Swap(old(rows), pid, expected, c, now)
      ensures r.Ok? ==> r.value == if Hits(old(rows), pid, expected) then Some(rows[pid]) else None
    {
      if expected == {} { return Err("At least one expected provider-payment status is required"); }
      if pid in rows && rows[pid].status in expected {
        rows := rows[pid := Apply(rows[pid], c, now)];
        return Ok(Some(rows[pid]));
      }
      return Ok(None);
    }

    method Interfere(writes: seq<Write>)
      modifies this`rows
      ensures rows == Written(old(rows), writes)
    {
      ghost var start := rows;
      for i := 0 to |writes|
        invariant Written(rows, writes[i..]) == Written(start, writes)
      {
        rows := Swap(rows, writes[i].pid, writes[i].expected, writes[i].changes, writes[i].now);
        assert writes[i..][1..] == writes[i + 1..];
      }
    }

    /** One UPDATE ... WHERE status = source AND updated_at < cutoff. */
    method QuarantineSource(source: Status, cutoff: real, now: real) returns (hit: nat)
      requires QuarantineTarget(source).Some?
      modifies this`rows
      ensures rows == QuarantinedFrom(old(rows), {source}, cutoff, now)
      ensures hit == |Stale(old(rows), source, cutoff)|
    {
      var (target, error) := QuarantineTarget(source).value;
      hit := |Stale(rows, source, cutoff)|;
      rows := map pid | pid in rows ::
        if rows[pid].status == source && rows[pid].updatedAt < cutoff
        then rows[pid].(status := target, error := Some(error), nextCheckAt := None, updatedAt := now)
        else rows[pid];
    }

    /** `quarantine_abandoned_provider_claims`: one UPDATE per source status, one commit. */
    method Quarantine(cutoff: real, now: real) returns (recovered: map<Status, nat>)
      modifies this`rows
      ensures rows == QuarantineAll(old(rows), cutoff, now)
      ensures recovered.Keys == {WorkerQuoteCreating, Delivering, ReceiptPublishing}
      ensures forall source :: source in recovered ==> recovered[source] == |Stale(old(rows), source, cutoff)|
    {
      hide Stale, QuarantinedFrom, QuarantineAll;
      recovered := map[];
      QuarantinedNothing(rows, cutoff, now);
      assert recovered.Keys == {};
      for i := 0 to 3
        invariant rows == QuarantinedFrom(old(rows), SourcesBefore(i), cutoff, now)
        invariant recovered.Keys == SourcesBefore(i)
        invariant forall source :: source in recovered ==> recovered[source] == |Stale(old(rows), source, cutoff)|
      {
        var source := Source(i);
        QuarantinedOneMore(old(rows), i, cutoff, now);
        var hit := QuarantineSource(source, cutoff, now);
        recovered := recovered[source := hit];
      }
      QuarantinedAll(old(rows), SourcesBefore(3), cutoff, now);
    }

    /**
     `reconcile_legacy_settlement_timeouts`. The rows are selected, and after whatever others write
     in between they are written by primary key, each counted.
     */
    method ReconcileLegacy(between: seq<Write>, now: real) returns (recovered: nat)
      modifies this`rows
      ensures rows == ReviveAll(Written(old(rows), between), LegacyRows(old(rows)), now)
      ensures recovered == |LegacyRows(old(rows))|
    {
      recovered := 0;
      var selected := LegacyRows(rows);
      WrittenKeys(rows, between);
      Interfere(between);
      ghost var found := rows;
      var left := selected;
      while left != {}
        invariant left <= selected && rows.Keys == found.Keys && recovered + |left| == |selected|
        invariant rows == ReviveAll(found, selected - left, now)
        decreases |left|
      {
        var pid :| pid in left;
        left := left - {pid};
        rows := rows[pid := rows[pid].(status := SettlementUnconfirmed, error := Some(UNCONFIRMED),
                                       nextCheckAt := Some(now), updatedAt := now)];
        recovered := recovered + 1;
      }
      assert selected - {} == selected;
    }

    /**
     `close_payment`. Whatever others write between the inspection and the guarded
     UPDATE, exactly the inspected DELIVERY_FAILED row is closed, with one audit
     entry; in every other outcome neither this payment nor the audit log is touched.
     */
    method Close(pid: string, request: CloseRequest, between: seq<Write>, now: real) returns (reply: CloseReply)
      modifies this`rows, this`audits
      ensures reply.NotFound? <==> pid !in old(rows)
      ensures reply.Closed? ==>
                var seen, w := old(rows)[pid], Written(old(rows), between);
                && pid in w && Closable(w[pid], seen, request.handle, request.amountSat) && request.confirmed
                && rows == w[pid := CloseRow(w[pid], now)] && rows[pid].error == w[pid].error
                && audits == old(audits) + [Audit(pid, request.operator, request.reason, seen, seen.(status := Failed))]
      ensures !reply.Closed? ==> audits == old(audits)
      ensures reply.ChangedConcurrently? ==>
                var w := Written(old(rows), between);
                rows == w && !(pid in w && Closable(w[pid], old(rows)[pid], request.handle, request.amountSat))
      ensures reply.Mismatch? || reply.NotClosable? || reply.DryRun? || reply.NotFound? ==> rows == old(rows)
      ensures reply.DryRun? ==>
                !request.confirmed && Closable(rows[pid], rows[pid], request.handle, request.amountSat)
    {
      if pid !in rows { return NotFound; }
      var payment := rows[pid];
      if payment.handle != request.handle || payment.amountSat != request.amountSat { return Mismatch; }
      if payment.status != DeliveryFailed || payment.deliveryEventId.Some? { return NotClosable; }
      if !request.confirmed { return DryRun; }
      Interfere(between);
      if !(pid in rows && Closable(rows[pid], payment, request.handle, request.amountSat)) { return ChangedConcurrently; }
      rows := rows[pid := rows[pid].(status := Failed, nextCheckAt := None, updatedAt := now)];
      audits := audits + [Audit(pid, request.operator, request.reason, payment, payment.(status := Failed))];
      return Closed;
    }
  }
}
