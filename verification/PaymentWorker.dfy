/**
 The stages of `process_provider_payments_once` as code, with everybody else's
 steps between any two of its statements. Each stage is proved to be a run of the
 machine, so the results over runs hold of the worker.
 */
module PaymentWorker {
  import opened Prelude
  import opened PaymentDatabase
  import opened PaymentRows
  import opened PaymentMachine
  import opened PaymentSafety
  import opened PaymentSteps
  import opened SettlementQueue

  /** What an external call eventually does. */
  datatype QuoteReply = Quoted(quote: string, invoice: string) | QuoteRaised(kind: string)
  datatype SendReply = SendReply(outcome: Outcome, eventId: Option<string>, raised: bool, kind: string, detail: string)
  datatype PublishReply = PublishedAs(eventId: string) | PublishRaised(kind: string)

  function ActorOf(st: Step): Option<nat> {
    match st
    case Enqueue(_, _, _, _, _, _, _, _) => None
    case Quarantine(_, _) => None
    case Reconcile(_) => None
    case Close(_, _, _, _, _) => None
    case Persist(_, _) => None
    case _ => Some(st.act)
  }

  predicate Foreign(steps: seq<Step>, me: nat) {
    forall i :: 0 <= i < |steps| ==> ActorOf(steps[i]) != Some(me)
  }

  lemma ForeignEarly(cfg: Config, s: State, st: Step, me: nat)
    requires ActorOf(st) != Some(me) && BeforeDelivery(st)
    ensures me in Next(cfg, s, st).acts <==> me in s.acts
    ensures me in s.acts ==> Next(cfg, s, st).acts[me] == s.acts[me]
  {
    hide Apply, StoreQuote, FailQuote, PollChanges, MintChanges, RequestTaken, QuoteTaken, DueAt, Swap;
  }

  lemma ForeignLate(cfg: Config, s: State, st: Step, me: nat)
    requires ActorOf(st) != Some(me) && !BeforeDelivery(st)
    ensures me in Next(cfg, s, st).acts <==> me in s.acts
    ensures me in s.acts ==> Next(cfg, s, st).acts[me] == s.acts[me]
  {
    hide Apply, DeliveryChanges, ClaimSendChanges, Swap, Closable, CloseRow, QuarantineAll, ReviveAll, PersistAll, LegacyRows;
  }

  lemma ForeignStep(cfg: Config, s: State, st: Step, me: nat)
    requires ActorOf(st) != Some(me)
    ensures me in Next(cfg, s, st).acts <==> me in s.acts
    ensures me in s.acts ==> Next(cfg, s, st).acts[me] == s.acts[me]
  {
    hide Next, BeforeDelivery, ActorOf;
    if BeforeDelivery(st) { ForeignEarly(cfg, s, st, me); } else { ForeignLate(cfg, s, st, me); }
  }

  lemma {:induction false} ForeignRun(cfg: Config, s: State, steps: seq<Step>, me: nat)
    requires Foreign(steps, me)
    ensures me in Run(cfg, s, steps).acts <==> me in s.acts
    ensures me in s.acts ==> Run(cfg, s, steps).acts[me] == s.acts[me]
    decreases |steps|
  {
    hide Next;
    if steps != [] {
      ForeignStep(cfg, s, steps[0], me);
      ForeignRun(cfg, Next(cfg, s, steps[0]), steps[1..], me);
    }
  }

  lemma {:induction false} RunOne(cfg: Config, s: State, trace: seq<Step>, st: Step)
    ensures Run(cfg, s, trace + [st]) == Next(cfg, Run(cfg, s, trace), st)
  {
    hide Next;
    RunAppends(cfg, s, trace, [st]);
    assert [st][1..] == [];
    assert Run(cfg, Next(cfg, Run(cfg, s, trace), st), []) == Next(cfg, Run(cfg, s, trace), st);
  }

  class Worker {
    const cfg: Config
    const me: nat
    const db: Tables
    var hist: map<string, Hist>
    var acts: map<nat, Act>
    ghost var start: State
    ghost var trace: seq<Step>

    function World(): State
      reads this, db
    {
      State(db.rows, db.zaps, hist, acts)
    }

    /** The tables are where the steps taken so far have brought them, and satisfy the invariant. */
    ghost predicate Valid()
      reads this, db
    {
      Inv(cfg, start) && World() == Run(cfg, start, trace) && Inv(cfg, World())
    }

    constructor (cfg: Config, me: nat, s: State)
      requires Inv(cfg, s)
      ensures Valid() && fresh(db) && this.cfg == cfg && this.me == me && World() == s && start == s && trace == []
    {
      var tables := new Tables(s.rows, s.zaps);
      this.cfg, this.me, db := cfg, me, tables;
      hist, acts := s.hist, s.acts;
      start, trace := s, [];
    }

    /** Other actors act; this one's own activity is not theirs to change. */
    method Others(steps: seq<Step>)
      requires Valid() && Foreign(steps, me)
      modifies db`rows, db`zaps, this`hist, this`acts, this`trace
      ensures Valid() && trace == old(trace) + steps && World() == Run(cfg, old(World()), steps)
      ensures me in acts <==> me in old(acts)
      ensures me in acts ==> acts[me] == old(acts[me])
    {
      hide Inv, Next;
      ForeignRun(cfg, World(), steps, me);
      RunAppends(cfg, start, trace, steps);
      RunIsGood(cfg, World(), steps);
      var after := Run(cfg, World(), steps);
      db.rows, db.zaps, hist, acts := after.rows, after.zaps, after.hist, after.acts;
      trace := trace + steps;
    }

    /** Books the statement just executed as one step of the machine. */
    ghost method Book(st: Step, before: State)
      requires Inv(cfg, start) && before == Run(cfg, start, trace) && Inv(cfg, before)
      requires World() == Next(cfg, before, st)
      modifies this`trace
      ensures Valid() && trace == old(trace) + [st]
    {
      hide Inv, Next;
      RunOne(cfg, start, trace, st);
      NextIsGood(cfg, before, st);
      trace := trace + [st];
    }

    // ---- delivery, statement by statement ----

    method SelectCandidate(now: real) returns (candidate: Option<string>)
      requires Valid() && me !in acts
      modifies this`acts, this`trace
      ensures Valid()
      ensures candidate.None? ==> World() == old(World()) && trace == old(trace)
      ensures candidate.Some? ==> me in acts && acts[me].SettledSeen? && acts[me].pid == candidate.value
      ensures candidate.Some? ==> trace == old(trace) + [SelectSettled(me, candidate.value, now)]
    {
      candidate := NextPayment(db.rows, Settled, now);
      if candidate.None? { return; }
      var pid := candidate.value;
      KeysMatch(cfg, World());
      hide Inv, Next;
      ghost var before := World();
      SelectIs(cfg, before, me, pid, now);
      acts := acts[me := SettledSeen(pid, db.rows[pid], hist[pid].claims)];
      Book(SelectSettled(me, pid, now), before);
    }

    /** The claim: a swap on the status alone, writing the attempt count of the row selected earlier. */
    method SwapToDelivering(now: real) returns (claimed: bool)
      requires Valid() && me in acts && acts[me].SettledSeen?
      modifies db`rows, this`hist, this`acts, this`trace
      ensures Valid() && trace == old(trace) + [ClaimSend(me, now)]
      ensures claimed <==> Hits(old(db.rows), old(acts)[me].pid, {Settled})
      ensures claimed ==> me in acts && acts[me] == SendClaimed(old(acts)[me].pid, old(acts)[me].seen.deliveryAttempts + 1)
      ensures !claimed ==> db.rows == old(db.rows) && me !in acts
    {
      hide Inv, Swap;
      ghost var before := World();
      OwnPayment(cfg, before, me);
      var mine := acts[me];
      var pid, h := mine.pid, hist[mine.pid];
      var r := db.Transition(pid, {Settled}, Changes(status := Set(Delivering), nextCheckAt := Set(None),
                                                     deliveryAttempts := Set(mine.seen.deliveryAttempts + 1)), now);
      claimed := r.Ok? && r.value.Some?;
      if claimed {
        hist := hist[pid := h.(claims := h.claims + 1,
                               staleClaims := h.staleClaims + if mine.seenClaims < h.claims then 1 else 0)];
        acts := acts[me := SendClaimed(pid, mine.seen.deliveryAttempts + 1)];
      } else {
        acts := acts - {me};
      }
      SwapMisses(before.rows, pid, {Settled}, ClaimSendChanges(mine.seen), now);
      assert World() == Next(cfg, before, ClaimSend(me, now));
      Book(ClaimSend(me, now), before);
    }

    /** The claimed row is read again after the commit; by then others may have quarantined or closed it. */
    method ReadBack(others: seq<Step>) returns (attempt: nat)
      requires Valid() && me in acts && acts[me].SendClaimed? && Foreign(others, me)
      modifies db`rows, db`zaps, this`hist, this`acts, this`trace
      ensures Valid() && trace == old(trace) + others
      ensures me in acts && acts[me] == old(acts)[me] && attempt == acts[me].attempt
    {
      hide Foreign, Run, Next;
      Others(others);
      OwnAttempt(cfg, World(), me);
      attempt := db.rows[acts[me].pid].deliveryAttempts;
    }

    method CallSend()
      requires Valid() && me in acts && acts[me].SendClaimed?
      modifies this`hist, this`acts, this`trace
      ensures Valid() && trace == old(trace) + [StartSend(me)]
      ensures me in acts && acts[me].Sending? && acts[me].pid == old(acts)[me].pid
      ensures acts[me].attempt == old(acts)[me].attempt
    {
      hide Inv, Next;
      ghost var before := World();
      OwnPayment(cfg, before, me);
      var mine := acts[me];
      var h := hist[mine.pid];
      acts := acts[me := Sending(mine.pid, mine.attempt, |h.sends|)];
      hist := hist[mine.pid := h.(sends := h.sends + [Unreported])];
      StartSendIs(cfg, before, me);
      Book(StartSend(me), before);
    }

    method SendReports(outcome: Outcome)
      requires Valid() && me in acts && acts[me].Sending? && !outcome.Unreported?
      modifies this`hist, this`acts, this`trace
      ensures Valid() && trace == old(trace) + [SendReturns(me, outcome)]
      ensures me in acts && acts[me] == SendReturned(old(acts)[me].pid, old(acts)[me].attempt, old(acts)[me].k)
      ensures acts[me].pid in hist && acts[me].k < |hist[acts[me].pid].sends| && hist[acts[me].pid].sends[acts[me].k] == outcome
    {
      ghost var before := World();
      hide Inv, Next;
      OwnSend(cfg, before, me);
      var mine := acts[me];
      var h := hist[mine.pid];
      hist := hist[mine.pid := h.(sends := h.sends[mine.k := outcome])];
      acts := acts[me := SendReturned(mine.pid, mine.attempt, mine.k)];
      SendReturnsIs(cfg, before, me, outcome);
      Book(SendReturns(me, outcome), before);
    }

    /** The try/except around the send: which status, error and next check the outcome earns. */
    method Earned(attempt: nat, hasZap: bool, reply: SendReply, now: real) returns (c: Changes, retryDelay: real)
      requires !reply.outcome.Unreported?
      ensures c == DeliveryChanges(cfg, attempt, reply.outcome, hasZap, reply.raised, reply.eventId, reply.kind, reply.detail, now)
      ensures c.status == Set(Settled) ==> retryDelay == RetryDelay(cfg, attempt)
    {
      hide RetryText, ExhaustedText, ReviewText, Pow2;
      retryDelay := 0.0;
      if reply.outcome == Success && !reply.raised {
        c := Changes(status := Set(if hasZap then ReceiptPending else Delivered),
                     deliveryEventId := Set(reply.eventId), error := Set(None), nextCheckAt := Set(None));
      } else if reply.outcome == Retryable && attempt < Max(1, cfg.retryAttempts) {
        retryDelay := MinR(cfg.retryMax, cfg.retryBase * Pow2(Max(0, attempt - 1)));
        c := Changes(status := Set(Settled), error := Set(Some(RetryText(reply.kind, reply.detail))),
                     nextCheckAt := Set(Some(now + retryDelay)));
      } else if reply.outcome == Retryable {
        c := Changes(status := Set(DeliveryFailed), error := Set(Some(ExhaustedText(reply.kind, reply.detail))),
                     nextCheckAt := Set(None));
      } else {
        c := Changes(status := Set(DeliveryFailed), error := Set(Some(ReviewText(reply.kind, reply.detail))),
                     nextCheckAt := Set(None));
      }
    }

    /** What the outcome earned is written, if the row is still being delivered. */
    method RecordDelivery(attempt: nat, reply: SendReply, now: real)
      requires Valid() && me in acts && acts[me].SendReturned? && attempt == acts[me].attempt
      requires acts[me].pid in hist && acts[me].k < |hist[acts[me].pid].sends|
      requires hist[acts[me].pid].sends[acts[me].k] == reply.outcome && !reply.outcome.Unreported?
      modifies db`rows, this`hist, this`acts, this`trace
      ensures Valid()
      ensures trace == old(trace) + [FinishSend(me, reply.eventId, reply.raised, reply.kind, reply.detail, now)]
    {
      hide Inv, Next, DeliveryChanges, RetryDelay;
      ghost var before := World();
      OwnPayment(cfg, before, me);
      var mine := acts[me];
      var pid := mine.pid;
      acts := acts - {me};
      var c, retryDelay := Earned(attempt, pid in db.zaps, reply, now);
      var r := db.Transition(pid, {Delivering}, c, now);
      if r.Ok? && r.value.Some? && c.status == Set(Settled) {
        hist := hist[pid := hist[pid].(delay := hist[pid].delay + retryDelay)];
      }
      RecordMatches(cfg, before, World(), me, reply, c, now);
      Book(FinishSend(me, reply.eventId, reply.raised, reply.kind, reply.detail, now), before);
    }

    function Claiming(pid: string, between: seq<Step>, now: real): seq<Step> {
      [SelectSettled(me, pid, now)] + between + [ClaimSend(me, now)]
    }

    function Calling(before: seq<Step>, during: seq<Step>): seq<Step> {
      before + [StartSend(me)] + during
    }

    function Reported(reply: SendReply, between: seq<Step>, now: real): seq<Step> {
      if reply.outcome.Unreported? then []
      else [SendReturns(me, reply.outcome)] + between
           + [FinishSend(me, reply.eventId, reply.raised, reply.kind, reply.detail, now)]
    }

    method ClaimStage(others: seq<Step>, now: real) returns (claimed: bool, ghost pid: string)
      requires Valid() && me !in acts && Foreign(others, me)
      modifies db`rows, db`zaps, this`hist, this`acts, this`trace
      ensures Valid()
      ensures !claimed ==> me !in acts && (trace == old(trace) || trace == old(trace) + Claiming(pid, others, now))
      ensures claimed ==> me in acts && acts[me].SendClaimed? && trace == old(trace) + Claiming(pid, others, now)
    {
      hide Valid, Foreign;
      var candidate := SelectCandidate(now);
      if candidate.None? { return false, ""; }
      pid := candidate.value;
      Others(others);
      claimed := SwapToDelivering(now);
      assert trace == old(trace) + Claiming(pid, others, now);
    }

    method SendStage(attempt: nat, before: seq<Step>, during: seq<Step>, after: seq<Step>, reply: SendReply, now: real)
      requires Valid() && me in acts && acts[me].SendClaimed? && attempt == acts[me].attempt
      requires Foreign(before, me) && Foreign(during, me) && Foreign(after, me)
      modifies db`rows, db`zaps, this`hist, this`acts, this`trace
      ensures Valid() && trace == old(trace) + Calling(before, during) + Reported(reply, after, now)
    {
      hide Valid, Foreign;
      Others(before);
      CallSend();
      Others(during);
      assert trace == old(trace) + Calling(before, during);
      if !reply.outcome.Unreported? {
        SendReports(reply.outcome);
        OthersWhileReturned(after, reply.outcome);
        RecordDelivery(attempt, reply, now);
        assert trace == old(trace) + Calling(before, during) + Reported(reply, after, now);
      }
    }

    /**
     The delivery stage. Whatever others do between its statements, it is a run of
     the machine: select, claim, and - if the claim hit - send once and record. A
     send that never reports leaves the row as the claim left it.
     */
    method DeliverOnce(others: seq<seq<Step>>, reply: SendReply, now: real) returns (changed: bool, ghost pid: string)
      requires Valid() && me !in acts && |others| == 5 && forall i :: 0 <= i < 5 ==> Foreign(others[i], me)
      modifies db`rows, db`zaps, this`hist, this`acts, this`trace
      ensures Valid()
      ensures !changed ==> trace == old(trace) || trace == old(trace) + Claiming(pid, others[0], now)
      ensures changed ==>
                trace == old(trace) + Claiming(pid, others[0], now) + others[1]
                         + Calling(others[2], others[3]) + Reported(reply, others[4], now)
    {
      changed, pid := ClaimStage(others[0], now);
      if changed {
        var attempt := ReadBack(others[1]);
        SendStage(attempt, others[2], others[3], others[4], reply, now);
      }
    }

    method OthersWhileReturned(steps: seq<Step>, outcome: Outcome)
      requires Valid() && Foreign(steps, me) && me in acts && acts[me].SendReturned? && !outcome.Unreported?
      requires acts[me].pid in hist && acts[me].k < |hist[acts[me].pid].sends|
      requires hist[acts[me].pid].sends[acts[me].k] == outcome
      modifies db`rows, db`zaps, this`hist, this`acts, this`trace
      ensures Valid() && trace == old(trace) + steps && me in acts && acts[me] == old(acts)[me]
      ensures acts[me].pid in hist && acts[me].k < |hist[acts[me].pid].sends|
      ensures hist[acts[me].pid].sends[acts[me].k] == outcome
    {
      ghost var before := World();
      ReportsLast(cfg, before, steps, me);
      hide Inv, Next;
      Others(steps);
    }
  }

  /** A reported outcome is still there after others have acted. */
  lemma {:induction false} ReportsLast(cfg: Config, s: State, steps: seq<Step>, me: nat)
    requires Inv(cfg, s) && me in s.acts && s.acts[me].SendReturned?
    requires s.acts[me].pid in s.hist && s.acts[me].k < |s.hist[s.acts[me].pid].sends|
    requires !s.hist[s.acts[me].pid].sends[s.acts[me].k].Unreported?
    ensures var pid, k, t := s.acts[me].pid, s.acts[me].k, Run(cfg, s, steps);
            pid in t.hist && k < |t.hist[pid].sends| && t.hist[pid].sends[k] == s.hist[pid].sends[k]
  {
    KeysMatch(cfg, s);
    RunIsGood(cfg, s, steps);
    hide Inv;
    assert Follows(s.rows[s.acts[me].pid], s.hist[s.acts[me].pid],
                   Run(cfg, s, steps).rows[s.acts[me].pid], Run(cfg, s, steps).hist[s.acts[me].pid]);
  }

  lemma OwnSend(cfg: Config, s: State, a: nat)
    requires Inv(cfg, s) && a in s.acts && s.acts[a].Sending?
    ensures Holds(s, a) && s.acts[a].k < |s.hist[s.acts[a].pid].sends|
  {
    assert ActOk(cfg, s, a);
  }

  lemma SelectIs(cfg: Config, s: State, a: nat, pid: string, now: real)
    requires Fresh(s, a, pid) && s.rows[pid].status == Settled && DueAt(s.rows[pid], now)
    ensures Next(cfg, s, SelectSettled(a, pid, now))
            == State(s.rows, s.zaps, s.hist, s.acts[a := SettledSeen(pid, s.rows[pid], s.hist[pid].claims)])
  {
  }

  lemma StartSendIs(cfg: Config, s: State, a: nat)
    requires Holds(s, a) && s.acts[a].SendClaimed?
    ensures var mine := s.acts[a];
            var h := s.hist[mine.pid];
            Next(cfg, s, StartSend(a))
            == State(s.rows, s.zaps, s.hist[mine.pid := h.(sends := h.sends + [Unreported])],
                     s.acts[a := Sending(mine.pid, mine.attempt, |h.sends|)])
  {
  }

  lemma SendReturnsIs(cfg: Config, s: State, a: nat, outcome: Outcome)
    requires Holds(s, a) && s.acts[a].Sending? && s.acts[a].k < |s.hist[s.acts[a].pid].sends| && !outcome.Unreported?
    ensures var mine := s.acts[a];
            var h := s.hist[mine.pid];
            Next(cfg, s, SendReturns(a, outcome))
            == State(s.rows, s.zaps, s.hist[mine.pid := h.(sends := h.sends[mine.k := outcome])],
                     s.acts[a := SendReturned(mine.pid, mine.attempt, mine.k)])
  {
  }

  /** What the branches of the code pass to the update is what the specification writes. */
  lemma RecordMatches(cfg: Config, s: State, t: State, me: nat, reply: SendReply, c: Changes, now: real)
    requires Holds(s, me) && s.acts[me].SendReturned? && s.acts[me].k < |s.hist[s.acts[me].pid].sends|
    requires s.hist[s.acts[me].pid].sends[s.acts[me].k] == reply.outcome && !reply.outcome.Unreported?
    requires t.zaps == s.zaps && t.acts == s.acts - {me}
    requires
      var pid, attempt := s.acts[me].pid, s.acts[me].attempt;
      && c == DeliveryChanges(cfg, attempt, reply.outcome, pid in s.zaps, reply.raised, reply.eventId, reply.kind, reply.detail, now)
      && t.rows == Swap(s.rows, pid, {Delivering}, c, now)
      && t.hist == if Hits(s.rows, pid, {Delivering}) && c.status == Set(Settled)
                   then s.hist[pid := s.hist[pid].(delay := s.hist[pid].delay + RetryDelay(cfg, attempt))] else s.hist
    ensures t == Next(cfg, s, FinishSend(me, reply.eventId, reply.raised, reply.kind, reply.detail, now))
  {
    hide DeliveryChanges, RetryDelay, Apply;
    assert s.hist[s.acts[me].pid := s.hist[s.acts[me].pid]] == s.hist;
  }

  lemma SwapMisses(rows: Rows, pid: string, expected: set<Status>, c: Changes, now: real)
    ensures !Hits(rows, pid, expected) ==> Swap(rows, pid, expected, c, now) == rows
  {
  }

  /** The attempt this worker wrote is still the row's, whatever became of the row. */
  lemma OwnAttempt(cfg: Config, s: State, a: nat)
    requires Inv(cfg, s) && a in s.acts && IsSend(s.acts[a])
    ensures Holds(s, a) && s.rows[s.acts[a].pid].deliveryAttempts == s.acts[a].attempt
  {
    assert ActOk(cfg, s, a);
  }

  lemma OwnPayment(cfg: Config, s: State, a: nat)
    requires Inv(cfg, s) && a in s.acts
    ensures Holds(s, a)
  {
    assert ActOk(cfg, s, a);
  }
}
