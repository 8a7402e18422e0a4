/** Each step of the payment machine keeps the invariant, so every run does. */
module PaymentSteps {
  import opened Prelude
  import opened PaymentRows
  import opened PaymentMachine
  import opened PaymentSafety

  /** A good step: the invariant again, and every payment's past preserved. */
  predicate Good(cfg: Config, s: State, t: State) { Inv(cfg, t) && Extends(s, t) }

  lemma KeepsDone(cfg: Config, s: State, a: nat)
    requires Inv(cfg, s)
    ensures Good(cfg, s, Done(s, a))
  {
    hide PaymentInv, ActInv, Follows, Extends;
    forall b | b in Done(s, a).acts
      ensures ActOk(cfg, Done(s, a), b)
    {
      assert ActOk(cfg, s, b);
      assert ZapOf(s, s.acts[b].pid) == ZapOf(Done(s, a), s.acts[b].pid);
    }
    assert forall q :: ZapOf(Done(s, a), q) == ZapOf(s, q);
    ExtendsItself(s, Done(s, a));
  }

  /** A new actor whose own part of the invariant holds, and who is not delivering or publishing. */
  lemma KeepsBegin(cfg: Config, s: State, a: nat, act: Act)
    requires Inv(cfg, s) && Fresh(s, a, act.pid)
    requires ActInv(cfg, act, s.rows[act.pid], ZapOf(s, act.pid), s.hist[act.pid])
    requires !IsSend(act) && !IsReceipt(act)
    ensures Good(cfg, s, Begin(s, a, act))
  {
    var t := Begin(s, a, act);
    forall b | b in t.acts
      ensures ActOk(cfg, t, b)
    {
      hide PaymentInv, ActInv, Follows, Extends;
      assert ZapOf(s, t.acts[b].pid) == ZapOf(t, t.acts[b].pid);
      assert b != a ==> ActOk(cfg, s, b);
    }
    assert forall q :: ZapOf(t, q) == ZapOf(s, q);
    ExtendsItself(s, t);
    TouchExclusive(s.acts, a, act);
  }

  lemma EnqueueActs(cfg: Config, s: State, st: Step, b: nat)
    requires Inv(cfg, s) && st.Enqueue? && b in s.acts && EnqueueStep(s, st) != s
    ensures ActOk(cfg, EnqueueStep(s, st), b)
  {
    hide PaymentInv, ActInv;
    assert ActOk(cfg, s, b);
    assert ZapOf(EnqueueStep(s, st), s.acts[b].pid) == ZapOf(s, s.acts[b].pid);
  }

  lemma EnqueuePayments(cfg: Config, s: State, st: Step)
    requires Inv(cfg, s) && st.Enqueue? && EnqueueStep(s, st) != s
    ensures PaymentsOk(cfg, EnqueueStep(s, st))
  {
    hide PaymentInv, ActInv;
    var t := EnqueueStep(s, st);
    NewRow(cfg, t.rows[st.pid], ZapOf(t, st.pid));
    forall q | q in t.rows && q in t.hist
      ensures PaymentInv(cfg, t.rows[q], ZapOf(t, q), t.hist[q])
    {
      assert q != st.pid ==> ZapOf(t, q) == ZapOf(s, q);
    }
  }

  lemma EnqueueExtends(s: State, st: Step)
    requires st.Enqueue? && s.hist.Keys == s.rows.Keys
    ensures Extends(s, EnqueueStep(s, st))
  {
    hide Follows;
    forall q | q in s.rows && q in s.hist { FollowsItself(s.rows[q], s.hist[q]); }
  }

  lemma EnqueueUnique(s: State, st: Step)
    requires st.Enqueue? && s.zaps.Keys <= s.rows.Keys
    requires UniqueQuotes(s.rows) && UniqueRequests(s.zaps)
    ensures UniqueQuotes(EnqueueStep(s, st).rows) && UniqueRequests(EnqueueStep(s, st).zaps)
  {
  }

  lemma KeepsEnqueue(cfg: Config, s: State, st: Step)
    requires Inv(cfg, s) && st.Enqueue?
    ensures Good(cfg, s, EnqueueStep(s, st))
  {
    var t := EnqueueStep(s, st);
    EnqueueExtends(s, st);
    EnqueueUnique(s, st);
    hide Extends, PaymentInv, ActInv, PaymentsOk, ActOk, UniqueQuotes, UniqueRequests, Exclusive;
    if t != s {
      EnqueuePayments(cfg, s, st);
      forall b | b in t.acts { EnqueueActs(cfg, s, st, b); }
    }
  }

  lemma NewRow(cfg: Config, p: Payment, z: Option<Zap>)
    requires p.status.QuotePending? || p.status.QuoteCreating?
    requires p.mintQuote.None? && p.invoice.None? && p.deliveryAttempts == 0
    ensures PaymentInv(cfg, p, z, NEW)
  {
  }

  /** Before SETTLED nobody delivers or publishes, so any such row change is harmless to other actors. */
  lemma QuietAct(cfg: Config, act: Act, p: Payment, p': Payment, z: Option<Zap>, h: Hist, h': Hist)
    requires ActInv(cfg, act, p, z, h) && PaymentInv(cfg, p, z, h) && PaymentInv(cfg, p', z, h')
    requires !h.settled && h'.claims == 0 && p'.deliveryAttempts == p.deliveryAttempts
    ensures ActInv(cfg, act, p', z, h')
  {
  }

  lemma QuietRow(cfg: Config, s: State, pid: string, p: Payment, h: Hist, a: nat, act: Option<Act>)
    requires Inv(cfg, s) && pid in s.rows && !s.hist[pid].settled && h.claims == 0
    requires p.deliveryAttempts == s.rows[pid].deliveryAttempts
    requires p.mintQuote == s.rows[pid].mintQuote || (p.mintQuote.Some? && !QuoteTaken(s.rows, pid, p.mintQuote.value))
    requires PaymentInv(cfg, p, ZapOf(s, pid), h) && Follows(s.rows[pid], s.hist[pid], p, h)
    requires act.Some? ==> act.value == WorkerQuoting(pid)
    ensures Good(cfg, s, Touched(s, pid, p, s.zaps, h, a, act))
  {
    hide PaymentInv, ActInv, Follows, Extends;
    var z := ZapOf(s, pid);
    assert PaymentInv(cfg, s.rows[pid], z, s.hist[pid]);
    forall b | b in s.acts && b != a && s.acts[b].pid == pid
      ensures ActInv(cfg, s.acts[b], p, z, h)
    {
      assert ActOk(cfg, s, b);
      QuietAct(cfg, s.acts[b], s.rows[pid], p, z, s.hist[pid], h);
    }
    assert act.Some? ==> ActInv(cfg, act.value, p, z, h) by { WorkerQuotingIsQuiet(cfg, pid, p, z, h); }
    Touch(cfg, s, pid, p, s.zaps, h, a, act);
  }

  lemma WorkerQuotingIsQuiet(cfg: Config, pid: string, p: Payment, z: Option<Zap>, h: Hist)
    ensures ActInv(cfg, WorkerQuoting(pid), p, z, h)
  {
  }

  lemma StoreRow(cfg: Config, p: Payment, z: Option<Zap>, h: Hist, quote: string, invoice: string, text: string, now: real)
    requires PaymentInv(cfg, p, z, h) && (p.status.QuoteCreating? || p.status.WorkerQuoteCreating?)
    ensures !h.settled && h.claims == 0
    ensures PaymentInv(cfg, Apply(p, FailQuote(text), now), z, h)
    ensures text != LEGACY_TIMEOUT ==> Follows(p, h, Apply(p, FailQuote(text), now), h)
    ensures PaymentInv(cfg, Apply(p, StoreQuote(quote, invoice, now), now), z, h.(quotes := h.quotes + 1))
    ensures Follows(p, h, Apply(p, StoreQuote(quote, invoice, now), now), h.(quotes := h.quotes + 1))
  {
  }

  lemma KeepsStore(cfg: Config, s: State, a: nat, from: Status, quote: string, invoice: string, text: string, now: real)
    requires Inv(cfg, s) && Holds(s, a)
    requires (from.QuoteCreating? || from.WorkerQuoteCreating?) && text != LEGACY_TIMEOUT
    ensures Good(cfg, s, StoreStep(s, a, from, quote, invoice, text, now))
  {
    hide PaymentInv, ActInv, Follows, Extends;
    var pid := s.acts[a].pid;
    var h := s.hist[pid];
    if !Hits(s.rows, pid, {from}) {
      KeepsDone(cfg, s, a);
    } else {
      StoreRow(cfg, s.rows[pid], ZapOf(s, pid), h, quote, invoice, text, now);
      var taken := QuoteTaken(s.rows, pid, quote);
      var p := Apply(s.rows[pid], if taken then FailQuote(text) else StoreQuote(quote, invoice, now), now);
      var h' := if taken then h else h.(quotes := h.quotes + 1);
      QuietRow(cfg, s, pid, p, h', a, None);
    }
  }

  lemma KeepsFail(cfg: Config, s: State, a: nat, from: Status, text: string, now: real)
    requires Inv(cfg, s) && Holds(s, a)
    requires (from.QuoteCreating? || from.WorkerQuoteCreating?) && text != LEGACY_TIMEOUT
    ensures Good(cfg, s, FailStep(s, a, from, text, now))
  {
    hide PaymentInv, ActInv, Follows, Extends;
    var pid := s.acts[a].pid;
    if !Hits(s.rows, pid, {from}) {
      KeepsDone(cfg, s, a);
    } else {
      StoreRow(cfg, s.rows[pid], ZapOf(s, pid), s.hist[pid], "", "", text, now);
      QuietRow(cfg, s, pid, Apply(s.rows[pid], FailQuote(text), now), s.hist[pid], a, None);
    }
  }

  const CLAIM_QUOTE := Changes(status := Set(WorkerQuoteCreating), error := Set(None), nextCheckAt := Set(None))

  lemma ClaimQuoteRow(cfg: Config, p: Payment, z: Option<Zap>, h: Hist, now: real)
    requires PaymentInv(cfg, p, z, h) && p.status.QuotePending?
    ensures !h.settled && h.claims == 0
    ensures PaymentInv(cfg, Apply(p, CLAIM_QUOTE, now), z, h) && Follows(p, h, Apply(p, CLAIM_QUOTE, now), h)
  {
  }

  lemma KeepsClaimQuote(cfg: Config, s: State, a: nat, pid: string, now: real)
    requires Inv(cfg, s) && Fresh(s, a, pid) && Hits(s.rows, pid, {QuotePending})
    ensures Good(cfg, s, Begin(Cas(s, pid, {QuotePending}, CLAIM_QUOTE, s.hist[pid], now), a, WorkerQuoting(pid)))
  {
    hide PaymentInv, ActInv, Follows, Extends;
    ClaimQuoteRow(cfg, s.rows[pid], ZapOf(s, pid), s.hist[pid], now);
    QuietRow(cfg, s, pid, Apply(s.rows[pid], CLAIM_QUOTE, now), s.hist[pid], a, Some(WorkerQuoting(pid)));
  }

  predicate Untouched(p: Payment, q: Payment) {
    q.mintQuote == p.mintQuote && q.deliveryAttempts == p.deliveryAttempts
  }

  lemma PollRow(cfg: Config, p: Payment, z: Option<Zap>, h: Hist, seen: Payment, poll: PollOutcome, now: real)
    requires PaymentInv(cfg, p, z, h) && Unsettled(p) && seen.status == p.status
    ensures !h.settled && h.claims == 0
    ensures PaymentInv(cfg, Apply(p, PollChanges(seen, poll, now), now), z, h)
    ensures Follows(p, h, Apply(p, PollChanges(seen, poll, now), now), h)
    ensures Untouched(p, Apply(p, PollChanges(seen, poll, now), now))
  {
    TextsAreNotLegacy("", "");
  }

  lemma KeepsPoll(cfg: Config, s: State, a: nat, poll: PollOutcome, now: real)
    requires Inv(cfg, s) && Holds(s, a) && s.acts[a].Polling?
    ensures Good(cfg, s, PollStep(s, a, poll, now))
  {
    var pid, seen := s.acts[a].pid, s.acts[a].seen;
    assert ActOk(cfg, s, a);
    assert Unsettled(seen);
    hide PaymentInv, ActInv, Follows, Extends, Apply, PollChanges;
    if Hits(s.rows, pid, {seen.status}) {
      PollRow(cfg, s.rows[pid], ZapOf(s, pid), s.hist[pid], seen, poll, now);
      QuietRow(cfg, s, pid, Apply(s.rows[pid], PollChanges(seen, poll, now), now), s.hist[pid], a, None);
    } else {
      KeepsDone(cfg, s, a);
    }
  }

  lemma MintRow(cfg: Config, p: Payment, z: Option<Zap>, h: Hist, seen: Payment, minted: MintOutcome, now: real)
    requires PaymentInv(cfg, p, z, h) && p.status.PaidReconciliationPending?
    ensures !h.settled && h.claims == 0
    ensures PaymentInv(cfg, Apply(p, MintChanges(seen, minted, now), now), z, h.(settled := h.settled || minted.MintPaid?))
    ensures Follows(p, h, Apply(p, MintChanges(seen, minted, now), now), h.(settled := h.settled || minted.MintPaid?))
    ensures Untouched(p, Apply(p, MintChanges(seen, minted, now), now))
  {
    TextsAreNotLegacy("", "");
  }

  lemma KeepsMint(cfg: Config, s: State, a: nat, minted: MintOutcome, now: real)
    requires Inv(cfg, s) && Holds(s, a) && s.acts[a].Minting?
    ensures Good(cfg, s, MintStep(s, a, minted, now))
  {
    var pid, seen, h := s.acts[a].pid, s.acts[a].seen, s.hist[s.acts[a].pid];
    assert ActOk(cfg, s, a);
    assert seen.status == PaidReconciliationPending;
    hide PaymentInv, ActInv, Follows, Extends, Apply, MintChanges;
    if Hits(s.rows, pid, {seen.status}) {
      MintRow(cfg, s.rows[pid], ZapOf(s, pid), h, seen, minted, now);
      QuietRow(cfg, s, pid, Apply(s.rows[pid], MintChanges(seen, minted, now), now),
               h.(settled := h.settled || minted.MintPaid?), a, None);
    } else {
      KeepsDone(cfg, s, a);
    }
  }

  // ---- delivery ----

  function ClaimHist(h: Hist, seenClaims: nat): Hist {
    h.(claims := h.claims + 1, staleClaims := h.staleClaims + if seenClaims < h.claims then 1 else 0)
  }

  lemma ClaimRow(cfg: Config, p: Payment, z: Option<Zap>, h: Hist, act: Act, now: real)
    requires PaymentInv(cfg, p, z, h) && p.status.Settled?
    requires act.SettledSeen? && ActInv(cfg, act, p, z, h)
    ensures PaymentInv(cfg, Apply(p, ClaimSendChanges(act.seen), now), z, ClaimHist(h, act.seenClaims))
    ensures Follows(p, h, Apply(p, ClaimSendChanges(act.seen), now), ClaimHist(h, act.seenClaims))
    ensures Apply(p, ClaimSendChanges(act.seen), now).mintQuote == p.mintQuote
    ensures ActInv(cfg, SendClaimed(act.pid, act.seen.deliveryAttempts + 1),
                   Apply(p, ClaimSendChanges(act.seen), now), z, ClaimHist(h, act.seenClaims))
  {
  }

  lemma ClaimOther(cfg: Config, p: Payment, z: Option<Zap>, h: Hist, act: Act, b: Act, now: real)
    requires PaymentInv(cfg, p, z, h) && p.status.Settled?
    requires act.SettledSeen? && ActInv(cfg, b, p, z, h)
    ensures !IsSend(b)
    ensures ActInv(cfg, b, Apply(p, ClaimSendChanges(act.seen), now), z, ClaimHist(h, act.seenClaims))
  {
  }

  lemma KeepsClaimSend(cfg: Config, s: State, a: nat, now: real)
    requires Inv(cfg, s) && Holds(s, a) && s.acts[a].SettledSeen?
    ensures Good(cfg, s, ClaimSendStep(s, a, now))
  {
    hide PaymentInv, ActInv, Follows, Extends, Apply, ClaimSendChanges;
    var act, pid := s.acts[a], s.acts[a].pid;
    var p, z, h := s.rows[pid], ZapOf(s, pid), s.hist[pid];
    if Hits(s.rows, pid, {Settled}) {
      assert ActOk(cfg, s, a);
      ClaimRow(cfg, p, z, h, act, now);
      forall b | b in s.acts && b != a && s.acts[b].pid == pid
        ensures !IsSend(s.acts[b])
        ensures ActInv(cfg, s.acts[b], Apply(p, ClaimSendChanges(act.seen), now), z, ClaimHist(h, act.seenClaims))
      {
        assert ActOk(cfg, s, b);
        ClaimOther(cfg, p, z, h, act, s.acts[b], now);
      }
      Touch(cfg, s, pid, Apply(p, ClaimSendChanges(act.seen), now), s.zaps, ClaimHist(h, act.seenClaims), a,
            Some(SendClaimed(pid, act.seen.deliveryAttempts + 1)));
    } else {
      KeepsDone(cfg, s, a);
    }
  }

  /** While one actor delivers, no actor on the payment publishes, and none reads the list of sends. */
  lemma SendOther(cfg: Config, p: Payment, z: Option<Zap>, h: Hist, b: Act, sends: seq<Outcome>)
    requires ActInv(cfg, b, p, z, h) && Claimed(p) && !IsSend(b)
    ensures !IsReceipt(b) && ActInv(cfg, b, p, z, h.(sends := sends))
  {
  }

  lemma SendTouch(cfg: Config, s: State, a: nat, sends: seq<Outcome>, act: Act)
    requires Inv(cfg, s) && Holds(s, a) && IsSend(s.acts[a]) && act.pid == s.acts[a].pid
    requires Claimed(s.rows[act.pid])
    requires PaymentInv(cfg, s.rows[act.pid], ZapOf(s, act.pid), s.hist[act.pid].(sends := sends))
    requires Follows(s.rows[act.pid], s.hist[act.pid], s.rows[act.pid], s.hist[act.pid].(sends := sends))
    requires ActInv(cfg, act, s.rows[act.pid], ZapOf(s, act.pid), s.hist[act.pid].(sends := sends))
    ensures Good(cfg, s, Begin(s.(hist := s.hist[act.pid := s.hist[act.pid].(sends := sends)]), a, act))
  {
    hide PaymentInv, ActInv, Follows, Extends;
    var pid := act.pid;
    forall b | b in s.acts && b != a && s.acts[b].pid == pid
      ensures !IsSend(s.acts[b]) && !IsReceipt(s.acts[b])
      ensures ActInv(cfg, s.acts[b], s.rows[pid], ZapOf(s, pid), s.hist[pid].(sends := sends))
    {
      assert ActOk(cfg, s, b);
      SendOther(cfg, s.rows[pid], ZapOf(s, pid), s.hist[pid], s.acts[b], sends);
    }
    Touch(cfg, s, pid, s.rows[pid], s.zaps, s.hist[pid].(sends := sends), a, Some(act));
    assert s.rows[pid := s.rows[pid]] == s.rows;
  }

  lemma StartRow(cfg: Config, p: Payment, z: Option<Zap>, h: Hist, act: Act)
    requires PaymentInv(cfg, p, z, h) && act.SendClaimed? && ActInv(cfg, act, p, z, h)
    ensures Claimed(p)
    ensures PaymentInv(cfg, p, z, h.(sends := h.sends + [Unreported]))
    ensures Follows(p, h, p, h.(sends := h.sends + [Unreported]))
    ensures ActInv(cfg, Sending(act.pid, act.attempt, |h.sends|), p, z, h.(sends := h.sends + [Unreported]))
  {
  }

  lemma KeepsStartSend(cfg: Config, s: State, a: nat)
    requires Inv(cfg, s) && Holds(s, a) && s.acts[a].SendClaimed?
    ensures Good(cfg, s, StartSendStep(s, a))
  {
    hide PaymentInv, ActInv, Follows, Extends;
    var act, h := s.acts[a], s.hist[s.acts[a].pid];
    assert ActOk(cfg, s, a);
    StartRow(cfg, s.rows[act.pid], ZapOf(s, act.pid), h, act);
    SendTouch(cfg, s, a, h.sends + [Unreported], Sending(act.pid, act.attempt, |h.sends|));
  }

  lemma ReturnRow(cfg: Config, p: Payment, z: Option<Zap>, h: Hist, act: Act, outcome: Outcome)
    requires PaymentInv(cfg, p, z, h) && act.Sending? && ActInv(cfg, act, p, z, h) && !outcome.Unreported?
    ensures Claimed(p) && act.k < |h.sends|
    ensures PaymentInv(cfg, p, z, h.(sends := h.sends[act.k := outcome]))
    ensures Follows(p, h, p, h.(sends := h.sends[act.k := outcome]))
    ensures ActInv(cfg, SendReturned(act.pid, act.attempt, act.k), p, z, h.(sends := h.sends[act.k := outcome]))
  {
  }

  lemma KeepsSendReturns(cfg: Config, s: State, a: nat, outcome: Outcome)
    requires Inv(cfg, s) && Holds(s, a) && s.acts[a].Sending?
    ensures Good(cfg, s, SendReturnsStep(s, a, outcome))
  {
    hide PaymentInv, ActInv, Follows, Extends;
    var act, h := s.acts[a], s.hist[s.acts[a].pid];
    assert ActOk(cfg, s, a);
    if !outcome.Unreported? {
      ReturnRow(cfg, s.rows[act.pid], ZapOf(s, act.pid), h, act, outcome);
      SendTouch(cfg, s, a, h.sends[act.k := outcome], SendReturned(act.pid, act.attempt, act.k));
    } else {
      ExtendsItself(s, s);
    }
  }

  function FinishHist(cfg: Config, h: Hist, c: Changes, attempt: nat): Hist {
    if c.status == Set(Settled) then h.(delay := h.delay + RetryDelay(cfg, attempt)) else h
  }

  lemma FinishRow(cfg: Config, p: Payment, z: Option<Zap>, h: Hist, act: Act, st: Step)
    requires PaymentInv(cfg, p, z, h) && p.status.Delivering? && st.FinishSend?
    requires act.SendReturned? && ActInv(cfg, act, p, z, h)
    ensures act.k < |h.sends|
    ensures var c := DeliveryChanges(cfg, act.attempt, h.sends[act.k], z.Some?, st.raised, st.eventId, st.kind, st.detail, st.now);
            && PaymentInv(cfg, Apply(p, c, st.now), z, FinishHist(cfg, h, c, act.attempt))
            && Follows(p, h, Apply(p, c, st.now), FinishHist(cfg, h, c, act.attempt))
            && Untouched(p, Apply(p, c, st.now))
  {
    TextsAreNotLegacy(st.kind, st.detail);
    if h.staleClaims == 0 {
      assert DelaySum(cfg, p.deliveryAttempts) == DelaySum(cfg, p.deliveryAttempts - 1) + RetryDelay(cfg, act.attempt);
    }
  }

  lemma ReturnedIndex(cfg: Config, p: Payment, z: Option<Zap>, h: Hist, act: Act)
    requires act.SendReturned? && ActInv(cfg, act, p, z, h)
    ensures act.k < |h.sends|
  {
  }

  lemma FinishOther(cfg: Config, p: Payment, p': Payment, z: Option<Zap>, h: Hist, h': Hist, b: Act)
    requires ActInv(cfg, b, p, z, h) && p.status.Delivering? && !IsSend(b)
    requires p'.deliveryAttempts == p.deliveryAttempts && h'.claims == h.claims
    ensures !IsReceipt(b) && ActInv(cfg, b, p', z, h')
  {
  }

  lemma KeepsFinishSend(cfg: Config, s: State, st: Step)
    requires Inv(cfg, s) && st.FinishSend? && Holds(s, st.act) && s.acts[st.act].SendReturned?
    ensures Good(cfg, s, FinishSendStep(cfg, s, st))
  {
    hide PaymentInv, ActInv, Follows, Extends, Apply, DeliveryChanges;
    var act, pid := s.acts[st.act], s.acts[st.act].pid;
    var p, z, h := s.rows[pid], ZapOf(s, pid), s.hist[pid];
    assert ActOk(cfg, s, st.act);
    ReturnedIndex(cfg, p, z, h, act);
    if Hits(s.rows, pid, {Delivering}) {
      FinishRow(cfg, p, z, h, act, st);
      var c := DeliveryChanges(cfg, act.attempt, h.sends[act.k], z.Some?, st.raised, st.eventId, st.kind, st.detail, st.now);
      var p', h' := Apply(p, c, st.now), FinishHist(cfg, h, c, act.attempt);
      forall b | b in s.acts && b != st.act && s.acts[b].pid == pid
        ensures !IsSend(s.acts[b]) && ActInv(cfg, s.acts[b], p', z, h')
      {
        assert ActOk(cfg, s, b);
        FinishOther(cfg, p, p', z, h, h', s.acts[b]);
      }
      Touch(cfg, s, pid, p', s.zaps, h', st.act, None);
    } else {
      KeepsDone(cfg, s, st.act);
    }
  }

  // ---- zap receipts ----

  const CLAIM_RECEIPT := Changes(status := Set(ReceiptPublishing))

  lemma ClaimReceiptRow(cfg: Config, p: Payment, z: Option<Zap>, h: Hist, pid: string, now: real)
    requires PaymentInv(cfg, p, z, h) && p.status.ReceiptPending?
    ensures PaymentInv(cfg, Apply(p, CLAIM_RECEIPT, now), z, h) && Follows(p, h, Apply(p, CLAIM_RECEIPT, now), h)
    ensures ActInv(cfg, ReceiptClaimed(pid), Apply(p, CLAIM_RECEIPT, now), z, h)
  {
  }

  lemma ClaimReceiptOther(cfg: Config, p: Payment, z: Option<Zap>, h: Hist, b: Act, now: real)
    requires ActInv(cfg, b, p, z, h) && p.status.ReceiptPending?
    ensures !IsReceipt(b) && !IsSend(b)
    ensures ActInv(cfg, b, Apply(p, CLAIM_RECEIPT, now), z, h)
  {
  }

  lemma KeepsClaimReceipt(cfg: Config, s: State, a: nat, pid: string, now: real)
    requires Inv(cfg, s) && Fresh(s, a, pid)
    ensures Good(cfg, s, ClaimReceiptStep(s, a, pid, now))
  {
    hide PaymentInv, ActInv, Follows, Extends;
    var p, z, h := s.rows[pid], ZapOf(s, pid), s.hist[pid];
    if Hits(s.rows, pid, {ReceiptPending}) {
      ClaimReceiptRow(cfg, p, z, h, pid, now);
      forall b | b in s.acts && b != a && s.acts[b].pid == pid
        ensures !IsReceipt(s.acts[b]) && ActInv(cfg, s.acts[b], Apply(p, CLAIM_RECEIPT, now), z, h)
      {
        assert ActOk(cfg, s, b);
        ClaimReceiptOther(cfg, p, z, h, s.acts[b], now);
      }
      Touch(cfg, s, pid, Apply(p, CLAIM_RECEIPT, now), s.zaps, h, a, Some(ReceiptClaimed(pid)));
    } else {
      ExtendsItself(s, s);
    }
  }

  /** An actor who is not publishing looks at neither the zap row nor the receipt count. */
  lemma ReceiptOther(cfg: Config, p: Payment, p': Payment, z: Option<Zap>, z': Option<Zap>, h: Hist, receipts: nat, b: Act)
    requires ActInv(cfg, b, p, z, h) && Receipting(p.status) && !IsReceipt(b)
    requires p'.deliveryAttempts == p.deliveryAttempts
    ensures !IsSend(b) && ActInv(cfg, b, p', z', h.(receipts := receipts))
  {
  }

  /** The one publishing actor moves on; `act` is what it becomes. */
  lemma ReceiptTouch(cfg: Config, s: State, a: nat, p: Payment, zaps: Zaps, receipts: nat, act: Option<Act>)
    requires Inv(cfg, s) && Holds(s, a) && IsReceipt(s.acts[a])
    requires Receipting(s.rows[s.acts[a].pid].status)
    requires p.mintQuote == s.rows[s.acts[a].pid].mintQuote
    requires p.deliveryAttempts == s.rows[s.acts[a].pid].deliveryAttempts
    requires SameZaps(s, s.acts[a].pid, zaps)
    requires PaymentInv(cfg, p, At(zaps, s.acts[a].pid), s.hist[s.acts[a].pid].(receipts := receipts))
    requires Follows(s.rows[s.acts[a].pid], s.hist[s.acts[a].pid], p, s.hist[s.acts[a].pid].(receipts := receipts))
    requires act.Some? ==> act.value.pid == s.acts[a].pid && !IsSend(act.value)
    requires act.Some? ==>
               ActInv(cfg, act.value, p, At(zaps, s.acts[a].pid), s.hist[s.acts[a].pid].(receipts := receipts))
    ensures Good(cfg, s, Touched(s, s.acts[a].pid, p, zaps, s.hist[s.acts[a].pid].(receipts := receipts), a, act))
  {
    hide PaymentInv, ActInv, Follows, Extends;
    var pid, h := s.acts[a].pid, s.hist[s.acts[a].pid];
    forall b | b in s.acts && b != a && s.acts[b].pid == pid
      ensures !IsReceipt(s.acts[b]) && ActInv(cfg, s.acts[b], p, At(zaps, pid), h.(receipts := receipts))
    {
      assert ActOk(cfg, s, b);
      ReceiptOther(cfg, s.rows[pid], p, ZapOf(s, pid), At(zaps, pid), h, receipts, s.acts[b]);
    }
    Touch(cfg, s, pid, p, zaps, h.(receipts := receipts), a, act);
  }

  lemma PublishRow(cfg: Config, p: Payment, z: Option<Zap>, h: Hist, act: Act)
    requires PaymentInv(cfg, p, z, h) && ActInv(cfg, act, p, z, h) && act.ReceiptClaimed?
    ensures z.Some? && Receipting(p.status)
    ensures PaymentInv(cfg, p, z, h.(receipts := h.receipts + 1)) && Follows(p, h, p, h.(receipts := h.receipts + 1))
    ensures ActInv(cfg, Publishing(act.pid), p, z, h.(receipts := h.receipts + 1))
  {
  }

  lemma KeepsStartPublish(cfg: Config, s: State, a: nat, now: real)
    requires Inv(cfg, s) && Holds(s, a) && s.acts[a].ReceiptClaimed?
    ensures Good(cfg, s, StartPublishStep(s, a, now))
  {
    hide PaymentInv, ActInv, Follows, Extends;
    var pid, h := s.acts[a].pid, s.hist[s.acts[a].pid];
    assert ActOk(cfg, s, a);
    PublishRow(cfg, s.rows[pid], ZapOf(s, pid), h, s.acts[a]);
    ReceiptTouch(cfg, s, a, s.rows[pid], s.zaps, h.receipts + 1, Some(Publishing(pid)));
    assert s.rows[pid := s.rows[pid]] == s.rows;
  }

  lemma PublishedRow(cfg: Config, p: Payment, z: Option<Zap>, h: Hist, act: Act, act': Act)
    requires PaymentInv(cfg, p, z, h) && ActInv(cfg, act, p, z, h) && IsReceipt(act) && !act.ReceiptClaimed?
    requires act'.Published? || act'.PublishFailed?
    ensures z.Some? && Receipting(p.status)
    ensures ActInv(cfg, act', p, z, h)
  {
  }

  lemma KeepsPublishReturns(cfg: Config, s: State, a: nat, eventId: Option<string>)
    requires Inv(cfg, s) && Holds(s, a) && s.acts[a].Publishing?
    ensures Good(cfg, s, Begin(s, a, if eventId.Some? then Published(s.acts[a].pid, eventId.value) else PublishFailed(s.acts[a].pid)))
  {
    hide PaymentInv, ActInv, Follows, Extends;
    var pid, h := s.acts[a].pid, s.hist[s.acts[a].pid];
    var act' := if eventId.Some? then Published(pid, eventId.value) else PublishFailed(pid);
    assert ActOk(cfg, s, a);
    PublishedRow(cfg, s.rows[pid], ZapOf(s, pid), h, s.acts[a], act');
    FollowsItself(s.rows[pid], h);
    assert h.(receipts := h.receipts) == h;
    ReceiptTouch(cfg, s, a, s.rows[pid], s.zaps, h.receipts, Some(act'));
    assert s.rows[pid := s.rows[pid]] == s.rows && s.hist[pid := h] == s.hist;
  }

  lemma ZapRow(cfg: Config, p: Payment, z: Zap, z': Zap, h: Hist, act: Act)
    requires PaymentInv(cfg, p, Some(z), h) && ActInv(cfg, act, p, Some(z), h) && IsReceipt(act)
    requires z.receiptEventId.Some? ==> z'.receiptEventId.Some?
    ensures Receipting(p.status) && PaymentInv(cfg, p, Some(z'), h)
    ensures ActInv(cfg, FailureNoted(act.pid), p, Some(z'), h)
    ensures z'.receiptEventId.Some? ==> ActInv(cfg, Recorded(act.pid), p, Some(z'), h)
  {
  }

  lemma ZapTouch(cfg: Config, s: State, a: nat, z': Zap, act': Act)
    requires Inv(cfg, s) && Holds(s, a) && IsReceipt(s.acts[a]) && s.acts[a].pid in s.zaps
    requires z'.requestEventId == s.zaps[s.acts[a].pid].requestEventId
    requires s.zaps[s.acts[a].pid].receiptEventId.Some? ==> z'.receiptEventId.Some?
    requires act' == FailureNoted(s.acts[a].pid) || (act' == Recorded(s.acts[a].pid) && z'.receiptEventId.Some?)
    ensures Good(cfg, s, Begin(s.(zaps := s.zaps[s.acts[a].pid := z']), a, act'))
  {
    hide PaymentInv, ActInv, Follows, Extends;
    var pid, h := s.acts[a].pid, s.hist[s.acts[a].pid];
    assert ActOk(cfg, s, a);
    ZapRow(cfg, s.rows[pid], s.zaps[pid], z', h, s.acts[a]);
    FollowsItself(s.rows[pid], h);
    assert h.(receipts := h.receipts) == h;
    ReceiptTouch(cfg, s, a, s.rows[pid], s.zaps[pid := z'], h.receipts, Some(act'));
    assert s.rows[pid := s.rows[pid]] == s.rows && s.hist[pid := h] == s.hist;
  }

  const RECEIPT_DONE := Changes(status := Set(Delivered), error := Set(None))
  const RECEIPT_LOST := Changes(status := Set(ReceiptFailed), error := Set(Some(RECEIPT_REVIEW)))

  lemma EndReceiptRow(cfg: Config, p: Payment, z: Option<Zap>, h: Hist, act: Act, now: real)
    requires PaymentInv(cfg, p, z, h) && ActInv(cfg, act, p, z, h) && p.status.ReceiptPublishing?
    requires IsReceipt(act)
    ensures act.Recorded? ==> PaymentInv(cfg, Apply(p, RECEIPT_DONE, now), z, h)
    ensures PaymentInv(cfg, Apply(p, RECEIPT_LOST, now), z, h)
    ensures Follows(p, h, Apply(p, RECEIPT_DONE, now), h) && Follows(p, h, Apply(p, RECEIPT_LOST, now), h)
  {
    TextsAreNotLegacy("", "");
  }

  lemma KeepsEndReceipt(cfg: Config, s: State, st: Step)
    requires Inv(cfg, s) && (st.FinishReceipt? || st.FailReceipt?) && Holds(s, st.act)
    requires if st.FinishReceipt? then s.acts[st.act].Recorded? else s.acts[st.act].FailureNoted?
    ensures Good(cfg, s, Next(cfg, s, st))
  {
    hide PaymentInv, ActInv, Follows, Extends;
    var a, pid, h := st.act, s.acts[st.act].pid, s.hist[s.acts[st.act].pid];
    assert ActOk(cfg, s, a);
    if Hits(s.rows, pid, {ReceiptPublishing}) {
      EndReceiptRow(cfg, s.rows[pid], ZapOf(s, pid), h, s.acts[a], st.now);
      var c := if st.FinishReceipt? then RECEIPT_DONE else RECEIPT_LOST;
      assert h.(receipts := h.receipts) == h;
      ReceiptTouch(cfg, s, a, Apply(s.rows[pid], c, st.now), s.zaps, h.receipts, None);
    } else {
      KeepsDone(cfg, s, a);
    }
  }

  // ---- steps over whole tables ----

  /** A row may be rewritten under everybody's feet if its own part of the invariant survives. */
  ghost predicate Harmless(cfg: Config, p: Payment, p': Payment) {
    && p'.mintQuote == p.mintQuote
    && (forall z, h :: PaymentInv(cfg, p, z, h) ==> Follows(p, h, p', h))
    && (forall z, h :: PaymentInv(cfg, p, z, h) ==> PaymentInv(cfg, p', z, h))
    && (forall act, z, h :: PaymentInv(cfg, p, z, h) && ActInv(cfg, act, p, z, h) ==> ActInv(cfg, act, p', z, h))
  }

  lemma KeepsMapped(cfg: Config, s: State, rows: Rows)
    requires Inv(cfg, s) && rows.Keys == s.rows.Keys
    requires forall p :: p in rows ==> Harmless(cfg, s.rows[p], rows[p])
    ensures Good(cfg, s, s.(rows := rows))
  {
    hide PaymentInv, ActInv, Follows, Extends;
    var t := s.(rows := rows);
    assert forall q :: ZapOf(t, q) == ZapOf(s, q);
    forall b | b in t.acts
      ensures ActOk(cfg, t, b)
    {
      assert ActOk(cfg, s, b);
      var pid := s.acts[b].pid;
      assert Harmless(cfg, s.rows[pid], rows[pid]);
      assert PaymentInv(cfg, s.rows[pid], ZapOf(s, pid), s.hist[pid]);
    }
    assert UniqueQuotes(rows);
    MappedExtends(cfg, s, rows);
  }

  lemma MappedExtends(cfg: Config, s: State, rows: Rows)
    requires Inv(cfg, s) && rows.Keys == s.rows.Keys
    requires forall p :: p in rows ==> Harmless(cfg, s.rows[p], rows[p])
    ensures Extends(s, s.(rows := rows))
  {
    hide PaymentInv, ActInv, Follows, LegacyTimeout;
    forall p | p in s.rows
      ensures Follows(s.rows[p], s.hist[p], rows[p], s.hist[p])
    {
      assert PaymentInv(cfg, s.rows[p], ZapOf(s, p), s.hist[p]);
    }
  }

  lemma QuarantineIsHarmless(cfg: Config, p: Payment, cutoff: real, now: real)
    ensures Harmless(cfg, p, QuarantineRow(p, cutoff, now))
  {
    TextsAreNotLegacy("", "");
  }

  lemma ReviveIsHarmless(cfg: Config, p: Payment, now: real)
    requires LegacyTimeout(p)
    ensures Harmless(cfg, p, Revive(p, now))
  {
  }

  lemma CloseIsHarmless(cfg: Config, p: Payment, now: real)
    requires p.status.DeliveryFailed?
    ensures Harmless(cfg, p, CloseRow(p, now))
  {
    TextsAreNotLegacy("", "");
  }

  lemma PersistIsHarmless(cfg: Config, p: Payment, mint: string, deadline: real)
    ensures Harmless(cfg, p, PersistRow(p, mint, deadline))
  {
  }

  lemma SameIsHarmless(cfg: Config, p: Payment)
    ensures Harmless(cfg, p, p)
  {
  }

  lemma KeepsQuarantine(cfg: Config, s: State, cutoff: real, now: real)
    requires Inv(cfg, s)
    ensures Good(cfg, s, s.(rows := QuarantineAll(s.rows, cutoff, now)))
  {
    hide Inv, Extends, Harmless, QuarantineRow;
    forall p | p in s.rows { QuarantineIsHarmless(cfg, s.rows[p], cutoff, now); }
    KeepsMapped(cfg, s, QuarantineAll(s.rows, cutoff, now));
  }

  lemma KeepsReconcile(cfg: Config, s: State, now: real)
    requires Inv(cfg, s)
    ensures Good(cfg, s, s.(rows := ReviveAll(s.rows, LegacyRows(s.rows), now)))
  {
    hide Inv, Extends, Harmless, Revive, LegacyTimeout;
    forall p | p in s.rows
      ensures Harmless(cfg, s.rows[p], ReviveAll(s.rows, LegacyRows(s.rows), now)[p])
    {
      SameIsHarmless(cfg, s.rows[p]);
      if LegacyTimeout(s.rows[p]) { ReviveIsHarmless(cfg, s.rows[p], now); }
    }
    KeepsMapped(cfg, s, ReviveAll(s.rows, LegacyRows(s.rows), now));
  }

  lemma PersistIs(cfg: Config, s: State, mint: string, deadline: real)
    ensures Next(cfg, s, Persist(mint, deadline)) == s.(rows := PersistAll(s.rows, mint, deadline))
  {
  }

  lemma KeepsPersist(cfg: Config, s: State, mint: string, deadline: real)
    requires Inv(cfg, s)
    ensures Good(cfg, s, s.(rows := PersistAll(s.rows, mint, deadline)))
  {
    hide Inv, Extends, Harmless, PersistRow;
    forall p | p in s.rows { PersistIsHarmless(cfg, s.rows[p], mint, deadline); }
    KeepsMapped(cfg, s, PersistAll(s.rows, mint, deadline));
  }

  lemma KeepsClose(cfg: Config, s: State, st: Step)
    requires Inv(cfg, s) && st.Close?
    ensures Good(cfg, s, CloseStep(s, st))
  {
    hide Inv, Extends, Harmless, CloseRow;
    var t := CloseStep(s, st);
    forall p | p in s.rows
      ensures Harmless(cfg, s.rows[p], t.rows[p])
    {
      SameIsHarmless(cfg, s.rows[p]);
      if s.rows[p].status.DeliveryFailed? { CloseIsHarmless(cfg, s.rows[p], st.now); }
    }
    KeepsMapped(cfg, s, t.rows);
  }

  // ---- every step, every run ----

  lemma SelectedAct(cfg: Config, p: Payment, z: Option<Zap>, h: Hist, pid: string)
    requires PaymentInv(cfg, p, z, h)
    ensures ActInv(cfg, ZapQuoting(pid), p, z, h)
    ensures Unsettled(p) ==> ActInv(cfg, Polling(pid, p), p, z, h)
    ensures p.status.PaidReconciliationPending? ==> ActInv(cfg, Minting(pid, p), p, z, h)
    ensures p.status.Settled? ==> ActInv(cfg, SettledSeen(pid, p, h.claims), p, z, h)
  {
  }

  lemma KeepsSelect(cfg: Config, s: State, a: nat, pid: string, act: Act)
    requires Inv(cfg, s) && Fresh(s, a, pid)
    requires || act == ZapQuoting(pid)
             || (act == Polling(pid, s.rows[pid]) && Unsettled(s.rows[pid]))
             || (act == Minting(pid, s.rows[pid]) && s.rows[pid].status.PaidReconciliationPending?)
             || (act == SettledSeen(pid, s.rows[pid], s.hist[pid].claims) && s.rows[pid].status.Settled?)
    ensures Good(cfg, s, Begin(s, a, act))
  {
    hide PaymentInv, ActInv, Follows, Extends;
    SelectedAct(cfg, s.rows[pid], ZapOf(s, pid), s.hist[pid], pid);
    KeepsBegin(cfg, s, a, act);
  }

  function KindOf(st: Step): string {
    if st.ZapFail? || st.WorkerFail? then st.kind else "IntegrityError"
  }

  /** The steps up to the selection of a SETTLED candidate. */
  predicate BeforeDelivery(st: Step) {
    st.Enqueue? || st.ZapBegin? || st.ZapStore? || st.ZapFail? || st.ClaimQuote? || st.WorkerStore? || st.WorkerFail?
    || st.SelectDue? || st.PollResult? || st.SelectPaid? || st.MintResult? || st.SelectSettled?
  }

  lemma EarlyStepIsGood(cfg: Config, s: State, st: Step)
    requires Inv(cfg, s) && BeforeDelivery(st) && Next(cfg, s, st) != s
    ensures Good(cfg, s, Next(cfg, s, st))
  {
    TextsAreNotLegacy(KindOf(st), "");
    hide Inv, Extends;
    match st {
      case Enqueue(_, _, _, _, _, _, _, _) => KeepsEnqueue(cfg, s, st);
      case ZapStore(a, quote, invoice, now) =>
        KeepsStore(cfg, s, a, QuoteCreating, quote, invoice, ZapQuoteText("IntegrityError"), now);
      case ZapFail(a, kind, now) => KeepsFail(cfg, s, a, QuoteCreating, ZapQuoteText(kind), now);
      case ClaimQuote(a, pid, now) => KeepsClaimQuote(cfg, s, a, pid, now);
      case WorkerStore(a, quote, invoice, now) =>
        KeepsStore(cfg, s, a, WorkerQuoteCreating, quote, invoice, WorkerQuoteText("IntegrityError"), now);
      case WorkerFail(a, kind, now) => KeepsFail(cfg, s, a, WorkerQuoteCreating, WorkerQuoteText(kind), now);
      case PollResult(a, poll, now) => KeepsPoll(cfg, s, a, poll, now);
      case MintResult(a, minted, now) => KeepsMint(cfg, s, a, minted, now);
      case ZapBegin(a, pid) => KeepsSelect(cfg, s, a, pid, ZapQuoting(pid));
      case SelectDue(a, pid, _) => KeepsSelect(cfg, s, a, pid, Polling(pid, s.rows[pid]));
      case SelectPaid(a, pid, _) => KeepsSelect(cfg, s, a, pid, Minting(pid, s.rows[pid]));
      case SelectSettled(a, pid, _) => KeepsSelect(cfg, s, a, pid, SettledSeen(pid, s.rows[pid], s.hist[pid].claims));
      case _ =>
    }
  }

  lemma LateStepIsGood(cfg: Config, s: State, st: Step)
    requires Inv(cfg, s) && !BeforeDelivery(st) && Next(cfg, s, st) != s
    ensures Good(cfg, s, Next(cfg, s, st))
  {
    hide Inv, Extends;
    match st {
      case ClaimSend(a, now) => KeepsClaimSend(cfg, s, a, now);
      case StartSend(a) => KeepsStartSend(cfg, s, a);
      case SendReturns(a, outcome) => KeepsSendReturns(cfg, s, a, outcome);
      case FinishSend(_, _, _, _, _, _) => KeepsFinishSend(cfg, s, st);
      case ClaimReceipt(a, pid, now) => KeepsClaimReceipt(cfg, s, a, pid, now);
      case StartPublish(a, now) => KeepsStartPublish(cfg, s, a, now);
      case PublishReturns(a, eventId) => KeepsPublishReturns(cfg, s, a, eventId);
      case RecordReceipt(a) => KeepsRecord(cfg, s, a);
      case NoteFailure(a, kind) => KeepsNote(cfg, s, a, kind);
      case FinishReceipt(_, _) => KeepsEndReceipt(cfg, s, st);
      case FailReceipt(_, _) => KeepsEndReceipt(cfg, s, st);
      case Crash(a) => KeepsDone(cfg, s, a);
      case Quarantine(cutoff, now) => KeepsQuarantine(cfg, s, cutoff, now);
      case Reconcile(now) => KeepsReconcile(cfg, s, now);
      case Close(_, _, _, _, _) => KeepsClose(cfg, s, st);
      case Persist(mint, deadline) => KeepsPersist(cfg, s, mint, deadline);
      case _ =>
    }
  }

  lemma NextIsGood(cfg: Config, s: State, st: Step)
    requires Inv(cfg, s)
    ensures Good(cfg, s, Next(cfg, s, st))
  {
    ExtendsItself(s, s);
    hide Inv, Extends, Next, BeforeDelivery;
    if Next(cfg, s, st) != s {
      if BeforeDelivery(st) { EarlyStepIsGood(cfg, s, st); } else { LateStepIsGood(cfg, s, st); }
    }
  }

  lemma KeepsRecord(cfg: Config, s: State, a: nat)
    requires Inv(cfg, s) && Holds(s, a) && s.acts[a].Published?
    ensures Good(cfg, s, RecordStep(s, a))
  {
    var pid := s.acts[a].pid;
    assert ActOk(cfg, s, a);
    assert ZapOf(s, pid).Some?;
    hide Inv, Extends, PaymentInv, ActInv;
    ZapTouch(cfg, s, a, s.zaps[pid].(receiptEventId := Some(s.acts[a].eventId), receiptError := None), Recorded(pid));
  }

  lemma KeepsNote(cfg: Config, s: State, a: nat, kind: string)
    requires Inv(cfg, s) && Holds(s, a) && (s.acts[a].PublishFailed? || s.acts[a].Recorded?)
    ensures Good(cfg, s, NoteFailureStep(s, a, kind))
  {
    var pid := s.acts[a].pid;
    assert ActOk(cfg, s, a);
    assert ZapOf(s, pid).Some?;
    hide Inv, Extends, PaymentInv, ActInv;
    ZapTouch(cfg, s, a, s.zaps[pid].(receiptError := Some("Receipt publication failed: " + kind)), FailureNoted(pid));
  }

  lemma KeysMatch(cfg: Config, s: State)
    requires Inv(cfg, s)
    ensures s.hist.Keys == s.rows.Keys
  {
  }

  lemma ExtendsTransitive(s: State, t: State, u: State)
    requires Extends(s, t) && Extends(t, u) && t.hist.Keys == t.rows.Keys
    ensures Extends(s, u)
  {
    assert forall p :: p in t.rows && p in t.hist ==> Follows(t.rows[p], t.hist[p], u.rows[p], u.hist[p]);
    forall p | p in s.rows && p in s.hist
      ensures p in u.rows && p in u.hist && Follows(s.rows[p], s.hist[p], u.rows[p], u.hist[p])
    {
      FollowsTransitive(s.rows[p], s.hist[p], t.rows[p], t.hist[p], u.rows[p], u.hist[p]);
    }
  }

  lemma FollowsTransitive(p: Payment, h: Hist, q: Payment, g: Hist, r: Payment, f: Hist)
    requires Follows(p, h, q, g) && Follows(q, g, r, f)
    ensures Follows(p, h, r, f)
  {
  }

  lemma {:induction false} RunIsGood(cfg: Config, s: State, steps: seq<Step>)
    requires Inv(cfg, s)
    ensures Good(cfg, s, Run(cfg, s, steps))
    decreases |steps|
  {
    ExtendsItself(s, s);
    hide Inv, Extends;
    if steps != [] {
      var t := Next(cfg, s, steps[0]);
      NextIsGood(cfg, s, steps[0]);
      RunIsGood(cfg, t, steps[1..]);
      KeysMatch(cfg, t);
      ExtendsTransitive(s, t, Run(cfg, t, steps[1..]));
    }
  }
}
