/**
 Legacy recovery as the code runs it: it selects rows, and later writes them by primary
 key without comparing anything. The machine's `Reconcile` is the case where nothing
 happens in between; here anything may. A write is safe exactly when none of its rows
 was settled since it was selected, and the worker's process lock makes every write safe.
 */
module LegacyRecovery {
  import opened Prelude
  import opened PaymentRows
  import opened PaymentMachine
  import opened PaymentSafety
  import opened PaymentSteps

  /** The payment machine with the recoveries under way, and the rows each has selected. */
  datatype System = System(state: State, recovering: map<nat, set<string>>)

  datatype Move =
    | Take(step: Step)
    | SelectLegacy(recovery: nat)
    | WriteLegacy(recovery: nat, now: real)
    | Abandon(recovery: nat)

  function Moved(cfg: Config, w: System, m: Move): System {
    match m
    case Take(st) => w.(state := Next(cfg, w.state, st))
    case SelectLegacy(r) =>
      if r in w.recovering then w else w.(recovering := w.recovering[r := LegacyRows(w.state.rows)])
    case WriteLegacy(r, now) =>
      if r !in w.recovering then w
      else System(w.state.(rows := ReviveAll(w.state.rows, w.recovering[r], now)), w.recovering - {r})
    case Abandon(r) => w.(recovering := w.recovering - {r})
  }

  function Play(cfg: Config, w: System, moves: seq<Move>): System
    decreases |moves|
  {
    if moves == [] then w else Play(cfg, Moved(cfg, w, moves[0]), moves[1..])
  }

  lemma {:induction false} PlayAppends(cfg: Config, w: System, a: seq<Move>, b: seq<Move>)
    ensures Play(cfg, w, a + b) == Play(cfg, Play(cfg, w, a), b)
    decreases |a|
  {
    if a == [] {
      assert a + b == b;
    } else {
      assert (a + b)[0] == a[0] && (a + b)[1..] == a[1..] + b;
      PlayAppends(cfg, Moved(cfg, w, a[0]), a[1..], b);
    }
  }

  predicate Quoted(rows: Rows, picked: set<string>) {
    forall p :: p in picked ==> p in rows && rows[p].mintQuote.Some? && rows[p].invoice.Some?
  }

  /** The machine's invariant, and each recovery has in hand every row still to be recovered, all with their quotes. */
  predicate SystemInv(cfg: Config, w: System) {
    && Inv(cfg, w.state)
    && (forall r :: r in w.recovering ==>
          Quoted(w.state.rows, w.recovering[r]) && LegacyRows(w.state.rows) <= w.recovering[r])
  }

  /** None of the rows a recovery selected has been settled. */
  predicate Unsettling(s: State, picked: set<string>) {
    forall p :: p in picked && p in s.hist ==> !s.hist[p].settled
  }

  predicate Undisturbed(w: System, m: Move) {
    m.WriteLegacy? && m.recovery in w.recovering ==> Unsettling(w.state, w.recovering[m.recovery])
  }

  // ---- one write ----

  lemma RevivedRow(cfg: Config, p: Payment, z: Option<Zap>, h: Hist, now: real)
    requires PaymentInv(cfg, p, z, h) && !h.settled && p.mintQuote.Some? && p.invoice.Some?
    ensures PaymentInv(cfg, Revive(p, now), z, h) && Follows(p, h, Revive(p, now), h)
  {
  }

  lemma RevivedAct(cfg: Config, act: Act, p: Payment, z: Option<Zap>, h: Hist, now: real)
    requires PaymentInv(cfg, p, z, h) && ActInv(cfg, act, p, z, h) && !h.settled
    ensures ActInv(cfg, act, Revive(p, now), z, h)
  {
  }

  lemma WriteIsGood(cfg: Config, s: State, picked: set<string>, now: real)
    requires Inv(cfg, s) && Quoted(s.rows, picked) && Unsettling(s, picked)
    ensures Good(cfg, s, s.(rows := ReviveAll(s.rows, picked, now)))
  {
    hide PaymentInv, ActInv, Follows, Extends, Revive, LegacyTimeout;
    var t := s.(rows := ReviveAll(s.rows, picked, now));
    assert forall q :: ZapOf(t, q) == ZapOf(s, q);
    forall p | p in s.rows
      ensures PaymentInv(cfg, t.rows[p], ZapOf(s, p), s.hist[p]) && Follows(s.rows[p], s.hist[p], t.rows[p], s.hist[p])
    {
      FollowsItself(s.rows[p], s.hist[p]);
      if p in picked { RevivedRow(cfg, s.rows[p], ZapOf(s, p), s.hist[p], now); }
    }
    forall b | b in t.acts
      ensures ActOk(cfg, t, b)
    {
      assert ActOk(cfg, s, b);
      var p := s.acts[b].pid;
      if p in picked { RevivedAct(cfg, s.acts[b], s.rows[p], ZapOf(s, p), s.hist[p], now); }
    }
    RevivedQuotes(s.rows, picked, now);
    RevivedExtends(s, picked, now);
  }

  lemma RevivedQuotes(rows: Rows, picked: set<string>, now: real)
    requires UniqueQuotes(rows)
    ensures UniqueQuotes(ReviveAll(rows, picked, now))
  {
  }

  lemma RevivedExtends(s: State, picked: set<string>, now: real)
    requires s.hist.Keys == s.rows.Keys
    requires forall p :: p in s.rows ==> Follows(s.rows[p], s.hist[p], ReviveAll(s.rows, picked, now)[p], s.hist[p])
    ensures Extends(s, s.(rows := ReviveAll(s.rows, picked, now)))
  {
    hide Follows;
  }

  /** Writing back a settled payment breaks what the machine keeps: it is unsettled again. */
  lemma SettledRowIsBroken(cfg: Config, s: State, picked: set<string>, now: real, p: string)
    requires p in picked && p in s.rows && p in s.hist && s.hist[p].settled
    ensures !Inv(cfg, s.(rows := ReviveAll(s.rows, picked, now)))
  {
    var t := s.(rows := ReviveAll(s.rows, picked, now));
    assert t.rows[p].status == SettlementUnconfirmed;
    assert !PaymentInv(cfg, t.rows[p], ZapOf(t, p), t.hist[p]);
  }

  /** The exact condition on one write. */
  lemma WriteIsSafeIff(cfg: Config, w: System, r: nat, now: real)
    requires SystemInv(cfg, w) && r in w.recovering
    ensures Inv(cfg, Moved(cfg, w, WriteLegacy(r, now)).state) <==> Undisturbed(w, WriteLegacy(r, now))
  {
    KeysMatch(cfg, w.state);
    hide Inv, Extends;
    var picked := w.recovering[r];
    if Unsettling(w.state, picked) {
      WriteIsGood(cfg, w.state, picked, now);
    } else {
      var p :| p in picked && p in w.state.hist && w.state.hist[p].settled;
      SettledRowIsBroken(cfg, w.state, picked, now, p);
    }
  }

  // ---- runs whose writes are undisturbed ----

  predicate AllUndisturbed(cfg: Config, w: System, moves: seq<Move>)
    decreases |moves|
  {
    moves != [] ==> Undisturbed(w, moves[0]) && AllUndisturbed(cfg, Moved(cfg, w, moves[0]), moves[1..])
  }

  lemma LegacyIsQuoted(rows: Rows)
    ensures Quoted(rows, LegacyRows(rows))
  {
  }

  /** Stored quotes stay and no legacy row appears, so a recovery's rows remain what it needs. */
  lemma PickedStays(s: State, t: State, picked: set<string>)
    requires Extends(s, t) && Quoted(s.rows, picked) && s.hist.Keys == s.rows.Keys
    ensures Quoted(t.rows, picked) && LegacyRows(t.rows) <= LegacyRows(s.rows)
  {
  }

  lemma MoveIsGood(cfg: Config, w: System, m: Move)
    requires SystemInv(cfg, w) && Undisturbed(w, m)
    ensures SystemInv(cfg, Moved(cfg, w, m)) && Extends(w.state, Moved(cfg, w, m).state)
  {
    var v := Moved(cfg, w, m);
    KeysMatch(cfg, w.state);
    ExtendsItself(w.state, w.state);
    LegacyIsQuoted(w.state.rows);
    hide Inv, Extends, Next, Quoted, LegacyRows;
    match m {
      case Take(st) => NextIsGood(cfg, w.state, st);
      case WriteLegacy(r, now) =>
        if r in w.recovering { WriteIsGood(cfg, w.state, w.recovering[r], now); }
      case _ =>
    }
    forall r | r in v.recovering
      ensures Quoted(v.state.rows, v.recovering[r]) && LegacyRows(v.state.rows) <= v.recovering[r]
    {
      if r in w.recovering { PickedStays(w.state, v.state, w.recovering[r]); }
    }
  }

  lemma {:induction false} PlayIsGood(cfg: Config, w: System, moves: seq<Move>)
    requires SystemInv(cfg, w) && AllUndisturbed(cfg, w, moves)
    ensures SystemInv(cfg, Play(cfg, w, moves)) && Extends(w.state, Play(cfg, w, moves).state)
    decreases |moves|
  {
    ExtendsItself(w.state, w.state);
    hide Extends, Inv, Moved, Undisturbed;
    if moves != [] {
      var v := Moved(cfg, w, moves[0]);
      MoveIsGood(cfg, w, moves[0]);
      PlayIsGood(cfg, v, moves[1..]);
      KeysMatch(cfg, v.state);
      ExtendsTransitive(w.state, v.state, Play(cfg, v, moves[1..]).state);
    }
  }

  // ---- the process lock ----

  /** The steps of actors the lock does not stop: callbacks, operators, and processes that end. */
  predicate Unlocked(st: Step) {
    st.Enqueue? || st.ZapBegin? || st.ZapStore? || st.ZapFail? || st.Close? || st.Crash?
  }

  predicate Admits(w: System, m: Move) {
    match m
    case Take(st) => w.recovering == map[] || Unlocked(st)
    case SelectLegacy(_) => w.recovering == map[]
    case _ => true
  }

  /** A recovery finds no other worker, and nobody but callbacks and operators interrupts it. */
  predicate RecoversAlone(cfg: Config, w: System, moves: seq<Move>)
    decreases |moves|
  {
    moves != [] ==> Admits(w, moves[0]) && RecoversAlone(cfg, Moved(cfg, w, moves[0]), moves[1..])
  }

  /** What a worker has in hand; the callbacks' quotes are not its own. */
  predicate WorkerAct(act: Act) { !act.ZapQuoting? }

  predicate Idle(s: State) { forall b :: b in s.acts ==> !WorkerAct(s.acts[b]) }

  /**
   What one worker starts, going through its stages one after the other: a batch of polls together,
   each of another payment, and everything else only when it has nothing else in hand.
   */
  predicate InTurn(w: System, m: Move) {
    match m
    case SelectLegacy(_) => Idle(w.state)
    case Take(SelectDue(_, pid, _)) =>
      forall b :: b in w.state.acts && WorkerAct(w.state.acts[b]) ==> w.state.acts[b].Polling? && w.state.acts[b].pid != pid
    case Take(SelectPaid(_, _, _)) => Idle(w.state)
    case Take(SelectSettled(_, _, _)) => Idle(w.state)
    case Take(ClaimQuote(_, _, _)) => Idle(w.state)
    case Take(ClaimReceipt(_, _, _)) => Idle(w.state)
    case _ => true
  }

  predicate OneWorker(cfg: Config, w: System, moves: seq<Move>)
    decreases |moves|
  {
    moves != [] ==> InTurn(w, moves[0]) && OneWorker(cfg, Moved(cfg, w, moves[0]), moves[1..])
  }

  /** The lock admits one worker, which recovers before it does anything else and then does one thing at a time. */
  predicate Locked(cfg: Config, w: System, moves: seq<Move>) { RecoversAlone(cfg, w, moves) && OneWorker(cfg, w, moves) }

  /** One recovery at most is under way, and it has in hand exactly the rows it would select now. */
  predicate Current(w: System) {
    && (forall r, q :: r in w.recovering && q in w.recovering ==> r == q)
    && (forall r :: r in w.recovering ==> w.recovering[r] == LegacyRows(w.state.rows))
  }

  predicate SameLegacy(before: Rows, after: Rows) {
    LegacyRows(after) == LegacyRows(before) && forall p :: p in LegacyRows(before) ==> after[p] == before[p]
  }

  lemma SameIsSame(rows: Rows)
    ensures SameLegacy(rows, rows)
  {
  }

  lemma OneRowElsewhere(rows: Rows, pid: string, p: Payment)
    requires (pid in rows ==> !LegacyTimeout(rows[pid])) && !LegacyTimeout(p)
    ensures SameLegacy(rows, rows[pid := p])
  {
  }

  lemma QuoteIsNotLegacy(p: Payment, quote: string, invoice: string, text: string, now: real)
    requires text != LEGACY_TIMEOUT
    ensures !LegacyTimeout(Apply(p, StoreQuote(quote, invoice, now), now)) && !LegacyTimeout(Apply(p, FailQuote(text), now))
  {
  }

  lemma EnqueueLeavesLegacy(s: State, st: Step)
    requires st.Enqueue?
    ensures SameLegacy(s.rows, EnqueueStep(s, st).rows)
  {
    if EnqueueStep(s, st) != s {
      var p := EnqueueStep(s, st).rows[st.pid];
      assert !LegacyTimeout(p);
      hide LegacyTimeout, RequestTaken;
      OneRowElsewhere(s.rows, st.pid, p);
    }
  }

  lemma AnswerLeavesLegacy(cfg: Config, s: State, st: Step)
    requires st.ZapStore? || st.ZapFail?
    ensures SameLegacy(s.rows, Next(cfg, s, st).rows)
  {
    TextsAreNotLegacy(KindOf(st), "");
    var t := Next(cfg, s, st);
    if t.rows != s.rows {
      var pid := s.acts[st.act].pid;
      var p := s.rows[pid];
      var quote, invoice := if st.ZapStore? then st.quote else "", if st.ZapStore? then st.invoice else "";
      QuoteIsNotLegacy(p, quote, invoice, ZapQuoteText(KindOf(st)), st.now);
      assert p.status == QuoteCreating;
      assert t.rows[pid] == Apply(p, StoreQuote(quote, invoice, st.now), st.now)
             || t.rows[pid] == Apply(p, FailQuote(ZapQuoteText(KindOf(st))), st.now);
      assert !LegacyTimeout(p);
      hide LegacyTimeout, QuoteTaken, ZapQuoteText, Apply, StoreQuote, FailQuote;
      OneRowElsewhere(s.rows, pid, t.rows[pid]);
    }
  }

  lemma CloseLeavesLegacy(cfg: Config, s: State, st: Step)
    requires Inv(cfg, s) && st.Close?
    ensures SameLegacy(s.rows, CloseStep(s, st).rows)
  {
    if CloseStep(s, st) != s {
      assert PaymentInv(cfg, s.rows[st.pid], ZapOf(s, st.pid), s.hist[st.pid]);
      assert s.rows[st.pid].error != Some(LEGACY_TIMEOUT);
      OneRowElsewhere(s.rows, st.pid, CloseRow(s.rows[st.pid], st.now));
    }
  }

  /** Callbacks and operators neither touch a legacy row nor make one. */
  lemma OutsidersLeaveLegacy(cfg: Config, s: State, st: Step)
    requires Inv(cfg, s) && Unlocked(st)
    ensures SameLegacy(s.rows, Next(cfg, s, st).rows)
  {
    SameIsSame(s.rows);
    hide Inv, SameLegacy, RequestTaken, QuoteTaken, LegacyTimeout;
    if st.Enqueue? {
      EnqueueLeavesLegacy(s, st);
    } else if st.ZapStore? || st.ZapFail? {
      AnswerLeavesLegacy(cfg, s, st);
    } else if st.Close? {
      CloseLeavesLegacy(cfg, s, st);
    }
  }

  lemma LegacyIsUnsettled(cfg: Config, s: State)
    requires Inv(cfg, s)
    ensures Unsettling(s, LegacyRows(s.rows))
  {
    forall p | p in LegacyRows(s.rows) && p in s.hist
      ensures !s.hist[p].settled
    {
      assert PaymentInv(cfg, s.rows[p], ZapOf(s, p), s.hist[p]);
    }
  }

  lemma AdmittedMove(cfg: Config, w: System, m: Move)
    requires SystemInv(cfg, w) && Current(w) && Admits(w, m)
    ensures Undisturbed(w, m) && Current(Moved(cfg, w, m))
  {
    LegacyIsUnsettled(cfg, w.state);
    hide Inv, Next, Unsettling, LegacyRows, LegacyTimeout, Unlocked, ReviveAll;
    if m.Take? && w.recovering != map[] { OutsidersLeaveLegacy(cfg, w.state, m.step); }
  }

  /** What a run under the lock amounts to: a recovery happens in one step, when it writes. */
  function Atomic(cfg: Config, w: System, moves: seq<Move>): seq<Step>
    decreases |moves|
  {
    if moves == [] then []
    else
      var rest := Atomic(cfg, Moved(cfg, w, moves[0]), moves[1..]);
      match moves[0]
      case Take(st) => [st] + rest
      case WriteLegacy(r, now) => if r in w.recovering then [Reconcile(now)] + rest else rest
      case _ => rest
  }

  /** Under the lock no write is ever disturbed. */
  lemma {:induction false} LockedIsUndisturbed(cfg: Config, w: System, moves: seq<Move>)
    requires SystemInv(cfg, w) && Current(w) && RecoversAlone(cfg, w, moves)
    ensures AllUndisturbed(cfg, w, moves)
    decreases |moves|
  {
    hide SystemInv, Current, Admits, Moved, Undisturbed;
    if moves != [] {
      AdmittedMove(cfg, w, moves[0]);
      MoveIsGood(cfg, w, moves[0]);
      LockedIsUndisturbed(cfg, Moved(cfg, w, moves[0]), moves[1..]);
    }
  }

  /** Under the lock selecting and writing later is the same as recovering in one step. */
  lemma {:induction false} LockedIsAtomic(cfg: Config, w: System, moves: seq<Move>)
    requires SystemInv(cfg, w) && Current(w) && RecoversAlone(cfg, w, moves)
    ensures Play(cfg, w, moves).state == Run(cfg, w.state, Atomic(cfg, w, moves))
    decreases |moves|
  {
    hide Inv, Next, ReviveAll, LegacyRows;
    if moves != [] {
      AdmittedMove(cfg, w, moves[0]);
      MoveIsGood(cfg, w, moves[0]);
      LockedStep(cfg, w, moves);
      LockedIsAtomic(cfg, Moved(cfg, w, moves[0]), moves[1..]);
    }
  }

  lemma RunFirst(cfg: Config, s: State, st: Step, rest: seq<Step>)
    ensures Run(cfg, s, [st] + rest) == Run(cfg, Next(cfg, s, st), rest)
  {
    hide Next;
    assert ([st] + rest)[1..] == rest;
  }

  lemma {:induction false} LockedStep(cfg: Config, w: System, moves: seq<Move>)
    requires moves != [] && Current(w)
    ensures var v := Moved(cfg, w, moves[0]);
            Run(cfg, w.state, Atomic(cfg, w, moves)) == Run(cfg, v.state, Atomic(cfg, v, moves[1..]))
  {
    var rest := Atomic(cfg, Moved(cfg, w, moves[0]), moves[1..]);
    if moves[0].Take? {
      hide Next, Run;
      RunFirst(cfg, w.state, moves[0].step, rest);
    } else if moves[0].WriteLegacy? && moves[0].recovery in w.recovering {
      hide Run, LegacyRows;
      RunFirst(cfg, w.state, Reconcile(moves[0].now), rest);
    }
  }
}
