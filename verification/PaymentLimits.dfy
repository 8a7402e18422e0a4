/**
 Where the process lock matters. Without it three things the code relies on fail: the
 attempts are counted by a compare-and-swap that compares `status` only, a settled payment
 is left alone only by who selects it afterwards, and legacy recovery writes the rows it
 selected without comparing anything.
 */
module PaymentLimits {
  import opened Prelude
  import opened PaymentRows
  import opened PaymentMachine
  import opened LegacyRecovery
  import opened PaymentTheorems

  const P := "p"
  const TWO := Config(2, 2.0, 60.0)

  /** The machine with no recovery under way. */
  function Alone(s: State): System { System(s, map[]) }

  lemma {:induction false} UndisturbedAppends(cfg: Config, w: System, a: seq<Move>, b: seq<Move>)
    requires AllUndisturbed(cfg, w, a) && AllUndisturbed(cfg, Play(cfg, w, a), b)
    ensures AllUndisturbed(cfg, w, a + b)
    decreases |a|
  {
    hide Moved, Undisturbed;
    if a == [] {
      assert a + b == b;
    } else {
      assert (a + b)[0] == a[0] && (a + b)[1..] == a[1..] + b;
      UndisturbedAppends(cfg, Moved(cfg, w, a[0]), a[1..], b);
    }
  }

  lemma PlayOne(cfg: Config, w: System, m: Move)
    ensures Play(cfg, w, [m]) == Moved(cfg, w, m) && (AllUndisturbed(cfg, w, [m]) <==> Undisturbed(w, m))
  {
    assert [m][1..] == [];
    assert Play(cfg, Moved(cfg, w, m), []) == Moved(cfg, w, m);
    hide Moved, Undisturbed;
  }

  lemma {:induction false} ReachableStep(cfg: Config, s: State, st: Step)
    requires Reachable(cfg, Alone(s))
    ensures Reachable(cfg, Alone(Next(cfg, s, st)))
  {
    var w0, moves :| Start(w0) && AllUndisturbed(cfg, w0, moves) && Alone(s) == Play(cfg, w0, moves);
    PlayOne(cfg, Alone(s), Take(st));
    PlayAppends(cfg, w0, moves, [Take(st)]);
    UndisturbedAppends(cfg, w0, moves, [Take(st)]);
    assert Play(cfg, w0, moves + [Take(st)]) == Alone(Next(cfg, s, st));
  }

  // ---- driving one payment from an unsettled row to a send ----

  /** Rows an idle actor can settle: due at `now`, with a quote to check. */
  predicate Pollable(s: State, pid: string, now: real) {
    && Known(s, pid) && Unsettled(s.rows[pid]) && DueAt(s.rows[pid], now)
    && s.rows[pid].mintQuote.Some? && s.rows[pid].mintQuote.value != ""
  }

  lemma SettleRow(cfg: Config, s: State, a: nat, pid: string, now: real) returns (t: State, steps: seq<Step>)
    requires Pollable(s, pid, now) && a !in s.acts
    ensures steps == [SelectDue(a, pid, now), PollResult(a, PollPaid, now), SelectPaid(a, pid, now), MintResult(a, MintPaid, now)]
    ensures t == Next(cfg, Next(cfg, Next(cfg, Next(cfg, s, steps[0]), steps[1]), steps[2]), steps[3])
    ensures Known(t, pid) && t.rows[pid].status.Settled? && t.rows[pid].nextCheckAt.None?
    ensures t.rows[pid].deliveryAttempts == s.rows[pid].deliveryAttempts && t.rows[pid].mintQuote == s.rows[pid].mintQuote
    ensures t.hist[pid] == s.hist[pid].(settled := true) && t.acts == s.acts && t.zaps == s.zaps
  {
    steps := [SelectDue(a, pid, now), PollResult(a, PollPaid, now), SelectPaid(a, pid, now), MintResult(a, MintPaid, now)];
    var s2 := PollPaidRow(cfg, s, a, pid, now);
    t := MintPaidRow(cfg, s2, a, pid, now);
  }

  lemma PollPaidRow(cfg: Config, s: State, a: nat, pid: string, now: real) returns (t: State)
    requires Pollable(s, pid, now) && a !in s.acts
    ensures t == Next(cfg, Next(cfg, s, SelectDue(a, pid, now)), PollResult(a, PollPaid, now))
    ensures t == s.(rows := t.rows) && Known(t, pid) && t.rows[pid].status.PaidReconciliationPending?
    ensures t.rows[pid].nextCheckAt.None? && t.rows[pid].mintQuote == s.rows[pid].mintQuote
    ensures t.rows[pid].deliveryAttempts == s.rows[pid].deliveryAttempts
  {
    var u := Next(cfg, s, SelectDue(a, pid, now));
    assert u == Begin(s, a, Polling(pid, s.rows[pid]));
    t := Next(cfg, u, PollResult(a, PollPaid, now));
    assert t.acts == s.acts && t.hist == s.hist;
  }

  lemma MintPaidRow(cfg: Config, s: State, a: nat, pid: string, now: real) returns (t: State)
    requires Known(s, pid) && s.rows[pid].status.PaidReconciliationPending? && a !in s.acts
    requires s.rows[pid].nextCheckAt.None? && s.rows[pid].mintQuote.Some? && s.rows[pid].mintQuote.value != ""
    ensures t == Next(cfg, Next(cfg, s, SelectPaid(a, pid, now)), MintResult(a, MintPaid, now))
    ensures Known(t, pid) && t.rows[pid].status.Settled? && t.rows[pid].nextCheckAt.None?
    ensures t.rows[pid].deliveryAttempts == s.rows[pid].deliveryAttempts && t.rows[pid].mintQuote == s.rows[pid].mintQuote
    ensures t.hist[pid] == s.hist[pid].(settled := true) && t.acts == s.acts && t.zaps == s.zaps
  {
    var u := Next(cfg, s, SelectPaid(a, pid, now));
    assert u == Begin(s, a, Minting(pid, s.rows[pid]));
    t := Next(cfg, u, MintResult(a, MintPaid, now));
    assert t.acts == s.acts;
  }

  lemma StartRow(cfg: Config, s: State, a: nat, pid: string, now: real) returns (t: State, steps: seq<Step>)
    requires Known(s, pid) && s.rows[pid].status.Settled? && s.rows[pid].nextCheckAt.None? && a !in s.acts
    ensures steps == [SelectSettled(a, pid, now), ClaimSend(a, now), StartSend(a)]
    ensures t == Next(cfg, Next(cfg, Next(cfg, s, steps[0]), steps[1]), steps[2])
    ensures Known(t, pid) && t.rows[pid].status.Delivering? && t.rows[pid].mintQuote == s.rows[pid].mintQuote
    ensures t.hist[pid].sends == s.hist[pid].sends + [Unreported]
    ensures t.acts.Keys == s.acts.Keys + {a}
  {
    steps := [SelectSettled(a, pid, now), ClaimSend(a, now), StartSend(a)];
    var s1 := Next(cfg, s, steps[0]);
    assert s1 == Begin(s, a, SettledSeen(pid, s.rows[pid], s.hist[pid].claims));
    var s2 := Next(cfg, s1, steps[1]);
    assert s2.acts[a] == SendClaimed(pid, s.rows[pid].deliveryAttempts + 1);
    t := Next(cfg, s2, steps[2]);
  }

  // ---- the delivery allowance ----

  /** Actors lo..hi-1 all hold the candidate they read while no delivery had been claimed. */
  predicate Holding(s: State, lo: nat, hi: nat) {
    && (forall a :: lo <= a < hi ==> a in s.acts && s.acts[a].SettledSeen? && s.acts[a].pid == P && s.acts[a].seen.deliveryAttempts == 0)
    && (forall a :: a in s.acts ==> a < hi)
  }

  const ENQUEUE := Enqueue(P, 1, "alice", 21000, "mint", None, false, 0.0)
  const EMPTY := State(map[], map[], map[], map[])

  lemma EnqueuedState() returns (t: State)
    ensures t == Next(TWO, EMPTY, ENQUEUE)
    ensures t.acts == map[] && t.rows.Keys == {P} && Known(t, P) && t.hist[P] == NEW
    ensures t.rows[P].status.QuotePending? && t.rows[P].deliveryAttempts == 0
  {
    t := Next(TWO, EMPTY, ENQUEUE);
  }

  lemma QuotedSteps(s: State) returns (u: State, t: State)
    requires s.acts == map[] && s.rows.Keys == {P} && Known(s, P) && s.hist[P] == NEW
    requires s.rows[P].status.QuotePending? && s.rows[P].deliveryAttempts == 0
    ensures u == Next(TWO, s, ClaimQuote(0, P, 0.0)) && t == Next(TWO, u, WorkerStore(0, "q", "i", 0.0))
    ensures Pollable(t, P, 0.0) && t.acts == map[]
    ensures t.rows[P].deliveryAttempts == 0 && t.hist[P].sends == []
  {
    u := Next(TWO, s, ClaimQuote(0, P, 0.0));
    assert u.acts == map[0 := WorkerQuoting(P)] && Known(u, P) && u.rows[P].status.WorkerQuoteCreating?;
    assert !QuoteTaken(u.rows, P, "q");
    t := Next(TWO, u, WorkerStore(0, "q", "i", 0.0));
    assert t.acts == map[];
  }

  lemma Quoted() returns (t: State)
    ensures Reachable(TWO, Alone(t)) && Pollable(t, P, 0.0) && t.acts == map[]
    ensures t.rows[P].deliveryAttempts == 0 && t.hist[P].sends == []
  {
    assert Play(TWO, Alone(EMPTY), []) == Alone(EMPTY) && Start(Alone(EMPTY)) && AllUndisturbed(TWO, Alone(EMPTY), []);
    assert Reachable(TWO, Alone(EMPTY));
    hide Reachable, Next;
    var s := EnqueuedState();
    ReachableStep(TWO, EMPTY, ENQUEUE);
    var u, v := QuotedSteps(s);
    ReachableStep(TWO, s, ClaimQuote(0, P, 0.0));
    ReachableStep(TWO, u, WorkerStore(0, "q", "i", 0.0));
    t := v;
  }

  lemma FirstSettled() returns (t: State)
    ensures Reachable(TWO, Alone(t)) && Known(t, P) && t.rows[P].status.Settled? && t.rows[P].nextCheckAt.None?
    ensures t.rows[P].deliveryAttempts == 0 && t.hist[P].sends == [] && t.acts == map[]
  {
    hide Reachable, Next, Pollable;
    var s := Quoted();
    var steps;
    t, steps := SettleRow(TWO, s, 0, P, 0.0);
    FourSteps(TWO, s, steps);
  }

  lemma {:induction false} EverybodyLooks(n: nat) returns (t: State)
    ensures Reachable(TWO, Alone(t)) && Known(t, P) && t.rows[P].status.Settled? && t.rows[P].nextCheckAt.None?
    ensures t.rows[P].deliveryAttempts == 0 && t.hist[P].sends == [] && Holding(t, 0, n)
  {
    hide Reachable;
    if n == 0 {
      t := FirstSettled();
    } else {
      var s := EverybodyLooks(n - 1);
      var look := SelectSettled(n - 1, P, 0.0);
      assert n - 1 !in s.acts;
      t := Next(TWO, s, look);
      assert t == Begin(s, n - 1, SettledSeen(P, s.rows[P], s.hist[P].claims));
      hide Next;
      ReachableStep(TWO, s, look);
    }
  }

  lemma ClaimAndStart(s: State, a: nat) returns (u: State, t: State)
    requires Known(s, P) && s.rows[P].status.Settled? && a in s.acts && s.acts[a].SettledSeen?
    requires s.acts[a].pid == P && s.acts[a].seen.deliveryAttempts == 0
    ensures u == Next(TWO, s, ClaimSend(a, 0.0)) && t == Next(TWO, u, StartSend(a))
    ensures Known(t, P) && t.rows[P].status.Delivering? && t.rows[P].deliveryAttempts == 1
    ensures t.hist[P].sends == s.hist[P].sends + [Unreported] && t.acts == s.acts[a := Sending(P, 1, |s.hist[P].sends|)]
  {
    u := Next(TWO, s, ClaimSend(a, 0.0));
    assert u.acts == s.acts[a := SendClaimed(P, 1)];
    t := Next(TWO, u, StartSend(a));
    assert t.acts == s.acts[a := Sending(P, 1, |s.hist[P].sends|)];
  }

  lemma RetryAndRelease(s: State, a: nat) returns (u: State, t: State, fin: Step)
    requires Known(s, P) && s.rows[P].status.Delivering? && s.rows[P].deliveryAttempts == 1
    requires a in s.acts && |s.hist[P].sends| > 0 && s.acts[a] == Sending(P, 1, |s.hist[P].sends| - 1)
    ensures u == Next(TWO, s, SendReturns(a, Retryable)) && t == Next(TWO, u, fin)
    ensures Known(t, P) && t.rows[P].status.Settled? && t.rows[P].deliveryAttempts == 1
    ensures |t.hist[P].sends| == |s.hist[P].sends| && t.acts == s.acts - {a}
  {
    hide RetryText;
    u := Next(TWO, s, SendReturns(a, Retryable));
    assert u.acts == s.acts[a := SendReturned(P, 1, |s.hist[P].sends| - 1)] && u.rows == s.rows;
    fin := FinishSend(a, None, false, "RetryablePreSwapError", "", 0.0);
    t := Next(TWO, u, fin);
    assert t.acts == s.acts - {a};
  }

  lemma RetryRound(s: State, a: nat, hi: nat) returns (t: State)
    requires Reachable(TWO, Alone(s)) && Known(s, P) && s.rows[P].status.Settled? && a < hi && Holding(s, a, hi)
    ensures Reachable(TWO, Alone(t)) && Known(t, P) && t.rows[P].status.Settled?
    ensures t.rows[P].deliveryAttempts == 1 && |t.hist[P].sends| == |s.hist[P].sends| + 1 && Holding(t, a + 1, hi)
  {
    hide Reachable, Next;
    var s1, s2 := ClaimAndStart(s, a);
    var s3, u, fin := RetryAndRelease(s2, a);
    ReachableStep(TWO, s, ClaimSend(a, 0.0));
    ReachableStep(TWO, s1, StartSend(a));
    ReachableStep(TWO, s2, SendReturns(a, Retryable));
    ReachableStep(TWO, s3, fin);
    t := u;
  }

  lemma {:induction false} Rounds(n: nat, k: nat) returns (t: State)
    requires k <= n
    ensures Reachable(TWO, Alone(t)) && Known(t, P) && t.rows[P].status.Settled?
    ensures t.rows[P].deliveryAttempts <= 1 && |t.hist[P].sends| == k && Holding(t, k, n)
    decreases k
  {
    if k == 0 {
      t := EverybodyLooks(n);
    } else {
      var s := Rounds(n, k - 1);
      t := RetryRound(s, k - 1, n);
    }
  }

  /**
   Without the lock the allowance bounds nothing: with two attempts allowed, any
   number of sends can be started while delivery_attempts never passes one.
   */
  lemma UnlockedWorkersOvershoot(n: nat)
    ensures exists s :: Reachable(TWO, Alone(s)) && Known(s, P) && |s.hist[P].sends| == n && s.rows[P].deliveryAttempts <= 1
  {
    var t := Rounds(n, n);
  }

  /**
   Nor is a settled payment left alone: two workers select it for a poll, one of them settles it,
   and the other has it in hand still.
   */
  lemma {:induction false} UnlockedWorkersLookAgain()
    ensures exists s :: Reachable(TWO, Alone(s)) && Known(s, P) && s.hist[P].settled && !LeftAlone(s)
  {
    hide Reachable;
    var s := Quoted();
    var look := SelectDue(1, P, 0.0);
    var u := Next(TWO, s, look);
    assert u == Begin(s, 1, Polling(P, s.rows[P])) && Pollable(u, P, 0.0);
    hide Next;
    ReachableStep(TWO, s, look);
    var t, steps := SettleRow(TWO, u, 0, P, 0.0);
    FourSteps(TWO, u, steps);
    assert t.acts[1] == Polling(P, s.rows[P]) && LooksAt(t.acts[1]);
  }

  lemma {:induction false} FourSteps(cfg: Config, s: State, l: seq<Step>)
    requires |l| == 4 && Reachable(cfg, Alone(s))
    ensures Reachable(cfg, Alone(Next(cfg, Next(cfg, Next(cfg, Next(cfg, s, l[0]), l[1]), l[2]), l[3])))
  {
    hide Reachable, Next;
    ReachableStep(cfg, s, l[0]);
    ReachableStep(cfg, Next(cfg, s, l[0]), l[1]);
    ReachableStep(cfg, Next(cfg, Next(cfg, s, l[0]), l[1]), l[2]);
    ReachableStep(cfg, Next(cfg, Next(cfg, Next(cfg, s, l[0]), l[1]), l[2]), l[3]);
  }

  // ---- legacy recovery ----

  const LEGACY_ROW := Payment(1, "alice", 21, "mint", Failed, Some("q"), Some("i"), None, Some(LEGACY_TIMEOUT), 60, 0, 0.0, 0.0, None)

  function Takes(steps: seq<Step>): seq<Move> { seq(|steps|, i requires 0 <= i < |steps| => Take(steps[i])) }

  lemma {:induction false} PlayTakes(cfg: Config, w: System, steps: seq<Step>)
    ensures Play(cfg, w, Takes(steps)) == w.(state := Run(cfg, w.state, steps))
    decreases |steps|
  {
    hide Next;
    if steps != [] {
      assert Takes(steps)[0] == Take(steps[0]) && Takes(steps)[1..] == Takes(steps[1..]);
      PlayTakes(cfg, Moved(cfg, w, Take(steps[0])), steps[1..]);
    }
  }

  /** A write of its row lets a payment be sent again, whatever has become of its earlier sends. */
  lemma {:induction false} AnyWriteSendsAgain(cfg: Config, w: System, r: nat, pid: string, a: nat, now: real)
    returns (v: System, moves: seq<Move>)
    requires r in w.recovering && pid in w.recovering[r] && Known(w.state, pid) && a !in w.state.acts
    requires w.state.rows[pid].mintQuote.Some? && w.state.rows[pid].mintQuote.value != ""
    ensures v == Play(cfg, w, [WriteLegacy(r, now)] + moves) && v.recovering == w.recovering - {r}
    ensures Known(v.state, pid) && v.state.hist[pid].sends == w.state.hist[pid].sends + [Unreported]
    ensures v.state.rows[pid].mintQuote == w.state.rows[pid].mintQuote && v.state.acts.Keys == w.state.acts.Keys + {a}
  {
    var write := WriteLegacy(r, now);
    var u := Moved(cfg, w, write);
    assert u.state.rows[pid] == Revive(w.state.rows[pid], now) && Pollable(u.state, pid, now);
    var t, steps := Drive(cfg, u.state, a, pid, now);
    v, moves := u.(state := t), Takes(steps);
    PlayTakes(cfg, u, steps);
    assert ([write] + moves)[1..] == moves;
  }

  lemma TwoSelections(cfg: Config, w0: System, picked: set<string>)
    requires w0.recovering == map[] && picked == LegacyRows(w0.state.rows)
    ensures Play(cfg, w0, [SelectLegacy(0), SelectLegacy(1)]) == System(w0.state, map[0 := picked, 1 := picked])
  {
    hide LegacyRows, Play;
    var one := Moved(cfg, w0, SelectLegacy(0));
    assert one == System(w0.state, map[0 := picked]);
    PlayOne(cfg, w0, SelectLegacy(0));
    PlayOne(cfg, one, SelectLegacy(1));
    PlayAppends(cfg, w0, [SelectLegacy(0)], [SelectLegacy(1)]);
    assert [SelectLegacy(0)] + [SelectLegacy(1)] == [SelectLegacy(0), SelectLegacy(1)];
  }

  lemma LegacyStart() returns (w: System)
    ensures Start(w) && Known(w.state, P) && w.state.rows[P] == LEGACY_ROW && w.state.hist[P] == NEW
    ensures LegacyRows(w.state.rows) == {P} && w.state.acts == map[]
  {
    w := Alone(State(map[P := LEGACY_ROW], map[], map[P := NEW], map[]));
  }

  /**
   So without the lock recovery publishes twice: two of them select the row, one writes it, the
   payment is settled and sent, and the other's write has it sent again while nothing was reported.
   */
  lemma {:induction false} StaleRecoveryPublishesTwice(cfg: Config)
    ensures exists w, moves ::
      Start(w) && Known(Play(cfg, w, moves).state, P) && Play(cfg, w, moves).state.hist[P].sends == [Unreported, Unreported]
  {
    var w0 := LegacyStart();
    hide LegacyRows, Play, Moved, Start;
    var picks := [SelectLegacy(0), SelectLegacy(1)];
    TwoSelections(cfg, w0, {P});
    var x, first := AnyWriteSendsAgain(cfg, Play(cfg, w0, picks), 1, P, 0, 0.0);
    var y, second := AnyWriteSendsAgain(cfg, x, 0, P, 1, 0.0);
    var sent, again := [WriteLegacy(1, 0.0)] + first, [WriteLegacy(0, 0.0)] + second;
    PlayAppends(cfg, w0, picks, sent);
    PlayAppends(cfg, w0, picks + sent, again);
    assert Play(cfg, w0, picks + sent + again) == y && y.state.hist[P].sends == [Unreported, Unreported];
  }

  lemma {:induction false} Drive(cfg: Config, s: State, a: nat, pid: string, now: real) returns (t: State, steps: seq<Step>)
    requires Pollable(s, pid, now) && a !in s.acts
    ensures t == Run(cfg, s, steps)
    ensures Known(t, pid) && t.rows[pid].mintQuote == s.rows[pid].mintQuote
    ensures t.hist[pid].sends == s.hist[pid].sends + [Unreported]
    ensures t.acts.Keys == s.acts.Keys + {a}
  {
    var m, one := SettleRow(cfg, s, a, pid, now);
    var u, two := StartRow(cfg, m, a, pid, now);
    t, steps := u, one + two;
    Unroll4(cfg, s, one);
    Unroll3(cfg, m, two);
    RunAppends(cfg, s, one, two);
  }

  lemma {:induction false} Unroll3(cfg: Config, s: State, l: seq<Step>)
    requires |l| == 3
    ensures Run(cfg, s, l) == Next(cfg, Next(cfg, Next(cfg, s, l[0]), l[1]), l[2])
  {
    hide Next;
    assert l[1..][0] == l[1] && l[1..][1..][0] == l[2] && l[1..][1..][1..] == [];
    assert Run(cfg, s, l) == Run(cfg, Next(cfg, s, l[0]), l[1..]);
    assert Run(cfg, Next(cfg, s, l[0]), l[1..]) == Run(cfg, Next(cfg, Next(cfg, s, l[0]), l[1]), l[1..][1..]);
  }

  lemma {:induction false} Unroll4(cfg: Config, s: State, l: seq<Step>)
    requires |l| == 4
    ensures Run(cfg, s, l) == Next(cfg, Next(cfg, Next(cfg, Next(cfg, s, l[0]), l[1]), l[2]), l[3])
  {
    hide Next;
    Unroll3(cfg, Next(cfg, s, l[0]), l[1..]);
  }
}
