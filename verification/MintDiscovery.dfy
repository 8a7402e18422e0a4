/**
 Settlement discovery: reading quote states from mints that may be rate limiting
 or down, and the per-mint cooldown that keeps the worker from hammering them.
 Times are seconds on one clock.
 */
module MintDiscovery {
  import opened Prelude
  import opened PaymentRows
  import opened PaymentMachine

  datatype Cooldown = Cooldown(until: real, failures: nat)

  const CALM := Cooldown(0.0, 0)

  datatype Reply =
    | QuoteState(paid: bool)
    | Http(status: int, retryAfter: real)
    | Timeout
    | OtherFailure(quoteGone: bool)

  /** One turn of a mint's lock: when it was taken, what came back and when. */
  datatype Turn = Turn(mint: string, hasQuote: bool, asked: real, reply: Reply, summary: string, jitter: real, answered: real)

  /** What the batch loop sees of one invoice; `summary` is the redacted error text. */
  datatype Finding = QuoteMissing | Deferred | Replied(reply: Reply, summary: string)

  predicate Transient(r: Reply) {
    r.Timeout? || (r.Http? && (r.status == 429 || r.status >= 500))
  }

  function Backoff(failures: nat): real {
    MinR(300.0, 5.0 * Pow2(Min(Max(0, failures - 1), 6)))
  }

  function Delay(failures: nat, jitter: real, r: Reply): real {
    var backedOff := MinR(300.0, Backoff(failures) * jitter);
    if !r.Http? then backedOff
    else
      var asTold := MaxR(backedOff, r.retryAfter);
      if r.status == 429 then MaxR(60.0, asTold) else asTold
  }

  function StateOf(states: map<string, Cooldown>, mint: string): Cooldown {
    if mint in states then states[mint] else CALM
  }

  /** No request is made without a quote, or while the mint cools down. */
  predicate Requests(states: map<string, Cooldown>, t: Turn) {
    t.hasQuote && !(StateOf(states, t.mint).until > t.asked)
  }

  function After(c: Cooldown, t: Turn): Cooldown {
    if t.reply.QuoteState? then c.(failures := 0)
    else if Transient(t.reply) then Cooldown(t.answered + Delay(c.failures + 1, t.jitter, t.reply), c.failures + 1)
    else c
  }

  function TurnStates(states: map<string, Cooldown>, t: Turn): map<string, Cooldown> {
    if !t.hasQuote then states
    else if Requests(states, t) then states[t.mint := After(StateOf(states, t.mint), t)]
    else states[t.mint := StateOf(states, t.mint)]
  }

  function TurnFinding(states: map<string, Cooldown>, t: Turn): Finding {
    if !t.hasQuote then QuoteMissing else if Requests(states, t) then Replied(t.reply, t.summary) else Deferred
  }

  function Played(states: map<string, Cooldown>, turns: seq<Turn>): map<string, Cooldown> {
    if turns == [] then states else TurnStates(Played(states, turns[..|turns| - 1]), turns[|turns| - 1])
  }

  /** The jitter is drawn from [1, 1.2], a Retry-After is clamped at zero, a call takes time. */
  predicate Sane(t: Turn) {
    1.0 <= t.jitter <= 1.2 && 0.0 <= t.asked <= t.answered && (t.reply.Http? ==> t.reply.retryAfter >= 0.0)
  }

  /** Turns on one mint are serialized by its lock; different mints may overlap. */
  predicate Serialized(turns: seq<Turn>) {
    && (forall i :: 0 <= i < |turns| ==> Sane(turns[i]))
    && (forall i, j :: 0 <= i < j < |turns| && turns[i].mint == turns[j].mint ==> turns[i].answered <= turns[j].asked)
  }

  lemma BackoffIsPositive(failures: nat)
    ensures Backoff(failures) >= 5.0
  {
    Pow2Positive(Min(Max(0, failures - 1), 6));
  }

  /** Every transient failure waits at least the backoff, the mint's Retry-After, and a minute on 429. */
  lemma DelayIsLongEnough(failures: nat, jitter: real, r: Reply)
    requires 1.0 <= jitter && failures >= 1 && (r.Http? ==> r.retryAfter >= 0.0)
    ensures Delay(failures, jitter, r) >= MinR(300.0, 5.0 * Pow2(Min(failures - 1, 6))) >= 5.0
    ensures r.Http? ==> Delay(failures, jitter, r) >= r.retryAfter
    ensures r.Http? && r.status == 429 ==> Delay(failures, jitter, r) >= 60.0
    ensures Delay(failures, jitter, r) <= MaxR(300.0, if r.Http? then r.retryAfter else 0.0)
  {
    BackoffIsPositive(failures);
    Stretch(Backoff(failures), jitter);
  }

  lemma Stretch(x: real, k: real)
    requires x >= 0.0 && k >= 1.0
    ensures x * k >= x
  {
    assert x * k - x == x * (k - 1.0);
  }

  /** The delay itself: five seconds, doubled by each further failure up to five minutes, stretched by the jitter, and never short of what the mint asked for. */
  lemma {:induction false} DelayDoubles(n: nat, jitter: real, r: Reply)
    requires n > 0 && jitter >= 1.0 && (r.Http? ==> r.retryAfter >= 0.0)
    ensures Delay(1, 1.0, Timeout) == 5.0
    ensures Delay(n + 1, 1.0, Timeout) == MinR(300.0, Delay(n, 1.0, Timeout) + Delay(n, 1.0, Timeout))
    ensures !r.Http? ==> Delay(n, jitter, r) == MinR(300.0, Delay(n, 1.0, Timeout) * jitter)
    ensures r.Http? ==> var least := if r.status == 429 && r.retryAfter < 60.0 then 60.0 else r.retryAfter;
                        Delay(n, jitter, r) == MaxR(Delay(n, jitter, Timeout), least)
  {
    BackoffIsPositive(n);
    BackoffIsPositive(n + 1);
    Stretch(300.0, jitter);
    assert Backoff(n) * 1.0 == Backoff(n) && Backoff(n + 1) * 1.0 == Backoff(n + 1);
    BackoffDoubles(n);
  }

  lemma BackoffDoubles(n: nat)
    requires n > 0
    ensures Backoff(1) == 5.0 && Backoff(n + 1) == MinR(300.0, 2.0 * Backoff(n))
  {
    assert Pow2(0) == 1.0;
    if n - 1 >= 6 {
      assert Pow2(1) == 2.0 && Pow2(2) == 4.0 && Pow2(3) == 8.0;
      assert Pow2(4) == 16.0 && Pow2(5) == 32.0 && Pow2(6) == 64.0;
    } else {
      assert Pow2(n) == 2.0 * Pow2(n - 1);
    }
  }

  /** What one turn does to its mint: nothing without a request, a clean slate on an answer, a later deadline when the mint is overloaded, failing or silent. */
  lemma TurnEffect(states: map<string, Cooldown>, t: Turn)
    ensures var c, d := StateOf(states, t.mint), StateOf(TurnStates(states, t), t.mint);
            && (forall m :: m in states && m != t.mint ==> m in TurnStates(states, t) && TurnStates(states, t)[m] == states[m])
            && if !t.hasQuote || t.asked < c.until then d == c && !TurnFinding(states, t).Replied?
               else
                 && TurnFinding(states, t) == Replied(t.reply, t.summary)
                 && match t.reply
                    case QuoteState(_) => d.failures == 0 && d.until == c.until
                    case Timeout => d == Cooldown(t.answered + Delay(c.failures + 1, t.jitter, t.reply), c.failures + 1)
                    case Http(status, _) =>
                      if status == 429 || status >= 500 then d == Cooldown(t.answered + Delay(c.failures + 1, t.jitter, t.reply), c.failures + 1)
                      else d == c
                    case OtherFailure(_) => d == c
  {
    hide Delay;
  }

  lemma TurnOnlyPostpones(states: map<string, Cooldown>, t: Turn, mint: string)
    requires Sane(t)
    ensures StateOf(TurnStates(states, t), mint).until >= StateOf(states, mint).until
    ensures Requests(states, t) && Transient(t.reply) ==>
              StateOf(TurnStates(states, t), t.mint).until
              == t.answered + Delay(StateOf(states, t.mint).failures + 1, t.jitter, t.reply) >= t.answered + 5.0
  {
    if Requests(states, t) && Transient(t.reply) {
      DelayIsLongEnough(StateOf(states, t.mint).failures + 1, t.jitter, t.reply);
    }
  }

  lemma {:induction false} CooldownsOnlyGrow(states: map<string, Cooldown>, turns: seq<Turn>, i: nat, mint: string)
    requires i <= |turns| && forall k :: 0 <= k < |turns| ==> Sane(turns[k])
    ensures StateOf(Played(states, turns), mint).until >= StateOf(Played(states, turns[..i]), mint).until
  {
    if i == |turns| {
      assert turns[..i] == turns;
    } else {
      var n := |turns| - 1;
      CooldownsOnlyGrow(states, turns[..n], i, mint);
      assert turns[..n][..i] == turns[..i];
      TurnOnlyPostpones(Played(states, turns[..n]), turns[n], mint);
    }
  }

  /**
   The cooldown is respected: whenever turn j asks its mint, it is at least the
   computed delay after every earlier transient failure of that mint, and past
   the deadline the walk began with.
   */
  lemma {:induction false} CooldownIsRespected(states: map<string, Cooldown>, turns: seq<Turn>, i: nat, j: nat)
    requires Serialized(turns) && i < j < |turns| && turns[i].mint == turns[j].mint
    requires Requests(Played(states, turns[..j]), turns[j])
    requires Requests(Played(states, turns[..i]), turns[i]) && Transient(turns[i].reply)
    ensures turns[j].asked >= StateOf(states, turns[j].mint).until
    ensures turns[j].asked >= turns[i].answered
              + Delay(StateOf(Played(states, turns[..i]), turns[i].mint).failures + 1, turns[i].jitter, turns[i].reply)
  {
    hide Delay, Backoff, After, Played, TurnStates, Transient, StateOf, Sane;
    var mint := turns[j].mint;
    PrefixesGrow(states, turns, 0, j, mint);
    PrefixesGrow(states, turns, i + 1, j, mint);
    PlayedPrefix(states, turns, i);
    var ready := StateOf(Played(states, turns[..j]), mint).until;
    assert turns[j].asked >= ready;
    TurnOnlyPostpones(Played(states, turns[..i]), turns[i], mint);
    assert ready >= StateOf(TurnStates(Played(states, turns[..i]), turns[i]), mint).until;
  }

  lemma {:induction false} PrefixesGrow(states: map<string, Cooldown>, turns: seq<Turn>, i: nat, j: nat, mint: string)
    requires Serialized(turns) && i <= j <= |turns|
    ensures StateOf(Played(states, turns[..j]), mint).until >= StateOf(Played(states, turns[..i]), mint).until
    ensures Played(states, turns[..0]) == states
  {
    CooldownsOnlyGrow(states, turns[..j], i, mint);
    assert turns[..j][..i] == turns[..i];
  }

  lemma PlayedPrefix(states: map<string, Cooldown>, turns: seq<Turn>, i: nat)
    requires i < |turns|
    ensures Played(states, turns[..i + 1]) == TurnStates(Played(states, turns[..i]), turns[i])
  {
    assert turns[..i + 1][..i] == turns[..i];
  }

  /** Failures count the transient failures since the last answer; other errors neither add nor reset. */
  function Streak(turns: seq<Turn>, states: map<string, Cooldown>, mint: string): nat {
    if turns == [] then StateOf(states, mint).failures
    else
      var n := |turns| - 1;
      var t, earlier := turns[n], Streak(turns[..n], states, mint);
      if t.mint != mint || !Requests(Played(states, turns[..n]), t) then earlier
      else if t.reply.QuoteState? then 0
      else if Transient(t.reply) then earlier + 1 else earlier
  }

  lemma {:induction false} FailuresAreTheStreak(states: map<string, Cooldown>, turns: seq<Turn>, mint: string)
    ensures StateOf(Played(states, turns), mint).failures == Streak(turns, states, mint)
  {
    if turns != [] {
      FailuresAreTheStreak(states, turns[..|turns| - 1], mint);
    }
  }

  function RecheckSeconds(age: real): real {
    if age < 300.0 then 5.0 else if age < 3600.0 then 30.0 else if age < 86400.0 then 300.0 else 1800.0
  }

  /** What the worker makes of one finding. */
  function Verdict(states: map<string, Cooldown>, p: Payment, f: Finding, now: real): PollOutcome {
    if f.Replied? && f.reply.QuoteState? then
      if f.reply.paid then PollPaid else PollUnpaid(RecheckSeconds(MaxR(0.0, now - p.createdAt)))
    else if f.Replied? && f.reply.OtherFailure? && f.reply.quoteGone then QuoteGone
    else
      var remaining := StateOf(states, p.mint).until - now;
      var summary := match f
        case Deferred => "Mint cooldown"
        case QuoteMissing => "RuntimeError"
        case Replied(_, text) => text;
      PollDeferred(if remaining <= 0.0 then 300.0 else remaining, summary, !f.Deferred?)
  }

  /**
   When an invoice is looked at again: an unpaid one after 5 seconds, half a minute, five minutes or
   half an hour, by its age; one that could not be asked about when its mint's cooldown ends, or in
   five minutes. Only a request that was made counts as an attempt.
   */
  lemma VerdictMeans(states: map<string, Cooldown>, p: Payment, f: Finding, now: real)
    ensures var v := Verdict(states, p, f, now);
            && (v == PollPaid <==> f.Replied? && f.reply == QuoteState(true))
            && (v == QuoteGone <==> f.Replied? && f.reply == OtherFailure(true))
            && (v.PollUnpaid? <==> f.Replied? && f.reply == QuoteState(false))
            && (v.PollUnpaid? ==>
                  && (v.recheck == 5.0 || v.recheck == 30.0 || v.recheck == 300.0 || v.recheck == 1800.0)
                  && (v.recheck <= 5.0 <==> now - p.createdAt < 300.0)
                  && (v.recheck <= 30.0 <==> now - p.createdAt < 3600.0)
                  && (v.recheck <= 300.0 <==> now - p.createdAt < 86400.0))
            && (v.PollDeferred? ==>
                  && v.delay > 0.0 && (v.requested <==> f.QuoteMissing? || f.Replied?)
                  && if p.mint in states && states[p.mint].until > now then now + v.delay == states[p.mint].until
                     else v.delay == (if now < 0.0 && p.mint !in states then -now else 300.0))
  {
  }

  class MintStates {
    var states: map<string, Cooldown>

    constructor (states: map<string, Cooldown>)
      ensures this.states == states
    {
      this.states := states;
    }

    static method CoolingDelay(failures: nat, jitter: real, reply: Reply) returns (delay: real)
      requires failures >= 1
      ensures delay == Delay(failures, jitter, reply)
    {
      delay := MinR(300.0, 5.0 * Pow2(Min(failures - 1, 6)));
      assert delay == Backoff(failures);
      hide Pow2, Backoff;
      delay := MinR(300.0, delay * jitter);
      assert delay == MinR(300.0, Backoff(failures) * jitter);
      if reply.Http? {
        delay := MaxR(delay, reply.retryAfter);
        if reply.status == 429 { delay := MaxR(60.0, delay); }
      }
    }

    /** One turn of `discover`: the request is made, or it is not, and the mint's state follows. */
    method Discover(t: Turn) returns (finding: Finding)
      modifies this`states
      ensures states == TurnStates(old(states), t) && finding == TurnFinding(old(states), t)
    {
      hide Delay;
      if !t.hasQuote { return QuoteMissing; }
      if t.mint !in states { states := states[t.mint := CALM]; }
      var state := states[t.mint];
      if state.until > t.asked { return Deferred; }
      finding := Replied(t.reply, t.summary);
      if t.reply.QuoteState? {
        states := states[t.mint := state.(failures := 0)];
      } else if Transient(t.reply) {
        state := state.(failures := state.failures + 1);
        var delay := CoolingDelay(state.failures, t.jitter, t.reply);
        states := states[t.mint := state.(until := t.answered + delay)];
      }
    }

    /** All turns of a batch, mint by mint in lock order. */
    method DiscoverAll(turns: seq<Turn>) returns (findings: seq<Finding>)
      modifies this`states
      ensures states == Played(old(states), turns) && |findings| == |turns|
      ensures forall i :: 0 <= i < |turns| ==> findings[i] == TurnFinding(Played(old(states), turns[..i]), turns[i])
    {
      findings := [];
      for i := 0 to |turns|
        invariant |findings| == i && states == Played(old(states), turns[..i])
        invariant forall k :: 0 <= k < i ==> findings[k] == TurnFinding(Played(old(states), turns[..k]), turns[k])
      {
        assert turns[..i + 1][..i] == turns[..i];
        var f := Discover(turns[i]);
        findings := findings + [f];
      }
      assert turns[..|turns|] == turns;
    }
  }
}
