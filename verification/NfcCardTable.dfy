/** The card policy row as the pages change it: read, decide, then write if nothing changed. */
module NfcCardTable {
  import opened Prelude
  import opened NfcPolicy

  /** None of the steps reads the row on behalf of this request. */
  predicate Foreign(steps: seq<Step>, request: string) {
    forall i :: 0 <= i < |steps| && steps[i].Read? ==> steps[i].request != request
  }

  lemma {:induction false} ForeignKeepReading(w: World, steps: seq<Step>, request: string)
    requires request in w.readings && w.policy.Some? && Foreign(steps, request)
    ensures request in Run(w, steps).readings && Run(w, steps).readings[request] == w.readings[request]
    ensures Run(w, steps).policy.Some? && w.now <= Run(w, steps).now
    decreases |steps|
  {
    if steps != [] { ForeignKeepReading(Next(w, steps[0]), steps[1..], request); }
  }

  lemma {:induction false} RunAppends(w: World, first: seq<Step>, second: seq<Step>)
    ensures Run(w, first + second) == Run(Run(w, first), second)
    decreases |first|
  {
    if first == [] {
      assert first + second == second;
    } else {
      assert (first + second)[1..] == first[1..] + second;
      RunAppends(Next(w, first[0]), first[1..], second);
    }
  }

  /** Read first, then the others, then one step of this request. */
  lemma Around(w: World, request: string, others: seq<Step>, last: Step)
    ensures Run(w, [Read(request)] + others + [last]) == Next(Run(Next(w, Read(request)), others), last)
  {
    RunAppends(w, [Read(request)] + others, [last]);
    RunAppends(w, [Read(request)], others);
    var v := Run(w, [Read(request)]);
    assert v == Run(Next(w, Read(request)), []);
    var u := Run(v, others);
    assert Run(u, [last]) == Run(Next(u, last), []);
  }

  class CardTable {
    var policy: Option<Policy>
    var now: int
    var readings: map<string, Policy>
    var drawn: set<string>
    var log: seq<Event>

    function State(): World
      reads this
    {
      World(policy, now, readings, drawn, log)
    }

    predicate Valid()
      reads this
    {
      Inv(State())
    }

    constructor (now: int)
      ensures Valid() && Init(State())
    {
      this.now, policy, drawn, readings, log := now, None, {}, map[], [];
    }

    /** Other requests, between the read and the write of this one. */
    method Others(steps: seq<Step>, request: string)
      requires Valid() && request in readings && policy.Some? && Foreign(steps, request)
      modifies this
      ensures Valid() && State() == Run(old(State()), steps) && policy.Some?
      ensures request in readings && readings[request] == old(readings[request]) && old(now) <= now
    {
      RunKeepsInv(State(), steps);
      ForeignKeepReading(State(), steps, request);
      var w := Run(State(), steps);
      policy, now, readings, drawn, log := w.policy, w.now, w.readings, w.drawn, w.log;
    }

    method Look(request: string) returns (seen: Option<Policy>)
      requires Valid()
      modifies this`readings
      ensures Valid() && State() == Next(old(State()), Read(request)) && seen == policy
      ensures seen.Some? ==> request in readings && readings[request] == seen.value
    {
      StepKeepsInv(State(), Read(request));
      seen := policy;
      if policy.Some? { readings := readings[request := policy.value]; }
    }

    /** A card with a generation never drawn before replaces the prepared one, if the row is still the one read. */
    method PrepareCard(request: string, card: Card, others: seq<Step>) returns (ok: bool)
      requires Valid() && policy.Some? && Foreign(others, request)
      requires card.generation !in Run(Next(State(), Read(request)), others).drawn
      modifies this
      ensures Valid() && State() == Run(old(State()), [Read(request)] + others + [Prepare(request, card)])
      ensures ok ==> policy.Some? && policy.value.pending == Some(card.generation) && policy.value.pendingDigest == Some(card.digest)
                     && policy.value.pendingDeadline == Some(now + 1800)
      ensures ok <==> log == Run(Next(old(State()), Read(request)), others).log + [Prepared(card.generation)]
    {
      Around(State(), request, others, Prepare(request, card));
      hide Inv, Run;
      var seen := Look(request);
      Others(others, request);
      StepKeepsInv(State(), Prepare(request, card));
      drawn := drawn + {card.generation};
      ok := policy.value.revision == seen.value.revision;
      if ok {
        var p := policy.value;
        policy := Some(p.(revision := p.revision + 1, pending := Some(card.generation), pendingDigest := Some(card.digest),
                          pendingDeadline := Some(now + PENDING_TTL)));
        log := log + [Prepared(card.generation)];
      }
    }

    /**
     The owner confirms the card shown at `revision`. It succeeds exactly when the row read still
     offers that card and nobody else has changed it by the time of the write.
     */
    method ActivateCard(request: string, card: Card, revision: nat, others: seq<Step>) returns (ok: bool)
      requires Valid() && Foreign(others, request)
      modifies this
      ensures Valid()
      ensures ok ==> State() == Run(old(State()), [Read(request)] + others + [Activate(request, card, revision, old(now))])
      ensures ok ==> policy.Some? && policy.value.active == Some(card.generation) && policy.value.failures == 0
                     && policy.value.revision == revision + 1 && log != [] && log[|log| - 1] == Activated(card.generation)
      ensures !ok ==> State() == Next(old(State()), Read(request))
                      || State() == Run(old(State()), [Read(request)] + others + [Activate(request, card, revision, old(now))])
      ensures ok <==> && old(policy).Some? && Offers(old(policy.value), card, revision, old(now))
                      && var later := Run(Next(old(State()), Read(request)), others).policy; later.Some? && later.value.revision == old(policy.value).revision
    {
      Around(State(), request, others, Activate(request, card, revision, now));
      hide Inv;
      var asof := now;
      var seen := Look(request);
      if seen.None? || !MayActivate(seen.value, card, revision, asof) { return false; }
      Others(others, request);
      hide Run;
      StepKeepsInv(State(), Activate(request, card, revision, asof));
      ok := policy.value.revision == seen.value.revision;
      if ok {
        policy := Some(Policy(policy.value.revision + 1, Some(card.generation), Some(card.expiresAt), None, None, None, 0));
        log := log + [Activated(card.generation)];
      }
    }

    method RevokeCards(revision: nat) returns (ok: bool)
      requires Valid()
      modifies this
      ensures Valid() && State() == Next(old(State()), Revoke(revision))
      ensures ok <==> old(policy).Some? && old(policy.value).revision == revision
      ensures ok ==> policy.Some? && policy.value.active.None? && policy.value.pending.None?
                     && policy.value.failures == old(policy.value).failures
    {
      hide Inv, MayActivate, MayLogin, StillThere;
      StepKeepsInv(State(), Revoke(revision));
      ok := policy.Some? && policy.value.revision == revision;
      if ok {
        policy := Some(Policy(revision + 1, None, None, None, None, None, policy.value.failures));
        log := log + [Revoked];
      }
    }

    /**
     `authorize`: true exactly when the PIN is right and the guarded write hit, which it does when
     the row read admits the card and still stands, whatever others did in between.
     */
    method Login(request: string, card: Card, correct: bool, others: seq<Step>) returns (granted: bool)
      requires Valid() && Foreign(others, request)
      modifies this
      ensures Valid()
      ensures State() == Next(old(State()), Read(request))
              || State() == Run(old(State()), [Read(request)] + others + [Authorize(request, card, correct, old(now))])
      ensures granted ==> correct && policy.Some? && policy.value.failures == 0 && policy.value.active == Some(card.generation)
                          && log != [] && log[|log| - 1] == Granted(card.generation)
      ensures var before := Run(Next(old(State()), Read(request)), others);
              var hits := old(policy).Some? && Admits(old(policy.value), card, old(now))
                          && before.policy.Some? && Stands(before.policy.value, old(policy.value), card, before.now);
              && (granted <==> correct && hits)
              && (hits && !correct ==> policy.Some? && policy.value.failures == old(policy.value).failures + 1)
    {
      Around(State(), request, others, Authorize(request, card, correct, now));
      hide Inv;
      var asof := now;
      var seen := Look(request);
      if seen.None? || !MayLogin(seen.value, card, asof) { return false; }
      Others(others, request);
      hide Run;
      StepKeepsInv(State(), Authorize(request, card, correct, asof));
      var p := policy.value;
      ghost var before := State();
      var written := p.revision == seen.value.revision && p.active == Some(card.generation) && p.activeUntil.Some?
                     && p.activeUntil.value > now && p.failures == seen.value.failures && p.failures < ATTEMPTS;
      if written {
        policy := Some(p.(failures := if correct then 0 else p.failures + 1));
        log := log + [if correct then Granted(card.generation) else Wrong(card.generation)];
      }
      assert written <==> StillThere(before, seen.value, card);
      granted := written && correct;
    }
  }
}
