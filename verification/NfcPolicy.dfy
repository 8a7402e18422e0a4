/**
 The card policy of one wallet: which card is active, which is prepared, and how
 many PINs were wrong. Requests read the row, decide, and write only if the
 revision (for logins also the failure count) is still the one they read.
 `log` records what was committed; the row turns out to be a function of it.
 */
module NfcPolicy {
  import opened Prelude

  const ATTEMPTS := 5
  const PENDING_TTL := 1800

  datatype Policy = Policy(revision: nat, active: Option<string>, activeUntil: Option<int>, pending: Option<string>,
                           pendingDigest: Option<string>, pendingDeadline: Option<int>, failures: nat)

  /** What decrypting a card yields. */
  datatype Card = Card(generation: string, digest: string, expiresAt: int)

  datatype Event = Prepared(generation: string) | Activated(generation: string) | Revoked
                 | Wrong(generation: string) | Granted(generation: string)

  /** The row, the clock, the rows that requests in flight have read, and the generations drawn so far. */
  datatype World = World(policy: Option<Policy>, now: int, readings: map<string, Policy>, drawn: set<string>, log: seq<Event>)

  datatype Step =
    | Ensure
    | Tick(seconds: nat)
    | Read(request: string)
    | Prepare(request: string, card: Card)
    | Activate(request: string, card: Card, revision: nat, asof: int)
    | Revoke(revision: nat)
    | Authorize(request: string, card: Card, correct: bool, asof: int)

  function OrZero(value: Option<int>): int { if value.Some? then value.value else 0 }

  const NEW := Policy(0, None, None, None, None, None, 0)

  /** `compare_update` succeeds. */
  predicate Current(w: World, revision: nat) { w.policy.Some? && w.policy.value.revision == revision }

  /** What the owner's page must have shown for a card to be activated. */
  predicate MayActivate(seen: Policy, card: Card, revision: nat, asof: int) {
    && card.expiresAt > asof && seen.pending == Some(card.generation) && seen.pendingDigest == Some(card.digest)
    && OrZero(seen.pendingDeadline) > asof && seen.revision == revision
  }

  /** What a login needs when it reads the row. */
  predicate MayLogin(seen: Policy, card: Card, asof: int) {
    && card.expiresAt > asof && seen.active == Some(card.generation) && OrZero(seen.activeUntil) > asof
    && seen.failures < ATTEMPTS
  }

  /** What a login needs when it writes the row. */
  predicate StillThere(w: World, seen: Policy, card: Card) {
    && w.policy.Some?
    && var p := w.policy.value;
       && p.revision == seen.revision && p.active == Some(card.generation) && p.activeUntil.Some?
       && p.activeUntil.value > w.now && p.failures == seen.failures && p.failures < ATTEMPTS
  }

  function Committed(w: World, policy: Policy, event: Event): World {
    w.(policy := Some(policy), log := w.log + [event])
  }

  function AfterPrepare(p: Policy, card: Card, now: int): Policy {
    p.(revision := p.revision + 1, pending := Some(card.generation), pendingDigest := Some(card.digest),
       pendingDeadline := Some(now + PENDING_TTL))
  }

  function AfterActivate(p: Policy, card: Card): Policy {
    Policy(p.revision + 1, Some(card.generation), Some(card.expiresAt), None, None, None, 0)
  }

  function AfterRevoke(p: Policy): Policy {
    Policy(p.revision + 1, None, None, None, None, None, p.failures)
  }

  function Next(w: World, step: Step): World {
    match step
    case Ensure => if w.policy.None? then w.(policy := Some(NEW)) else w
    case Tick(seconds) => w.(now := w.now + seconds)
    case Read(request) => if w.policy.None? then w else w.(readings := w.readings[request := w.policy.value])
    case Prepare(request, card) =>
      if card.generation in w.drawn then w
      else
        var drew := w.(drawn := w.drawn + {card.generation});
        if request !in w.readings || !Current(w, w.readings[request].revision) then drew
        else Committed(drew, AfterPrepare(w.policy.value, card, w.now), Prepared(card.generation))
    case Activate(request, card, revision, asof) =>
      if request !in w.readings || asof > w.now || !MayActivate(w.readings[request], card, revision, asof)
         || !Current(w, w.readings[request].revision) then w
      else Committed(w, AfterActivate(w.policy.value, card), Activated(card.generation))
    case Revoke(revision) =>
      if !Current(w, revision) then w else Committed(w, AfterRevoke(w.policy.value), Revoked)
    case Authorize(request, card, correct, asof) =>
      if request !in w.readings || asof > w.now || !MayLogin(w.readings[request], card, asof) || !StillThere(w, w.readings[request], card) then w
      else if correct then Committed(w, w.policy.value.(failures := 0), Granted(card.generation))
      else Committed(w, w.policy.value.(failures := w.policy.value.failures + 1), Wrong(card.generation))
  }

  function Run(w: World, steps: seq<Step>): World
    decreases |steps|
  {
    if steps == [] then w else Run(Next(w, steps[0]), steps[1..])
  }

  predicate Init(w: World) { w.policy.None? && w.readings == map[] && w.drawn == {} && w.log == [] }

  // ---- what the requests do to the row ----

  /** The row offers this card for activation: prepared last, under this digest, at this revision, within its half hour. */
  predicate Offers(p: Policy, card: Card, revision: nat, asof: int) {
    && p.revision == revision && p.pending == Some(card.generation) && p.pendingDigest == Some(card.digest)
    && asof < card.expiresAt && (if p.pendingDeadline.Some? then asof < p.pendingDeadline.value else asof < 0)
  }

  /** The row lets this card log in: active, in time, and fewer than five wrong PINs. */
  predicate Admits(p: Policy, card: Card, asof: int) {
    && p.active == Some(card.generation) && p.failures < 5
    && asof < card.expiresAt && (if p.activeUntil.Some? then asof < p.activeUntil.value else asof < 0)
  }

  /** And it still does as it is written: the same revision, card and count of wrong PINs. */
  predicate Stands(p: Policy, seen: Policy, card: Card, now: int) {
    && p.revision == seen.revision && p.active == Some(card.generation) && p.failures == seen.failures && p.failures < 5
    && p.activeUntil.Some? && now < p.activeUntil.value
  }

  /** Each change of cards raises the revision by one, whatever else it writes. */
  predicate Raised(p: Policy, q: Policy) { q.revision == p.revision + 1 }

  /** Preparing writes the new card, its digest and the time half an hour from now, and leaves the active card alone. */
  lemma PrepareEffect(w: World, request: string, card: Card)
    requires card.generation !in w.drawn
    ensures var v := Next(w, Prepare(request, card));
            && v.now == w.now && v.readings == w.readings && v.drawn == w.drawn + {card.generation}
            && if request in w.readings && w.policy.Some? && w.policy.value.revision == w.readings[request].revision then
                 && v.policy.Some? && v.log == w.log + [Prepared(card.generation)]
                 && var p, q := w.policy.value, v.policy.value;
                 && Raised(p, q) && q.pending == Some(card.generation) && q.pendingDigest == Some(card.digest)
                 && q.pendingDeadline == Some(w.now + 1800)
                 && q.active == p.active && q.activeUntil == p.activeUntil && q.failures == p.failures
               else v.policy == w.policy && v.log == w.log
  {
  }

  /** Activating makes the offered card the active one until it expires, with no PIN wrong yet and nothing prepared. */
  lemma ActivateEffect(w: World, request: string, card: Card, revision: nat, asof: int)
    ensures var v := Next(w, Activate(request, card, revision, asof));
            if request in w.readings && asof <= w.now && Offers(w.readings[request], card, revision, asof)
               && w.policy.Some? && w.policy.value.revision == w.readings[request].revision
            then
              && v == w.(policy := v.policy, log := w.log + [Activated(card.generation)]) && v.policy.Some?
              && var p, q := w.policy.value, v.policy.value;
              && Raised(p, q) && q.active == Some(card.generation) && q.activeUntil == Some(card.expiresAt) && q.failures == 0
              && q.pending.None? && q.pendingDigest.None? && q.pendingDeadline.None?
            else v == w
  {
  }

  /** Revoking leaves no card, active or prepared, and forgives no wrong PIN. */
  lemma RevokeEffect(w: World, revision: nat)
    ensures var v := Next(w, Revoke(revision));
            if w.policy.Some? && w.policy.value.revision == revision then
              && v == w.(policy := v.policy, log := w.log + [Revoked]) && v.policy.Some?
              && var p, q := w.policy.value, v.policy.value;
              && Raised(p, q) && q.active.None? && q.activeUntil.None? && q.failures == p.failures
              && q.pending.None? && q.pendingDigest.None? && q.pendingDeadline.None?
            else v == w
  {
  }

  /** A login writes nothing but the count of wrong PINs: none after a right one, one more after a wrong one. */
  lemma AuthorizeEffect(w: World, request: string, card: Card, correct: bool, asof: int)
    ensures var v := Next(w, Authorize(request, card, correct, asof));
            if request in w.readings && asof <= w.now && Admits(w.readings[request], card, asof)
               && w.policy.Some? && Stands(w.policy.value, w.readings[request], card, w.now)
            then
              && v.policy.Some? && v.policy.value == w.policy.value.(failures := v.policy.value.failures)
              && v.policy.value.failures == (if correct then 0 else w.policy.value.failures + 1)
              && v == w.(policy := v.policy, log := w.log + [if correct then Granted(card.generation) else Wrong(card.generation)])
            else v == w
  {
  }

  // ---- what the log says ----

  /** The prepared card: the last change of cards prepared it. */
  function PendingIn(log: seq<Event>): Option<string> {
    if log == [] then None
    else
      match log[|log| - 1]
      case Prepared(g) => Some(g)
      case Activated(_) => None
      case Revoked => None
      case _ => PendingIn(log[..|log| - 1])
  }

  /** The active card: the last activation, unless a revocation came after it. */
  function ActiveIn(log: seq<Event>): Option<string> {
    if log == [] then None
    else
      match log[|log| - 1]
      case Activated(g) => Some(g)
      case Revoked => None
      case _ => ActiveIn(log[..|log| - 1])
  }

  /** Wrong PINs since the last activation or login. */
  function FailuresIn(log: seq<Event>): nat {
    if log == [] then 0
    else
      match log[|log| - 1]
      case Activated(_) => 0
      case Granted(_) => 0
      case Wrong(_) => FailuresIn(log[..|log| - 1]) + 1
      case _ => FailuresIn(log[..|log| - 1])
  }

  predicate ChangesCards(e: Event) { e.Prepared? || e.Activated? || e.Revoked? }

  function RevisionIn(log: seq<Event>): nat {
    if log == [] then 0 else RevisionIn(log[..|log| - 1]) + if ChangesCards(log[|log| - 1]) then 1 else 0
  }

  function PreparedIn(log: seq<Event>): set<string> {
    if log == [] then {}
    else PreparedIn(log[..|log| - 1]) + if log[|log| - 1].Prepared? then {log[|log| - 1].generation} else {}
  }

  lemma Append(log: seq<Event>, e: Event)
    ensures (log + [e])[..|log|] == log && (log + [e])[|log|] == e
    ensures RevisionIn(log + [e]) == RevisionIn(log) + if ChangesCards(e) then 1 else 0
    ensures PreparedIn(log + [e]) == PreparedIn(log) + if e.Prepared? then {e.generation} else {}
    ensures PendingIn(log + [e]) == if e.Prepared? then Some(e.generation) else if ChangesCards(e) then None else PendingIn(log)
    ensures ActiveIn(log + [e]) == if e.Activated? then Some(e.generation) else if e.Revoked? then None else ActiveIn(log)
    ensures FailuresIn(log + [e]) == if e.Activated? || e.Granted? then 0 else FailuresIn(log) + if e.Wrong? then 1 else 0
  {
  }

  /** An event that may follow a log. */
  predicate Allowed(log: seq<Event>, e: Event) {
    match e
    case Prepared(g) => g !in PreparedIn(log)
    case Activated(g) => PendingIn(log) == Some(g)
    case Revoked => true
    case Wrong(g) => ActiveIn(log) == Some(g) && FailuresIn(log) < ATTEMPTS
    case Granted(g) => ActiveIn(log) == Some(g) && FailuresIn(log) < ATTEMPTS
  }

  predicate Lawful(log: seq<Event>) { forall i :: 0 <= i < |log| ==> Allowed(log[..i], log[i]) }

  lemma LawfulAppend(log: seq<Event>, e: Event)
    requires Lawful(log) && Allowed(log, e)
    ensures Lawful(log + [e])
  {
    forall i | 0 <= i < |log| + 1
      ensures Allowed((log + [e])[..i], (log + [e])[i])
    {
      assert i < |log| ==> (log + [e])[..i] == log[..i];
      assert i == |log| ==> (log + [e])[..i] == log;
    }
  }

  // ---- the invariant ----

  /** The row says what the log says. */
  predicate Matches(p: Policy, log: seq<Event>) {
    && p.revision == RevisionIn(log) && p.pending == PendingIn(log) && p.active == ActiveIn(log)
    && p.failures == FailuresIn(log) && p.failures <= ATTEMPTS
  }

  /** Apart from the failure count, equal revisions mean equal rows. */
  predicate Consistent(seen: Policy, p: Policy) {
    seen.revision <= p.revision && (seen.revision == p.revision ==> seen == p.(failures := seen.failures))
  }

  predicate Inv(w: World) {
    && Lawful(w.log) && PreparedIn(w.log) <= w.drawn
    && (w.policy.None? ==> w.readings == map[] && w.log == [])
    && (w.policy.Some? ==> Matches(w.policy.value, w.log) && forall r :: r in w.readings ==> Consistent(w.readings[r], w.policy.value))
  }

  lemma CommitKeepsInv(w: World, p: Policy, e: Event)
    requires Inv(w) && w.policy.Some? && Allowed(w.log, e) && (e.Prepared? ==> e.generation in w.drawn)
    requires Matches(p, w.log + [e]) && Consistent(w.policy.value, p)
    ensures Inv(Committed(w, p, e)) && w.log <= Committed(w, p, e).log
  {
    LawfulAppend(w.log, e);
    Append(w.log, e);
    hide Lawful, Matches, Allowed, PreparedIn;
    var v := Committed(w, p, e);
    forall r | r in v.readings
      ensures Consistent(v.readings[r], p)
    {
      assert Consistent(w.readings[r], w.policy.value);
    }
  }

  lemma QuietKeepsInv(w: World, step: Step)
    requires Inv(w) && Next(w, step).log == w.log
    ensures Inv(Next(w, step))
  {
    assert Matches(NEW, []);
    hide Lawful, Matches, PreparedIn, MayActivate, MayLogin, StillThere;
  }

  lemma PrepareKeepsInv(w: World, card: Card)
    requires Inv(w) && w.policy.Some? && card.generation !in w.drawn
    ensures var drew := w.(drawn := w.drawn + {card.generation});
            Inv(Committed(drew, AfterPrepare(w.policy.value, card, w.now), Prepared(card.generation)))
  {
    var drew := w.(drawn := w.drawn + {card.generation});
    assert Inv(drew) by { hide Lawful, Matches, PreparedIn; }
    Append(w.log, Prepared(card.generation));
    hide Lawful;
    CommitKeepsInv(drew, AfterPrepare(w.policy.value, card, w.now), Prepared(card.generation));
  }

  lemma ActivateKeepsInv(w: World, request: string, card: Card, revision: nat, asof: int)
    requires Inv(w) && request in w.readings && MayActivate(w.readings[request], card, revision, asof)
    requires Current(w, w.readings[request].revision)
    ensures Inv(Committed(w, AfterActivate(w.policy.value, card), Activated(card.generation)))
  {
    Append(w.log, Activated(card.generation));
    assert Consistent(w.readings[request], w.policy.value);
    hide Lawful;
    CommitKeepsInv(w, AfterActivate(w.policy.value, card), Activated(card.generation));
  }

  lemma AuthorizeKeepsInv(w: World, request: string, card: Card, correct: bool)
    requires Inv(w) && request in w.readings && StillThere(w, w.readings[request], card)
    ensures Inv(if correct then Committed(w, w.policy.value.(failures := 0), Granted(card.generation))
                else Committed(w, w.policy.value.(failures := w.policy.value.failures + 1), Wrong(card.generation)))
  {
    var p := w.policy.value;
    Append(w.log, if correct then Granted(card.generation) else Wrong(card.generation));
    hide Lawful;
    if correct {
      CommitKeepsInv(w, p.(failures := 0), Granted(card.generation));
    } else {
      CommitKeepsInv(w, p.(failures := p.failures + 1), Wrong(card.generation));
    }
  }

  lemma StepKeepsInv(w: World, step: Step)
    requires Inv(w)
    ensures Inv(Next(w, step)) && w.log <= Next(w, step).log
  {
    hide Inv, MayActivate, MayLogin, StillThere;
    if Next(w, step).log == w.log {
      QuietKeepsInv(w, step);
    } else {
      match step
      case Prepare(request, card) => PrepareKeepsInv(w, card);
      case Activate(request, card, revision, asof) => ActivateKeepsInv(w, request, card, revision, asof);
      case Revoke(revision) =>
        Append(w.log, Revoked);
        assert Inv(w) && Allowed(w.log, Revoked);
        RevokeKeepsInv(w);
      case Authorize(request, card, correct, asof) => AuthorizeKeepsInv(w, request, card, correct);
      case _ =>
    }
  }

  lemma RevokeKeepsInv(w: World)
    requires Inv(w) && w.policy.Some?
    ensures Inv(Committed(w, AfterRevoke(w.policy.value), Revoked))
  {
    Append(w.log, Revoked);
    hide Lawful;
    CommitKeepsInv(w, AfterRevoke(w.policy.value), Revoked);
  }

  lemma {:induction false} RunKeepsInv(w: World, steps: seq<Step>)
    requires Inv(w)
    ensures Inv(Run(w, steps)) && w.log <= Run(w, steps).log
    decreases |steps|
  {
    hide Inv, Next;
    if steps != [] {
      StepKeepsInv(w, steps[0]);
      RunKeepsInv(Next(w, steps[0]), steps[1..]);
    }
  }
}
