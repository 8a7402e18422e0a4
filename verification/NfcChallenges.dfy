/** Login challenges: drawn for one browser, bound to one payload, used for one attempt. */
module NfcChallenges {
  import opened Prelude

  const TTL := 300

  /** The stored hashes stand for the token and the browser secret themselves. */
  datatype Challenge = Challenge(browser: string, issuer: string, expiresAt: int, payload: Option<string>)

  datatype Event = Bound(token: string, browser: string, payload: string) | Attempted(token: string, browser: string, payload: string)

  datatype World = World(table: map<string, Challenge>, now: int, drawn: set<string>, log: seq<Event>)

  datatype Step =
    | Tick(seconds: nat)
    | Purge(asof: int)
    | Issue(token: string, browser: string, issuer: string)
    | Bind(token: string, browser: string, issuer: string, payload: string)
    | Attempt(token: string, browser: string, issuer: string, payload: string)

  /** `challenge_filter` */
  predicate Filter(w: World, token: string, browser: string, issuer: string) {
    token in w.table && w.table[token].browser == browser && w.table[token].issuer == issuer && w.table[token].expiresAt > w.now
  }

  function Next(w: World, step: Step): World {
    match step
    case Tick(seconds) => w.(now := w.now + seconds)
    case Purge(asof) => w.(table := map t | t in w.table && w.table[t].expiresAt > asof :: w.table[t])
    case Issue(token, browser, issuer) =>
      if token in w.drawn then w
      else w.(table := w.table[token := Challenge(browser, issuer, w.now + TTL, None)], drawn := w.drawn + {token})
    case Bind(token, browser, issuer, payload) =>
      if Filter(w, token, browser, issuer) && w.table[token].payload.None?
      then w.(table := w.table[token := w.table[token].(payload := Some(payload))], log := w.log + [Bound(token, browser, payload)])
      else w
    case Attempt(token, browser, issuer, payload) =>
      if Filter(w, token, browser, issuer) && w.table[token].payload == Some(payload)
      then w.(table := w.table - {token}, log := w.log + [Attempted(token, browser, payload)])
      else w
  }

  /** The stored challenge was drawn for this browser and issuer, and its five minutes are not over. */
  predicate Usable(w: World, token: string, browser: string, issuer: string) {
    token in w.table && w.now < w.table[token].expiresAt && w.table[token].browser == browser && w.table[token].issuer == issuer
  }

  /** What each statement does to the table: draw for five minutes, drop what is over, bind once, use once. */
  lemma ChallengeEffect(w: World, step: Step)
    ensures var v := Next(w, step);
            match step
            case Tick(seconds) => v == w.(now := w.now + seconds)
            case Purge(asof) =>
              && v == w.(table := v.table)
              && forall t :: (t in v.table <==> t in w.table && asof < w.table[t].expiresAt) && (t in v.table ==> v.table[t] == w.table[t])
            case Issue(token, browser, issuer) =>
              if token in w.drawn then v == w
              else
                && token in v.table && v.table[token].browser == browser && v.table[token].issuer == issuer
                && v.table[token].expiresAt == w.now + 300 && v.table[token].payload.None?
                && v == w.(table := w.table[token := v.table[token]], drawn := w.drawn + {token})
            case Bind(token, browser, issuer, payload) =>
              if Usable(w, token, browser, issuer) && w.table[token].payload.None? then
                && token in v.table && v.table[token] == w.table[token].(payload := Some(payload))
                && v == w.(table := w.table[token := v.table[token]], log := w.log + [Bound(token, browser, payload)])
              else v == w
            case Attempt(token, browser, issuer, payload) =>
              if Usable(w, token, browser, issuer) && w.table[token].payload == Some(payload) then
                && v == w.(table := v.table, log := w.log + [Attempted(token, browser, payload)])
                && forall t :: (t in v.table <==> t in w.table && t != token) && (t in v.table ==> v.table[t] == w.table[t])
              else v == w
  {
  }

  function Run(w: World, steps: seq<Step>): World
    decreases |steps|
  {
    if steps == [] then w else Run(Next(w, steps[0]), steps[1..])
  }

  predicate Init(w: World) { w.table == map[] && w.drawn == {} && w.log == [] }

  /** The log so far does not mention the token in that way. */
  predicate NeverBound(log: seq<Event>, token: string) { forall i :: 0 <= i < |log| && log[i].Bound? ==> log[i].token != token }

  predicate NeverAttempted(log: seq<Event>, token: string) { forall i :: 0 <= i < |log| && log[i].Attempted? ==> log[i].token != token }

  predicate OnceBound(log: seq<Event>, token: string, browser: string, payload: string) {
    && Bound(token, browser, payload) in log
    && forall i :: 0 <= i < |log| && log[i].Bound? && log[i].token == token ==> log[i] == Bound(token, browser, payload)
  }

  predicate OnceOnly(log: seq<Event>) {
    && (forall i, j :: 0 <= i < j < |log| && log[i].token == log[j].token ==> log[i].Bound? && log[j].Attempted?)
    && (forall j :: 0 <= j < |log| && log[j].Attempted? ==>
                      Bound(log[j].token, log[j].browser, log[j].payload) in log[..j])
  }

  /** What the log says about a challenge that is still stored. */
  predicate Told(log: seq<Event>, token: string, c: Challenge) {
    && NeverAttempted(log, token)
    && (if c.payload.None? then NeverBound(log, token) else Bound(token, c.browser, c.payload.value) in log)
  }

  predicate Inv(w: World) {
    && w.table.Keys <= w.drawn && (forall i :: 0 <= i < |w.log| ==> w.log[i].token in w.drawn) && OnceOnly(w.log)
    && (forall t :: t in w.table ==> Told(w.log, t, w.table[t]))
  }

  lemma LogOne(w: World, e: Event)
    requires Inv(w) && e.token in w.table
    requires e.Bound? ==> w.table[e.token].payload.None?
    requires e.Attempted? ==> w.table[e.token].payload == Some(e.payload) && w.table[e.token].browser == e.browser
    ensures OnceOnly(w.log + [e])
  {
    assert Told(w.log, e.token, w.table[e.token]);
    assert e.Bound? ==> NeverBound(w.log, e.token);
    assert (w.log + [e])[..|w.log|] == w.log;
    forall i | 0 <= i < |w.log| && w.log[i].token == e.token
      ensures w.log[i].Bound? && e.Attempted?
    {
    }
    forall j | 0 <= j < |w.log| && w.log[j].Attempted?
      ensures Bound(w.log[j].token, w.log[j].browser, w.log[j].payload) in (w.log + [e])[..j]
    {
      assert (w.log + [e])[..j] == w.log[..j];
    }
  }

  lemma StepKeepsInv(w: World, step: Step)
    requires Inv(w)
    ensures Inv(Next(w, step)) && w.log <= Next(w, step).log
  {
    match step
    case Bind(token, browser, issuer, payload) =>
      if Filter(w, token, browser, issuer) && w.table[token].payload.None? {
        LogOne(w, Bound(token, browser, payload));
        hide OnceOnly;
      }
    case Attempt(token, browser, issuer, payload) =>
      if Filter(w, token, browser, issuer) && w.table[token].payload == Some(payload) {
        LogOne(w, Attempted(token, browser, payload));
        hide OnceOnly;
      }
    case _ => hide OnceOnly;
  }

  lemma {:induction false} RunKeepsInv(w: World, steps: seq<Step>)
    requires Inv(w)
    ensures Inv(Run(w, steps))
    decreases |steps|
  {
    hide Inv, Next;
    if steps != [] {
      StepKeepsInv(w, steps[0]);
      RunKeepsInv(Next(w, steps[0]), steps[1..]);
    }
  }

  /**
   Over every run, a challenge is used for at most one login attempt, by the browser it was bound
   for, and with the one payload that was bound to it before.
   */
  lemma OneAttemptPerChallenge(w: World, steps: seq<Step>, j: nat)
    requires Init(w) && j < |Run(w, steps).log| && Run(w, steps).log[j].Attempted?
    ensures var log := Run(w, steps).log;
            && (forall k :: 0 <= k < |log| && k != j && log[k].Attempted? ==> log[k].token != log[j].token)
            && OnceBound(log, log[j].token, log[j].browser, log[j].payload)
            && Bound(log[j].token, log[j].browser, log[j].payload) in log[..j]
  {
    RunKeepsInv(w, steps);
    var log := Run(w, steps).log;
    var b := Bound(log[j].token, log[j].browser, log[j].payload);
    assert b in log[..j];
    var i :| 0 <= i < j && log[..j][i] == b;
    assert log[i] == b;
  }

  /** The challenge table as the login pages change it, one statement at a time. */
  class ChallengeTable {
    var table: map<string, Challenge>
    var now: int
    ghost var drawn: set<string>
    ghost var log: seq<Event>

    ghost function State(): World
      reads this
    {
      World(table, now, drawn, log)
    }

    ghost predicate Valid()
      reads this
    {
      Inv(State())
    }

    constructor (now: int)
      ensures Valid() && Init(State())
    {
      this.now, table, drawn, log := now, map[], {}, [];
    }

    /** The login page draws a token and a browser secret that were never drawn before. */
    method Open(token: string, browser: string, issuer: string)
      requires Valid() && token !in drawn
      modifies this`table, this`drawn
      ensures Valid() && State() == Next(old(State()), Issue(token, browser, issuer)) && token in table
    {
      StepKeepsInv(State(), Issue(token, browser, issuer));
      table := table[token := Challenge(browser, issuer, now + TTL, None)];
      drawn := drawn + {token};
    }

    method Expire(asof: int)
      requires Valid()
      modifies this`table
      ensures Valid() && State() == Next(old(State()), Purge(asof))
    {
      StepKeepsInv(State(), Purge(asof));
      table := map t | t in table && table[t].expiresAt > asof :: table[t];
    }

    /** The read page binds the payload, unless one is bound already. */
    method BindPayload(token: string, browser: string, issuer: string, payload: string) returns (ok: bool)
      requires Valid()
      modifies this`table, this`log
      ensures Valid() && State() == Next(old(State()), Bind(token, browser, issuer, payload))
      ensures ok <==> Usable(old(State()), token, browser, issuer) && old(table)[token].payload.None?
      ensures ok ==> NeverBound(old(log), token)
    {
      StepKeepsInv(State(), Bind(token, browser, issuer, payload));
      ok := token in table && table[token].browser == browser && table[token].issuer == issuer && table[token].expiresAt > now
            && table[token].payload.None?;
      if ok {
        table := table[token := table[token].(payload := Some(payload))];
        log := log + [Bound(token, browser, payload)];
      }
    }

    /** The login itself uses the challenge up, whatever becomes of the attempt. */
    method UseUp(token: string, browser: string, issuer: string, payload: string) returns (ok: bool)
      requires Valid()
      modifies this`table, this`log
      ensures Valid() && State() == Next(old(State()), Attempt(token, browser, issuer, payload))
      ensures ok <==> Usable(old(State()), token, browser, issuer) && old(table)[token].payload == Some(payload)
      ensures ok ==> token !in table && NeverAttempted(old(log), token) && Bound(token, browser, payload) in old(log)
    {
      StepKeepsInv(State(), Attempt(token, browser, issuer, payload));
      ok := token in table && table[token].browser == browser && table[token].issuer == issuer && table[token].expiresAt > now
            && table[token].payload == Some(payload);
      if ok {
        table := table - {token};
        log := log + [Attempted(token, browser, payload)];
      }
    }
  }
}
