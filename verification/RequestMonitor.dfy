/** One monitor's poll and acceptance job, statement by statement, while everybody else goes on. */
module RequestMonitor {
  import opened Prelude
  import opened ClearRequests
  import L = Leases

  /** How one call that accepts a receipt ends. */
  datatype Outcome = Confirmed | NotFound | Unconfirmed | UnconfirmedAfterEffect

  /** What the awaited calls of one acceptance job do. */
  datatype JobCalls = JobCalls(loads: bool, first: Outcome, sweeps: bool, second: Outcome)

  /** The actions of one monitor in a trace. */
  function Mine(actions: seq<Action>, me: string): seq<Action> {
    if actions == [] then []
    else
      var last := actions[|actions| - 1];
      Mine(actions[..|actions| - 1], me) + if !last.Others? && last.m == me then [last] else []
  }

  lemma MineOne(actions: seq<Action>, a: Action, me: string)
    ensures Mine(actions + [a], me) == Mine(actions, me) + if !a.Others? && a.m == me then [a] else []
  {
    assert (actions + [a])[..|actions|] == actions;
  }

  lemma {:induction false} MineForeign(actions: seq<Action>, others: seq<Action>, me: string)
    requires Foreign(others, me)
    ensures Mine(actions + others, me) == Mine(actions, me)
  {
    if others == [] {
      assert actions + others == actions;
    } else {
      var n := |others| - 1;
      MineForeign(actions, others[..n], me);
      MineOne(actions + others[..n], others[n], me);
      assert actions + others == actions + others[..n] + [others[n]];
    }
  }

  predicate Foreign(actions: seq<Action>, me: string) {
    forall i :: 0 <= i < |actions| ==> !actions[i].Others? ==> actions[i].m != me
  }

  lemma OneForeign(w: World, a: Action, me: string)
    requires me in w.monitors && (!a.Others? ==> a.m != me)
    ensures me in Next(w, a).monitors && Next(w, a).monitors[me] == w.monitors[me] && Next(w, a).npub == w.npub
  {
  }

  lemma MonitorStays(w: World, a: Action, me: string)
    requires me in w.monitors
    ensures me in Next(w, a).monitors
  {
    hide L.Next;
  }

  lemma {:induction false} ForeignLeavesMe(w: World, actions: seq<Action>, me: string)
    requires me in w.monitors && Foreign(actions, me)
    ensures var v := Run(w, actions); me in v.monitors && v.monitors[me] == w.monitors[me] && v.npub == w.npub
    decreases |actions|
  {
    hide Next;
    if actions != [] {
      OneForeign(w, actions[0], me);
      ForeignLeavesMe(Next(w, actions[0]), actions[1..], me);
    }
  }

  // ---- what a monitor does, seen from outside ----

  function AcceptScript(me: string, outcome: Outcome): seq<Action> {
    match outcome
    case Confirmed => [TakesEffect(me), Report(me, L.Complete)]
    case UnconfirmedAfterEffect => [TakesEffect(me), Report(me, L.Failed)]
    case _ => [Report(me, L.Failed)]
  }

  function SearchScript(me: string, calls: JobCalls): seq<Action> {
    [EnterPhase(me, Discovering)]
    + if !calls.sweeps then [Report(me, L.Failed)]
      else [EnterPhase(me, Accepting)] + AcceptScript(me, calls.second)
  }

  /** The actions of a job that never loses its lease. */
  function JobScript(me: string, calls: JobCalls): seq<Action> {
    [EnterPhase(me, Loading)]
    + if !calls.loads then [Report(me, L.Failed)]
      else [EnterPhase(me, Accepting)] + if calls.first.NotFound? then SearchScript(me, calls) else AcceptScript(me, calls.first)
  }

  /** What was done of a script: all of it, or up to a phase that could not be entered. */
  predicate Follows(done: seq<Action>, script: seq<Action>) {
    done <= script && (done == script || (done != [] && done[|done| - 1].EnterPhase?))
  }

  lemma FollowsOn(first: seq<Action>, did: seq<Action>, script: seq<Action>)
    requires Follows(did, script)
    ensures Follows(first + did, first + script)
  {
    if did != [] && did[|did| - 1].EnterPhase? { assert (first + did)[|first + did| - 1] == did[|did| - 1]; }
  }

  function AcceptedIds(receipts: seq<Receipt>, request: Request): set<string> {
    set r | r in receipts && Matches(r, request) && r.status.AcceptedReceipt? :: r.eventId
  }

  lemma SeenAre(receipts: seq<Receipt>, request: Request)
    ensures forall id :: id in AcceptedIds(receipts, request) <==>
                         exists r :: r in receipts && IsFor(r, request) && r.status == AcceptedReceipt && r.eventId == id
    ensures AcceptedIds(receipts, request) == {} <==> !AlreadyAccepted(receipts, request)
  {
    forall r
      ensures IsFor(r, request) <==> Matches(r, request)
    {
      PaysIffAcceptable(r, request);
    }
    hide IsFor, Matches;
    if r :| r in receipts && IsFor(r, request) && r.status == AcceptedReceipt { assert r.eventId in AcceptedIds(receipts, request); }
  }

  /** What ends a job's last call for a receipt: the first, or the second after a search on the relays. */
  function Ending(calls: JobCalls): Option<Outcome> {
    if !calls.loads then None
    else if calls.first != NotFound then Some(calls.first)
    else if calls.sweeps then Some(calls.second) else None
  }

  /**
   A job's plan: it loads before it accepts, searches only after a receipt was not found, accepts
   once more only after a search that worked, and says COMPLETE exactly when the last call confirmed.
   */
  lemma JobMeans(me: string, calls: JobCalls)
    ensures var script, last := JobScript(me, calls), Ending(calls);
            && script[0] == EnterPhase(me, Loading)
            && (EnterPhase(me, Accepting) in script <==> calls.loads)
            && (EnterPhase(me, Discovering) in script <==> calls.loads && calls.first == NotFound)
            && (TakesEffect(me) in script <==> last == Some(Confirmed) || last == Some(UnconfirmedAfterEffect))
            && script[|script| - 1] == Report(me, if last == Some(Confirmed) then L.Complete else L.Failed)
            && (forall i :: 0 <= i < |script| - 1 ==> !script[i].Report?)
            && (forall i :: 0 <= i < |script| - 1 && script[i].TakesEffect? ==> i == |script| - 2)
            && |script| == 2 + (if calls.loads then 1 else 0) + (if calls.loads && calls.first == NotFound then 1 else 0)
                           + (if calls.loads && calls.first == NotFound && calls.sweeps then 1 else 0)
                           + (if TakesEffect(me) in script then 1 else 0)
  {
    var script := JobScript(me, calls);
    if !calls.loads {
      assert script == [EnterPhase(me, Loading), Report(me, L.Failed)];
    } else if calls.first != NotFound {
      assert script == [EnterPhase(me, Loading), EnterPhase(me, Accepting)] + AcceptScript(me, calls.first);
    } else if !calls.sweeps {
      assert script == [EnterPhase(me, Loading), EnterPhase(me, Accepting), EnterPhase(me, Discovering), Report(me, L.Failed)];
    } else {
      assert script == [EnterPhase(me, Loading), EnterPhase(me, Accepting), EnterPhase(me, Discovering), EnterPhase(me, Accepting)]
                       + AcceptScript(me, calls.second);
    }
  }

  class RequestWatcher {
    var world: World
    const me: string
    ghost const start: World
    ghost var trace: seq<Action>
    ghost var mine: seq<Action>

    ghost predicate Valid()
      reads this
    {
      world == Run(start, trace) && me in world.monitors && mine == Mine(trace, me)
    }

    function Own(): Monitor
      requires me in world.monitors
      reads this
    {
      world.monitors[me]
    }

    constructor (world: World, me: string)
      requires me in world.monitors
      ensures Valid() && this.world == world && this.me == me && trace == [] && start == world
    {
      this.world, this.me, start, trace, mine := world, me, world, [], [];
    }

    method Act(a: Action)
      requires Valid() && !a.Others? && a.m == me
      modifies this
      ensures Valid() && world == Next(old(world), a) && trace == old(trace) + [a] && mine == old(mine) + [a]
    {
      MonitorStays(world, a, me);
      hide Next;
      RunAppends(start, trace, [a]);
      assert Run(world, [a]) == Run(Next(world, a), []);
      MineOne(trace, a, me);
      world := Next(world, a);
      trace, mine := trace + [a], mine + [a];
    }

    /** While this monitor awaits something, others act. */
    method Await(actions: seq<Action>)
      requires Valid() && Foreign(actions, me)
      modifies this
      ensures Valid() && world == Run(old(world), actions) && Own() == old(Own())
      ensures trace == old(trace) + actions && mine == old(mine)
    {
      ForeignLeavesMe(world, actions, me);
      RunAppends(start, trace, actions);
      MineForeign(trace, actions, me);
      world := Run(world, actions);
      trace := trace + actions;
    }

    /** `enter_phase`: false when the lease is lost, which cancels the job. */
    method Enter(to: Stage) returns (entered: bool)
      requires Valid() && CanEnter(Own().stage, to)
      modifies this
      ensures Valid() && old(trace) <= trace && mine == old(mine) + [EnterPhase(me, to)]
      ensures Own() == old(Own()).(stage := if entered then to else Stopped)
    {
      entered := L.CanUpdate(world.board, world.npub, world.npub, Own().token);
      Act(EnterPhase(me, to));
    }

    method Finish(status: L.JobStatus)
      requires Valid() && Active(Own()) && !Own().stage.Holding? && !status.Running? && (status.Complete? ==> Own().stage.Accepted?)
      modifies this
      ensures Valid() && old(trace) <= trace && mine == old(mine) + [Report(me, status)]
      ensures Own() == old(Own()).(stage := Stopped) && world.accepted == old(world.accepted)
    {
      Act(Report(me, status));
    }

    method TakeEffect()
      requires Valid() && Own().stage.Accepting?
      modifies this
      ensures Valid() && old(trace) <= trace && mine == old(mine) + [TakesEffect(me)]
      ensures Own() == old(Own()).(stage := Accepted) && world.accepted == old(world.accepted) + [Own().event]
    {
      Act(TakesEffect(me));
    }

    /** One call that accepts the receipt, and the report of how it went. */
    method Accept(outcome: Outcome)
      requires Valid() && Own().stage.Accepting?
      modifies this
      ensures Valid() && old(trace) <= trace && mine == old(mine) + AcceptScript(me, outcome)
      ensures Own() == old(Own()).(stage := Stopped)
      ensures world.accepted == if outcome.Confirmed? || outcome.UnconfirmedAfterEffect?
                                then old(world.accepted) + [Own().event] else old(world.accepted)
    {
      hide Next, Run, Mine;
      if outcome.Confirmed? || outcome.UnconfirmedAfterEffect? { TakeEffect(); }
      if outcome.Confirmed? { Finish(L.Complete); } else { Finish(L.Failed); }
      assert mine == old(mine) + AcceptScript(me, outcome);
    }

    /** After a receipt was not found: look for it on the relays, then try once more. */
    method SearchAndAccept(calls: JobCalls, wait: seq<Action>, again: seq<Action>) returns (ghost did: seq<Action>)
      requires Valid() && Own().stage.Accepting? && Foreign(wait, me) && Foreign(again, me)
      modifies this
      ensures Valid() && old(trace) <= trace && Own() == old(Own()).(stage := Stopped)
      ensures mine == old(mine) + did && Follows(did, SearchScript(me, calls))
    {
      hide Next, Foreign, Run, Mine;
      did := [EnterPhase(me, Discovering)];
      var entered := Enter(Discovering);
      if !entered { return; }
      Await(wait);
      if !calls.sweeps {
        Finish(L.Failed);
        did := did + [Report(me, L.Failed)];
        assert mine == old(mine) + did;
        return;
      }
      did := did + [EnterPhase(me, Accepting)];
      entered := Enter(Accepting);
      assert mine == old(mine) + did;
      if !entered { return; }
      Await(again);
      Accept(calls.second);
      did := did + AcceptScript(me, calls.second);
      assert mine == old(mine) + did;
    }

    /** `run_clear_acceptance_job`: every phase is entered under the lease; whatever goes wrong, the job ends. */
    method RunJob(calls: JobCalls, waits: seq<seq<Action>>) returns (ghost did: seq<Action>)
      requires Valid() && Own().stage.Cleared? && |waits| == 4 && forall i :: 0 <= i < 4 ==> Foreign(waits[i], me)
      modifies this
      ensures Valid() && old(trace) <= trace && Own() == old(Own()).(stage := Stopped)
      ensures mine == old(mine) + did && Follows(did, JobScript(me, calls))
    {
      hide Next, Foreign, Run, Mine, AcceptScript, SearchScript;
      did := [EnterPhase(me, Loading)];
      var entered := Enter(Loading);
      if !entered { return; }
      Await(waits[0]);
      if !calls.loads {
        Finish(L.Failed);
        did := did + [Report(me, L.Failed)];
        assert mine == old(mine) + did;
        return;
      }
      did := did + [EnterPhase(me, Accepting)];
      entered := Enter(Accepting);
      assert mine == old(mine) + did;
      if !entered { return; }
      Await(waits[1]);
      if !calls.first.NotFound? {
        Accept(calls.first);
        did := did + AcceptScript(me, calls.first);
      } else {
        ghost var more := SearchAndAccept(calls, waits[2], waits[3]);
        FollowsOn(did, more, SearchScript(me, calls));
        did := did + more;
      }
      assert mine == old(mine) + did;
    }

    /**
     One round of the monitoring loop. It acts only on an acceptable receipt, takes the lease first,
     re-reads the receipts under it, and starts the job only if none is accepted. `stop` ends the loop.
     */
    method Poll(request: Request, receipts: seq<Receipt>, previewed: seq<Receipt>, paying: bool,
                reread: Option<seq<Receipt>>, calls: JobCalls, waits: seq<seq<Action>>)
      returns (stop: bool, choice: Option<Receipt>, claimed: bool, ghost did: seq<Action>)
      requires Valid() && Own().stage.Watching? && |waits| == 6 && forall i :: 0 <= i < 6 ==> Foreign(waits[i], me)
      modifies this
      ensures Valid() && old(trace) <= trace && (if claimed then stop <==> Own().stage.Stopped? else Own() == old(Own()))
      ensures choice.Some? ==> choice.value in receipts + previewed && Pays(choice.value, request)
      ensures !AlreadyAccepted(receipts, request) && (exists r :: r in receipts && Pays(r, request)) ==> choice.Some? && choice.value in receipts
      ensures !claimed ==> (stop <==> AlreadyAccepted(receipts, request)) && (stop ==> choice.None?)
      ensures mine == old(mine) + did
      ensures choice.None? || paying ==> did == [] && !claimed
      ensures choice.Some? && !paying && !claimed ==> did == [TakeLease(me, choice.value.eventId, old(world.board.now))] && !stop
      ensures claimed ==> choice.Some? && |did| > 1 && did[0] == TakeLease(me, choice.value.eventId, old(world.board.now))
      ensures claimed && reread.None? ==> did[1..] == [RecheckFails(me)] && !stop
      ensures claimed && reread.Some? ==>
                && stop && did[1].Recheck? && did[1].m == me
                && (forall id :: id in did[1].seen <==>
                      exists r :: r in reread.value && IsFor(r, request) && r.status == AcceptedReceipt && r.eventId == id)
                && if AlreadyAccepted(reread.value, request) then |did| == 2 else Follows(did[2..], JobScript(me, calls))
      ensures Init(start) && OrderlyThroughout(start, trace) ==> |world.accepted| <= 1
      ensures Init(start) && LiveThroughout(start, trace) && ShownThroughout(start, trace) ==> |world.accepted| <= 1
    {
      claimed, did := false, [];
      stop, choice := PickCandidate(receipts, previewed, request);
      hide Next, CanEnter, Foreign, Run, Mine, Acceptable, Matches, Pays, IsFor, AlreadyAccepted, AcceptedIds, LiveThroughout, ShownThroughout, OrderlyThroughout, Init, Follows, JobScript;
      if !stop && choice.Some? && !paying {
        var asof, event := world.board.now, choice.value.eventId;
        Await(waits[0]);
        claimed := asof <= world.board.now && L.CanClaim(world.board, world.npub, world.npub, asof);
        LeaseGranted(world, me, event, asof);
        did := [TakeLease(me, event, asof)];
        Act(TakeLease(me, event, asof));
        if claimed {
          Await(waits[1]);
          if reread.None? {
            RecheckStages(world, me, {});
            Act(RecheckFails(me));
            did := did + [RecheckFails(me)];
          } else {
            var seen := AcceptedIds(reread.value, request);
            SeenAre(reread.value, request);
            RecheckStages(world, me, seen);
            Act(Recheck(me, seen));
            did := did + [Recheck(me, seen)];
            stop := true;
            if seen == {} {
              ghost var job := RunJob(calls, waits[2..]);
              did := did + job;
            }
          }
        }
      }
      AcceptsOnce(start, trace);
    }
  }

  lemma {:induction false} AcceptsOnce(start: World, trace: seq<Action>)
    ensures Init(start) && OrderlyThroughout(start, trace) ==> |Run(start, trace).accepted| <= 1
    ensures Init(start) && LiveThroughout(start, trace) && ShownThroughout(start, trace) ==> |Run(start, trace).accepted| <= 1
  {
    hide *;
    if Init(start) && OrderlyThroughout(start, trace) { OrderlyRunsAcceptOnce(start, trace); }
    if Init(start) && LiveThroughout(start, trace) && ShownThroughout(start, trace) { AtMostOneAcceptance(start, trace); }
  }

  lemma LeaseGranted(w: World, me: string, event: string, asof: real)
    requires me in w.monitors && w.monitors[me].stage.Watching?
    ensures var v := Next(w, TakeLease(me, event, asof));
            && me in v.monitors
            && if asof <= w.board.now && L.CanClaim(w.board, w.npub, w.npub, asof) then v.monitors[me].stage.Holding? else v == w
  {
  }

  lemma RecheckStages(w: World, me: string, seen: set<string>)
    requires me in w.monitors && w.monitors[me].stage.Holding?
    ensures me in Next(w, RecheckFails(me)).monitors && Next(w, RecheckFails(me)).monitors[me].stage.Watching?
    ensures var v := Next(w, Recheck(me, seen));
            me in v.monitors && if seen == {} then v.monitors[me].stage.Cleared? else v.monitors[me].stage.Stopped?
  {
  }
}
