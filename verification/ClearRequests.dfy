/**
 Monitors of one Clear payment request: each polls the receipts and accepts a
 matching one under the acceptance lease of its Acorn, after re-reading the
 receipts. The lease's data column is the event id being accepted.
 */
module ClearRequests {
  import opened Prelude
  import opened Leases

  // ---- which receipts count ----

  datatype ReceiptStatus = PendingReceipt | AcceptedReceipt | OtherReceipt

  datatype Receipt = Receipt(eventId: string, requestId: string, mint: string, mints: seq<string>, currency: string,
                             status: ReceiptStatus, amount: int)

  datatype Request = Request(npub: string, requestId: string, mint: string, currency: string, amount: int)

  predicate Matches(r: Receipt, request: Request) {
    var mint := if r.mint == "" && |r.mints| == 1 then r.mints[0] else r.mint;
    r.requestId == request.requestId && Bare(mint) == Bare(request.mint) && r.currency == request.currency && !r.status.OtherReceipt?
  }

  predicate Acceptable(r: Receipt, request: Request) {
    Matches(r, request) && r.amount >= request.amount && Hex64(r.eventId)
  }

  /** The receipt is for this request, at its mint and in its currency, and was not turned down. */
  predicate IsFor(r: Receipt, request: Request) {
    && r.requestId == request.requestId && r.currency == request.currency
    && (r.status == PendingReceipt || r.status == AcceptedReceipt)
    && SameMint(if r.mint == "" && |r.mints| == 1 then r.mints[0] else r.mint, request.mint)
  }

  /** It is for this request, pays at least what was asked for, and its event has a proper id. */
  predicate Pays(r: Receipt, request: Request) {
    IsFor(r, request) && request.amount <= r.amount && |r.eventId| == 64 && forall c :: c in r.eventId ==> c in "0123456789abcdef"
  }

  lemma PaysIffAcceptable(r: Receipt, request: Request)
    ensures IsFor(r, request) <==> Matches(r, request)
    ensures Pays(r, request) <==> Acceptable(r, request)
  {
    SameMintIffBare(if r.mint == "" && |r.mints| == 1 then r.mints[0] else r.mint, request.mint);
    forall c: char
      ensures IsHexDigit(c) <==> c in "0123456789abcdef"
    {
      HexDigits(c);
    }
    hide IsHexDigit, Bare, SameMint;
  }

  lemma HexDigits(c: char)
    ensures IsHexDigit(c) <==> c in "0123456789abcdef"
  {
    var digits := "0123456789abcdef";
    if '0' <= c <= '9' { assert digits[c as int - '0' as int] == c; }
    if 'a' <= c <= 'f' { assert digits[c as int - 'a' as int + 10] == c; }
  }

  /** Some receipt of the list is for this request and accepted. */
  predicate AlreadyAccepted(receipts: seq<Receipt>, request: Request) {
    exists r :: r in receipts && IsFor(r, request) && r.status == AcceptedReceipt
  }

  /** Nothing when one is accepted already; otherwise the first that pays, previews counting only if none is for the request. */
  method PickCandidate(receipts: seq<Receipt>, previewed: seq<Receipt>, request: Request) returns (done: bool, choice: Option<Receipt>)
    ensures done <==> AlreadyAccepted(receipts, request)
    ensures done ==> choice.None?
    ensures !done ==>
              var pool := if exists r :: r in receipts && IsFor(r, request) then receipts else previewed;
              if choice.Some?
              then exists i :: 0 <= i < |pool| && choice.value == pool[i] && Pays(pool[i], request)
                               && forall j :: 0 <= j < i ==> !Pays(pool[j], request)
              else forall i :: 0 <= i < |pool| ==> !Pays(pool[i], request)
    ensures !done && (exists r :: r in receipts && Pays(r, request)) ==> choice.Some? && choice.value in receipts
  {
    forall r
      ensures (IsFor(r, request) <==> Matches(r, request)) && (Pays(r, request) <==> Acceptable(r, request))
    {
      PaysIffAcceptable(r, request);
    }
    assert forall r :: Pays(r, request) ==> IsFor(r, request);
    hide Acceptable, Matches, Pays, IsFor;
    choice := None;
    done := exists r :: r in receipts && Matches(r, request) && r.status.AcceptedReceipt?;
    if done { return; }
    var pool := if exists r :: r in receipts && Matches(r, request) then receipts else previewed;
    for i := 0 to |pool|
      invariant choice.None? && forall j :: 0 <= j < i ==> !Pays(pool[j], request)
    {
      if Acceptable(pool[i], request) { return false, Some(pool[i]); }
    }
  }

  // ---- monitors ----

  datatype Stage = Watching | Holding | Cleared | Loading | Accepting | Discovering | Accepted | Stopped

  datatype Monitor = Monitor(worker: string, stage: Stage, token: nat, event: string)

  /** Monitors of one request of one Acorn, and the matching receipts accepted so far. */
  datatype World = World(npub: string, board: Board<string>, monitors: map<string, Monitor>, accepted: seq<string>)

  datatype Action =
    | Others(step: Step<string>)
    | TakeLease(m: string, event: string, asof: real)
    | Recheck(m: string, seen: set<string>)
    | RecheckFails(m: string)
    | EnterPhase(m: string, to: Stage)
    | TakesEffect(m: string)
    | Report(m: string, status: JobStatus)
    | Crash(m: string)

  predicate Active(mon: Monitor) { !mon.stage.Watching? && !mon.stage.Stopped? }

  function Phase(stage: Stage): string {
    match stage
    case Loading => "LOADING"
    case Accepting => "ACCEPTING"
    case Discovering => "DISCOVERING"
    case _ => "REVIEW"
  }

  predicate CanEnter(from: Stage, to: Stage) {
    match to
    case Loading => from.Cleared?
    case Accepting => from.Loading? || from.Discovering?
    case Discovering => from.Accepting?
    case _ => false
  }

  function Moved(w: World, m: string, stage: Stage): World
    requires m in w.monitors
  {
    w.(monitors := w.monitors[m := w.monitors[m].(stage := stage)])
  }

  /** A write by the monitor under its own token. */
  function Wrote(w: World, m: string, changes: Changes<string>): World
    requires m in w.monitors
  {
    w.(board := Leases.Next(w.board, Update(w.npub, w.npub, w.monitors[m].token, changes)))
  }

  function Status(status: JobStatus, phase: string): Changes<string> { Changes(Set(status), Set(phase), Keep, Keep) }

  /** The phase a job's last write leaves. */
  function LastPhase(status: JobStatus): string {
    match status
    case Complete => "COMPLETE"
    case Interrupted => "INTERRUPTED"
    case _ => "REVIEW"
  }

  /** Tokens are secrets: nobody writes with a token that a monitor holds. */
  predicate MayDo(w: World, step: Step<string>) {
    step.Update? ==> forall m :: m in w.monitors && Active(w.monitors[m]) ==> step.token != w.monitors[m].token
  }

  function Lookup(w: World, m: string): Stage {
    if m in w.monitors then w.monitors[m].stage else Stopped
  }

  /**
   One action. A monitor that crashes writes nothing; one that dies while an acceptance is under way
   may also stay where it is, without heartbeats, and the acceptance may still take effect.
   */
  function Next(w: World, a: Action): World {
    match a
    case Others(step) => if MayDo(w, step) then w.(board := Leases.Next(w.board, step)) else w
    case TakeLease(m, event, asof) =>
      if !Lookup(w, m).Watching? || asof > w.board.now || !CanClaim(w.board, w.npub, w.npub, asof) then w
      else
        var mon := w.monitors[m];
        w.(board := Leases.Next(w.board, Claim(w.npub, w.npub, event, Some(mon.worker), asof)),
           monitors := w.monitors[m := mon.(stage := Holding, token := |w.board.issued|, event := event)])
    case Recheck(m, seen) =>
      if !Lookup(w, m).Holding? then w
      else if seen != {} then Moved(Wrote(w, m, Status(Interrupted, "COMPLETE")), m, Stopped)
      else Moved(w, m, Cleared)
    case RecheckFails(m) =>
      if !Lookup(w, m).Holding? then w else Moved(Wrote(w, m, Status(Failed, "REVIEW")), m, Watching)
    case EnterPhase(m, to) =>
      if !CanEnter(Lookup(w, m), to) || m !in w.monitors then w
      else if CanUpdate(w.board, w.npub, w.npub, w.monitors[m].token)
      then Moved(Wrote(w, m, Changes(Keep, Set(Phase(to)), Keep, Keep)), m, to)
      else Moved(w, m, Stopped)
    case TakesEffect(m) =>
      if !Lookup(w, m).Accepting? then w
      else Moved(w, m, Accepted).(accepted := w.accepted + [w.monitors[m].event])
    case Report(m, status) =>
      if status.Running? || m !in w.monitors || !Active(w.monitors[m]) || w.monitors[m].stage.Holding?
         || (status.Complete? && !w.monitors[m].stage.Accepted?) then w
      else Moved(Wrote(w, m, Status(status, LastPhase(status))), m, Stopped)
    case Crash(m) => if m in w.monitors then Moved(w, m, Stopped) else w
  }

  /** The lease row is still the monitor's own. */
  predicate Current(w: World, m: string) {
    m in w.monitors && w.npub in w.board.jobs && w.board.jobs[w.npub].npub == w.npub && w.board.jobs[w.npub].token == w.monitors[m].token
  }

  /** Only the monitor's stage moved. */
  predicate OnlyStage(w: World, v: World, m: string, stage: Stage) {
    && m in w.monitors && m in v.monitors && v.monitors[m] == w.monitors[m].(stage := stage)
    && v.monitors == w.monitors[m := v.monitors[m]] && v.npub == w.npub
  }

  /** The row says this status and this phase now, and is otherwise as it was. */
  predicate Says(w: World, v: World, m: string, status: JobStatus, phase: string) {
    if !Current(w, m) then v.board == w.board
    else
      && w.npub in v.board.jobs
      && v.board == w.board.(jobs := w.board.jobs[w.npub := v.board.jobs[w.npub]])
      && v.board.jobs[w.npub] == w.board.jobs[w.npub].(status := status, phase := phase, updatedAt := w.board.now)
  }

  /**
   What a monitor's actions write. A re-read that shows an acceptance interrupts the job and ends
   the monitor; one that fails fails the job and lets it go on watching; a phase is entered and
   written only while the lease is its own; a report is the last word.
   */
  lemma ActionEffect(w: World, a: Action)
    requires !a.Others? && !a.TakeLease? && !a.Crash? && a.m in w.monitors
    ensures var v, stage := Next(w, a), w.monitors[a.m].stage;
            match a
            case Recheck(m, seen) =>
              if stage != Holding then v == w
              else if seen == {} then OnlyStage(w, v, m, Cleared) && v.board == w.board && v.accepted == w.accepted
              else OnlyStage(w, v, m, Stopped) && Says(w, v, m, Interrupted, "COMPLETE") && v.accepted == w.accepted
            case RecheckFails(m) =>
              if stage != Holding then v == w
              else OnlyStage(w, v, m, Watching) && Says(w, v, m, Failed, "REVIEW") && v.accepted == w.accepted
            case EnterPhase(m, to) =>
              if !((to == Loading && stage == Cleared) || (to == Accepting && (stage == Loading || stage == Discovering))
                   || (to == Discovering && stage == Accepting)) then v == w
              else if !Current(w, m) then OnlyStage(w, v, m, Stopped) && v.board == w.board && v.accepted == w.accepted
              else
                && OnlyStage(w, v, m, to) && v.accepted == w.accepted
                && Says(w, v, m, w.board.jobs[w.npub].status,
                        if to == Loading then "LOADING" else if to == Accepting then "ACCEPTING" else "DISCOVERING")
            case TakesEffect(m) =>
              if stage != Accepting then v == w
              else OnlyStage(w, v, m, Accepted) && v.board == w.board && v.accepted == w.accepted + [w.monitors[m].event]
            case Report(m, status) =>
              if status == Running || stage == Watching || stage == Stopped || stage == Holding || (status == Complete && stage != Accepted) then v == w
              else
                && OnlyStage(w, v, m, Stopped) && v.accepted == w.accepted
                && Says(w, v, m, status, if status == Complete then "COMPLETE" else if status == Interrupted then "INTERRUPTED" else "REVIEW")
            case _ => false
  {
    UpdatesAre(w, a.m);
  }

  /** Taking the lease: the claim of the row for the receipt's event, and the monitor holds its token. */
  lemma TakeLeaseEffect(w: World, m: string, event: string, asof: real)
    requires m in w.monitors
    ensures var v, mon := Next(w, TakeLease(m, event, asof)), w.monitors[m];
            var b := Leases.Next(w.board, Claim(w.npub, w.npub, event, Some(mon.worker), asof));
            if mon.stage != Watching || b == w.board then v == w
            else v == w.(board := b, monitors := w.monitors[m := Monitor(mon.worker, Holding, |w.board.issued|, event)])
  {
    assert |w.board.issued + [w.npub]| > |w.board.issued|;
  }

  lemma UpdatesAre(w: World, m: string)
    requires m in w.monitors
    ensures forall c: Changes<string> :: c.data.Keep? && c.leaseUntil.Keep? ==>
              var b := Wrote(w, m, c).board;
              if !Current(w, m) then b == w.board
              else b == w.board.(jobs := w.board.jobs[w.npub := w.board.jobs[w.npub].(status := Over(c.status, w.board.jobs[w.npub].status),
                                                                                     phase := Over(c.phase, w.board.jobs[w.npub].phase),
                                                                                     updatedAt := w.board.now)])
  {
  }

  function Run(w: World, actions: seq<Action>): World
    decreases |actions|
  {
    if actions == [] then w else Run(Next(w, actions[0]), actions[1..])
  }

  lemma {:induction false} RunAppends(w: World, first: seq<Action>, second: seq<Action>)
    ensures Run(w, first + second) == Run(Run(w, first), second)
    decreases |first|
  {
    if first == [] {
      assert first + second == second;
    } else {
      assert (first + second)[1..] == first[1..] + second;
      RunAppends(Next(w, first[0]), first[1..], second);
    }
  }

  ghost predicate Init(w: World) {
    Wellformed(w.board) && w.accepted == [] && forall m :: m in w.monitors ==> w.monitors[m].stage.Watching?
  }

  // ---- what the protocol relies on ----

  predicate UnderWay(w: World, m: string) { m in w.monitors && w.monitors[m].stage.Accepting? }

  /** No owner goes 60 seconds without a heartbeat while its acceptance is under way; at any other time it may. */
  predicate AcceptorsLive(w: World) {
    forall m :: m in w.monitors && UnderWay(w, m) ==> Live(w.board.beats, w.monitors[m].worker, w.board.now)
  }

  /** A re-read under the lease shows what the monitors have accepted, and whatever else was. */
  predicate SeesAcceptances(w: World, a: Action) {
    a.Recheck? ==> forall e :: e in w.accepted ==> e in a.seen
  }

  predicate LiveThroughout(w: World, actions: seq<Action>)
    decreases |actions|
  {
    AcceptorsLive(w) && (actions != [] ==> LiveThroughout(Next(w, actions[0]), actions[1..]))
  }

  predicate ShownThroughout(w: World, actions: seq<Action>)
    decreases |actions|
  {
    actions != [] ==> SeesAcceptances(w, actions[0]) && ShownThroughout(Next(w, actions[0]), actions[1..])
  }

  // ---- what each action keeps ----

  predicate HoldsRow(w: World, m: string) {
    m in w.monitors && w.npub in w.board.jobs && w.board.jobs[w.npub].token == w.monitors[m].token
  }

  /** A monitor whose token the row carries owns the row. */
  predicate OwnsRow(w: World, m: string)
    requires m in w.monitors
  {
    Owns(w.board, w.npub, w.monitors[m].token, w.monitors[m].worker) && w.board.jobs[w.npub].npub == w.npub
  }

  /** What is known of one monitor at work, who may have lost the lease long ago. */
  predicate MonitorInv(w: World, m: string)
    requires m in w.monitors
  {
    Active(w.monitors[m]) ==>
      && w.monitors[m].token < |w.board.issued| && w.board.issued[w.monitors[m].token] == w.npub
      && (HoldsRow(w, m) ==> OwnsRow(w, m))
      && (w.monitors[m].stage.Accepting? ==> HoldsRow(w, m))
      && (w.accepted != [] && HoldsRow(w, m) ==> w.monitors[m].stage.Holding? || w.monitors[m].stage.Accepted?)
  }

  predicate DistinctTokens(w: World) {
    forall m, n :: m in w.monitors && n in w.monitors && m != n && Active(w.monitors[m]) && Active(w.monitors[n]) ==>
      w.monitors[m].token != w.monitors[n].token
  }

  predicate Inv(w: World) {
    && Wellformed(w.board) && DistinctTokens(w) && |w.accepted| <= 1
    && forall m :: m in w.monitors ==> MonitorInv(w, m)
  }

  /** The lease changes hands, to a monitor or to somebody else. */
  predicate Granted(w: World, a: Action) {
    match a
    case TakeLease(m, _, asof) => Lookup(w, m).Watching? && asof <= w.board.now && CanClaim(w.board, w.npub, w.npub, asof)
    case Others(Claim(key, npub, _, _, asof)) => key == w.npub && asof <= w.board.now && CanClaim(w.board, key, npub, asof)
    case _ => false
  }

  /** The holder of the lease is about to go ahead. */
  predicate Clears(w: World, a: Action) {
    a.Recheck? && a.seen == {} && Lookup(w, a.m).Holding? && HoldsRow(w, a.m)
  }

  /** The lease is not taken while an acceptance is under way, and nobody goes ahead once one has taken effect. */
  predicate Orderly(w: World, a: Action) {
    && (Granted(w, a) ==> forall m :: m in w.monitors ==> !UnderWay(w, m))
    && (Clears(w, a) ==> w.accepted == [])
  }

  predicate OrderlyThroughout(w: World, actions: seq<Action>)
    decreases |actions|
  {
    actions != [] ==> Orderly(w, actions[0]) && OrderlyThroughout(Next(w, actions[0]), actions[1..])
  }

  lemma GrantIsSafeIff(w: World, a: Action)
    requires Inv(w) && Granted(w, a)
    ensures Inv(Next(w, a)) <==> Orderly(w, a)
  {
    var v := Next(w, a);
    StepIsWellformed(w.board, if a.Others? then a.step else Claim(w.npub, w.npub, a.event, Some(w.monitors[a.m].worker), a.asof));
    assert v.board.jobs[w.npub].token == |w.board.issued|;
    if m :| m in w.monitors && UnderWay(w, m) {
      assert MonitorInv(w, m);
      assert v.monitors[m] == w.monitors[m] && !HoldsRow(v, m);
      assert !MonitorInv(v, m);
    } else {
      forall m | m in v.monitors
        ensures MonitorInv(v, m)
      {
        assert MonitorInv(w, m);
      }
      assert DistinctTokens(v) by {
        forall m | m in w.monitors && Active(w.monitors[m])
          ensures w.monitors[m].token < |w.board.issued|
        {
          assert MonitorInv(w, m);
        }
      }
    }
  }

  /** Whatever else others do leaves the row of its holder alone. */
  lemma OtherStepKeepsRow(w: World, step: Step<string>, m: string)
    requires Wellformed(w.board) && MayDo(w, step) && !Granted(w, Others(step)) && m in w.monitors && Active(w.monitors[m])
    requires w.monitors[m].token < |w.board.issued|
    ensures var v := w.(board := Leases.Next(w.board, step));
            && (HoldsRow(v, m) <==> HoldsRow(w, m)) && (HoldsRow(w, m) ==> v.board.jobs[w.npub] == w.board.jobs[w.npub])
  {
  }

  lemma OtherStepIsSafe(w: World, step: Step<string>)
    requires Inv(w) && MayDo(w, step) && !Granted(w, Others(step))
    ensures Inv(w.(board := Leases.Next(w.board, step)))
  {
    var v := w.(board := Leases.Next(w.board, step));
    StepIsWellformed(w.board, step);
    hide Leases.Next, Granted, MayDo, Wellformed;
    forall m | m in v.monitors
      ensures MonitorInv(v, m)
    {
      assert MonitorInv(w, m);
      if Active(w.monitors[m]) { OtherStepKeepsRow(w, step, m); }
    }
  }

  lemma OthersAreSafeIff(w: World, step: Step<string>)
    requires Inv(w)
    ensures Inv(Next(w, Others(step))) <==> Orderly(w, Others(step))
  {
    if Granted(w, Others(step)) {
      GrantIsSafeIff(w, Others(step));
    } else if MayDo(w, step) {
      OtherStepIsSafe(w, step);
    }
  }

  /** A write by a monitor under its own token, and its next stage. */
  lemma WriteIsSafe(w: World, m: string, changes: Changes<string>, stage: Stage)
    requires Inv(w) && m in w.monitors && Active(w.monitors[m])
    requires changes.status.Keep? || !Active(w.monitors[m].(stage := stage))
    requires stage.Accepting? ==> HoldsRow(w, m)
    requires w.accepted != [] && HoldsRow(w, m) && Active(w.monitors[m].(stage := stage)) ==> stage.Holding? || stage.Accepted?
    ensures Inv(Moved(Wrote(w, m, changes), m, stage))
  {
    var v := Moved(Wrote(w, m, changes), m, stage);
    StepIsWellformed(w.board, Update(w.npub, w.npub, w.monitors[m].token, changes));
    assert MonitorInv(w, m);
    forall n | n in v.monitors
      ensures MonitorInv(v, n)
    {
      assert MonitorInv(w, n);
    }
  }

  /** A move without a write. */
  lemma MoveIsSafe(w: World, m: string, stage: Stage)
    requires Inv(w) && m in w.monitors && (Active(w.monitors[m]) || stage.Stopped?) && !stage.Accepting?
    requires w.accepted != [] && HoldsRow(w, m) && Active(w.monitors[m].(stage := stage)) ==> stage.Holding? || stage.Accepted?
    ensures Inv(Moved(w, m, stage))
  {
    var v := Moved(w, m, stage);
    assert MonitorInv(w, m);
    forall n | n in v.monitors
      ensures MonitorInv(v, n)
    {
      assert MonitorInv(w, n);
    }
  }

  lemma RecheckIsSafeIff(w: World, m: string, seen: set<string>)
    requires Inv(w)
    ensures Inv(Next(w, Recheck(m, seen))) <==> Orderly(w, Recheck(m, seen))
  {
    if Lookup(w, m).Holding? {
      if seen != {} {
        WriteIsSafe(w, m, Status(Interrupted, "COMPLETE"), Stopped);
      } else if HoldsRow(w, m) && w.accepted != [] {
        assert !MonitorInv(Moved(w, m, Cleared), m);
      } else {
        MoveIsSafe(w, m, Cleared);
      }
    }
  }

  lemma EnterIsSafe(w: World, m: string, to: Stage)
    requires Inv(w)
    ensures Inv(Next(w, EnterPhase(m, to)))
  {
    if CanEnter(Lookup(w, m), to) && m in w.monitors {
      assert MonitorInv(w, m);
      if CanUpdate(w.board, w.npub, w.npub, w.monitors[m].token) {
        WriteIsSafe(w, m, Changes(Keep, Set(Phase(to)), Keep, Keep), to);
      } else {
        MoveIsSafe(w, m, Stopped);
      }
    }
  }

  lemma EffectIsSafe(w: World, m: string)
    requires Inv(w)
    ensures Inv(Next(w, TakesEffect(m)))
  {
    if UnderWay(w, m) {
      var v := Next(w, TakesEffect(m));
      assert MonitorInv(w, m) && w.accepted == [];
      forall n | n in v.monitors
        ensures MonitorInv(v, n)
      {
        assert MonitorInv(w, n);
      }
    }
  }

  /** The exact condition on each action. */
  lemma ActionIsSafeIff(w: World, a: Action)
    requires Inv(w)
    ensures Inv(Next(w, a)) <==> Orderly(w, a)
  {
    hide Inv, HoldsRow, UnderWay;
    match a
    case Others(step) => OthersAreSafeIff(w, step);
    case TakeLease(_, _, _) => if Granted(w, a) { GrantIsSafeIff(w, a); }
    case Recheck(m, seen) => RecheckIsSafeIff(w, m, seen);
    case RecheckFails(m) => if Lookup(w, m).Holding? { WriteIsSafe(w, m, Status(Failed, "REVIEW"), Watching); }
    case EnterPhase(m, to) => EnterIsSafe(w, m, to);
    case TakesEffect(m) => EffectIsSafe(w, m);
    case Report(m, status) =>
      if m in w.monitors && Active(w.monitors[m]) && !status.Running? { WriteIsSafe(w, m, Status(status, LastPhase(status)), Stopped); }
    case Crash(m) => if m in w.monitors { MoveIsSafe(w, m, Stopped); }
  }

  // ---- at most one acceptance ----

  lemma {:induction false} OrderlyRunKeepsInv(w: World, actions: seq<Action>)
    requires Inv(w) && OrderlyThroughout(w, actions)
    ensures Inv(Run(w, actions))
    decreases |actions|
  {
    hide Inv, Orderly, Next;
    if actions != [] {
      ActionIsSafeIff(w, actions[0]);
      OrderlyRunKeepsInv(Next(w, actions[0]), actions[1..]);
    }
  }

  /** An owner that is live while its acceptance is under way keeps the lease, so the conditions make every action orderly. */
  lemma LiveAndShownIsOrderly(w: World, a: Action)
    requires Inv(w) && AcceptorsLive(w) && SeesAcceptances(w, a)
    ensures Orderly(w, a)
  {
    if Granted(w, a) {
      forall m | m in w.monitors
        ensures !UnderWay(w, m)
      {
        assert MonitorInv(w, m);
      }
    }
    if w.accepted != [] { assert w.accepted[0] in w.accepted; }
  }

  lemma {:induction false} LiveAndShownRunIsOrderly(w: World, actions: seq<Action>)
    requires Inv(w) && LiveThroughout(w, actions) && ShownThroughout(w, actions)
    ensures OrderlyThroughout(w, actions)
    decreases |actions|
  {
    hide Inv, AcceptorsLive, SeesAcceptances, Orderly, Next;
    if actions != [] {
      LiveAndShownIsOrderly(w, actions[0]);
      ActionIsSafeIff(w, actions[0]);
      LiveAndShownRunIsOrderly(Next(w, actions[0]), actions[1..]);
    }
  }

  lemma InitKeepsInv(w: World)
    requires Init(w)
    ensures Inv(w)
  {
  }

  /** In every orderly run at most one matching receipt is accepted. */
  lemma {:induction false} OrderlyRunsAcceptOnce(w: World, actions: seq<Action>)
    requires Init(w) && OrderlyThroughout(w, actions)
    ensures |Run(w, actions).accepted| <= 1
  {
    InitKeepsInv(w);
    OrderlyRunKeepsInv(w, actions);
  }

  /**
   However many monitors poll for one request, whoever else uses the lease, and whichever owners
   die or fall silent: at most one matching receipt is accepted, given that an owner has a fresh
   heartbeat while its acceptance is under way and that re-reads show what was accepted.
   */
  lemma {:induction false} AtMostOneAcceptance(w: World, actions: seq<Action>)
    requires Init(w) && LiveThroughout(w, actions) && ShownThroughout(w, actions)
    ensures |Run(w, actions).accepted| <= 1
  {
    InitKeepsInv(w);
    LiveAndShownRunIsOrderly(w, actions);
    OrderlyRunsAcceptOnce(w, actions);
  }

  // ---- a monitor that lost the lease ----

  /** At work, but the row was taken by somebody else. */
  predicate Overtaken(w: World, m: string) {
    m in w.monitors && Active(w.monitors[m]) && !w.monitors[m].stage.Accepting? && Fenced(w.board, w.monitors[m].token)
  }

  lemma OvertakenStep(w: World, a: Action, m: string)
    requires Overtaken(w, m) && (a.TakeLease? ==> a.m != m)
    ensures var v := Next(w, a);
            && (Overtaken(v, m) || (m in v.monitors && !Active(v.monitors[m])))
            && (!a.Others? && a.m == m ==> v.board.jobs == w.board.jobs)
  {
    FenceHolds(w.board, w.monitors[m].token);
  }

  lemma FenceHolds(b: Board<string>, token: nat)
    requires Fenced(b, token)
    ensures forall step :: Fenced(Leases.Next(b, step), token)
  {
  }

  lemma RestingStep(w: World, a: Action, m: string)
    requires m in w.monitors && !Active(w.monitors[m]) && (a.TakeLease? ==> a.m != m)
    ensures m in Next(w, a).monitors && !Active(Next(w, a).monitors[m])
  {
  }

  /**
   The fencing token at work: a monitor overtaken before its acceptance never starts one, in any
   run, until it takes the lease again. Its next phase is refused, and nothing it writes is kept.
   */
  lemma {:induction false} OvertakenNeverAccepts(w: World, actions: seq<Action>, m: string)
    requires m in w.monitors && (Overtaken(w, m) || !Active(w.monitors[m]))
    requires forall i :: 0 <= i < |actions| && actions[i].TakeLease? ==> actions[i].m != m
    ensures !UnderWay(Run(w, actions), m) && m in Run(w, actions).monitors
    decreases |actions|
  {
    hide Next;
    if actions != [] {
      if Overtaken(w, m) { OvertakenStep(w, actions[0], m); } else { RestingStep(w, actions[0], m); }
      OvertakenNeverAccepts(Next(w, actions[0]), actions[1..], m);
    }
  }

  /** A takeover overtakes everyone who was at work. */
  lemma TakeoverOvertakes(w: World, a: Action, m: string)
    requires Inv(w) && Granted(w, a) && m in w.monitors && Active(w.monitors[m]) && !UnderWay(w, m)
    ensures Overtaken(Next(w, a), m)
  {
    var v := Next(w, a);
    assert MonitorInv(w, m);
    StepIsWellformed(w.board, if a.Others? then a.step else Claim(w.npub, w.npub, a.event, Some(w.monitors[a.m].worker), a.asof));
    forall key | key in v.board.jobs
      ensures v.board.jobs[key].token != w.monitors[m].token
    {
      assert v.board.issued[v.board.jobs[key].token] == key;
    }
  }

  // ---- and why both conditions are needed ----

  /** The steps of a monitor that is free to go ahead, up to where its acceptance is under way. */
  function Approach(m: string, event: string, asof: real): seq<Action> {
    [TakeLease(m, event, asof), Recheck(m, {}), EnterPhase(m, Loading), EnterPhase(m, Accepting)]
  }

  /** Apart from one monitor and the job rows, nothing moved. */
  predicate OnlyMoved(w: World, v: World, m: string) {
    && v.npub == w.npub && v.board.beats == w.board.beats && v.board.now == w.board.now && v.monitors.Keys == w.monitors.Keys
    && forall n :: n in w.monitors ==> v.monitors[n].worker == w.monitors[n].worker && (n != m ==> v.monitors[n] == w.monitors[n])
  }

  /** In the given stage, with the lease in its hands. */
  predicate At(w: World, m: string, event: string, stage: Stage) {
    m in w.monitors && w.monitors[m].stage == stage && w.monitors[m].event == event && OwnsRow(w, m)
  }

  lemma TakesFreeLease(w: World, m: string, event: string)
    requires m in w.monitors && w.monitors[m].stage.Watching? && CanClaim(w.board, w.npub, w.npub, w.board.now)
    ensures var v := Next(w, TakeLease(m, event, w.board.now));
            At(v, m, event, Holding) && OnlyMoved(w, v, m) && v.accepted == w.accepted
  {
  }

  lemma ClearsItself(w: World, m: string, event: string)
    requires At(w, m, event, Holding)
    ensures var v := Next(w, Recheck(m, {})); At(v, m, event, Cleared) && OnlyMoved(w, v, m) && v.accepted == w.accepted
  {
  }

  lemma EntersNext(w: World, m: string, event: string, from: Stage, to: Stage)
    requires At(w, m, event, from) && CanEnter(from, to)
    ensures var v := Next(w, EnterPhase(m, to)); At(v, m, event, to) && OnlyMoved(w, v, m) && v.accepted == w.accepted
  {
    assert CanUpdate(w.board, w.npub, w.npub, w.monitors[m].token);
  }

  lemma Approaches(w: World, m: string, event: string)
    requires m in w.monitors && w.monitors[m].stage.Watching? && CanClaim(w.board, w.npub, w.npub, w.board.now)
    ensures var v := Run(w, Approach(m, event, w.board.now));
            At(v, m, event, Accepting) && OnlyMoved(w, v, m) && v.accepted == w.accepted
    ensures w.accepted == [] ==> ShownThroughout(w, Approach(m, event, w.board.now))
  {
    var a := Approach(m, event, w.board.now);
    var w1 := Next(w, a[0]);
    TakesFreeLease(w, m, event);
    var w2 := Next(w1, a[1]);
    ClearsItself(w1, m, event);
    var w3 := Next(w2, a[2]);
    EntersNext(w2, m, event, Cleared, Loading);
    var w4 := Next(w3, a[3]);
    EntersNext(w3, m, event, Loading, Accepting);
    assert a[1..] == [a[1], a[2], a[3]] && [a[1], a[2], a[3]][1..] == [a[2], a[3]] && [a[2], a[3]][1..] == [a[3]] && [a[3]][1..] == [];
    hide Next, At, CanEnter, CanClaim;
    assert Run(w, a) == Run(w1, [a[1], a[2], a[3]]) == Run(w2, [a[2], a[3]]) == Run(w3, [a[3]]) == Run(w4, []) == w4;
    assert ShownThroughout(w4, []) && ShownThroughout(w3, [a[3]]) && ShownThroughout(w2, [a[2], a[3]]);
  }

  /** The acceptance takes effect, and a failure reported after it frees the lease. */
  lemma AcceptsThenFails(w: World, m: string, event: string)
    requires At(w, m, event, Accepting)
    ensures var u := Run(w, [TakesEffect(m), Report(m, Failed)]);
            && u.accepted == w.accepted + [event] && OnlyMoved(w, u, m) && CanClaim(u.board, u.npub, u.npub, u.board.now)
  {
    var v := Next(w, TakesEffect(m));
    assert v.monitors[m].stage.Accepted?;
    var u := Next(v, Report(m, Failed));
    assert [TakesEffect(m), Report(m, Failed)][1..] == [Report(m, Failed)] && [Report(m, Failed)][1..] == [];
    assert Run(w, [TakesEffect(m), Report(m, Failed)]) == Run(v, [Report(m, Failed)]) == Run(u, []);
  }

  lemma TakesEffectNow(w: World, m: string)
    requires m in w.monitors && w.monitors[m].stage.Accepting?
    ensures Run(w, [TakesEffect(m)]).accepted == w.accepted + [w.monitors[m].event]
    ensures OnlyMoved(w, Run(w, [TakesEffect(m)]), m) && ShownThroughout(w, [TakesEffect(m)])
  {
    assert [TakesEffect(m)][1..] == [];
    assert Run(w, [TakesEffect(m)]) == Run(Next(w, TakesEffect(m)), []);
  }

  /** Every worker's heartbeat is fresh. */
  predicate WorkersLive(w: World) {
    forall m :: m in w.monitors ==> Live(w.board.beats, w.monitors[m].worker, w.board.now)
  }

  predicate WorkersLiveThroughout(w: World, actions: seq<Action>)
    decreases |actions|
  {
    WorkersLive(w) && (actions != [] ==> WorkersLiveThroughout(Next(w, actions[0]), actions[1..]))
  }

  lemma {:induction false} WorkersLiveIsEnough(w: World, actions: seq<Action>)
    requires WorkersLiveThroughout(w, actions)
    ensures LiveThroughout(w, actions)
    decreases |actions|
  {
    hide Next;
    if actions != [] { WorkersLiveIsEnough(Next(w, actions[0]), actions[1..]); }
  }

  lemma OwnStepKeepsBeats(w: World, a: Action)
    requires !a.Others?
    ensures var v := Next(w, a);
            && v.board.beats == w.board.beats && v.board.now == w.board.now && v.monitors.Keys == w.monitors.Keys
            && forall m :: m in w.monitors ==> v.monitors[m].worker == w.monitors[m].worker
  {
    hide CanClaim, CanUpdate, Wellformed;
  }

  /** The monitors' own steps take no time. */
  lemma {:induction false} OwnStepsStayLive(w: World, actions: seq<Action>)
    requires WorkersLive(w) && forall i :: 0 <= i < |actions| ==> !actions[i].Others?
    ensures WorkersLiveThroughout(w, actions)
    decreases |actions|
  {
    if actions != [] {
      OwnStepKeepsBeats(w, actions[0]);
      hide Next;
      OwnStepsStayLive(Next(w, actions[0]), actions[1..]);
    }
  }

  lemma {:induction false} ShownAppends(w: World, first: seq<Action>, second: seq<Action>)
    requires ShownThroughout(w, first) && ShownThroughout(Run(w, first), second)
    ensures ShownThroughout(w, first + second)
    decreases |first|
  {
    hide Next, SeesAcceptances;
    if first == [] {
      assert first + second == second;
    } else {
      assert (first + second)[0] == first[0] && (first + second)[1..] == first[1..] + second;
      ShownAppends(Next(w, first[0]), first[1..], second);
    }
  }

  /** The run of the next lemma: m accepts, its failure frees the lease, n accepts. */
  lemma {:induction false} AcceptedTwice(w: World, m: string, n: string, e: string, f: string) returns (actions: seq<Action>)
    requires m in w.monitors && n in w.monitors && m != n && w.accepted == []
    requires w.monitors[m].stage.Watching? && w.monitors[n].stage.Watching? && CanClaim(w.board, w.npub, w.npub, w.board.now)
    ensures Run(w, actions).accepted == [e, f] && forall i :: 0 <= i < |actions| ==> !actions[i].Others?
  {
    hide Next, Run, CanClaim, At, ShownThroughout;
    var first, after := Approach(m, e, w.board.now), [TakesEffect(m), Report(m, Failed)];
    Approaches(w, m, e);
    var v := Run(w, first);
    AcceptsThenFails(v, m, e);
    var u := Run(v, after);
    assert u.accepted == [e];
    var second := Approach(n, f, u.board.now);
    Approaches(u, n, f);
    AcceptsStage(Run(u, second), n, f);
    TakesEffectNow(Run(u, second), n);
    actions := first + after + second + [TakesEffect(n)];
    RunAppends(w, first, after);
    RunAppends(w, first + after, second);
    RunAppends(w, first + after + second, [TakesEffect(n)]);
  }

  lemma AcceptsStage(w: World, m: string, event: string)
    requires At(w, m, event, Accepting)
    ensures m in w.monitors && w.monitors[m].stage.Accepting? && w.monitors[m].event == event
  {
  }

  /**
   The second condition is needed: with every worker live throughout, a failure reported after
   an acceptance that the receipts do not show yet lets another one follow.
   */
  lemma {:induction false} UnseenAcceptanceRepeats(w: World, m: string, n: string, e: string, f: string)
    requires Init(w) && m in w.monitors && n in w.monitors && m != n && CanClaim(w.board, w.npub, w.npub, w.board.now)
    requires WorkersLive(w)
    ensures exists actions :: WorkersLiveThroughout(w, actions) && !ShownThroughout(w, actions) && Run(w, actions).accepted == [e, f]
  {
    var actions := AcceptedTwice(w, m, n, e, f);
    hide Next, Run, CanClaim, LiveThroughout, WorkersLiveThroughout, ShownThroughout;
    OwnStepsStayLive(w, actions);
    WorkersLiveIsEnough(w, actions);
    if ShownThroughout(w, actions) { AtMostOneAcceptance(w, actions); }
  }

  lemma SilenceFreesLease(w: World, m: string, event: string, stage: Stage) returns (elapsed: real)
    requires At(w, m, event, stage)
    ensures 0.0 <= elapsed
    ensures var v := Run(w, [Others(Tick(elapsed))]);
            v == w.(board := w.board.(now := w.board.now + elapsed)) && CanClaim(v.board, v.npub, v.npub, v.board.now)
    ensures ShownThroughout(w, [Others(Tick(elapsed))])
  {
    var beats, worker := w.board.beats, w.monitors[m].worker;
    elapsed := if worker in beats && beats[worker] + STALE_SECONDS > w.board.now then beats[worker] + STALE_SECONDS - w.board.now else 0.0;
    assert [Others(Tick(elapsed))][1..] == [];
    assert Run(w, [Others(Tick(elapsed))]) == Run(Next(w, Others(Tick(elapsed))), []);
  }

  /** The run of the next lemma: m's acceptance is under way and its owner silent when n's takes effect, then m's does. */
  lemma {:induction false} AcceptedBehindItsBack(w: World, m: string, n: string, e: string, f: string) returns (actions: seq<Action>)
    requires m in w.monitors && n in w.monitors && m != n && w.accepted == []
    requires w.monitors[m].stage.Watching? && w.monitors[n].stage.Watching? && CanClaim(w.board, w.npub, w.npub, w.board.now)
    ensures Run(w, actions).accepted == [f, e] && ShownThroughout(w, actions)
  {
    hide Next, Run, CanClaim, At, ShownThroughout;
    var first := Approach(m, e, w.board.now);
    Approaches(w, m, e);
    var v := Run(w, first);
    AcceptsStage(v, m, e);
    var elapsed := SilenceFreesLease(v, m, e, Accepting);
    var after := [Others(Tick(elapsed))];
    var u := Run(v, after);
    var second := Approach(n, f, u.board.now);
    Approaches(u, n, f);
    var z := Run(u, second);
    AcceptsStage(z, n, f);
    TakesEffectNow(z, n);
    var y := Run(z, [TakesEffect(n)]);
    TakesEffectNow(y, m);
    Both(w, first, after);
    Both(w, first + after, second);
    Both(w, first + after + second, [TakesEffect(n)]);
    actions := first + after + second + [TakesEffect(n)] + [TakesEffect(m)];
    Both(w, first + after + second + [TakesEffect(n)], [TakesEffect(m)]);
  }

  lemma {:induction false} Both(w: World, first: seq<Action>, second: seq<Action>)
    requires ShownThroughout(w, first) && ShownThroughout(Run(w, first), second)
    ensures Run(w, first + second) == Run(Run(w, first), second) && ShownThroughout(w, first + second)
  {
    RunAppends(w, first, second);
    ShownAppends(w, first, second);
  }

  /**
   So is the first: with every re-read showing all that was accepted, an owner that stops
   reporting for 60 seconds while its acceptance is under way is overtaken by a second one.
   */
  lemma {:induction false} SilentOwnerIsOvertaken(w: World, m: string, n: string, e: string, f: string)
    requires Init(w) && m in w.monitors && n in w.monitors && m != n && CanClaim(w.board, w.npub, w.npub, w.board.now)
    ensures exists actions :: ShownThroughout(w, actions) && !LiveThroughout(w, actions) && Run(w, actions).accepted == [f, e]
  {
    var actions := AcceptedBehindItsBack(w, m, n, e, f);
    hide Next, Run, CanClaim, LiveThroughout, ShownThroughout;
    if LiveThroughout(w, actions) { AtMostOneAcceptance(w, actions); }
  }

  // ---- and a dead owner is replaced ----

  /** Only this monitor may have an acceptance under way, and its worker is live. */
  predicate LiveAlone(w: World, m: string) {
    && m in w.monitors && Live(w.board.beats, w.monitors[m].worker, w.board.now)
    && forall n :: n in w.monitors && n != m ==> !UnderWay(w, n)
  }

  lemma {:induction false} LiveAloneRun(w: World, actions: seq<Action>, m: string)
    requires LiveAlone(w, m) && forall i :: 0 <= i < |actions| ==> !actions[i].Others? && actions[i].m == m
    ensures LiveThroughout(w, actions)
    decreases |actions|
  {
    if actions != [] {
      OwnStepKeepsBeats(w, actions[0]);
      OwnStepMovesOne(w, actions[0]);
      hide Next;
      LiveAloneRun(Next(w, actions[0]), actions[1..], m);
    }
  }

  lemma OwnStepMovesOne(w: World, a: Action)
    requires !a.Others?
    ensures forall n :: n in w.monitors && n != a.m ==> n in Next(w, a).monitors && Next(w, a).monitors[n] == w.monitors[n]
  {
    hide CanClaim, CanUpdate, Wellformed;
  }

  lemma {:induction false} LiveAppends(w: World, first: seq<Action>, second: seq<Action>)
    requires LiveThroughout(w, first) && LiveThroughout(Run(w, first), second)
    ensures LiveThroughout(w, first + second)
    decreases |first|
  {
    hide Next, AcceptorsLive;
    if first == [] {
      assert first + second == second;
    } else {
      assert (first + second)[0] == first[0] && (first + second)[1..] == first[1..] + second;
      LiveAppends(Next(w, first[0]), first[1..], second);
    }
  }

  /** What happens to an owner that dies before its acceptance: nobody hears of it, and time passes. */
  function Dies(m: string, event: string, asof: real, elapsed: real, other: string): seq<Action> {
    [TakeLease(m, event, asof), Crash(m), Others(Tick(elapsed)), Others(Beat(other, asof + elapsed))]
  }

  lemma OwnerDies(w: World, m: string, n: string, event: string) returns (elapsed: real)
    requires m in w.monitors && n in w.monitors && m != n && w.monitors[m].worker != w.monitors[n].worker
    requires w.monitors[m].stage.Watching? && w.monitors[n].stage.Watching? && w.accepted == []
    requires forall k :: k in w.monitors ==> !UnderWay(w, k)
    requires CanClaim(w.board, w.npub, w.npub, w.board.now)
    ensures var actions := Dies(m, event, w.board.now, elapsed, w.monitors[n].worker);
            var v := Run(w, actions);
            && LiveThroughout(w, actions) && ShownThroughout(w, actions) && v.accepted == [] && LiveAlone(v, n)
            && v.monitors[n] == w.monitors[n] && CanClaim(v.board, v.npub, v.npub, v.board.now)
  {
    var w1 := Next(w, TakeLease(m, event, w.board.now));
    TakesFreeLease(w, m, event);
    elapsed := SilenceFreesLease(w1, m, event, Holding);
    var actions := Dies(m, event, w.board.now, elapsed, w.monitors[n].worker);
    var w2, w3 := Next(w1, actions[1]), Next(Next(w1, actions[1]), actions[2]);
    var w4 := Next(w3, actions[3]);
    assert w2.board == w1.board && w3.board.now == w.board.now + elapsed && w3.board.jobs == w1.board.jobs;
    assert w4.board == w3.board.(beats := w3.board.beats[w.monitors[n].worker := w3.board.now]);
    DeadStays(w1, m, elapsed, w.monitors[n].worker);
    assert AcceptorsLive(w) && AcceptorsLive(w1) && AcceptorsLive(w2) && AcceptorsLive(w3) && AcceptorsLive(w4);
    hide Next, CanClaim, At;
    DiesUnrolled(w, actions);
  }

  /** A heartbeat of another worker does not revive the owner. */
  lemma DeadStays(w: World, m: string, elapsed: real, other: string)
    requires m in w.monitors && OwnsRow(w, m) && other != w.monitors[m].worker && elapsed >= 0.0
    requires var b := w.board.(now := w.board.now + elapsed); CanClaim(b, w.npub, w.npub, b.now)
    ensures var b := w.board.(now := w.board.now + elapsed, beats := w.board.beats[other := w.board.now + elapsed]);
            CanClaim(b, w.npub, w.npub, b.now)
  {
  }

  lemma {:induction false} DiesUnrolled(w: World, l: seq<Action>)
    requires |l| == 4
    ensures Run(w, l) == Next(Next(Next(Next(w, l[0]), l[1]), l[2]), l[3])
    ensures !l[0].Recheck? && !l[1].Recheck? && !l[2].Recheck? && !l[3].Recheck? ==> ShownThroughout(w, l)
    ensures AcceptorsLive(w) && AcceptorsLive(Next(w, l[0])) && AcceptorsLive(Next(Next(w, l[0]), l[1]))
            && AcceptorsLive(Next(Next(Next(w, l[0]), l[1]), l[2])) && AcceptorsLive(Next(Next(Next(Next(w, l[0]), l[1]), l[2]), l[3])) ==>
              LiveThroughout(w, l)
  {
    hide Next, AcceptorsLive;
    var w1, w2, w3 := Next(w, l[0]), Next(Next(w, l[0]), l[1]), Next(Next(Next(w, l[0]), l[1]), l[2]);
    var w4 := Next(w3, l[3]);
    assert l[1..][0] == l[1] && l[2..][0] == l[2] && l[3..][0] == l[3];
    assert l[1..][1..] == l[2..] && l[2..][1..] == l[3..] && l[3..][1..] == [];
    assert Run(w, l) == Run(w1, l[1..]) == Run(w2, l[2..]) == Run(w3, l[3..]) == Run(w4, []);
    assert ShownThroughout(w4, []);
    assert LiveThroughout(w4, []) <==> AcceptorsLive(w4);
    assert LiveThroughout(w3, l[3..]) <==> AcceptorsLive(w3) && LiveThroughout(w4, []);
    assert LiveThroughout(w2, l[2..]) <==> AcceptorsLive(w2) && LiveThroughout(w3, l[3..]);
    assert LiveThroughout(w1, l[1..]) <==> AcceptorsLive(w1) && LiveThroughout(w2, l[2..]);
    assert !l[3].Recheck? ==> ShownThroughout(w3, l[3..]);
    assert !l[2].Recheck? && !l[3].Recheck? ==> ShownThroughout(w2, l[2..]);
    assert !l[1].Recheck? && !l[2].Recheck? && !l[3].Recheck? ==> ShownThroughout(w1, l[1..]);
  }

  lemma {:induction false} GoesAheadAlone(w: World, n: string, f: string) returns (actions: seq<Action>)
    requires LiveAlone(w, n) && w.monitors[n].stage.Watching? && CanClaim(w.board, w.npub, w.npub, w.board.now) && w.accepted == []
    ensures LiveThroughout(w, actions) && ShownThroughout(w, actions) && Run(w, actions).accepted == [f]
  {
    var second := Approach(n, f, w.board.now);
    Approaches(w, n, f);
    AcceptsStage(Run(w, second), n, f);
    TakesEffectNow(Run(w, second), n);
    actions := second + [TakesEffect(n)];
    LiveAloneRun(w, actions, n);
    hide Next, Run, CanClaim, At, ShownThroughout, LiveThroughout;
    Both(w, second, [TakesEffect(n)]);
  }

  /**
   The conditions leave room for what the lease is for: one monitor takes it and dies, and another
   takes it over and accepts, exactly once, with both conditions met throughout.
   */
  lemma {:induction false} DeadOwnerIsReplaced(w: World, m: string, n: string, e: string, f: string)
    requires Init(w) && m in w.monitors && n in w.monitors && m != n && CanClaim(w.board, w.npub, w.npub, w.board.now)
    requires w.monitors[m].worker != w.monitors[n].worker
    ensures exists actions ::
      && LiveThroughout(w, actions) && ShownThroughout(w, actions) && Run(w, actions).accepted == [f]
      && actions != [] && actions[0] == TakeLease(m, e, w.board.now) && Crash(m) in actions
  {
    var elapsed := OwnerDies(w, m, n, e);
    var first := Dies(m, e, w.board.now, elapsed, w.monitors[n].worker);
    var rest := GoesAheadAlone(Run(w, first), n, f);
    hide Next, Run, CanClaim, ShownThroughout, LiveThroughout, LiveAlone;
    Both(w, first, rest);
    LiveAppends(w, first, rest);
    var actions := first + rest;
    assert actions[0] == first[0] && actions[1] == first[1] == Crash(m);
  }
}
