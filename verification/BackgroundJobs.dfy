/** The five job tables: what a claim resets in each, and by what each is keyed. */
module BackgroundJobs {
  import opened Prelude
  import opened Leases
  import opened JobTable

  datatype Finalization = Finalization(discoveredCount: int, discoveredAmount: int, confirmedCount: int, confirmedAmount: int,
                                       pendingCount: int, pendingAmount: int, error: Option<string>)

  datatype Acceptance = Acceptance(eventId: string, amount: int, mint: Option<string>, currency: Option<string>, error: Option<string>)

  datatype Receiving = Receiving(storedCount: int, error: Option<string>)

  datatype Outgoing = Outgoing(kind: string, recipient: string, amount: int, tendered: Option<real>, tenderedCurrency: string,
                               totalFees: Option<int>, mintFees: Option<int>, lightningFee: Option<int>, lightningFeeReserve: Option<int>,
                               lightningFeeReturn: Option<int>, message: Option<string>, error: Option<string>)

  datatype Deposit = Deposit(amount: int, mint: string, error: Option<string>)

  const NO_FINALIZATION := Finalization(0, 0, 0, 0, 0, 0, None)
  const NOTHING_RECEIVED := Receiving(0, None)

  function NewAcceptance(eventId: string): Acceptance { Acceptance(eventId, 0, None, None, None) }

  function NewOutgoing(kind: string, recipient: string, amount: int, tendered: Option<real>, currency: string): Outgoing {
    Outgoing(kind, recipient, amount, tendered, if currency == "" then "SAT" else currency, None, None, None, None, None, None, None)
  }

  function NewDeposit(amount: int, mint: string): Deposit { Deposit(amount, Bare(mint), None) }

  // ---- tables keyed by npub ----

  predicate KeyedByNpub<D>(b: Board<D>) { forall key :: key in b.jobs ==> b.jobs[key].npub == key }

  /** Every claim names its npub as key. */
  predicate ClaimsByNpub<D>(steps: seq<Step<D>>) { forall i :: 0 <= i < |steps| && steps[i].Claim? ==> steps[i].npub == steps[i].key }

  /** Four of the tables hold one row per npub, so a claim's npub always matches the row's. */
  lemma {:induction false} StaysKeyedByNpub<D>(b: Board<D>, steps: seq<Step<D>>)
    requires KeyedByNpub(b) && ClaimsByNpub(steps)
    ensures KeyedByNpub(Run(b, steps))
    decreases |steps|
  {
    if steps != [] {
      assert KeyedByNpub(Next(b, steps[0]));
      StaysKeyedByNpub(Next(b, steps[0]), steps[1..]);
    }
  }

  /** There a claim is refused exactly while the row's lease is held. */
  lemma RefusedWhileHeld<D>(b: Board<D>, npub: string, data: D, worker: Option<string>)
    requires KeyedByNpub(b)
    ensures var c := Next(b, Claim(npub, npub, data, worker, b.now));
            if npub in b.jobs && b.jobs[npub].status.Running?
               && (if b.jobs[npub].worker.None? then b.jobs[npub].leaseUntil > b.now else Beating(b.beats, b.jobs[npub].worker.value, b.now))
            then c == b
            else npub in c.jobs && StartedAs(c.jobs[npub], npub, worker, |b.issued|, b.now) && c.jobs[npub].data == data && c.issued == b.issued + [npub]
  {
  }

  // ---- the five claims ----

  method ClaimFinalization(t: Table<Finalization>, npub: string, worker: Option<string>,
                           before: seq<Step<Finalization>>, between: seq<Step<Finalization>>)
    returns (claimed: bool, token: nat, job: Job<Finalization>)
    requires t.Valid() && KeyedByNpub(t.Board()) && ClaimsByNpub(before) && ClaimsByNpub(between)
    modifies t
    ensures t.Valid() && KeyedByNpub(t.Board()) && npub in t.jobs && t.jobs[npub] == job
    ensures claimed ==> StartedAs(job, npub, worker, token, old(t.now))
    ensures claimed ==> job.data == Finalization(0, 0, 0, 0, 0, 0, None)
  {
    ghost var b, c := t.Board(), Claim(npub, npub, NO_FINALIZATION, worker, t.now);
    StayKeyed(b, before, between, c);
    claimed, token, job := t.Claim(npub, npub, NO_FINALIZATION, worker, before, between);
  }

  method ClaimAcceptance(t: Table<Acceptance>, npub: string, eventId: string, worker: Option<string>,
                         before: seq<Step<Acceptance>>, between: seq<Step<Acceptance>>)
    returns (claimed: bool, token: nat, job: Job<Acceptance>)
    requires t.Valid() && KeyedByNpub(t.Board()) && ClaimsByNpub(before) && ClaimsByNpub(between)
    modifies t
    ensures t.Valid() && KeyedByNpub(t.Board()) && npub in t.jobs && t.jobs[npub] == job
    ensures claimed ==> StartedAs(job, npub, worker, token, old(t.now))
    ensures claimed ==> job.data == Acceptance(eventId, 0, None, None, None)
  {
    ghost var b, c := t.Board(), Claim(npub, npub, NewAcceptance(eventId), worker, t.now);
    StayKeyed(b, before, between, c);
    claimed, token, job := t.Claim(npub, npub, NewAcceptance(eventId), worker, before, between);
  }

  method ClaimReceiving(t: Table<Receiving>, npub: string, worker: Option<string>,
                        before: seq<Step<Receiving>>, between: seq<Step<Receiving>>)
    returns (claimed: bool, token: nat, job: Job<Receiving>)
    requires t.Valid() && KeyedByNpub(t.Board()) && ClaimsByNpub(before) && ClaimsByNpub(between)
    modifies t
    ensures t.Valid() && KeyedByNpub(t.Board()) && npub in t.jobs && t.jobs[npub] == job
    ensures claimed ==> StartedAs(job, npub, worker, token, old(t.now))
    ensures claimed ==> job.data == Receiving(0, None)
  {
    ghost var b, c := t.Board(), Claim(npub, npub, NOTHING_RECEIVED, worker, t.now);
    StayKeyed(b, before, between, c);
    claimed, token, job := t.Claim(npub, npub, NOTHING_RECEIVED, worker, before, between);
  }

  method ClaimOutgoing(t: Table<Outgoing>, npub: string, kind: string, recipient: string, amount: int, tendered: Option<real>,
                       currency: string, worker: Option<string>, before: seq<Step<Outgoing>>, between: seq<Step<Outgoing>>)
    returns (claimed: bool, token: nat, job: Job<Outgoing>)
    requires t.Valid() && KeyedByNpub(t.Board()) && ClaimsByNpub(before) && ClaimsByNpub(between)
    modifies t
    ensures t.Valid() && KeyedByNpub(t.Board()) && npub in t.jobs && t.jobs[npub] == job
    ensures claimed ==> StartedAs(job, npub, worker, token, old(t.now))
    ensures claimed ==> job.data == Outgoing(kind, recipient, amount, tendered, if currency == "" then "SAT" else currency,
                                       None, None, None, None, None, None, None)
  {
    var data := NewOutgoing(kind, recipient, amount, tendered, currency);
    ghost var b, c := t.Board(), Claim(npub, npub, data, worker, t.now);
    StayKeyed(b, before, between, c);
    claimed, token, job := t.Claim(npub, npub, data, worker, before, between);
  }

  /** Deposits are keyed by quote hash; a row of another npub is left as others leave it. */
  method ClaimDeposit(t: Table<Deposit>, quoteHash: string, npub: string, amount: int, mint: string, worker: Option<string>,
                      before: seq<Step<Deposit>>, between: seq<Step<Deposit>>)
    returns (claimed: bool, token: nat, job: Job<Deposit>)
    requires t.Valid()
    modifies t
    ensures t.Valid() && quoteHash in t.jobs && t.jobs[quoteHash] == job
    ensures claimed ==> StartedAs(job, npub, worker, token, old(t.now))
    ensures claimed ==> job.data.amount == amount && job.data.error.None?
    ensures claimed ==> SameMint(job.data.mint, mint) && (job.data.mint != "" ==> job.data.mint[|job.data.mint| - 1] != '/')
    ensures quoteHash in old(t.jobs) && old(t.jobs)[quoteHash].npub != npub ==>
              !claimed && t.Board() == Run(old(t.Board()), before + between)
  {
    ghost var b := t.Board();
    RunIsWellformed(b, before);
    RunIsWellformed(b, before + between);
    BareIsSameMint(mint);
    claimed, token, job := t.Claim(quoteHash, npub, NewDeposit(amount, mint), worker, before, between);
  }

  lemma StayKeyed<D>(b: Board<D>, before: seq<Step<D>>, between: seq<Step<D>>, claim: Step<D>)
    requires KeyedByNpub(b) && ClaimsByNpub(before) && ClaimsByNpub(between) && claim.Claim? && claim.npub == claim.key
    ensures KeyedByNpub(Next(Run(b, before), claim)) && KeyedByNpub(Next(Run(b, before + between), claim))
  {
    StaysKeyedByNpub(b, before);
    StaysKeyedByNpub(b, before + between);
    hide Run;
  }
}
