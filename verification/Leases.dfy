/**
 The lease that every background job takes: one row per key, a token that each
 write must carry, and a worker whose heartbeats keep the row from being taken.
 The five job tables differ in their key and in the columns `D` a claim resets.
 */
module Leases {
  import opened Prelude

  const STALE_SECONDS := 60.0
  const LEASE_SECONDS := 900.0

  datatype JobStatus = Running | Complete | Partial | Pending | Failed | Interrupted

  datatype Job<D> = Job(npub: string, status: JobStatus, phase: string, data: D, token: nat, worker: Option<string>,
                        startedAt: real, updatedAt: real, leaseUntil: real)

  datatype Changes<D> = Changes(status: Field<JobStatus>, phase: Field<string>, data: Field<D>, leaseUntil: Field<real>)

  /** Job rows, heartbeat rows, the clock, and for every token ever drawn the key it was drawn for. */
  datatype Board<D> = Board(jobs: map<string, Job<D>>, beats: map<string, real>, now: real, issued: seq<string>)

  predicate Live(beats: map<string, real>, worker: string, now: real) {
    worker in beats && beats[worker] > now - STALE_SECONDS
  }

  /** `worker_is_live`, which never believes in a worker without a name. */
  predicate WorkerIsLive(beats: map<string, real>, worker: string, now: real) {
    worker != "" && Live(beats, worker, now)
  }

  /** The WHERE clause of a claim. */
  predicate Free<D>(job: Job<D>, npub: string, beats: map<string, real>, now: real) {
    && job.npub == npub
    && (|| !job.status.Running?
        || (job.worker.None? && job.leaseUntil <= now)
        || (job.worker.Some? && !Live(beats, job.worker.value, now)))
  }

  function Started<D>(npub: string, data: D, token: nat, worker: Option<string>, now: real): Job<D> {
    Job(npub, Running, "STARTING", data, token, worker, now, now, now + LEASE_SECONDS)
  }

  /** What a getter shows for a row: a running job whose owner is gone is shown as interrupted. */
  function Shown<D>(job: Job<D>, beats: map<string, real>, now: real): JobStatus {
    var stopped := job.worker.Some? && job.worker.value != "" && !WorkerIsLive(beats, job.worker.value, now);
    var expired := (job.worker.None? || job.worker.value == "") && job.leaseUntil <= now;
    if job.status.Running? && (stopped || expired) then Interrupted else job.status
  }

  // ---- steps ----

  datatype Step<D> =
    | Claim(key: string, npub: string, data: D, worker: Option<string>, asof: real)
    | Update(key: string, npub: string, token: nat, changes: Changes<D>)
    | Beat(id: string, asof: real)
    | Remove(id: string)
    | Tick(elapsed: real)

  predicate CanClaim<D>(b: Board<D>, key: string, npub: string, asof: real) {
    key !in b.jobs || Free(b.jobs[key], npub, b.beats, asof)
  }

  predicate CanUpdate<D>(b: Board<D>, key: string, npub: string, token: nat) {
    key in b.jobs && b.jobs[key].npub == npub && b.jobs[key].token == token
  }

  function Written<D>(job: Job<D>, changes: Changes<D>, now: real): Job<D> {
    job.(status := Over(changes.status, job.status), phase := Over(changes.phase, job.phase),
         data := Over(changes.data, job.data), leaseUntil := Over(changes.leaseUntil, job.leaseUntil), updatedAt := now)
  }

  /** A claim reads the clock before its statement runs, so `asof` may lie in the past. */
  function Next<D>(b: Board<D>, step: Step<D>): Board<D> {
    match step
    case Claim(key, npub, data, worker, asof) =>
      if asof <= b.now && CanClaim(b, key, npub, asof)
      then b.(jobs := b.jobs[key := Started(npub, data, |b.issued|, worker, asof)], issued := b.issued + [key])
      else b
    case Update(key, npub, token, changes) =>
      if CanUpdate(b, key, npub, token) then b.(jobs := b.jobs[key := Written(b.jobs[key], changes, b.now)]) else b
    case Beat(id, asof) => if asof <= b.now then b.(beats := b.beats[id := asof]) else b
    case Remove(id) => b.(beats := b.beats - {id})
    case Tick(elapsed) => if elapsed >= 0.0 then b.(now := b.now + elapsed) else b
  }

  // ---- what a step leaves behind ----

  /** A worker that has beaten within the last minute. */
  predicate Beating(beats: map<string, real>, worker: string, now: real) { worker in beats && now - beats[worker] < 60.0 }

  /** A fresh lease: fifteen minutes, for this npub and worker. */
  predicate StartedAs<D>(job: Job<D>, npub: string, worker: Option<string>, token: nat, now: real) {
    && job.npub == npub && job.status == Running && job.phase == "STARTING" && job.worker == worker && job.token == token
    && job.startedAt == now && job.updatedAt == now && job.leaseUntil == now + 900.0
  }

  /**
   A claim starts the row afresh, under a token never drawn before, exactly when there is none, or
   it is this npub's and finished, or its owner's lease ran out or its heart stopped a minute ago.
   */
  lemma ClaimEffect<D>(b: Board<D>, key: string, npub: string, data: D, worker: Option<string>, asof: real)
    ensures var c := Next(b, Claim(key, npub, data, worker, asof));
            if asof <= b.now
               && (key in b.jobs ==>
                     && b.jobs[key].npub == npub
                     && (b.jobs[key].status.Running? ==>
                           if b.jobs[key].worker.None? then b.jobs[key].leaseUntil <= asof else !Beating(b.beats, b.jobs[key].worker.value, asof)))
            then
              && c.jobs.Keys == b.jobs.Keys + {key} && (forall k :: k in b.jobs && k != key ==> c.jobs[k] == b.jobs[k])
              && StartedAs(c.jobs[key], npub, worker, |b.issued|, asof) && c.jobs[key].data == data
              && c.issued == b.issued + [key] && c.beats == b.beats && c.now == b.now
            else c == b
  {
  }

  /** A write under the row's npub and token changes the columns it names, and the time of change. */
  lemma UpdateEffect<D>(b: Board<D>, key: string, npub: string, token: nat, changes: Changes<D>)
    ensures var c := Next(b, Update(key, npub, token, changes));
            if key in b.jobs && b.jobs[key].npub == npub && b.jobs[key].token == token then
              var was, row := b.jobs[key], c.jobs[key];
              && c == b.(jobs := b.jobs[key := row]) && row.updatedAt == b.now
              && row.npub == npub && row.token == token && row.worker == was.worker && row.startedAt == was.startedAt
              && (if changes.status.Set? then row.status == changes.status.value else row.status == was.status)
              && (if changes.phase.Set? then row.phase == changes.phase.value else row.phase == was.phase)
              && (if changes.data.Set? then row.data == changes.data.value else row.data == was.data)
              && (if changes.leaseUntil.Set? then row.leaseUntil == changes.leaseUntil.value else row.leaseUntil == was.leaseUntil)
            else c == b
  {
  }

  /** Heartbeats, removals and time leave the jobs alone. */
  lemma OtherStepsEffect<D>(b: Board<D>, step: Step<D>)
    requires step.Beat? || step.Remove? || step.Tick?
    ensures var c := Next(b, step);
            && c.jobs == b.jobs && c.issued == b.issued
            && (step.Tick? ==> c.beats == b.beats && c.now == if step.elapsed >= 0.0 then b.now + step.elapsed else b.now)
            && (step.Remove? ==> c.now == b.now && c.beats == map w | w in b.beats && w != step.id :: b.beats[w])
            && (step.Beat? ==> c.now == b.now && c.beats == if step.asof <= b.now then b.beats[step.id := step.asof] else b.beats)
  {
  }

  /** A running job is shown as interrupted once its worker's heart has stopped for a minute, or, without a named worker, once its lease is over. */
  lemma ShownMeans<D>(job: Job<D>, beats: map<string, real>, now: real)
    ensures Shown(job, beats, now) == job.status || (job.status == Running && Shown(job, beats, now) == Interrupted)
    ensures job.status == Running ==>
              (Shown(job, beats, now) == Interrupted <==>
               if job.worker.Some? && job.worker.value != "" then !Beating(beats, job.worker.value, now) else job.leaseUntil <= now)
  {
  }

  function Run<D>(b: Board<D>, steps: seq<Step<D>>): Board<D>
    decreases |steps|
  {
    if steps == [] then b else Run(Next(b, steps[0]), steps[1..])
  }

  lemma {:induction false} RunAppends<D>(b: Board<D>, first: seq<Step<D>>, second: seq<Step<D>>)
    ensures Run(b, first + second) == Run(Run(b, first), second)
    decreases |first|
  {
    if first == [] {
      assert first + second == second;
    } else {
      assert (first + second)[1..] == first[1..] + second;
      RunAppends(Next(b, first[0]), first[1..], second);
    }
  }

  /** Tokens in rows were drawn for that row's key. */
  predicate Wellformed<D>(b: Board<D>) {
    forall key :: key in b.jobs ==> b.jobs[key].token < |b.issued| && b.issued[b.jobs[key].token] == key
  }

  /** Rows keep their npub and are never deleted; tokens and time only grow. */
  predicate Grown<D>(b: Board<D>, c: Board<D>) {
    && b.issued <= c.issued && b.now <= c.now
    && forall key :: key in b.jobs ==> key in c.jobs && c.jobs[key].npub == b.jobs[key].npub
  }

  lemma StepIsWellformed<D>(b: Board<D>, step: Step<D>)
    requires Wellformed(b)
    ensures Wellformed(Next(b, step)) && Grown(b, Next(b, step))
  {
  }

  lemma {:induction false} RunIsWellformed<D>(b: Board<D>, steps: seq<Step<D>>)
    requires Wellformed(b)
    ensures Wellformed(Run(b, steps)) && Grown(b, Run(b, steps))
    decreases |steps|
  {
    hide Wellformed, Next;
    if steps != [] {
      StepIsWellformed(b, steps[0]);
      RunIsWellformed(Next(b, steps[0]), steps[1..]);
    }
  }

  // ---- a live owner keeps the lease ----

  predicate Owns<D>(b: Board<D>, key: string, token: nat, worker: string) {
    key in b.jobs && b.jobs[key].token == token && b.jobs[key].worker == Some(worker) && b.jobs[key].status.Running?
  }

  /** The worker's last heartbeat is never 60 seconds old or older during the run. */
  predicate AlwaysLive<D>(b: Board<D>, steps: seq<Step<D>>, worker: string)
    decreases |steps|
  {
    Live(b.beats, worker, b.now) && (steps != [] ==> AlwaysLive(Next(b, steps[0]), steps[1..], worker))
  }

  predicate Releases<D>(step: Step<D>, token: nat) {
    step.Update? && step.token == token && step.changes.status.Set? && !step.changes.status.value.Running?
  }

  /** How often a key's lease was granted. */
  function Grants(issued: seq<string>, key: string): nat {
    if issued == [] then 0 else Grants(issued[..|issued| - 1], key) + if issued[|issued| - 1] == key then 1 else 0
  }

  lemma GrantOne(issued: seq<string>, key: string, other: string)
    ensures Grants(issued + [other], key) == Grants(issued, key) + if other == key then 1 else 0
  {
    assert (issued + [other])[..|issued|] == issued;
  }

  lemma OwnerKeepsOneStep<D>(b: Board<D>, step: Step<D>, key: string, token: nat, worker: string)
    requires Wellformed(b) && Owns(b, key, token, worker) && Live(b.beats, worker, b.now) && !Releases(step, token)
    ensures Owns(Next(b, step), key, token, worker)
    ensures Grants(Next(b, step).issued, key) == Grants(b.issued, key)
  {
    if step.Claim? {
      GrantOne(b.issued, key, step.key);
    }
  }

  /**
   While the owner's heartbeats stay less than 60 seconds apart and it does not write a final
   status, no claim by anyone succeeds and the row stays its own.
   */
  lemma {:induction false} LiveOwnerKeepsLease<D>(b: Board<D>, steps: seq<Step<D>>, key: string, token: nat, worker: string)
    requires Wellformed(b) && Owns(b, key, token, worker) && AlwaysLive(b, steps, worker)
    requires forall i :: 0 <= i < |steps| ==> !Releases(steps[i], token)
    ensures Owns(Run(b, steps), key, token, worker)
    ensures Grants(Run(b, steps).issued, key) == Grants(b.issued, key)
    decreases |steps|
  {
    if steps != [] {
      OwnerKeepsOneStep(b, steps[0], key, token, worker);
      StepIsWellformed(b, steps[0]);
      LiveOwnerKeepsLease(Next(b, steps[0]), steps[1..], key, token, worker);
    }
  }

  /** At no moment of the run could a claim take the row. */
  predicate AlwaysHeld<D>(b: Board<D>, steps: seq<Step<D>>, key: string)
    decreases |steps|
  {
    && key in b.jobs && !Free(b.jobs[key], b.jobs[key].npub, b.beats, b.now)
    && (steps != [] ==> AlwaysHeld(Next(b, steps[0]), steps[1..], key))
  }

  /** The same for every owner, with or without a worker: a lease that never lapses is never granted again. */
  lemma {:induction false} HeldLeaseIsKept<D>(b: Board<D>, steps: seq<Step<D>>, key: string)
    requires AlwaysHeld(b, steps, key)
    ensures key in Run(b, steps).jobs && Run(b, steps).jobs[key].token == b.jobs[key].token
    ensures Grants(Run(b, steps).issued, key) == Grants(b.issued, key)
    decreases |steps|
  {
    if steps != [] {
      var c := Next(b, steps[0]);
      if steps[0].Claim? { GrantOne(b.issued, key, steps[0].key); }
      assert c.jobs[key].token == b.jobs[key].token;
      HeldLeaseIsKept(c, steps[1..], key);
    }
  }

  // ---- a lost lease is lost for good ----

  /** The token was drawn, and the row it was drawn for belongs to another. */
  predicate Fenced<D>(b: Board<D>, token: nat) {
    token < |b.issued| && forall key :: key in b.jobs ==> b.jobs[key].token != token
  }

  lemma {:induction false} FencedForever<D>(b: Board<D>, steps: seq<Step<D>>, token: nat)
    requires Fenced(b, token)
    ensures Fenced(Run(b, steps), token)
    decreases |steps|
  {
    if steps != [] { FencedForever(Next(b, steps[0]), steps[1..], token); }
  }

  /**
   Once somebody else has taken a key, every write with an older token of that key changes
   nothing, at any later time and whatever happens in between.
   */
  lemma {:induction false} TakeoverFencesOldTokens<D>(b: Board<D>, steps: seq<Step<D>>, stale: nat, key: string, npub: string, changes: Changes<D>)
    requires Wellformed(b) && key in b.jobs && stale < b.jobs[key].token && b.issued[stale] == key
    ensures var c := Run(b, steps); Next(c, Update(key, npub, stale, changes)) == c
  {
    forall k | k in b.jobs
      ensures b.jobs[k].token != stale
    {
      assert b.issued[b.jobs[k].token] == k;
    }
    FencedForever(b, steps, stale);
  }

  /** A takeover does make the previous owner's token an older one. */
  lemma ClaimOutdatesOwner<D>(b: Board<D>, claim: Step<D>)
    requires Wellformed(b) && claim.Claim? && Next(b, claim) != b && claim.key in b.jobs
    ensures var c := Next(b, claim); claim.key in c.jobs && b.jobs[claim.key].token < c.jobs[claim.key].token
                                     && c.issued[b.jobs[claim.key].token] == claim.key
  {
  }

  // ---- a stopped owner is replaced ----

  /**
   Sixty seconds after the owner's last heartbeat a claim by the row's npub always succeeds, and
   until then it never does, unless the owner finished or never had a worker.
   */
  lemma StoppedOwnerIsReplaced<D>(b: Board<D>, key: string, data: D, worker: Option<string>, asof: real)
    requires Wellformed(b) && key in b.jobs && b.jobs[key].worker.Some? && b.jobs[key].status.Running? && asof <= b.now
    ensures var job := b.jobs[key];
            var c := Next(b, Claim(key, job.npub, data, worker, asof));
            if job.worker.value !in b.beats || asof - b.beats[job.worker.value] >= 60.0
            then c.jobs[key] == Started(job.npub, data, |b.issued|, worker, asof) && c.issued == b.issued + [key]
            else c == b
  {
  }

  /** What the getter shows agrees with what a claim at that moment would do, unless the owner is a worker named "". */
  lemma ShownAgreesWithClaim<D>(b: Board<D>, key: string)
    requires key in b.jobs
    ensures var job := b.jobs[key];
            (Shown(job, b.beats, b.now).Running? <==> !CanClaim(b, key, job.npub, b.now))
            <==> !job.status.Running? || job.worker != Some("") || (job.leaseUntil > b.now <==> Live(b.beats, "", b.now))
  {
  }

  /** A deposit's row is never touched by a claim or a write under another npub. */
  lemma {:induction false} OtherNpubsChangeNothing<D>(b: Board<D>, steps: seq<Step<D>>, key: string)
    requires key in b.jobs
    requires forall i :: 0 <= i < |steps| ==>
                           (steps[i].Claim? || steps[i].Update?) && steps[i].key == key ==> steps[i].npub != b.jobs[key].npub
    ensures key in Run(b, steps).jobs && Run(b, steps).jobs[key] == b.jobs[key]
    decreases |steps|
  {
    if steps != [] { OtherNpubsChangeNothing(Next(b, steps[0]), steps[1..], key); }
  }
}
