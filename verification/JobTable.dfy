/** The job and heartbeat tables as the application changes them, with other processes writing between statements. */
module JobTable {
  import opened Prelude
  import opened Leases

  class Table<D> {
    var jobs: map<string, Job<D>>
    var beats: map<string, real>
    var now: real
    var issued: seq<string>

    function Board(): Leases.Board<D>
      reads this
    {
      Leases.Board(jobs, beats, now, issued)
    }

    predicate Valid()
      reads this
    {
      Wellformed(Board())
    }

    /** Whatever other processes do meanwhile. */
    method Others(steps: seq<Step<D>>)
      requires Valid()
      modifies this
      ensures Valid() && Board() == Run(old(Board()), steps) && Grown(old(Board()), Board())
    {
      RunIsWellformed(Board(), steps);
      var b := Run(Board(), steps);
      jobs, beats, now, issued := b.jobs, b.beats, b.now, b.issued;
    }

    /**
     Insert the row, or, if it exists or appears meanwhile, update it where the lease is free.
     The clock is read first; others write before the insert and again before the update.
     */
    method Claim(key: string, npub: string, data: D, worker: Option<string>, before: seq<Step<D>>, between: seq<Step<D>>)
      returns (claimed: bool, token: nat, job: Job<D>)
      requires Valid()
      modifies this
      ensures Valid()
      ensures var present := key in Run(old(Board()), before).jobs;
              var seen := Run(old(Board()), if present then before + between else before);
              && Board() == Next(seen, Step.Claim(key, npub, data, worker, old(now)))
              && claimed == CanClaim(seen, key, npub, old(now))
              && (claimed ==> StartedAs(job, npub, worker, token, old(now)) && job.data == data && token == |seen.issued|)
              && key in jobs && jobs[key] == job
    {
      var asof := now;
      token := 0;
      var known := key in jobs;
      Others(before);
      RunAppends(old(Board()), before, between);
      if !known && key !in jobs {
        token := |issued|;
        job := Started(npub, data, token, worker, asof);
        jobs, issued, claimed := jobs[key := job], issued + [key], true;
        return;
      }
      Others(between);
      claimed := Free(jobs[key], npub, beats, asof);
      if claimed {
        token := |issued|;
        jobs, issued := jobs[key := Started(npub, data, token, worker, asof)], issued + [key];
      }
      job := jobs[key];
    }

    method Update(key: string, npub: string, token: nat, changes: Changes<D>) returns (changed: bool)
      requires Valid()
      modifies this`jobs
      ensures Valid() && Board() == Next(old(Board()), Step.Update(key, npub, token, changes))
      ensures changed == CanUpdate(old(Board()), key, npub, token)
    {
      changed := key in jobs && jobs[key].npub == npub && jobs[key].token == token;
      if changed { jobs := jobs[key := Written(jobs[key], changes, now)]; }
    }

    method Heartbeat(id: string, before: seq<Step<D>>)
      requires Valid()
      modifies this
      ensures Valid() && Board() == Next(Run(old(Board()), before), Step.Beat(id, old(now)))
    {
      var asof := now;
      Others(before);
      beats := beats[id := asof];
    }

    method RemoveWorker(id: string)
      requires Valid()
      modifies this`beats
      ensures Valid() && Board() == Next(old(Board()), Step.Remove(id))
    {
      beats := beats - {id};
    }

    /** The view a page gets of a job: its own npub only, and never a running job whose owner is gone. */
    method Get(key: string, npub: string, phase: string) returns (view: Option<Job<D>>)
      ensures view.Some? <==> key in jobs && jobs[key].npub == npub
      ensures view.Some? ==> var job := jobs[key];
                             var alive := if job.worker.Some? && job.worker.value != "" then Beating(beats, job.worker.value, now)
                                          else now < job.leaseUntil;
                             view.value == if job.status == Running && !alive then job.(status := Interrupted, phase := phase) else job
    {
      if key !in jobs || jobs[key].npub != npub { return None; }
      var job := jobs[key];
      if job.status.Running? {
        var named := job.worker.Some? && job.worker.value != "";
        var stopped := named && !WorkerIsLive(beats, job.worker.value, now);
        var expired := !named && job.leaseUntil <= now;
        if stopped || expired { job := job.(status := Interrupted, phase := phase); }
      }
      view := Some(job);
    }

    /**
     The lease loop of a running job: renew after every nap until a renewal fails. A failed
     renewal means the row belongs to somebody else, for good.
     */
    method KeepLease(key: string, npub: string, token: nat, naps: seq<seq<Step<D>>>) returns (lost: bool)
      requires Valid() && token < |issued| && key in jobs && jobs[key].npub == npub && issued[token] == key
      modifies this
      ensures Valid()
      ensures lost ==> Fenced(Board(), token)
      ensures !lost && naps != [] ==> CanUpdate(Board(), key, npub, token) && jobs[key].leaseUntil == now + 900.0
    {
      lost := false;
      for i := 0 to |naps|
        invariant Valid() && token < |issued| && issued[token] == key && key in jobs && jobs[key].npub == npub && !lost
        invariant i > 0 ==> CanUpdate(Board(), key, npub, token) && jobs[key].leaseUntil == now + 900.0
      {
        Others(naps[i]);
        var renewed := Update(key, npub, token, Changes(Keep, Keep, Keep, Set(now + LEASE_SECONDS)));
        if !renewed { return true; }
      }
    }
  }
}
