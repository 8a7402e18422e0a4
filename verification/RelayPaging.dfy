/**
 Paging through one relay's stored events with overlapping timestamps. The relay
 answers as NIP-01 says under "Communication between clients and relays": the
 newest `limit` matching events not later than `until`.
 */
module RelayPaging {
  import opened Ordering
  import opened Prelude

  /** A stored event that matches the filter, and what evaluating it as a candidate says. */
  datatype Stored = Stored(id: string, at: nat, accepted: bool)

  datatype Coverage = PageLimit | Exhausted | Saturated | Unavailable

  predicate Distinct(batch: seq<Stored>) { forall i, j :: 0 <= i < j < |batch| ==> batch[i] != batch[j] }

  function SetOf(batch: seq<Stored>): set<Stored> { set e | e in batch }

  function Eligible(stored: set<Stored>, until: Option<nat>): set<Stored> {
    set e | e in stored && (until.Some? ==> e.at <= until.value)
  }

  /** An answer with the newest eligible events, whatever their order. */
  predicate Newest(batch: seq<Stored>, stored: set<Stored>, until: Option<nat>, limit: nat) {
    && Distinct(batch) && SetOf(batch) <= Eligible(stored, until)
    && |batch| == Min(limit, |Eligible(stored, until)|)
    && forall d, e :: d in batch && e in Eligible(stored, until) && e !in batch ==> e.at <= d.at
  }

  predicate IdsTellApart(stored: set<Stored>) { forall d, e :: d in stored && e in stored && d.id == e.id ==> d == e }

  /** The stored events of one timestamp. */
  function Bucket(stored: set<Stored>, at: nat): set<Stored> { set e | e in stored && e.at == at }

  // ---- counting ----

  lemma {:induction false} DistinctSize(batch: seq<Stored>)
    requires Distinct(batch)
    ensures |SetOf(batch)| == |batch|
  {
    if batch != [] {
      var n := |batch| - 1;
      DistinctSize(batch[..n]);
      assert SetOf(batch) == SetOf(batch[..n]) + {batch[n]} by { assert batch == batch[..n] + [batch[n]]; }
      assert batch[n] !in SetOf(batch[..n]);
    }
  }

  lemma {:induction false} SubsetSize(a: set<Stored>, b: set<Stored>)
    requires a <= b
    ensures |a| <= |b| && (|a| == |b| ==> a == b)
  {
    if a != {} {
      var x :| x in a;
      SubsetSize(a - {x}, b - {x});
      assert a == (a - {x}) + {x} && b == (b - {x}) + {x};
    } else {
      assert |b| == 0 ==> b == {};
    }
  }

  /** A page shorter than the limit has everything that was eligible. */
  lemma ShortPageIsComplete(batch: seq<Stored>, stored: set<Stored>, until: Option<nat>, limit: nat)
    requires Newest(batch, stored, until, limit) && |batch| < limit
    ensures SetOf(batch) == Eligible(stored, until)
  {
    DistinctSize(batch);
    SubsetSize(SetOf(batch), Eligible(stored, until));
  }

  // ---- the walk ----

  /** Everything later than `until` has been seen, and no bucket later than it fills a page. */
  ghost predicate Covered(stored: set<Stored>, seen: set<Stored>, until: Option<nat>, limit: nat) {
    && seen <= stored
    && (until.None? ==> seen == {})
    && (until.Some? ==> forall e :: e in seen ==> until.value <= e.at)
    && (until.Some? ==> forall e :: e in stored && e.at > until.value ==> e in seen)
    && (until.Some? ==> forall t: nat :: t > until.value ==> |Bucket(stored, t)| < limit)
  }

  predicate IsOldest(oldest: nat, batch: seq<Stored>) {
    (exists e :: e in batch && e.at == oldest) && forall e :: e in batch ==> oldest <= e.at
  }

  /** A full page whose oldest event is older than `until` moves the frontier to that event. */
  lemma FullPageMovesOn(stored: set<Stored>, seen: set<Stored>, until: Option<nat>, limit: nat, batch: seq<Stored>, oldest: nat)
    requires Covered(stored, seen, until, limit) && Newest(batch, stored, until, limit) && |batch| == limit
    requires IsOldest(oldest, batch) && (until.Some? ==> oldest < until.value)
    ensures Covered(stored, seen + SetOf(batch), Some(oldest), limit)
  {
    var last :| last in batch && last.at == oldest;
    DistinctSize(batch);
    forall e | e in stored && e.at > oldest
      ensures e in seen + SetOf(batch)
    {
      assert e in Eligible(stored, until) && e !in batch ==> e.at <= last.at;
    }
    forall t: nat | t > oldest
      ensures |Bucket(stored, t)| < limit
    {
      if until.None? || t <= until.value {
        assert Bucket(stored, t) <= SetOf(batch) - {last};
        SubsetSize(Bucket(stored, t), SetOf(batch) - {last});
      }
    }
  }

  /** A full page that cannot move the frontier lies within one timestamp, whose bucket fills a page. */
  lemma StuckPageIsOneBucket(stored: set<Stored>, until: Option<nat>, limit: nat, batch: seq<Stored>, oldest: nat)
    requires Newest(batch, stored, until, limit) && |batch| == limit && IsOldest(oldest, batch)
    requires until.Some? && oldest >= until.value
    ensures |Bucket(stored, until.value)| >= limit
  {
    DistinctSize(batch);
    forall e | e in batch
      ensures e in Bucket(stored, until.value)
    {
      assert e in SetOf(batch);
    }
    SubsetSize(SetOf(batch), Bucket(stored, until.value));
  }

  /** Some event of the page has an id not seen before. */
  ghost predicate HasNovel(batch: seq<Stored>, seen: set<Stored>) {
    exists e :: e in batch && forall d :: d in seen ==> d.id != e.id
  }

  /** An event older than everything seen is new. */
  lemma OldestIsNew(stored: set<Stored>, seen: set<Stored>, until: Option<nat>, limit: nat, batch: seq<Stored>, oldest: nat)
    requires Covered(stored, seen, until, limit) && IdsTellApart(stored) && SetOf(batch) <= stored
    requires IsOldest(oldest, batch) && (until.Some? ==> oldest < until.value)
    ensures HasNovel(batch, seen)
  {
    var e :| e in batch && e.at == oldest;
    assert e in SetOf(batch);
  }

  /** At the end of an exhausted walk nothing is unseen and no bucket fills a page. */
  lemma ExhaustedIsComplete(stored: set<Stored>, seen: set<Stored>, until: Option<nat>, limit: nat, batch: seq<Stored>)
    requires Covered(stored, seen, until, limit) && Newest(batch, stored, until, limit) && |batch| < limit
    ensures seen + SetOf(batch) == stored
    ensures forall t: nat :: |Bucket(stored, t)| < limit
  {
    ShortPageIsComplete(batch, stored, until, limit);
    DistinctSize(batch);
    forall t: nat
      ensures |Bucket(stored, t)| < limit
    {
      if until.None? || t <= until.value {
        SubsetSize(Bucket(stored, t), SetOf(batch));
      }
    }
  }

  // ---- reading one page ----

  /** The ids of accepted events, and the rejected ones. */
  ghost predicate Recorded(found: map<string, Stored>, rejected: seq<Stored>, seen: set<Stored>, ids: set<string>) {
    && (forall e :: e in seen && e.accepted ==> e.id in found)
    && (forall e :: e in seen && !e.accepted ==> e in rejected)
    && (forall id :: id in found ==> found[id] in seen && found[id].id == id && found[id].accepted)
    && (forall e :: e in rejected ==> e in seen && !e.accepted)
    && (forall id :: id in ids <==> exists e :: e in seen && e.id == id)
  }

  /** Ids, novelty and oldest timestamp after the first i events of a page. */
  ghost predicate Noted(batch: seq<Stored>, i: nat, before: set<string>, ids: set<string>, novel: bool, oldest: Option<nat>)
    requires i <= |batch|
  {
    && before <= ids && (forall k :: 0 <= k < i ==> batch[k].id in ids) && (!novel ==> ids == before)
    && (novel ==> exists k :: 0 <= k < i && batch[k].id !in before)
    && (oldest.Some? <==> i > 0)
    && (oldest.Some? ==> exists k :: 0 <= k < i && batch[k].at == oldest.value)
    && (oldest.Some? ==> forall k :: 0 <= k < i ==> oldest.value <= batch[k].at)
  }

  function Older(oldest: Option<nat>, at: nat): Option<nat> {
    if oldest.None? || at < oldest.value then Some(at) else oldest
  }

  lemma NoteOne(batch: seq<Stored>, i: nat, before: set<string>, ids: set<string>, novel: bool, oldest: Option<nat>)
    requires i < |batch| && Noted(batch, i, before, ids, novel, oldest)
    ensures Noted(batch, i + 1, before, ids + {batch[i].id}, novel || batch[i].id !in ids, Older(oldest, batch[i].at))
  {
    if novel {
      var k :| 0 <= k < i && batch[k].id !in before;
      assert 0 <= k < i + 1;
    }
    if !novel && batch[i].id !in ids { assert batch[i].id !in before; }
    if batch[i].id in ids { assert ids + {batch[i].id} == ids; }
    assert batch[i].at == Older(None, batch[i].at).value;
  }

  lemma NotedAll(batch: seq<Stored>, found: map<string, Stored>, rejected: seq<Stored>, seen: set<Stored>, before: set<string>,
                 ids: set<string>, novel: bool, oldest: Option<nat>)
    requires Noted(batch, |batch|, before, ids, novel, oldest) && Recorded(found, rejected, seen, before)
    ensures novel <==> HasNovel(batch, seen)
    ensures oldest.Some? <==> batch != []
    ensures oldest.Some? ==> IsOldest(oldest.value, batch)
  {
    if novel {
      var k :| 0 <= k < |batch| && batch[k].id !in before;
      assert batch[k] in batch && forall d :: d in seen ==> d.id != batch[k].id;
    }
  }

  lemma NoteNone(batch: seq<Stored>, ids: set<string>)
    ensures Noted(batch, 0, ids, ids, false, None)
  {
  }

  lemma SetOfNone(batch: seq<Stored>)
    ensures SetOf(batch[..0]) == {}
  {
  }

  lemma SetOfOne(batch: seq<Stored>, i: nat)
    requires i < |batch|
    ensures SetOf(batch[..i + 1]) == SetOf(batch[..i]) + {batch[i]}
  {
    assert batch[..i + 1] == batch[..i] + [batch[i]];
  }

  method ReadPage(batch: seq<Stored>, found: map<string, Stored>, rejected: seq<Stored>, ids: set<string>, ghost seen: set<Stored>)
    returns (found2: map<string, Stored>, rejected2: seq<Stored>, ids2: set<string>, novel: bool, oldest: Option<nat>)
    requires Recorded(found, rejected, seen, ids)
    ensures Recorded(found2, rejected2, seen + SetOf(batch), ids2)
    ensures novel <==> HasNovel(batch, seen)
    ensures oldest.Some? <==> batch != []
    ensures oldest.Some? ==> IsOldest(oldest.value, batch)
  {
    found2, rejected2, ids2, novel, oldest := found, rejected, ids, false, None;
    ghost var done := seen;
    NoteNone(batch, ids);
    hide Recorded, Noted, IsOldest, SetOf, HasNovel, Older;
    SetOfNone(batch);
    for i := 0 to |batch|
      invariant done == seen + SetOf(batch[..i]) && Recorded(found2, rejected2, done, ids2)
      invariant Noted(batch, i, ids, ids2, novel, oldest)
    {
      var e := batch[i];
      SetOfOne(batch, i);
      RecordOne(found2, rejected2, done, ids2, e);
      NoteOne(batch, i, ids, ids2, novel, oldest);
      if e.accepted { found2 := found2[e.id := e]; } else { rejected2 := rejected2 + [e]; }
      novel := novel || e.id !in ids2;
      ids2 := ids2 + {e.id};
      done := done + {e};
      oldest := Older(oldest, e.at);
    }
    assert batch[..|batch|] == batch;
    NotedAll(batch, found, rejected, seen, ids, ids2, novel, oldest);
  }

  lemma RecordOne(found: map<string, Stored>, rejected: seq<Stored>, seen: set<Stored>, ids: set<string>, e: Stored)
    requires Recorded(found, rejected, seen, ids)
    ensures Recorded(if e.accepted then found[e.id := e] else found, if e.accepted then rejected else rejected + [e],
                     seen + {e}, ids + {e.id})
  {
  }

  // ---- the loop over pages ----

  /** One relay as the walk sees it: its matching events, and its answer to each query, if it answers. */
  datatype Relay = Relay(ghost stored: set<Stored>, ask: Option<nat> -> Option<seq<Stored>>)

  ghost predicate Conforms(r: Relay, limit: nat) {
    IdsTellApart(r.stored) && forall until :: r.ask(until).Some? ==> Newest(r.ask(until).value, r.stored, until, limit)
  }

  /** What the walk may claim when it ends with a given coverage. */
  ghost predicate Justified(r: Relay, limit: nat, coverage: Coverage, found: map<string, Stored>, rejected: seq<Stored>) {
    && (forall id :: id in found ==> found[id] in r.stored && found[id].id == id && found[id].accepted)
    && (forall e :: e in rejected ==> e in r.stored && !e.accepted)
    && (coverage.Exhausted? ==>
          && (forall e :: e in r.stored && e.accepted ==> e.id in found && found[e.id] == e)
          && (forall e :: e in r.stored && !e.accepted ==> e in rejected)
          && (forall t: nat :: |Bucket(r.stored, t)| < limit))
    && (coverage.Saturated? ==> exists t: nat :: |Bucket(r.stored, t)| >= limit)
  }

  lemma RecordedIsJustified(r: Relay, limit: nat, coverage: Coverage, found: map<string, Stored>, rejected: seq<Stored>,
                            seen: set<Stored>, ids: set<string>)
    requires Recorded(found, rejected, seen, ids) && seen <= r.stored && IdsTellApart(r.stored)
    requires coverage.Exhausted? ==> seen == r.stored && forall t: nat :: |Bucket(r.stored, t)| < limit
    requires coverage.Saturated? ==> exists t: nat :: |Bucket(r.stored, t)| >= limit
    ensures Justified(r, limit, coverage, found, rejected)
  {
    hide Bucket;
  }

  /** The frontiers asked from so far, each older than the one before. */
  predicate Frontiers(untils: seq<nat>, until: Option<nat>) {
    && (until.Some? <==> untils != []) && (until.Some? ==> until.value == untils[|untils| - 1])
    && (forall i, j :: 0 <= i < j < |untils| ==> untils[j] < untils[i])
  }

  lemma NextFrontier(untils: seq<nat>, until: Option<nat>, oldest: nat)
    requires Frontiers(untils, until) && (until.Some? ==> oldest < until.value)
    ensures Frontiers(untils + [oldest], Some(oldest))
  {
  }

  predicate Falling(untils: seq<nat>) { forall i, j :: 0 <= i < j < |untils| ==> untils[j] < untils[i] }

  lemma FrontiersFall(untils: seq<nat>, until: Option<nat>)
    ensures Frontiers(untils, until) ==> Falling(untils)
    ensures Frontiers([], None)
  {
  }

  lemma Answer(r: Relay, limit: nat, until: Option<nat>)
    requires Conforms(r, limit)
    ensures IdsTellApart(r.stored)
    ensures r.ask(until).Some? ==> var batch := r.ask(until).value;
                                   Newest(batch, r.stored, until, limit) && SetOf(batch) <= r.stored && |batch| <= limit
  {
  }

  /** What the i-th query asked from: everything, then each frontier in turn. */
  function From(untils: seq<nat>, i: nat): Option<nat>
    requires i <= |untils|
  {
    if i == 0 then None else Some(untils[i - 1])
  }

  /** The first n queries were answered, and each frontier is the oldest time of the answer before it. */
  ghost predicate Answered(r: Relay, untils: seq<nat>, n: nat) {
    && n <= |untils| + 1
    && (forall i :: 0 <= i < n ==> r.ask(From(untils, i)).Some?)
    && (forall i :: 0 <= i < n && i < |untils| ==> r.ask(From(untils, i)).Some? && IsOldest(untils[i], r.ask(From(untils, i)).value))
  }

  /** Every event of those answers is among these. */
  ghost predicate AllRead(r: Relay, untils: seq<nat>, n: nat, events: set<Stored>) {
    && Answered(r, untils, n)
    && forall i, e :: 0 <= i < n && e in r.ask(From(untils, i)).value ==> e in events
  }

  predicate Listed(e: Stored, found: map<string, Stored>, rejected: seq<Stored>) {
    if e.accepted then e.id in found && found[e.id] == e else e in rejected
  }

  lemma ReadOneMore(r: Relay, untils: seq<nat>, seen: set<Stored>, batch: seq<Stored>)
    requires AllRead(r, untils, |untils|, seen) && r.ask(From(untils, |untils|)) == Some(batch)
    ensures AllRead(r, untils, |untils| + 1, seen + SetOf(batch))
  {
    hide IsOldest;
  }

  lemma FrontierOneMore(r: Relay, untils: seq<nat>, seen: set<Stored>, oldest: nat)
    requires AllRead(r, untils, |untils| + 1, seen) && IsOldest(oldest, r.ask(From(untils, |untils|)).value)
    ensures AllRead(r, untils + [oldest], |untils| + 1, seen)
  {
    hide IsOldest;
    assert forall i :: 0 <= i <= |untils| ==> From(untils + [oldest], i) == From(untils, i);
  }

  lemma ReadIsListed(r: Relay, untils: seq<nat>, n: nat, found: map<string, Stored>, rejected: seq<Stored>, seen: set<Stored>, ids: set<string>)
    requires AllRead(r, untils, n, seen) && Recorded(found, rejected, seen, ids) && seen <= r.stored && IdsTellApart(r.stored)
    ensures Answered(r, untils, n)
    ensures forall i, e :: 0 <= i < n && e in r.ask(From(untils, i)).value ==> Listed(e, found, rejected)
  {
    hide IsOldest, From;
  }

  /** `query_relay`. The frontiers it asked from are recorded in `untils`; it is unavailable only where a query got no answer. */
  method QueryRelay(r: Relay, limit: nat, pages: nat)
    returns (found: map<string, Stored>, rejected: seq<Stored>, coverage: Coverage, asked: nat, ghost untils: seq<nat>)
    requires Conforms(r, limit)
    ensures Justified(r, limit, coverage, found, rejected)
    ensures Falling(untils)
    ensures asked <= pages && |untils| <= asked && (coverage.PageLimit? ==> asked == pages)
    ensures Answered(r, untils, asked)
    ensures coverage.Unavailable? ==> asked == |untils| < pages && r.ask(From(untils, asked)).None?
    ensures forall i, e :: 0 <= i < asked && e in r.ask(From(untils, i)).value ==> Listed(e, found, rejected)
  {
    hide Newest, Recorded, Justified, IsOldest, Covered, IdsTellApart, SetOf, HasNovel, Bucket, Frontiers, Falling, Conforms, Listed, AllRead, Answered;
    found, rejected, coverage, asked, untils := map[], [], PageLimit, 0, [];
    var ids: set<string>, until: Option<nat> := {}, None;
    ghost var seen: set<Stored> := {};
    StartWalk(r.stored, limit);
    FrontiersFall([], None);
    assert AllRead(r, untils, 0, seen) by { NothingRead(r); }
    for page := 0 to pages
      invariant asked == page && |untils| == page && coverage == PageLimit
      invariant Recorded(found, rejected, seen, ids) && Covered(r.stored, seen, until, limit) && Frontiers(untils, until)
      invariant AllRead(r, untils, page, seen) && until == From(untils, page)
    {
      InStore(r.stored, seen, until, limit);
      FrontiersFall(untils, until);
      Answer(r, limit, until);
      var reply := r.ask(until);
      if reply.None? {
        ReadIsListed(r, untils, page, found, rejected, seen, ids);
        RecordedIsJustified(r, limit, Unavailable, found, rejected, seen, ids);
        return found, rejected, Unavailable, asked, untils;
      }
      var batch := reply.value;
      asked := asked + 1;
      var novel, oldest;
      ghost var before := seen;
      found, rejected, ids, novel, oldest := ReadPage(batch, found, rejected, ids, seen);
      seen := seen + SetOf(batch);
      ReadOneMore(r, untils, before, batch);
      SeenInStore(before, batch, r.stored);
      ReadIsListed(r, untils, page + 1, found, rejected, seen, ids);
      if |batch| < limit {
        ExhaustedIsComplete(r.stored, before, until, limit, batch);
        RecordedIsJustified(r, limit, Exhausted, found, rejected, seen, ids);
        return found, rejected, Exhausted, asked, untils;
      }
      if oldest.None? || (until.Some? && oldest.value >= until.value) || !novel {
        SaturatedIsJustified(r.stored, before, until, limit, batch, oldest, novel);
        RecordedIsJustified(r, limit, Saturated, found, rejected, seen, ids);
        return found, rejected, Saturated, asked, untils;
      }
      FullPageMovesOn(r.stored, before, until, limit, batch, oldest.value);
      NextFrontier(untils, until, oldest.value);
      FrontierOneMore(r, untils, seen, oldest.value);
      until := oldest;
      untils := untils + [oldest.value];
    }
    InStore(r.stored, seen, until, limit);
    FrontiersFall(untils, until);
    Answer(r, limit, until);
    ReadIsListed(r, untils, pages, found, rejected, seen, ids);
    RecordedIsJustified(r, limit, PageLimit, found, rejected, seen, ids);
  }

  lemma NothingRead(r: Relay)
    ensures AllRead(r, [], 0, {})
  {
  }

  lemma SeenInStore(seen: set<Stored>, batch: seq<Stored>, stored: set<Stored>)
    requires seen <= stored && SetOf(batch) <= stored
    ensures seen + SetOf(batch) <= stored
  {
  }

  lemma StartWalk(stored: set<Stored>, limit: nat)
    ensures Covered(stored, {}, None, limit) && Recorded(map[], [], {}, {})
  {
  }

  lemma InStore(stored: set<Stored>, seen: set<Stored>, until: Option<nat>, limit: nat)
    requires Covered(stored, seen, until, limit)
    ensures seen <= stored
  {
  }

  lemma PageInStore(batch: seq<Stored>, stored: set<Stored>, until: Option<nat>, limit: nat)
    requires Newest(batch, stored, until, limit)
    ensures SetOf(batch) <= stored
  {
  }

  lemma SaturatedIsJustified(stored: set<Stored>, seen: set<Stored>, until: Option<nat>, limit: nat, batch: seq<Stored>,
                             oldest: Option<nat>, novel: bool)
    requires Covered(stored, seen, until, limit) && Newest(batch, stored, until, limit) && |batch| == limit && IdsTellApart(stored)
    requires oldest.Some? <==> batch != []
    requires oldest.Some? ==> IsOldest(oldest.value, batch)
    requires novel <==> HasNovel(batch, seen)
    requires oldest.None? || (until.Some? && oldest.value >= until.value) || !novel
    ensures exists t: nat :: |Bucket(stored, t)| >= limit
  {
    if oldest.None? {
      assert |Bucket(stored, 0)| >= limit;
    } else if until.Some? && oldest.value >= until.value {
      StuckPageIsOneBucket(stored, until, limit, batch, oldest.value);
    } else {
      PageInStore(batch, stored, until, limit);
      OldestIsNew(stored, seen, until, limit, batch, oldest.value);
    }
  }

  // ---- several relays ----

  /** What the first n relays hold. */
  ghost predicate SomeStores(relays: seq<Relay>, n: nat, e: Stored)
    requires n <= |relays|
  {
    exists i :: 0 <= i < n && e in relays[i].stored
  }

  /** Nothing is listed that no relay holds, each under its own id. */
  ghost predicate Sourced(relays: seq<Relay>, n: nat, found: map<string, Stored>, rejected: seq<Stored>)
    requires n <= |relays|
  {
    && (forall id :: id in found ==> found[id].id == id && found[id].accepted && SomeStores(relays, n, found[id]))
    && (forall e :: e in rejected ==> !e.accepted && SomeStores(relays, n, e))
  }

  /** Nothing is missing of a relay that was walked to its end. */
  ghost predicate Complete(r: Relay, status: Coverage, found: map<string, Stored>, rejected: seq<Stored>) {
    status.Exhausted? ==> forall e :: e in r.stored ==> if e.accepted then e.id in found && found[e.id] == e else e in rejected
  }

  ghost predicate Merged(relays: seq<Relay>, coverage: seq<Coverage>, found: map<string, Stored>, rejected: seq<Stored>) {
    && |coverage| <= |relays| && Sourced(relays, |coverage|, found, rejected)
    && forall i :: 0 <= i < |coverage| ==> Complete(relays[i], coverage[i], found, rejected)
  }

  lemma StoresMore(relays: seq<Relay>, n: nat, e: Stored)
    requires n < |relays| && (SomeStores(relays, n, e) || e in relays[n].stored)
    ensures SomeStores(relays, n + 1, e)
  {
    if SomeStores(relays, n, e) {
      var k :| 0 <= k < n && e in relays[k].stored;
    }
  }

  lemma SourcedMore(relays: seq<Relay>, n: nat, candidates: map<string, Stored>, rejected: seq<Stored>,
                    found: map<string, Stored>, invalid: seq<Stored>)
    requires n < |relays| && Sourced(relays, n, candidates, rejected)
    requires forall id :: id in found ==> found[id] in relays[n].stored && found[id].id == id && found[id].accepted
    requires forall e :: e in invalid ==> e in relays[n].stored && !e.accepted
    ensures Sourced(relays, n + 1, candidates + found, rejected + invalid)
  {
    hide SomeStores;
    forall id | id in candidates + found
      ensures SomeStores(relays, n + 1, (candidates + found)[id])
    {
      StoresMore(relays, n, (candidates + found)[id]);
    }
    forall e | e in rejected + invalid
      ensures SomeStores(relays, n + 1, e)
    {
      StoresMore(relays, n, e);
    }
  }

  /** A later relay has no other event under an id that is already listed. */
  lemma CompleteStays(r: Relay, last: Relay, status: Coverage, candidates: map<string, Stored>, rejected: seq<Stored>,
                      found: map<string, Stored>, invalid: seq<Stored>)
    requires Complete(r, status, candidates, rejected) && IdsTellApart(r.stored + last.stored)
    requires forall id :: id in found ==> found[id] in last.stored && found[id].id == id
    ensures Complete(r, status, candidates + found, rejected + invalid)
  {
    if status.Exhausted? {
      forall e | e in r.stored
        ensures if e.accepted then e.id in candidates + found && (candidates + found)[e.id] == e else e in rejected + invalid
      {
        if e.accepted && e.id in found { assert found[e.id] in r.stored + last.stored && e in r.stored + last.stored; }
      }
    }
  }

  lemma CompleteNow(r: Relay, status: Coverage, candidates: map<string, Stored>, rejected: seq<Stored>,
                    found: map<string, Stored>, invalid: seq<Stored>)
    requires Complete(r, status, found, invalid)
    ensures Complete(r, status, candidates + found, rejected + invalid)
  {
  }

  lemma JustifiedIs(r: Relay, limit: nat, status: Coverage, found: map<string, Stored>, invalid: seq<Stored>)
    requires Justified(r, limit, status, found, invalid)
    ensures forall id :: id in found ==> found[id] in r.stored && found[id].id == id && found[id].accepted
    ensures forall e :: e in invalid ==> e in r.stored && !e.accepted
    ensures Complete(r, status, found, invalid)
  {
    hide Bucket;
  }

  lemma MergeOne(relays: seq<Relay>, coverage: seq<Coverage>, candidates: map<string, Stored>, rejected: seq<Stored>,
                 limit: nat, status: Coverage, found: map<string, Stored>, invalid: seq<Stored>)
    requires Merged(relays, coverage, candidates, rejected) && |coverage| < |relays|
    requires Justified(relays[|coverage|], limit, status, found, invalid)
    requires forall k :: 0 <= k < |relays| ==> IdsTellApart(relays[k].stored + relays[|coverage|].stored)
    ensures Merged(relays, coverage + [status], candidates + found, rejected + invalid)
  {
    hide Justified, Sourced, Complete, IdsTellApart;
    var n := |coverage|;
    JustifiedIs(relays[n], limit, status, found, invalid);
    SourcedMore(relays, n, candidates, rejected, found, invalid);
    CompleteNow(relays[n], status, candidates, rejected, found, invalid);
    forall k | 0 <= k < n
      ensures Complete(relays[k], coverage[k], candidates + found, rejected + invalid)
    {
      CompleteStays(relays[k], relays[n], coverage[k], candidates, rejected, found, invalid);
    }
  }

  method QueryAll(relays: seq<Relay>, limit: nat, pages: nat)
    returns (all: map<string, Stored>, rejected: seq<Stored>, coverage: seq<Coverage>)
    requires forall i :: 0 <= i < |relays| ==> Conforms(relays[i], limit)
    requires forall i, j :: 0 <= i < |relays| && 0 <= j < |relays| ==> IdsTellApart(relays[i].stored + relays[j].stored)
    ensures |coverage| == |relays| && Merged(relays, coverage, all, rejected)
  {
    all, rejected, coverage := map[], [], [];
    hide Conforms, Justified, IdsTellApart, SomeStores, Complete;
    assert Merged(relays, coverage, all, rejected);
    for i := 0 to |relays|
      invariant |coverage| == i && Merged(relays, coverage, all, rejected)
    {
      hide Merged;
      var found, invalid, status, asked;
      ghost var untils;
      found, invalid, status, asked, untils := QueryRelay(relays[i], limit, pages);
      MergeOne(relays, coverage, all, rejected, limit, status, found, invalid);
      all, rejected, coverage := all + found, rejected + invalid, coverage + [status];
    }
  }

  /** Each relay is walked by itself; the candidates found are merged and listed by id, the rejections one after the other. */
  method Discover(relays: seq<Relay>, limit: nat, pages: nat)
    returns (candidates: seq<Stored>, rejected: seq<Stored>, coverage: seq<Coverage>)
    requires forall i :: 0 <= i < |relays| ==> Conforms(relays[i], limit)
    requires forall i, j :: 0 <= i < |relays| && 0 <= j < |relays| ==> IdsTellApart(relays[i].stored + relays[j].stored)
    ensures |coverage| == |relays|
    ensures forall i, e :: 0 <= i < |relays| && coverage[i].Exhausted? && e in relays[i].stored ==>
                             if e.accepted then e in candidates else e in rejected
    ensures forall e :: e in candidates ==> e.accepted && SomeStores(relays, |relays|, e)
    ensures forall e :: e in rejected ==> !e.accepted && SomeStores(relays, |relays|, e)
    ensures forall i, j :: 0 <= i < j < |candidates| ==> LessEq(candidates[i].id, candidates[j].id) && candidates[i].id != candidates[j].id
  {
    hide Conforms, IdsTellApart, Merged, SomeStores, LessEq, Ascending;
    var all;
    all, rejected, coverage := QueryAll(relays, limit, pages);
    var ids := SortIds(all.Keys);
    AscendingLists(all.Keys);
    AscendingIsOrdered(all.Keys);
    candidates := seq(|ids|, k requires 0 <= k < |ids| => all[ids[k]]);
    ListedAre(relays, coverage, all, rejected, ids, candidates);
  }

  lemma ListedAre(relays: seq<Relay>, coverage: seq<Coverage>, all: map<string, Stored>, rejected: seq<Stored>,
                  ids: seq<string>, candidates: seq<Stored>)
    requires Merged(relays, coverage, all, rejected) && |coverage| == |relays|
    requires (forall id :: id in ids <==> id in all) && |candidates| == |ids|
    requires forall k :: 0 <= k < |ids| ==> ids[k] in all && candidates[k] == all[ids[k]]
    ensures forall i, e :: 0 <= i < |relays| && coverage[i].Exhausted? && e in relays[i].stored ==>
                             if e.accepted then e in candidates else e in rejected
    ensures forall e :: e in candidates ==> e.accepted && SomeStores(relays, |relays|, e)
    ensures forall e :: e in rejected ==> !e.accepted && SomeStores(relays, |relays|, e)
    ensures forall k :: 0 <= k < |candidates| ==> candidates[k].id == ids[k]
  {
    hide SomeStores;
    forall i, e | 0 <= i < |relays| && coverage[i].Exhausted? && e in relays[i].stored
      ensures if e.accepted then e in candidates else e in rejected
    {
      assert Complete(relays[i], coverage[i], all, rejected);
      if e.accepted {
        var k :| 0 <= k < |ids| && ids[k] == e.id;
        assert candidates[k] == e;
      }
    }
  }
}
