/** Whether the order in which the store lists its jobs matters to a recovery. The first loop lets
    an orphan without attempts left fail as it comes to it, and the cascade reaches only the jobs
    indexed by then, which are the ones listed before. */
module RecoveryOrder {
  import opened Prelude
  import opened Jobs
  import opened Invariants
  import opened Recovery
  import opened Consequences
  import opened Wakeups
  import opened Guarantees
  import Graph

  /** An orphan that has used up its attempts and does not recur. */
  ghost predicate Exhausted(env: Env, j: Job) {
    j.status.Running? && j.attempt >= j.Limit() && !CanRearm(env, j)
  }

  /** An orphan as the loss of its attempt leaves it. */
  function ReclaimedJob(env: Env, j: Job, at: int, clock: int): Job {
    if j.status.Running? then ChargedOnce(env, clock, j, at) else j
  }

  /** The jobs once every orphan has been charged its lost attempt, and nothing else. */
  function Reclaimed(env: Env, jobs: map<Id, Job>, times: map<Id, int>, clock: int): map<Id, Job> {
    map z | z in jobs :: ReclaimedJob(env, jobs[z], RetryAt(times, z), clock)
  }

  /** A waiting job that waits, directly or through others, for an exhausted orphan. */
  ghost predicate Bereft(env: Env, jobs: map<Id, Job>, z: Id) {
    z in jobs && jobs[z].status.Pending? && exists r :: r in jobs && Exhausted(env, jobs[r]) && WaitsFor(jobs, z, r)
  }

  // ----- what the first loop leaves -----

  /** `jobs` is between the records as listed and the records with all orphans reclaimed: `raw` is
      still ahead, and of the waiting jobs only bereft ones may have been canceled. */
  ghost predicate Between(env: Env, snap: map<Id, Job>, base: map<Id, Job>, jobs: map<Id, Job>, raw: set<Id>) {
    && jobs.Keys == snap.Keys == base.Keys
    && forall z :: z in snap ==> BetweenAt(env, snap, base, jobs, raw, z)
  }

  ghost predicate BetweenAt(env: Env, snap: map<Id, Job>, base: map<Id, Job>, jobs: map<Id, Job>, raw: set<Id>, z: Id)
    requires z in snap && z in base && z in jobs
  {
    if snap[z].status.Pending? then
      jobs[z] == snap[z] || (jobs[z] == snap[z].(status := Canceled) && Bereft(env, snap, z))
    else if z in raw then jobs[z] == snap[z]
    else jobs[z] == base[z]
  }

  /** What a cascade from an orphan reaches waits for the orphan. */
  lemma ReachedWaits(snap: map<Id, Job>, jobs: map<Id, Job>, rev: map<Id, set<Id>>, id: Id, x: Id)
    requires IndexSound(jobs, rev, {}) && id in snap && !snap[id].status.Terminal()
    requires forall y :: y in jobs && !jobs[y].status.Terminal() ==>
      y in snap && !snap[y].status.Terminal() && jobs[y].deps == snap[y].deps
    requires x in Downstream(rev, id)
    ensures WaitsFor(snap, x, id)
  {
    var S := set y | y in snap && WaitsFor(snap, y, id);
    WaitsForSelf(snap, id);
    forall a, b | a in S && b in Dependents(rev, a) ensures b in S {
      assert EdgeOk(jobs, {}, a, b);
      ChainLonger(snap, b, a, id);
    }
    DownstreamLeast(rev, id, S);
  }

  lemma BuryJobs(s: State, job: Job, z: Id)
    requires job.id in s.jobs && z in s.jobs
    ensures Bury(s, job).jobs.Keys == s.jobs.Keys
    ensures Bury(s, job).jobs[z] ==
      if z == job.id then FailedJob(job)
      else if z in Downstream(s.rev, job.id) && !s.jobs[z].status.Terminal() then s.jobs[z].(status := Canceled)
      else s.jobs[z]
  {
    DownstreamOfRoot(s.rev, job.id);
  }

  lemma UnfinishedBefore(env: Env, snap: map<Id, Job>, base: map<Id, Job>, jobs: map<Id, Job>, raw: set<Id>, y: Id)
    requires Between(env, snap, base, jobs, raw) && y in jobs && !jobs[y].status.Terminal()
    requires BaseOf(snap, base)
    ensures y in snap && !snap[y].status.Terminal() && jobs[y].deps == snap[y].deps
  {
    assert BetweenAt(env, snap, base, jobs, raw, y);
  }

  /** What reclaiming orphans leaves alone. */
  ghost predicate BaseOf(snap: map<Id, Job>, base: map<Id, Job>) {
    && base.Keys == snap.Keys
    && (forall y :: y in snap ==> base[y].deps == snap[y].deps)
    && (forall y :: y in snap && !snap[y].status.Running? ==> base[y] == snap[y])
    && (forall y :: y in snap && snap[y].status.Running? ==> base[y].status.Queued? || base[y].status.Failed?)
  }

  lemma BuryBetween(env: Env, s: State, snap: map<Id, Job>, base: map<Id, Job>, id: Id, raw: set<Id>)
    requires Gated(s.jobs) && IndexSound(s.jobs, s.rev, {})
    requires BaseOf(snap, base) && Between(env, snap, base, s.jobs, raw)
    requires id in raw && id in snap && Exhausted(env, snap[id]) && snap[id].id == id && base[id] == FailedJob(snap[id])
    ensures Between(env, snap, base, Bury(s, snap[id]).jobs, raw - {id})
  {
    assert BetweenAt(env, snap, base, s.jobs, raw, id);
    BuryJobs(s, snap[id], id);
    forall z | z in snap ensures BetweenAt(env, snap, base, Bury(s, snap[id]).jobs, raw - {id}, z) {
      assert BetweenAt(env, snap, base, s.jobs, raw, z);
      BuryJobs(s, snap[id], z);
      if z != id && z in Downstream(s.rev, id) && !s.jobs[z].status.Terminal() {
        ReachedIsBereft(env, s.jobs, s.rev, snap, base, id, raw, z);
      }
    }
  }

  lemma ReachedIsBereft(env: Env, jobs: map<Id, Job>, rev: map<Id, set<Id>>, snap: map<Id, Job>, base: map<Id, Job>,
                        id: Id, raw: set<Id>, z: Id)
    requires Gated(jobs) && IndexSound(jobs, rev, {}) && BaseOf(snap, base) && Between(env, snap, base, jobs, raw)
    requires id in raw && id in snap && Exhausted(env, snap[id]) && z in Downstream(rev, id) && z != id
    ensures z in jobs && jobs[z].status.Pending? && Bereft(env, snap, z)
  {
    assert BetweenAt(env, snap, base, jobs, raw, id);
    ReachedIsPending(jobs, rev, id, z);
    assert BetweenAt(env, snap, base, jobs, raw, z);
    forall y | y in jobs && !jobs[y].status.Terminal()
      ensures y in snap && !snap[y].status.Terminal() && jobs[y].deps == snap[y].deps
    {
      UnfinishedBefore(env, snap, base, jobs, raw, y);
    }
    ReachedWaits(snap, jobs, rev, id, z);
  }

  lemma ReachedIsPending(jobs: map<Id, Job>, rev: map<Id, set<Id>>, id: Id, z: Id)
    requires Gated(jobs) && IndexSound(jobs, rev, {}) && id in jobs
    requires jobs[id].status.Running? && z in Downstream(rev, id) && z != id
    ensures z in jobs && jobs[z].status.Pending?
  {
    var S := {id} + set y | y in jobs && jobs[y].status.Pending?;
    forall a, b | a in S && b in Dependents(rev, a) ensures b in S {
      assert EdgeOk(jobs, {}, a, b);
      assert !Done(jobs, a);
    }
    DownstreamLeast(rev, id, S);
  }

  lemma ReclaimedIsBase(env: Env, snap: map<Id, Job>, times: map<Id, int>, clock: int)
    ensures BaseOf(snap, Reclaimed(env, snap, times, clock))
  {}

  lemma OneBetween(env: Env, snap: map<Id, Job>, base: map<Id, Job>, jobs: map<Id, Job>, after: map<Id, Job>,
      raw: set<Id>, id: Id)
    requires Between(env, snap, base, jobs, raw) && id in raw && id in snap && !snap[id].status.Pending?
    requires after == jobs[id := base[id]]
    ensures Between(env, snap, base, after, raw - {id})
  {
    forall z | z in snap ensures BetweenAt(env, snap, base, after, raw - {id}, z) {
      assert BetweenAt(env, snap, base, jobs, raw, z);
    }
  }

  lemma SameBetween(env: Env, snap: map<Id, Job>, base: map<Id, Job>, jobs: map<Id, Job>, raw: set<Id>, id: Id)
    requires Between(env, snap, base, jobs, raw) && id in raw && id in snap && base[id] == snap[id]
    ensures Between(env, snap, base, jobs, raw - {id})
  {
    forall z | z in snap ensures BetweenAt(env, snap, base, jobs, raw - {id}, z) {
      assert BetweenAt(env, snap, base, jobs, raw, z);
    }
  }

  lemma RecoverJobs(env: Env, s: State, j: Job, at: int)
    ensures Recover(env, s, j, at).jobs ==
      if !j.status.Running? then s.jobs
      else if Exhausted(env, j) then Bury(Indexed(s, j), j).jobs
      else s.jobs[j.id := ReclaimedJob(env, j, at, s.clock)]
  {
    if j.status.Running? {
      assert Recover(env, s, j, at) == Fail(env, Indexed(s, j), j, at);
      FailJobs(env, Indexed(s, j), j, at);
    }
  }

  lemma FailJobs(env: Env, s: State, j: Job, at: int)
    requires j.status.Running?
    ensures Fail(env, s, j, at).jobs ==
      if Exhausted(env, j) then Bury(s, j).jobs else s.jobs[j.id := ReclaimedJob(env, j, at, s.clock)]
  {
    if j.attempt < j.Limit() {
      assert Fail(env, s, j, at) == Requeued(s, j, at);
    } else if CanRearm(env, j) {
      assert Fail(env, s, j, at) == Rearm(env, s, j);
    } else {
      assert Fail(env, s, j, at) == Bury(s, j);
    }
  }

  lemma ExhaustedBetween(env: Env, s: State, snap: map<Id, Job>, base: map<Id, Job>, id: Id, raw: set<Id>)
    requires Partial(env, s, raw, snap.Keys) && BaseOf(snap, base) && Between(env, snap, base, s.jobs, raw)
    requires id in raw && id in snap && Exhausted(env, snap[id]) && snap[id].id == id && base[id] == FailedJob(snap[id])
    ensures Between(env, snap, base, Bury(Indexed(s, snap[id]), snap[id]).jobs, raw - {id})
  {
    assert BetweenAt(env, snap, base, s.jobs, raw, id);
    IndexedKeeps(env, s, id, raw, snap.Keys);
    BuryBetween(env, Indexed(s, snap[id]), snap, base, id, raw);
  }

  lemma RecoverBetween(env: Env, s: State, snap: map<Id, Job>, times: map<Id, int>, id: Id, raw: set<Id>)
    requires Partial(env, s, raw, snap.Keys) && id in raw && id in s.jobs
    requires Between(env, snap, Reclaimed(env, snap, times, s.clock), s.jobs, raw)
    ensures Between(env, snap, Reclaimed(env, snap, times, s.clock),
      Recover(env, s, snap[id], RetryAt(times, id)).jobs, raw - {id})
  {
    var base := Reclaimed(env, snap, times, s.clock);
    ReclaimedIsBase(env, snap, times, s.clock);
    assert BetweenAt(env, snap, base, s.jobs, raw, id);
    assert s.jobs[id].id == id && snap[id].id == id by { assert JobOk(env, s.clock, id, s.jobs[id]); }
    RecoverJobs(env, s, snap[id], RetryAt(times, id));
    if !snap[id].status.Running? {
      SameBetween(env, snap, base, s.jobs, raw, id);
    } else if Exhausted(env, snap[id]) {
      ExhaustedBetween(env, s, snap, base, id, raw);
    } else {
      OneBetween(env, snap, base, s.jobs, s.jobs[id := base[id]], raw, id);
    }
  }

  lemma {:induction false} RecoverAllBetween(env: Env, s: State, snap: map<Id, Job>, ids: seq<Id>, times: map<Id, int>)
    requires Recovering(env, s, snap, snap.Keys) && s.jobs == snap
    requires (forall id :: id in ids ==> id in snap) && Distinct(ids)
    ensures Between(env, snap, Reclaimed(env, snap, times, s.clock), RecoverAll(env, s, snap, ids, times).jobs,
      snap.Keys - Elems(ids))
  {
    if ids != [] {
      var init, last := ids[..|ids| - 1], ids[|ids| - 1];
      Snoc(ids);
      RecoverAllSteps(env, s, snap, init, times);
      RecoverAllBetween(env, s, snap, init, times);
      Shrinks(snap.Keys, ids);
      RecoverBetween(env, RecoverAll(env, s, snap, init, times), snap, times, last, snap.Keys - Elems(init));
    }
  }

  /** The records after the first loop. */
  ghost function FirstLoop(env: Env, s: State, ids: seq<Id>, times: map<Id, int>): map<Id, Job>
    requires forall id :: id in ids ==> id in s.jobs
  {
    RecoverAll(env, Cleared(s).(leader := true), s.jobs, ids, times).jobs
  }

  lemma FirstLoopBetween(env: Env, s: State, ids: seq<Id>, times: map<Id, int>)
    requires DiskInv(env, s.clock, s.Stored()) && Lists(ids, s.jobs.Keys)
    ensures (forall id :: id in ids ==> id in s.jobs) &&
      Between(env, s.jobs, Reclaimed(env, s.jobs, times, s.clock), FirstLoop(env, s, ids, times), {})
  {
    assert forall id :: id in ids ==> id in Elems(ids);
    ClearedRecovers(env, s);
    RecoverAllBetween(env, Cleared(s).(leader := true), s.jobs, ids, times);
    assert s.jobs.Keys - Elems(ids) == {};
  }

  // ----- jobs that wait for no exhausted orphan -----

  /** `jobs` is what a first loop may leave of `snap`. */
  ghost predicate Left(env: Env, snap: map<Id, Job>, base: map<Id, Job>, jobs: map<Id, Job>) {
    Gated(snap) && BaseOf(snap, base) && Between(env, snap, base, jobs, {})
  }

  lemma BaseIsLeft(env: Env, snap: map<Id, Job>, base: map<Id, Job>)
    requires Gated(snap) && BaseOf(snap, base)
    ensures Left(env, snap, base, base)
  {
    forall z | z in snap ensures BetweenAt(env, snap, base, base, {}, z) {}
  }

  lemma LeftFacts(env: Env, snap: map<Id, Job>, base: map<Id, Job>, jobs: map<Id, Job>, z: Id)
    requires Left(env, snap, base, jobs)
    ensures DepGraph(jobs) == DepGraph(snap)
    ensures Done(jobs, z) <==> Done(snap, z)
    ensures z in jobs && !jobs[z].status.Terminal() ==> z in snap && !snap[z].status.Terminal()
    ensures z in snap && !Bereft(env, snap, z) ==> z in jobs && jobs[z] == base[z]
    ensures z in snap && jobs[z].status.Pending? ==> snap[z].status.Pending? && jobs[z] == snap[z]
  {
    forall y | y in snap ensures jobs[y].deps == snap[y].deps { assert BetweenAt(env, snap, base, jobs, {}, y); }
    if z in snap { assert BetweenAt(env, snap, base, jobs, {}, z); }
  }

  lemma BereftCloses(env: Env, jobs: map<Id, Job>, z: Id, y: Id)
    requires Gated(jobs) && WaitsFor(jobs, z, y) && Bereft(env, jobs, y)
    ensures Bereft(env, jobs, z)
  {
    var r :| r in jobs && Exhausted(env, jobs[r]) && WaitsFor(jobs, y, r);
    WaitsForTransitive(jobs, z, y, r);
    var p :| WaitChain(jobs, z, y, p);
    if z != y { WaitsIsUnmet(jobs, z, y); }
  }

  lemma DependsOnBereft(env: Env, jobs: map<Id, Job>, z: Id, d: Id)
    requires Gated(jobs) && z in jobs && !jobs[z].status.Terminal() && d in jobs[z].deps && Bereft(env, jobs, d)
    ensures Bereft(env, jobs, z)
  {
    WaitsForSelf(jobs, d);
    ChainLonger(jobs, z, d, d);
    BereftCloses(env, jobs, z, d);
  }

  /** Chains from such a job are the same in every outcome. */
  lemma ChainAlike(env: Env, snap: map<Id, Job>, base: map<Id, Job>, a: map<Id, Job>, b: map<Id, Job>, z: Id, x: Id)
    requires Left(env, snap, base, a) && Left(env, snap, base, b) && !Bereft(env, snap, z) && WaitsFor(a, z, x)
    ensures WaitsFor(b, z, x) && !Bereft(env, snap, x)
  {
    var p :| WaitChain(a, z, x, p);
    LeftFacts(env, snap, base, a, z);
    LeftFacts(env, snap, base, b, z);
    forall k | 0 <= k < |p| ensures p[k] in snap && !snap[p[k]].status.Terminal() {
      LeftFacts(env, snap, base, a, p[k]);
    }
    assert WaitChain(snap, z, x, p);
    forall k | 0 <= k < |p| ensures !Bereft(env, snap, p[k]) && p[k] in b && !b[p[k]].status.Terminal() {
      ChainPrefix(snap, z, x, p, k);
      if Bereft(env, snap, p[k]) { BereftCloses(env, snap, z, p[k]); }
      LeftFacts(env, snap, base, a, p[k]);
      LeftFacts(env, snap, base, b, p[k]);
    }
    assert WaitChain(b, z, x, p);
  }

  lemma JudgedClear(env: Env, snap: map<Id, Job>, base: map<Id, Job>, a: map<Id, Job>, b: map<Id, Job>, z: Id)
    requires Left(env, snap, base, a) && Left(env, snap, base, b)
    requires z in snap && snap[z].status.Pending? && !Bereft(env, snap, z)
    ensures Judge(a, snap[z].deps) == Judge(b, snap[z].deps)
  {
    forall d | d in snap[z].deps ensures (Done(a, d) <==> Done(b, d)) && (Lost(a, d) <==> Lost(b, d)) {
      if Bereft(env, snap, d) { DependsOnBereft(env, snap, z, d); }
      LeftFacts(env, snap, base, a, d);
      LeftFacts(env, snap, base, b, d);
    }
    JudgeSame(a, b, snap[z].deps);
  }

  lemma FallenAlike(env: Env, snap: map<Id, Job>, base: map<Id, Job>, a: map<Id, Job>, b: map<Id, Job>, z: Id)
    requires Left(env, snap, base, a) && Left(env, snap, base, b) && !Bereft(env, snap, z) && Fallen(a, snap.Keys, z)
    ensures Fallen(b, snap.Keys, z)
  {
    var x :| x in snap.Keys && Falls(a, x) && WaitsFor(a, z, x);
    ChainAlike(env, snap, base, a, b, z, x);
    LeftFacts(env, snap, base, a, x);
    LeftFacts(env, snap, base, b, x);
    JudgedClear(env, snap, base, a, b, x);
  }

  /** Such a job ends the same, whatever the first loop left. */
  lemma ClearEndsAlike(env: Env, snap: map<Id, Job>, base: map<Id, Job>, a: map<Id, Job>, b: map<Id, Job>, z: Id,
      clock: int)
    requires Left(env, snap, base, a) && Left(env, snap, base, b) && z in snap && !Bereft(env, snap, z)
    ensures z in a && z in b && Woken(env, a, snap.Keys, clock)[z] == Woken(env, b, snap.Keys, clock)[z]
  {
    LeftFacts(env, snap, base, a, z);
    LeftFacts(env, snap, base, b, z);
    assert Fallen(a, snap.Keys, z) <==> Fallen(b, snap.Keys, z) by {
      if Fallen(a, snap.Keys, z) { FallenAlike(env, snap, base, a, b, z); }
      if Fallen(b, snap.Keys, z) { FallenAlike(env, snap, base, b, a, z); }
    }
    assert Wakes(a, z) <==> Wakes(b, z) by {
      if snap[z].status.Pending? { JudgedClear(env, snap, base, a, b, z); }
    }
  }

  // ----- jobs that wait for an exhausted orphan -----

  /** Such a job is canceled in the end, or goes on waiting. */
  lemma BereftEnds(env: Env, snap: map<Id, Job>, base: map<Id, Job>, a: map<Id, Job>, z: Id, clock: int)
    requires Left(env, snap, base, a) && Bereft(env, snap, z)
    ensures z in a && Woken(env, a, snap.Keys, clock)[z] ==
      if a[z].status.Canceled? || Fallen(a, snap.Keys, z) then snap[z].(status := Canceled) else snap[z]
  {
    LeftFacts(env, snap, base, a, z);
    assert BetweenAt(env, snap, base, a, {}, z);
    var r :| r in snap && Exhausted(env, snap[r]) && WaitsFor(snap, z, r);
    WaitsIsUnmet(snap, z, r);
    var d :| d in snap[z].deps && !Done(snap, d);
    LeftFacts(env, snap, base, a, d);
    JudgeByFirstUnmet(a, snap[z].deps);
  }

  /** Whatever the order, the job ends canceled: its first unmet dependency is lost or bereft, or
      it depends on a job that waits for no exhausted orphan and falls by itself. */
  ghost predicate Sure(env: Env, snap: map<Id, Job>, base: map<Id, Job>, z: Id)
    requires z in snap
  {
    || (exists k: nat :: FirstUnmet(base, snap[z].deps, k)
                         && (Lost(base, snap[z].deps[k]) || Bereft(env, snap, snap[z].deps[k])))
    || (exists n :: n in snap[z].deps && !Bereft(env, snap, n) && Fallen(base, snap.Keys, n))
  }

  lemma FallenLonger(jobs: map<Id, Job>, m: set<Id>, z: Id, d: Id)
    requires Fallen(jobs, m, d) && z in jobs && !jobs[z].status.Terminal() && d in jobs[z].deps
    ensures Fallen(jobs, m, z)
  {
    var x :| x in m && Falls(jobs, x) && WaitsFor(jobs, d, x);
    ChainLonger(jobs, z, d, x);
  }

  lemma FallsIsFallen(jobs: map<Id, Job>, m: set<Id>, z: Id, k: nat)
    requires z in jobs && z in m && jobs[z].status.Pending?
    requires FirstUnmet(jobs, jobs[z].deps, k) && Lost(jobs, jobs[z].deps[k])
    ensures Fallen(jobs, m, z)
  {
    JudgeByFirstUnmet(jobs, jobs[z].deps);
    WaitsForSelf(jobs, z);
    assert Falls(jobs, z);
  }

  lemma FirstUnmetAlike(env: Env, snap: map<Id, Job>, base: map<Id, Job>, a: map<Id, Job>, b: map<Id, Job>,
      deps: seq<Id>, k: nat)
    requires Left(env, snap, base, a) && Left(env, snap, base, b) && FirstUnmet(a, deps, k)
    ensures FirstUnmet(b, deps, k)
  {
    forall d ensures Done(a, d) <==> Done(b, d) {
      LeftFacts(env, snap, base, a, d);
      LeftFacts(env, snap, base, b, d);
    }
  }

  ghost predicate AllSure(env: Env, snap: map<Id, Job>, base: map<Id, Job>) {
    forall z :: Bereft(env, snap, z) ==> Sure(env, snap, base, z)
  }

  /** If all bereft jobs are sure, all are canceled: from each, sureness leads down the acyclic
      graph to a lost job or to one that falls. */
  lemma {:induction false} SureFalls(env: Env, snap: map<Id, Job>, base: map<Id, Job>, a: map<Id, Job>, p: seq<Id>)
    requires Left(env, snap, base, a) && AllSure(env, snap, base) && Graph.Acyclic(DepGraph(snap))
    requires Graph.Path(DepGraph(snap), p) && Distinct(p) && Bereft(env, snap, p[|p| - 1])
    ensures var z := p[|p| - 1]; z in a && (a[z].status.Canceled? || Fallen(a, snap.Keys, z))
    decreases |snap.Keys - Elems(p)|
  {
    var z := p[|p| - 1];
    LeftFacts(env, snap, base, a, z);
    assert BetweenAt(env, snap, base, a, {}, z);
    BaseIsLeft(env, snap, base);
    assert Sure(env, snap, base, z);
    if !a[z].status.Canceled? {
      if n :| n in snap[z].deps && !Bereft(env, snap, n) && Fallen(base, snap.Keys, n) {
        FallenAlike(env, snap, base, base, a, n);
        FallenLonger(a, snap.Keys, z, n);
      } else {
        var k: nat :| FirstUnmet(base, snap[z].deps, k)
          && (Lost(base, snap[z].deps[k]) || Bereft(env, snap, snap[z].deps[k]));
        var d := snap[z].deps[k];
        FirstUnmetAlike(env, snap, base, base, a, snap[z].deps, k);
        LeftFacts(env, snap, base, a, d);
        if Bereft(env, snap, d) {
          Deeper(snap, p, d);
          SureFalls(env, snap, base, a, p + [d]);
          if Fallen(a, snap.Keys, d) { FallenLonger(a, snap.Keys, z, d); } else { FallsIsFallen(a, snap.Keys, z, k); }
        } else {
          FallsIsFallen(a, snap.Keys, z, k);
        }
      }
    }
  }

  /** A job that is not sure goes on waiting if everything bereft that it depends on was canceled
      in the first loop and it was not. */
  lemma UnsureWaits(env: Env, snap: map<Id, Job>, base: map<Id, Job>, a: map<Id, Job>, z: Id)
    requires Left(env, snap, base, a) && Bereft(env, snap, z) && !Sure(env, snap, base, z) && z in a && a[z] == snap[z]
    requires forall n :: n in snap[z].deps && Bereft(env, snap, n) ==> n in a && a[n].status.Canceled?
    ensures !Fallen(a, snap.Keys, z)
  {
    BaseIsLeft(env, snap, base);
    if x :| x in snap.Keys && Falls(a, x) && WaitsFor(a, z, x) {
      if x == z {
        JudgeByFirstUnmet(a, snap[z].deps);
        var k: nat :| FirstUnmet(a, snap[z].deps, k);
        FirstUnmetAlike(env, snap, base, a, base, snap[z].deps, k);
        LeftFacts(env, snap, base, a, snap[z].deps[k]);
        assert false;
      } else {
        var p :| WaitChain(a, z, x, p);
        var n := p[1];
        WaitsOn(a, z, x, p);
        assert Fallen(a, snap.Keys, n);
        FallenAlike(env, snap, base, a, base, n);
        assert false;
      }
    }
  }

  lemma WaitsOn(jobs: map<Id, Job>, z: Id, x: Id, p: seq<Id>)
    requires WaitChain(jobs, z, x, p) && z != x
    ensures |p| > 1 && p[1] in jobs && p[1] in jobs[z].deps && !jobs[p[1]].status.Terminal() && WaitsFor(jobs, p[1], x)
  {
    assert p[0 + 1] in Graph.Next(DepGraph(jobs), p[0]);
    var q := p[1..];
    forall i | 0 <= i < |q| - 1 ensures q[i + 1] in Graph.Next(DepGraph(jobs), q[i]) {
      assert q[i] == p[i + 1] && q[i + 1] == p[i + 1 + 1];
    }
    assert WaitChain(jobs, p[1], x, q);
  }

  // ----- two listings -----

  /** Among the jobs not in `out`, no waiting job depends on a canceled one that was waiting, nor on
      an exhausted orphan already behind the loop. */
  ghost predicate Severed(env: Env, snap: map<Id, Job>, jobs: map<Id, Job>, raw: set<Id>, out: set<Id>) {
    && jobs.Keys == snap.Keys
    && forall y, d ::
      y in snap && y !in out && jobs[y].status.Pending? && d in snap[y].deps && d in snap && d !in out ==>
         (snap[d].status.Pending? ==> jobs[d].status.Pending?) && (Exhausted(env, snap[d]) ==> d in raw)
  }

  lemma BurySevers(env: Env, s: State, snap: map<Id, Job>, id: Id, raw: set<Id>, out: set<Id>)
    requires Severed(env, snap, s.jobs, raw, out) && IndexComplete(s.jobs, s.rev, raw)
    requires id in raw && id in snap && Exhausted(env, snap[id]) && snap[id].id == id
    requires forall y :: y in snap && s.jobs[y].status.Pending? ==> s.jobs[y] == snap[y]
    requires forall y :: y in raw && y in snap && snap[y].status.Pending? ==> y in out
    ensures Severed(env, snap, Bury(s, snap[id]).jobs, raw - {id}, out)
  {
    var t := Bury(s, snap[id]);
    BuryJobs(s, snap[id], id);
    forall y, d | y in snap && y !in out && t.jobs[y].status.Pending? && d in snap[y].deps && d in snap && d !in out
      ensures (snap[d].status.Pending? ==> t.jobs[d].status.Pending?) && (Exhausted(env, snap[d]) ==> d in raw - {id})
    {
      BuryJobs(s, snap[id], y);
      BuryJobs(s, snap[id], d);
      assert y in Dependents(s.rev, d);
      DownstreamRoot(s.rev, id);
      if d in Downstream(s.rev, id) { DownstreamClosed(s.rev, id, d, y); }
    }
  }

  lemma RecoverSevers(env: Env, s: State, snap: map<Id, Job>, id: Id, at: int, raw: set<Id>, out: set<Id>)
    requires Recovering(env, s, snap, raw) && Severed(env, snap, s.jobs, raw, out)
    requires id in raw && !snap[id].status.Pending?
    requires forall y :: y in snap && s.jobs[y].status.Pending? ==> s.jobs[y] == snap[y]
    requires forall y :: y in raw && y in snap && snap[y].status.Pending? ==> y in out
    ensures Severed(env, snap, Recover(env, s, snap[id], at).jobs, raw - {id}, out)
  {
    var j := snap[id];
    assert j.id == id by { assert JobOk(env, s.clock, id, s.jobs[id]); }
    RecoverJobs(env, s, j, at);
    if Exhausted(env, j) {
      IndexedKeeps(env, s, id, raw, snap.Keys);
      BurySevers(env, Indexed(s, j), snap, id, raw, out);
    }
  }

  /** Listing waiting jobs changes no record. */
  lemma {:induction false} PendingChangesNothing(env: Env, s: State, snap: map<Id, Job>, ids: seq<Id>,
      times: map<Id, int>)
    requires forall id :: id in ids ==> id in snap && snap[id].status.Pending?
    ensures RecoverAll(env, s, snap, ids, times).jobs == s.jobs
  {
    if ids != [] {
      PendingChangesNothing(env, s, snap, ids[..|ids| - 1], times);
    }
  }

  lemma RecoverLast(env: Env, s: State, snap: map<Id, Job>, ids: seq<Id>, times: map<Id, int>)
    requires ids != [] && forall id :: id in ids ==> id in snap
    ensures var init, last := ids[..|ids| - 1], ids[|ids| - 1];
      RecoverAll(env, s, snap, ids, times) ==
      Recover(env, RecoverAll(env, s, snap, init, times), snap[last], RetryAt(times, last))
  {}

  lemma {:induction false} RecoverAllConcat(env: Env, s: State, snap: map<Id, Job>, a: seq<Id>, b: seq<Id>,
      times: map<Id, int>)
    requires forall id :: id in a + b ==> id in snap
    ensures (forall id :: id in a ==> id in snap) && (forall id :: id in b ==> id in snap)
    ensures RecoverAll(env, s, snap, a + b, times) ==
      RecoverAll(env, RecoverAll(env, s, snap, a, times), snap, b, times)
  {
    assert forall id :: id in a || id in b ==> id in a + b;
    if b == [] {
      assert a + b == a;
    } else {
      var all, init := a + b, b[..|b| - 1];
      assert all[..|all| - 1] == a + init && all[|all| - 1] == b[|b| - 1];
      RecoverAllConcat(env, s, snap, a, init, times);
      RecoverLast(env, s, snap, all, times);
      RecoverLast(env, RecoverAll(env, s, snap, a, times), snap, b, times);
    }
  }

  /** A listing: waiting jobs first, then all that do not wait, then the waiting jobs `out`. */
  ghost predicate Shaped(snap: map<Id, Job>, front: seq<Id>, mid: seq<Id>, out: set<Id>) {
    && Distinct(front + mid)
    && (forall id :: id in front ==> id in snap && snap[id].status.Pending?)
    && (forall id :: id in mid ==> id in snap && !snap[id].status.Pending?)
    && (forall id :: id in snap && snap[id].status.Pending? ==> id in front || id in out)
  }

  lemma {:induction false} MidSevers(env: Env, c: State, snap: map<Id, Job>, front: seq<Id>, mid: seq<Id>,
      times: map<Id, int>, out: set<Id>)
    requires Recovering(env, c, snap, snap.Keys) && c.jobs == snap && Shaped(snap, front, mid, out)
    ensures Severed(env, snap, RecoverAll(env, c, snap, front + mid, times).jobs, snap.Keys - Elems(front + mid), out)
    decreases |mid|
  {
    var ids := front + mid;
    assert forall id :: id in ids <==> id in front || id in mid;
    if mid == [] {
      assert ids == front;
      PendingChangesNothing(env, c, snap, front, times);
    } else {
      var less, last := mid[..|mid| - 1], mid[|mid| - 1];
      var init := front + less;
      assert ids[..|ids| - 1] == init && ids[|ids| - 1] == last;
      assert forall id :: id in less ==> id in mid;
      MidSevers(env, c, snap, front, less, times, out);
      TurnSevers(env, c, snap, ids, times, out);
    }
  }

  /** The next turn of the loop, past all waiting jobs but `out`. */
  lemma TurnSevers(env: Env, c: State, snap: map<Id, Job>, ids: seq<Id>, times: map<Id, int>, out: set<Id>)
    requires Recovering(env, c, snap, snap.Keys) && c.jobs == snap && ids != [] && Distinct(ids)
    requires (forall id :: id in ids ==> id in snap) && !snap[ids[|ids| - 1]].status.Pending?
    requires forall id :: id in snap && snap[id].status.Pending? ==> id in ids[..|ids| - 1] || id in out
    requires var init := ids[..|ids| - 1];
      Severed(env, snap, RecoverAll(env, c, snap, init, times).jobs, snap.Keys - Elems(init), out)
    ensures Severed(env, snap, RecoverAll(env, c, snap, ids, times).jobs, snap.Keys - Elems(ids), out)
  {
    var init, last := ids[..|ids| - 1], ids[|ids| - 1];
    var v, raw := RecoverAll(env, c, snap, init, times), snap.Keys - Elems(init);
    Snoc(ids);
    RecoverAllSteps(env, c, snap, init, times);
    Shrinks(snap.Keys, ids);
    forall y | y in snap && v.jobs[y].status.Pending? ensures v.jobs[y] == snap[y] {
      WaitingAsListed(env, c, snap, init, times, y);
    }
    RecoverSevers(env, v, snap, last, RetryAt(times, last), raw, out);
  }

  lemma WaitingAsListed(env: Env, c: State, snap: map<Id, Job>, ids: seq<Id>, times: map<Id, int>, y: Id)
    requires Recovering(env, c, snap, snap.Keys) && c.jobs == snap
    requires Distinct(ids) && forall id :: id in ids ==> id in snap
    requires var jobs := RecoverAll(env, c, snap, ids, times).jobs; y in jobs && y in snap && jobs[y].status.Pending?
    ensures RecoverAll(env, c, snap, ids, times).jobs[y] == snap[y]
  {
    var base, jobs, raw := Reclaimed(env, snap, times, c.clock), RecoverAll(env, c, snap, ids, times).jobs,
      snap.Keys - Elems(ids);
    RecoverAllBetween(env, c, snap, ids, times);
    ReclaimedIsBase(env, snap, times, c.clock);
    assert BetweenAt(env, snap, base, jobs, raw, y);
  }

  /** What such a listing leaves: the jobs listed last are untouched, and a bereft job with a chain
      to its orphan clear of them is canceled. */
  lemma ShapedLoop(env: Env, s: State, front: seq<Id>, mid: seq<Id>, last: seq<Id>, times: map<Id, int>)
    requires DiskInv(env, s.clock, s.Stored()) && Lists(front + mid + last, s.jobs.Keys)
    requires Shaped(s.jobs, front, mid, Elems(last))
    requires forall id :: id in last ==> id in s.jobs && s.jobs[id].status.Pending?
    ensures (forall id :: id in front + mid + last ==> id in s.jobs) &&
      var a := FirstLoop(env, s, front + mid + last, times);
      && Severed(env, s.jobs, a, {}, Elems(last))
      && forall z :: z in last ==> z in a && a[z] == s.jobs[z]
  {
    var c, snap, ids := Cleared(s).(leader := true), s.jobs, front + mid;
    assert forall id :: id in ids + last <==> id in ids || id in last;
    assert forall id :: id in ids + last ==> id in Elems(ids + last);
    ClearedRecovers(env, s);
    MidSevers(env, c, snap, front, mid, times, Elems(last));
    RecoverAllSteps(env, c, snap, ids, times);
    RecoverAllConcat(env, c, snap, ids, last, times);
    PendingChangesNothing(env, RecoverAll(env, c, snap, ids, times), snap, last, times);
    forall x | x in snap.Keys - Elems(ids) ensures x in last {
      assert x in Elems(ids + last);
    }
    forall z | z in last ensures z in snap.Keys - Elems(ids) {
      LastNotBefore(ids, last, z);
    }
  }

  lemma LastNotBefore(ids: seq<Id>, last: seq<Id>, z: Id)
    requires Distinct(ids + last) && z in last
    ensures z !in Elems(ids)
  {
    var all := ids + last;
    var k :| 0 <= k < |last| && last[k] == z;
    forall i | 0 <= i < |ids| ensures ids[i] != z { assert all[i] == ids[i] && all[|ids| + k] == z; }
  }

  lemma {:induction false} SeveredCancels(env: Env, snap: map<Id, Job>, a: map<Id, Job>, out: set<Id>, n: Id, r: Id,
      q: seq<Id>, k: nat)
    requires Gated(snap) && Severed(env, snap, a, {}, out)
    requires WaitChain(snap, n, r, q) && r in snap && Exhausted(env, snap[r])
    requires (forall i :: 0 <= i < |q| ==> q[i] !in out) && k < |q| - 1
    ensures !a[q[k]].status.Pending?
    decreases |q| - k
  {
    assert q[k + 1] in Graph.Next(DepGraph(snap), q[k]);
    if k + 1 < |q| - 1 {
      SeveredCancels(env, snap, a, out, n, r, q, k + 1);
      assert q[k + 1 + 1] in Graph.Next(DepGraph(snap), q[k + 1]);
      assert !Done(snap, q[k + 1 + 1]);
    }
  }

  // ----- when the order matters -----

  /** The records a recovery ends with. */
  ghost function Recovered(env: Env, s: State, ids: seq<Id>, times: map<Id, int>): map<Id, Job>
    requires Lists(ids, s.jobs.Keys)
  {
    assert forall id :: id in ids ==> id in Elems(ids);
    Lead(env, s, ids, times).jobs
  }

  lemma RecoveredIsWoken(env: Env, s: State, ids: seq<Id>, times: map<Id, int>)
    requires DiskInv(env, s.clock, s.Stored()) && Lists(ids, s.jobs.Keys)
    ensures (forall id :: id in ids ==> id in s.jobs) &&
      var a := FirstLoop(env, s, ids, times);
      && Left(env, s.jobs, Reclaimed(env, s.jobs, times, s.clock), a)
      && Recovered(env, s, ids, times) == Woken(env, a, s.jobs.Keys, s.clock)
  {
    FirstLoopBetween(env, s, ids, times);
    ReclaimedIsBase(env, s.jobs, times, s.clock);
    SecondLoopIsExact(env, s, ids, times);
  }

  lemma SureEndsCanceled(env: Env, snap: map<Id, Job>, base: map<Id, Job>, a: map<Id, Job>, z: Id, clock: int)
    requires Left(env, snap, base, a) && AllSure(env, snap, base)
    requires Graph.Acyclic(DepGraph(snap)) && Bereft(env, snap, z)
    ensures z in a && Woken(env, a, snap.Keys, clock)[z] == snap[z].(status := Canceled)
  {
    SureFalls(env, snap, base, a, [z]);
    BereftEnds(env, snap, base, a, z, clock);
  }

  lemma EndsAlike(env: Env, snap: map<Id, Job>, base: map<Id, Job>, a: map<Id, Job>, b: map<Id, Job>, z: Id, clock: int)
    requires Left(env, snap, base, a) && Left(env, snap, base, b)
    requires AllSure(env, snap, base) && Graph.Acyclic(DepGraph(snap))
    requires z in snap
    ensures z in a && z in b && Woken(env, a, snap.Keys, clock)[z] == Woken(env, b, snap.Keys, clock)[z]
  {
    if Bereft(env, snap, z) {
      SureEndsCanceled(env, snap, base, a, z, clock);
      SureEndsCanceled(env, snap, base, b, z, clock);
    } else {
      ClearEndsAlike(env, snap, base, a, b, z, clock);
    }
  }

  lemma SureEndsAlike(env: Env, snap: map<Id, Job>, base: map<Id, Job>, a: map<Id, Job>, b: map<Id, Job>, clock: int)
    requires Left(env, snap, base, a) && Left(env, snap, base, b)
    requires AllSure(env, snap, base) && Graph.Acyclic(DepGraph(snap))
    ensures Woken(env, a, snap.Keys, clock) == Woken(env, b, snap.Keys, clock)
  {
    var v, w := Woken(env, a, snap.Keys, clock), Woken(env, b, snap.Keys, clock);
    assert v.Keys == snap.Keys == w.Keys;
    forall z | z in snap ensures v[z] == w[z] {
      EndsAlike(env, snap, base, a, b, z, clock);
    }
    SameRecords(v, w);
  }

  lemma SameRecords(v: map<Id, Job>, w: map<Id, Job>)
    requires v.Keys == w.Keys && forall z :: z in v ==> v[z] == w[z]
    ensures v == w
  {}

  lemma SameWhenSure(env: Env, s: State, xs: seq<Id>, ys: seq<Id>, times: map<Id, int>)
    requires DiskInv(env, s.clock, s.Stored()) && Lists(xs, s.jobs.Keys) && Lists(ys, s.jobs.Keys)
    requires AllSure(env, s.jobs, Reclaimed(env, s.jobs, times, s.clock))
    ensures Recovered(env, s, xs, times) == Recovered(env, s, ys, times)
  {
    RecoveredIsWoken(env, s, xs, times);
    RecoveredIsWoken(env, s, ys, times);
    SureEndsAlike(env, s.jobs, Reclaimed(env, s.jobs, times, s.clock), FirstLoop(env, s, xs, times),
      FirstLoop(env, s, ys, times), s.clock);
  }

  lemma SeveredEndsCanceled(env: Env, snap: map<Id, Job>, base: map<Id, Job>, a: map<Id, Job>, z: Id, clock: int)
    requires Left(env, snap, base, a) && Severed(env, snap, a, {}, {}) && Bereft(env, snap, z)
    ensures z in a && Woken(env, a, snap.Keys, clock)[z].status.Canceled?
  {
    var r :| r in snap && Exhausted(env, snap[r]) && WaitsFor(snap, z, r);
    var q :| WaitChain(snap, z, r, q);
    SeveredCancels(env, snap, a, {}, z, r, q, 0);
    assert BetweenAt(env, snap, base, a, {}, z);
    BereftEnds(env, snap, base, a, z, clock);
  }

  /** With all waiting jobs listed first, every bereft job is canceled. */
  lemma CanceledWhenFirst(env: Env, s: State, front: seq<Id>, mid: seq<Id>, times: map<Id, int>, z: Id)
    requires DiskInv(env, s.clock, s.Stored()) && Lists(front + mid, s.jobs.Keys) && Shaped(s.jobs, front, mid, {})
    requires Bereft(env, s.jobs, z)
    ensures z in Recovered(env, s, front + mid, times) && Recovered(env, s, front + mid, times)[z].status.Canceled?
  {
    assert front + mid + [] == front + mid && Elems([]) == {};
    ShapedLoop(env, s, front, mid, [], times);
    RecoveredIsWoken(env, s, front + mid, times);
    SeveredEndsCanceled(env, s.jobs, Reclaimed(env, s.jobs, times, s.clock), FirstLoop(env, s, front + mid, times),
      z, s.clock);
  }

  lemma NotThrough(snap: map<Id, Job>, z: Id, n: Id, r: Id, q: seq<Id>)
    requires Graph.Acyclic(DepGraph(snap)) && z in snap && n in snap[z].deps && WaitChain(snap, n, r, q)
    ensures forall i :: 0 <= i < |q| ==> q[i] != z
  {
    forall i | 0 <= i < |q| ensures q[i] != z {
      if q[i] == z {
        var p := [z] + q[..i + 1];
        forall k | 0 <= k < |p| - 1 ensures p[k + 1] in Graph.Next(DepGraph(snap), p[k]) {
          if k > 0 { assert p[k] == q[k - 1] && p[k + 1] == q[k - 1 + 1]; }
        }
        assert Graph.Cycle(DepGraph(snap), p);
      }
    }
  }

  lemma LastEndsWaiting(env: Env, snap: map<Id, Job>, base: map<Id, Job>, a: map<Id, Job>, z: Id, clock: int)
    requires Left(env, snap, base, a) && Severed(env, snap, a, {}, {z}) && Graph.Acyclic(DepGraph(snap))
    requires Bereft(env, snap, z) && !Sure(env, snap, base, z) && z in a && a[z] == snap[z]
    ensures Woken(env, a, snap.Keys, clock)[z].status.Pending?
  {
    forall n | n in snap[z].deps && Bereft(env, snap, n) ensures n in a && a[n].status.Canceled? {
      var r :| r in snap && Exhausted(env, snap[r]) && WaitsFor(snap, n, r);
      var q :| WaitChain(snap, n, r, q);
      NotThrough(snap, z, n, r, q);
      SeveredCancels(env, snap, a, {z}, n, r, q, 0);
      assert BetweenAt(env, snap, base, a, {}, n);
    }
    UnsureWaits(env, snap, base, a, z);
    BereftEnds(env, snap, base, a, z, clock);
  }

  /** Listed after everything else, a bereft job that is not sure goes on waiting. */
  lemma WaitsWhenLast(env: Env, s: State, front: seq<Id>, mid: seq<Id>, times: map<Id, int>, z: Id)
    requires DiskInv(env, s.clock, s.Stored()) && Lists(front + mid + [z], s.jobs.Keys)
    requires Shaped(s.jobs, front, mid, {z})
    requires Bereft(env, s.jobs, z) && !Sure(env, s.jobs, Reclaimed(env, s.jobs, times, s.clock), z)
    ensures z in Recovered(env, s, front + mid + [z], times)
    ensures Recovered(env, s, front + mid + [z], times)[z].status.Pending?
  {
    var ids := front + mid + [z];
    assert Elems([z]) == {z};
    ShapedLoop(env, s, front, mid, [z], times);
    RecoveredIsWoken(env, s, ids, times);
    assert z in [z];
    LastEndsWaiting(env, s.jobs, Reclaimed(env, s.jobs, times, s.clock), FirstLoop(env, s, ids, times), z, s.clock);
  }

  ghost function Pendings(jobs: map<Id, Job>): set<Id> {
    set id | id in jobs && jobs[id].status.Pending?
  }

  lemma ListsConcat(a: seq<Id>, b: seq<Id>, m: set<Id>, n: set<Id>)
    requires Lists(a, m) && Lists(b, n) && m !! n
    ensures Lists(a + b, m + n)
  {
    assert Elems(a + b) == Elems(a) + Elems(b);
    forall i, j | 0 <= i < j < |a + b| ensures (a + b)[i] != (a + b)[j] {
      if i < |a| <= j { assert a[i] in Elems(a) && b[j - |a|] in Elems(b); }
    }
  }

  /** There is a listing with the jobs `out` last. */
  lemma ShapedListing(snap: map<Id, Job>, out: set<Id>) returns (front: seq<Id>, mid: seq<Id>)
    requires out <= Pendings(snap)
    ensures Shaped(snap, front, mid, out) && Lists(front + mid, snap.Keys - out)
  {
    var P := Pendings(snap);
    front, mid := SomeOrder(P - out), SomeOrder(snap.Keys - P);
    ListsConcat(front, mid, P - out, snap.Keys - P);
    assert (P - out) + (snap.Keys - P) == snap.Keys - out;
    forall id | id in front ensures id in P { assert id in Elems(front); }
    forall id | id in mid ensures id in snap.Keys - P { assert id in Elems(mid); }
    forall id | id in P ensures id in front || id in out { assert id in P - out ==> id in Elems(front); }
  }

  lemma DiffersWhenUnsure(env: Env, s: State, times: map<Id, int>, z: Id) returns (xs: seq<Id>, ys: seq<Id>)
    requires DiskInv(env, s.clock, s.Stored())
    requires Bereft(env, s.jobs, z) && !Sure(env, s.jobs, Reclaimed(env, s.jobs, times, s.clock), z)
    ensures Lists(xs, s.jobs.Keys) && Lists(ys, s.jobs.Keys)
    ensures Recovered(env, s, xs, times) != Recovered(env, s, ys, times)
  {
    var front, mid := ShapedListing(s.jobs, {});
    xs := front + mid;
    assert s.jobs.Keys - {} == s.jobs.Keys;
    CanceledWhenFirst(env, s, front, mid, times, z);
    front, mid := ShapedListing(s.jobs, {z});
    ys := front + mid + [z];
    ListsConcat(front + mid, [z], s.jobs.Keys - {z}, {z});
    assert (s.jobs.Keys - {z}) + {z} == s.jobs.Keys;
    WaitsWhenLast(env, s, front, mid, times, z);
  }

  ghost predicate OrderIsIrrelevant(env: Env, s: State, times: map<Id, int>) {
    forall xs, ys :: Lists(xs, s.jobs.Keys) && Lists(ys, s.jobs.Keys) ==>
      Recovered(env, s, xs, times) == Recovered(env, s, ys, times)
  }

  /** The records a recovery ends with depend on the order of the list exactly when some bereft
      job is not sure. */
  lemma OrderIrrelevantIff(env: Env, s: State, times: map<Id, int>)
    requires DiskInv(env, s.clock, s.Stored())
    ensures OrderIsIrrelevant(env, s, times) <==> AllSure(env, s.jobs, Reclaimed(env, s.jobs, times, s.clock))
  {
    if AllSure(env, s.jobs, Reclaimed(env, s.jobs, times, s.clock)) {
      forall xs, ys | Lists(xs, s.jobs.Keys) && Lists(ys, s.jobs.Keys)
        ensures Recovered(env, s, xs, times) == Recovered(env, s, ys, times)
      {
        SameWhenSure(env, s, xs, ys, times);
      }
    } else {
      var z :| Bereft(env, s.jobs, z) && !Sure(env, s.jobs, Reclaimed(env, s.jobs, times, s.clock), z);
      var xs, ys := DiffersWhenUnsure(env, s, times, z);
    }
  }

  // ----- an input on which it matters -----

  /** `r` has lost its last attempt, and `x` waits for it behind an `m` that was not submitted. */
  function Orphaned(r: Id, m: Id, x: Id): State {
    State(false, 0, map[r := Bare(r, [], Running).(attempt := 3), x := Bare(x, [m, r], Pending)],
          map[], map[], map[], map[], map[], map[], {})
  }

  lemma FallenIsUnfinished(jobs: map<Id, Job>, m: set<Id>, z: Id)
    requires Fallen(jobs, m, z)
    ensures z in jobs && !jobs[z].status.Terminal()
  {
    var x :| x in m && Falls(jobs, x) && WaitsFor(jobs, z, x);
    var p :| WaitChain(jobs, z, x, p);
  }

  lemma FirstUnmetUnique(jobs: map<Id, Job>, deps: seq<Id>, k: nat, m: nat)
    requires FirstUnmet(jobs, deps, k) && FirstUnmet(jobs, deps, m)
    ensures k == m
  {}

  lemma OrphanedIsStored(env: Env, r: Id, m: Id, x: Id)
    requires r != m && m != x && r != x
    ensures DiskInv(env, 0, Orphaned(r, m, x).Stored())
  {
    Graph.NumberedIsAcyclic(DepGraph(Orphaned(r, m, x).jobs), map[r := 0, m := 0, x := 1]);
  }

  lemma OrphanedIsBereft(env: Env, r: Id, m: Id, x: Id)
    requires r != m && m != x && r != x
    ensures Bereft(env, Orphaned(r, m, x).jobs, x)
  {
    var jobs := Orphaned(r, m, x).jobs;
    assert WaitChain(jobs, x, r, [x, r]);
    assert Exhausted(env, jobs[r]);
  }

  lemma OrphanedIsUnsure(env: Env, r: Id, m: Id, x: Id, times: map<Id, int>)
    requires r != m && m != x && r != x
    ensures !Sure(env, Orphaned(r, m, x).jobs, Reclaimed(env, Orphaned(r, m, x).jobs, times, 0), x)
  {
    var jobs := Orphaned(r, m, x).jobs;
    var base := Reclaimed(env, jobs, times, 0);
    assert FirstUnmet(base, jobs[x].deps, 0);
    forall k: nat | FirstUnmet(base, jobs[x].deps, k) ensures k == 0 {
      FirstUnmetUnique(base, jobs[x].deps, k, 0);
    }
    forall n | n in jobs[x].deps && Fallen(base, jobs.Keys, n) ensures n in base && !base[n].status.Terminal() {
      FallenIsUnfinished(base, jobs.Keys, n);
    }
  }

  lemma OrphanedFirst(env: Env, r: Id, m: Id, x: Id, times: map<Id, int>)
    requires r != m && m != x && r != x
    ensures var s := Orphaned(r, m, x);
      && Lists([x, r], s.jobs.Keys)
      && x in Recovered(env, s, [x, r], times) && Recovered(env, s, [x, r], times)[x].status.Canceled?
  {
    var s := Orphaned(r, m, x);
    OrphanedIsStored(env, r, m, x);
    OrphanedIsBereft(env, r, m, x);
    assert [x] + [r] == [x, r] && Elems([x, r]) == s.jobs.Keys;
    CanceledWhenFirst(env, s, [x], [r], times, x);
  }

  lemma OrphanedLast(env: Env, r: Id, m: Id, x: Id, times: map<Id, int>)
    requires r != m && m != x && r != x
    ensures var s := Orphaned(r, m, x);
      && Lists([r, x], s.jobs.Keys)
      && x in Recovered(env, s, [r, x], times) && Recovered(env, s, [r, x], times)[x].status.Pending?
  {
    var s := Orphaned(r, m, x);
    OrphanedIsStored(env, r, m, x);
    OrphanedIsBereft(env, r, m, x);
    OrphanedIsUnsure(env, r, m, x, times);
    assert [] + [r] + [x] == [r, x] && Elems([r, x]) == s.jobs.Keys;
    WaitsWhenLast(env, s, [], [r], times, x);
  }

  /** Listed first, `x` is canceled with its orphan; listed last, it goes on waiting. */
  lemma OrderMayMatter(env: Env, r: Id, m: Id, x: Id, times: map<Id, int>)
    requires r != m && m != x && r != x
    ensures var s := Orphaned(r, m, x);
      && Lists([x, r], s.jobs.Keys) && Lists([r, x], s.jobs.Keys)
      && Recovered(env, s, [x, r], times) != Recovered(env, s, [r, x], times)
  {
    OrphanedFirst(env, r, m, x, times);
    OrphanedLast(env, r, m, x, times);
  }
}
