/** What holds of the scheduling state between handlers, and of the store after every single
    write. `raw` and `todo` name jobs that a running recovery or promotion has not reached yet;
    between handlers both are empty. */
module Invariants {
  import opened Prelude
  import opened Ordering
  import opened Jobs
  import Graph

  // ----- the store -----

  ghost predicate Waited(schedule: Schedule, clock: int) {
    schedule.RunAt? ==> schedule.at <= clock
  }

  /** Whether the scheduler itself has set the time before which the job may not start: the end
      of a retry's backoff, or the next occurrence of a recurring job. */
  ghost predicate Timed(j: Job) {
    j.attempt >= 1 || j.Recurs()
  }

  /** The time has come for a queued job. */
  ghost predicate Due(j: Job, clock: int) {
    && Waited(j.schedule, clock)
    && (Timed(j) ==> j.scheduledAt.Some? && j.scheduledAt.value <= clock)
  }

  /** A timer for `at` does not bring a queued job in too early. */
  ghost predicate DueBy(j: Job, clock: int, at: int) {
    && (Waited(j.schedule, clock) || j.schedule.at <= at)
    && (Timed(j) ==> j.scheduledAt.Some? && j.scheduledAt.value <= at)
  }

  /** The time on the record of a job not started yet, if any, is the one its schedule sets. The
      record of a submission may carry another. */
  ghost predicate Plain(j: Job) {
    !Timed(j) && (j.status.Pending? || j.status.Queued?) ==>
      j.scheduledAt.None? || (j.schedule.RunAt? && j.scheduledAt == Some(j.schedule.at))
  }

  ghost predicate JobOk(env: Env, clock: int, id: Id, j: Job) {
    && j.id == id
    && (j.Recurs() ==> env.parses(j.schedule.expr))
    && 0 <= j.attempt <= j.Limit()
    && (j.status.Pending? ==> j.attempt == 0)
    && (j.status.Queued? ==>
      j.attempt < j.Limit() && (Waited(j.schedule, clock) || j.scheduledAt == Some(j.schedule.at)))
    && (j.status.Queued? && Timed(j) ==> j.scheduledAt.Some?)
    && (j.status.Running? ==> 1 <= j.attempt && Waited(j.schedule, clock))
    && (j.status.Succeeded? ==> !j.Recurs())
    && (j.status.Failed? ==> !j.Recurs() && j.attempt == j.Limit())
  }

  /** Only jobs whose dependencies have all succeeded are queued or running. */
  ghost predicate Gated(jobs: map<Id, Job>) {
    forall id :: id in jobs && (jobs[id].status.Queued? || jobs[id].status.Running?) ==> AllDone(jobs, jobs[id].deps)
  }

  ghost predicate DiskInv(env: Env, clock: int, d: Disk) {
    && (forall id :: id in d.jobs ==> JobOk(env, clock, id, d.jobs[id]))
    && Gated(d.jobs)
    && Graph.Acyclic(DepGraph(d.jobs))
  }

  // ----- single writes -----

  /** What the life of a job may do to its record in one write. Its identity, its place in the
      queue, its dependencies, schedule and retry policy never change. */
  ghost predicate Progresses(i: Job, j: Job) {
    && j.id == i.id && j.priority == i.priority && j.createdAt == i.createdAt && j.command == i.command
    && j.deps == i.deps && j.schedule == i.schedule && j.policy == i.policy
    && match i.status
       case Pending => j.attempt == i.attempt && (j.status.Queued? || j.status.Canceled?)
       case Queued => (j.status.Running? && j.attempt == i.attempt + 1) || j == i.(status := Canceled)
       case Running =>
         || (j.attempt == i.attempt
           && (j.status.Queued? || j.status.Succeeded? || j.status.Failed? || j.status.Canceled?))
         || (j.status.Queued? && j.Recurs() && j.attempt == 0)
       case _ => false
  }

  /** One legal write of a job record. */
  ghost predicate LegalPut(env: Env, clock: int, d: Disk, j: Job) {
    && JobOk(env, clock, j.id, j)
    && (j.status.Queued? || j.status.Running? ==> AllDone(d.jobs, j.deps))
    && (j.status.Running? ==> j.id in d.jobs && Due(d.jobs[j.id], clock))
    && (j.id in d.jobs && d.jobs[j.id].status.Pending? && j.status.Queued? ==> j == ReadyJob(env, d.jobs[j.id], clock))
    && if j.id in d.jobs then Progresses(d.jobs[j.id], j)
       else j.attempt == 0 && (j.status.Pending? || j.status.Queued? || j.status.Canceled?)
            && Graph.Acyclic(DepGraph(d.jobs)[j.id := j.deps])
  }

  /** A legal write by a handler, which also spaces retries and writes the dead letter first. */
  ghost predicate LegalWrite(env: Env, clock: int, d: Disk, j: Job) {
    && LegalPut(env, clock, d, j) && SpacedRecord(j, clock)
    && (j.status.Failed? ==> j.id in d.dead && d.dead[j.id] == j)
  }

  lemma PutDone(jobs: map<Id, Job>, j: Job, deps: seq<Id>)
    requires !Done(jobs, j.id)
    ensures AllDone(jobs, deps) ==> AllDone(jobs[j.id := j], deps)
    ensures !j.status.Succeeded? ==> (AllDone(jobs[j.id := j], deps) <==> AllDone(jobs, deps))
  {
    forall d ensures Done(jobs, d) ==> Done(jobs[j.id := j], d) {}
    if !j.status.Succeeded? {
      forall d ensures Done(jobs[j.id := j], d) ==> Done(jobs, d) {}
    }
  }

  /** A legal write keeps everything that holds of the store. */
  lemma PutKeepsDisk(env: Env, clock: int, d: Disk, j: Job)
    requires DiskInv(env, clock, d) && LegalPut(env, clock, d, j)
    ensures DiskInv(env, clock, Disk(d.jobs[j.id := j], d.dead))
  {
    var jobs := d.jobs[j.id := j];
    assert DepGraph(jobs) == DepGraph(d.jobs)[j.id := j.deps];
    if j.id in d.jobs { assert DepGraph(jobs) == DepGraph(d.jobs); }
    forall id | id in jobs && (jobs[id].status.Queued? || jobs[id].status.Running?)
      ensures AllDone(jobs, jobs[id].deps)
    {
      PutDone(d.jobs, j, jobs[id].deps);
    }
  }

  /** So does the passing of time. */
  lemma DiskLater(env: Env, clock: int, now: int, d: Disk)
    requires DiskInv(env, clock, d) && clock <= now
    ensures DiskInv(env, now, d)
  {
    forall id | id in d.jobs ensures JobOk(env, now, id, d.jobs[id]) { assert JobOk(env, clock, id, d.jobs[id]); }
  }

  // The handlers' writes are legal.

  lemma LegalRetry(env: Env, clock: int, d: Disk, id: Id, at: int)
    requires DiskInv(env, clock, d) && id in d.jobs && d.jobs[id].status.Running?
    requires d.jobs[id].attempt < d.jobs[id].Limit()
    ensures LegalPut(env, clock, d, RetriedJob(d.jobs[id], at)) && Waited(d.jobs[id].schedule, clock)
    ensures Spaced(d.jobs[id], clock, at) ==> LegalWrite(env, clock, d, RetriedJob(d.jobs[id], at))
  {
    assert JobOk(env, clock, id, d.jobs[id]);
  }

  lemma LegalRearm(env: Env, clock: int, d: Disk, id: Id, at: int)
    requires DiskInv(env, clock, d) && id in d.jobs && d.jobs[id].status.Running? && d.jobs[id].Recurs()
    ensures LegalWrite(env, clock, d, Rearmed(d.jobs[id], at))
  {
    assert JobOk(env, clock, id, d.jobs[id]);
  }

  lemma LegalFailure(env: Env, clock: int, d: Disk, id: Id)
    requires DiskInv(env, clock, d) && id in d.jobs && d.jobs[id].status.Running?
    requires d.jobs[id].attempt >= d.jobs[id].Limit() && !CanRearm(env, d.jobs[id])
    ensures var buried := Disk(d.jobs, d.dead[id := FailedJob(d.jobs[id])]);
      DiskInv(env, clock, buried) && LegalWrite(env, clock, buried, FailedJob(d.jobs[id]))
  {
    assert JobOk(env, clock, id, d.jobs[id]);
  }

  lemma LegalFinish(env: Env, clock: int, d: Disk, id: Id)
    requires DiskInv(env, clock, d) && id in d.jobs && d.jobs[id].status.Running? && !CanRearm(env, d.jobs[id])
    ensures LegalWrite(env, clock, d, FinishedJob(d.jobs[id]))
  {
    assert JobOk(env, clock, id, d.jobs[id]);
  }

  lemma LegalPromotion(env: Env, clock: int, d: Disk, id: Id)
    requires DiskInv(env, clock, d) && id in d.jobs && d.jobs[id].status.Pending? && AllDone(d.jobs, d.jobs[id].deps)
    ensures LegalWrite(env, clock, d, ReadyJob(env, d.jobs[id], clock))
  {
    assert JobOk(env, clock, id, d.jobs[id]);
  }

  lemma LegalCancel(env: Env, clock: int, d: Disk, id: Id)
    requires DiskInv(env, clock, d) && id in d.jobs && !d.jobs[id].status.Terminal()
    ensures LegalWrite(env, clock, d, d.jobs[id].(status := Canceled))
  {
    assert JobOk(env, clock, id, d.jobs[id]);
  }

  lemma LegalDispatch(env: Env, clock: int, d: Disk, id: Id, worker: Id)
    requires DiskInv(env, clock, d) && id in d.jobs && d.jobs[id].status.Queued? && Due(d.jobs[id], clock)
    ensures LegalWrite(env, clock, d, Dispatched(d.jobs[id], worker, clock))
  {
    assert JobOk(env, clock, id, d.jobs[id]);
  }

  // ----- memory -----

  ghost predicate ReadyOk(jobs: map<Id, Job>, clock: int, raw: set<Id>, id: Id, key: Key) {
    && id in jobs && id !in raw && jobs[id].status.Queued?
    && key == jobs[id].Place()
    && Due(jobs[id], clock)
  }

  /** The time on the record is not past `at`. */
  ghost predicate OnTime(j: Job, at: int) {
    j.scheduledAt.Some? ==> j.scheduledAt.value <= at
  }

  ghost predicate TimerOk(jobs: map<Id, Job>, clock: int, raw: set<Id>, id: Id, at: int) {
    && id in jobs && id !in raw
    && (jobs[id].status.Queued? || jobs[id].status.Canceled?)
    && DueBy(jobs[id], clock, at) && OnTime(jobs[id], at)
  }

  /** Queued jobs are in exactly one of the queue and the timer table. */
  ghost predicate QueueInv(jobs: map<Id, Job>, clock: int, ready: map<Id, Key>, timers: map<Id, int>, raw: set<Id>) {
    && (forall id :: id in jobs && id !in raw && jobs[id].status.Queued? ==> (id in ready <==> id !in timers))
    && (forall id :: id in ready ==> ReadyOk(jobs, clock, raw, id, ready[id]))
    && (forall id :: id in timers ==> TimerOk(jobs, clock, raw, id, timers[id]))
  }

  ghost predicate LeaseOk(env: Env, jobs: map<Id, Job>, raw: set<Id>, l: Lease) {
    && l.jobID in jobs && l.jobID !in raw
    && AllDone(jobs, jobs[l.jobID].deps)
    && var j := jobs[l.jobID];
    || j.status.Canceled?
    || (j.status.Running? && l.attempt == j.attempt && l.worker == j.worker && l.deadline == j.startedAt + env.leaseTTL)
  }

  ghost predicate Leased(leases: map<Id, Lease>, id: Id) {
    exists t :: t in leases && leases[t].jobID == id
  }

  /** Every running job has exactly one lease, which matches it; any other lease belongs to a
      canceled job. Either way the dependencies of the job have succeeded. */
  ghost predicate LeaseInv(env: Env, jobs: map<Id, Job>, leases: map<Id, Lease>, raw: set<Id>) {
    && (forall id :: id in jobs && id !in raw && jobs[id].status.Running? ==> Leased(leases, id))
    && (forall t :: t in leases ==> LeaseOk(env, jobs, raw, leases[t]))
    && (forall t, u :: t in leases && u in leases && leases[t].jobID == leases[u].jobID ==> t == u)
  }

  /** Index edges are dependency edges of unfinished jobs; `but` may be finished. */
  ghost predicate IndexSound(jobs: map<Id, Job>, rev: map<Id, set<Id>>, but: set<Id>) {
    && (forall d :: d in rev ==> rev[d] != {})
    && (forall d, x :: d in rev && x in rev[d] ==> EdgeOk(jobs, but, d, x))
  }

  ghost predicate EdgeOk(jobs: map<Id, Job>, but: set<Id>, d: Id, x: Id) {
    x in jobs && d in jobs[x].deps && (x in but || !jobs[x].status.Terminal())
  }

  /** Every waiting job is indexed under each of its dependencies. */
  ghost predicate IndexComplete(jobs: map<Id, Job>, rev: map<Id, set<Id>>, raw: set<Id>) {
    forall x, d :: x in jobs && x !in raw && jobs[x].status.Pending? && d in jobs[x].deps ==> x in Dependents(rev, d)
  }

  /** No waiting job has nothing left to wait for. */
  ghost predicate WakeInv(jobs: map<Id, Job>, todo: set<Id>) {
    forall x :: x in jobs && x !in todo && jobs[x].status.Pending? ==> !AllDone(jobs, jobs[x].deps)
  }

  ghost predicate MemInv(env: Env, s: State, raw: set<Id>, todo: set<Id>) {
    && QueueInv(s.jobs, s.clock, s.ready, s.timers, raw)
    && LeaseInv(env, s.jobs, s.leases, raw)
    && s.leases.Keys <= s.issued
    && IndexSound(s.jobs, s.rev, {})
    && IndexComplete(s.jobs, s.rev, raw)
    && WakeInv(s.jobs, todo)
  }

  /** The invariant of a leading node in the middle of a recovery or promotion. */
  ghost predicate Partial(env: Env, s: State, raw: set<Id>, todo: set<Id>) {
    s.leader && DiskInv(env, s.clock, s.Stored()) && MemInv(env, s, raw, todo)
  }

  ghost predicate Idle(s: State) {
    s.ready == map[] && s.timers == map[] && s.leases == map[] && s.rev == map[]
  }

  /** The invariant of a node between handlers. */
  ghost predicate Inv(env: Env, s: State) {
    && DiskInv(env, s.clock, s.Stored())
    && (if s.leader then MemInv(env, s, {}, {}) else Idle(s))
  }

  // ----- judging dependencies -----

  /** The dependencies before position `k` have succeeded and the one at `k` has not. */
  ghost predicate FirstUnmet(jobs: map<Id, Job>, deps: seq<Id>, k: nat) {
    k < |deps| && !Done(jobs, deps[k]) && forall i :: 0 <= i < k ==> Done(jobs, deps[i])
  }

  /** Judge is decided by the first unmet dependency alone. */
  lemma {:induction false} JudgeByFirstUnmet(jobs: map<Id, Job>, deps: seq<Id>)
    ensures Judge(jobs, deps).Ready? <==> AllDone(jobs, deps)
    ensures !AllDone(jobs, deps) ==> exists k: nat :: FirstUnmet(jobs, deps, k)
    ensures forall k: nat :: FirstUnmet(jobs, deps, k) ==>
      Judge(jobs, deps) == if Lost(jobs, deps[k]) then Doomed(deps[k]) else Waiting
  {
    if deps != [] {
      if Done(jobs, deps[0]) {
        var rest := deps[1..];
        JudgeByFirstUnmet(jobs, rest);
        assert forall d :: d in deps <==> d == deps[0] || d in rest;
        if !AllDone(jobs, rest) {
          var k: nat :| FirstUnmet(jobs, rest, k);
          assert deps[k + 1] == rest[k];
          assert FirstUnmet(jobs, deps, k + 1);
        }
        forall k: nat | FirstUnmet(jobs, deps, k) ensures k > 0 && FirstUnmet(jobs, rest, k - 1) {}
      } else {
        assert FirstUnmet(jobs, deps, 0);
      }
    }
  }

  /** A dependency that is lost later in the list goes unreported while an earlier one is
      still missing. */
  lemma LaterLossUnreported()
    ensures exists jobs, deps, d :: d in deps && Lost(jobs, d) && Judge(jobs, deps) == Waiting
  {
    var f := Job("f", "run", 0, [], Immediate, None, Failed, 3, "", 0, None, 0);
    var jobs, deps := map["f" := f], ["m", "f"];
    assert deps[1] == "f" && Lost(jobs, "f") && Judge(jobs, deps) == Waiting;
  }

  // ----- the downstream closure -----

  lemma DownstreamRoot(rev: map<Id, set<Id>>, root: Id)
    ensures root in Downstream(rev, root)
  {
    assert Chain(rev, root, root, [root]);
  }

  lemma DownstreamClosed(rev: map<Id, set<Id>>, root: Id, x: Id, y: Id)
    requires x in Downstream(rev, root) && y in Dependents(rev, x)
    ensures y in Downstream(rev, root)
  {
    var p :| Chain(rev, root, x, p);
    var q := p + [y];
    forall i | 0 <= i < |q| - 1 ensures q[i + 1] in Dependents(rev, q[i]) {
      if i < |p| - 1 { assert q[i + 1] == p[i + 1]; }
    }
    assert Chain(rev, root, y, q);
  }

  lemma {:induction false} ChainStays(rev: map<Id, set<Id>>, a: Id, b: Id, p: seq<Id>, S: set<Id>)
    requires Chain(rev, a, b, p) && a in S
    requires forall x, y :: x in S && y in Dependents(rev, x) ==> y in S
    ensures b in S
    decreases |p|
  {
    if |p| > 1 {
      var q := p[..|p| - 1];
      forall i | 0 <= i < |q| - 1 ensures q[i + 1] in Dependents(rev, q[i]) {
        assert q[i + 1] == p[i + 1];
      }
      ChainStays(rev, a, q[|q| - 1], q, S);
      assert p[|p| - 2 + 1] in Dependents(rev, p[|p| - 2]);
    }
  }

  /** Downstream is the least set that holds the root and is closed under the index. */
  lemma DownstreamLeast(rev: map<Id, set<Id>>, root: Id, S: set<Id>)
    requires root in S
    requires forall x, y :: x in S && y in Dependents(rev, x) ==> y in S
    ensures Downstream(rev, root) <= S
  {
    forall x | x in Downstream(rev, root) ensures x in S {
      var p :| Chain(rev, root, x, p);
      ChainStays(rev, root, x, p, S);
    }
  }

  // ----- cascades -----

  /** What a cascade may start from: a job that has not succeeded and is not under way. */
  ghost predicate CascadeFrom(s: State, root: Id) {
    root in s.jobs && (s.jobs[root].status.Pending? || Lost(s.jobs, root))
  }

  /** Everything downstream of such a job, except the job itself, is waiting. */
  lemma DownstreamWaits(s: State, root: Id, x: Id)
    requires Gated(s.jobs) && IndexSound(s.jobs, s.rev, {root}) && CascadeFrom(s, root)
    requires x in Downstream(s.rev, root)
    ensures x in s.jobs && (x == root || s.jobs[x].status.Pending?)
  {
    var S := set y | y in s.jobs && (y == root || s.jobs[y].status.Pending?);
    forall a, b | a in S && b in Dependents(s.rev, a) ensures b in S {
      assert !Done(s.jobs, a) && a in s.jobs[b].deps;
    }
    DownstreamLeast(s.rev, root, S);
  }

  lemma VictimsWait(s: State, root: Id)
    requires Gated(s.jobs) && IndexSound(s.jobs, s.rev, {root}) && CascadeFrom(s, root)
    ensures forall x :: x in Victims(s, root) ==> x in s.jobs && s.jobs[x].status.Pending?
    ensures forall x :: x in Downstream(s.rev, root) ==> x in s.jobs && (x == root || x in Victims(s, root))
  {
    forall x | x in Downstream(s.rev, root)
      ensures x in s.jobs && (x == root || s.jobs[x].status.Pending?)
    {
      DownstreamWaits(s, root, x);
    }
  }
}
