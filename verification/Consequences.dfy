/** What single handlers achieve in the states a run can reach, and where a tempting promise
    fails. */
module Consequences {
  import opened Prelude
  import opened Jobs
  import opened Invariants
  import opened Preservation
  import opened Handlers
  import opened Recovery
  import Graph

  // ----- the sweep -----

  lemma {:induction false} RequeueAllLeases(env: Env, s: State, tasks: seq<Id>, times: map<Id, int>)
    ensures var t := RequeueAll(env, s, tasks, times); t.leases == s.leases - Elems(tasks) && t.clock == s.clock
  {
    if tasks == [] {
      assert s.leases - {} == s.leases;
    } else {
      var init, last := tasks[..|tasks| - 1], tasks[|tasks| - 1];
      Snoc(tasks);
      RequeueAllLeases(env, s, init, times);
      var t := RequeueAll(env, s, init, times);
      RequeueLeases(env, t, last, RetryAt(times, last));
      assert s.leases - Elems(tasks) == s.leases - Elems(init) - {last};
    }
  }

  lemma RequeueLeases(env: Env, s: State, task: Id, at: int)
    ensures var t := Requeue(env, s, task, at); t.leases == s.leases - {task} && t.clock == s.clock
  {
    if task !in s.leases { assert s.leases - {task} == s.leases; }
  }

  /** What one sweep leaves of the lease table: the leases of workers not newly declared dead
      that are not past their deadline. */
  lemma SweepReclaims(env: Env, s: State, orphans: seq<Id>, overdue: seq<Id>, times: map<Id, int>)
    requires Inv(env, s) && s.leader
    requires Lists(orphans, LeasesOf(s, NewlyDead(env, s)))
    requires Lists(overdue, Expired(RequeueAll(env, SweepWorkers(env, s), orphans, times)))
    ensures var t := Reap(env, s, orphans, overdue, times);
      t.leases == map k | k in s.leases && s.leases[k].worker !in NewlyDead(env, s)
        && s.clock <= s.leases[k].deadline :: s.leases[k]
  {
    var t := SweepWorkers(env, s);
    RequeueAllLeases(env, t, orphans, times);
    RequeueAllLeases(env, RequeueAll(env, t, orphans, times), overdue, times);
  }

  lemma ReapLeads(env: Env, s: State, orphans: seq<Id>, overdue: seq<Id>, times: map<Id, int>)
    requires Inv(env, s) && s.leader
    ensures Partial(env, Reap(env, s, orphans, overdue, times), {}, {})
  {
    var u := SweepWorkers(env, s);
    assert Partial(env, u, {}, {});
    RequeueAllKeeps(env, u, orphans, times);
    RequeueAllKeeps(env, RequeueAll(env, u, orphans, times), overdue, times);
  }

  lemma RunningIsLeased(env: Env, t: State, id: Id)
    requires Partial(env, t, {}, {}) && forall k :: k in t.leases ==> t.clock <= t.leases[k].deadline
    ensures id in t.jobs && t.jobs[id].status.Running? ==> t.clock - env.leaseTTL <= t.jobs[id].startedAt
  {
    if id in t.jobs && t.jobs[id].status.Running? {
      var k :| k in t.leases && t.leases[k].jobID == id;
      assert LeaseOk(env, t.jobs, {}, t.leases[k]);
    }
  }

  /** Bounded reclaim: after a sweep every running job was started within the last lease time. */
  lemma SweepBoundsRunning(env: Env, s: State, orphans: seq<Id>, overdue: seq<Id>, times: map<Id, int>, id: Id)
    requires Inv(env, s) && s.leader
    requires Lists(orphans, LeasesOf(s, NewlyDead(env, s)))
    requires Lists(overdue, Expired(RequeueAll(env, SweepWorkers(env, s), orphans, times)))
    ensures var t := Reap(env, s, orphans, overdue, times);
      id in t.jobs && t.jobs[id].status.Running? ==> t.clock - env.leaseTTL <= t.jobs[id].startedAt
  {
    SweepReclaims(env, s, orphans, overdue, times);
    ReapLeads(env, s, orphans, overdue, times);
    RunningIsLeased(env, Reap(env, s, orphans, overdue, times), id);
  }

  /** The record after one lost attempt. */
  function ChargedOnce(env: Env, now: int, job: Job, at: int): Job {
    if job.attempt < job.Limit() then RetriedJob(job, at)
    else if CanRearm(env, job) then Rearmed(job, env.next(job.schedule.expr, now))
    else FailedJob(job)
  }

  lemma FailCharges(env: Env, s: State, job: Job, at: int)
    requires job.id in s.jobs
    ensures job.id in Fail(env, s, job, at).jobs
    ensures Fail(env, s, job, at).jobs[job.id] == ChargedOnce(env, s.clock, job, at)
  {
    if job.attempt >= job.Limit() && !CanRearm(env, job) { BuryCharges(s, job); }
  }

  lemma BuryCharges(s: State, job: Job)
    ensures job.id in Bury(s, job).jobs && Bury(s, job).jobs[job.id] == FailedJob(job)
  {}

  lemma FailSpares(env: Env, s: State, id: Id, at: int, raw: set<Id>, x: Id)
    requires Partial(env, s, raw, {}) && id in raw && id in s.jobs && s.jobs[id].status.Running?
    requires x in s.jobs && x != id && !s.jobs[x].status.Pending?
    ensures var t := Fail(env, s, s.jobs[id], at); x in t.jobs && t.jobs[x] == s.jobs[x]
  {
    var job := s.jobs[id];
    assert job.id == id by { assert JobOk(env, s.clock, id, s.jobs[id]); }
    if job.attempt >= job.Limit() && !CanRearm(env, job) {
      BuriedKeeps(env, s, id, raw, {});
      VictimsWait(Buried(s, job), id);
    }
  }

  lemma RequeueCharges(env: Env, s: State, task: Id, at: int, k: Id)
    requires Partial(env, s, {}, {}) && k in s.leases
    ensures var id := s.leases[k].jobID; var t := Requeue(env, s, task, at);
      && id in s.jobs && id in t.jobs
      && (s.jobs[id].status.Running? && k == task ==> t.jobs[id] == ChargedOnce(env, s.clock, s.jobs[id], at))
      && (k != task ==> t.jobs[id] == s.jobs[id])
  {
    assert LeaseOk(env, s.jobs, {}, s.leases[k]);
    var id := s.leases[k].jobID;
    if task in s.leases {
      var y := s.leases[task].jobID;
      DropLeaseKeeps(env, s, task, {});
      if s.jobs[y].status.Running? {
        assert s.jobs[y].id == y by { assert JobOk(env, s.clock, y, s.jobs[y]); }
        if k == task { FailCharges(env, DropLease(s, task), s.jobs[y], at); }
        else { FailSpares(env, DropLease(s, task), y, at, {y}, id); }
      }
    }
  }

  /** After requeuing `tasks`, the job of the lease `k` is untouched or charged once. */
  ghost predicate Charged(env: Env, s: State, t: State, tasks: set<Id>, times: map<Id, int>, k: Id)
    requires k in s.leases && s.leases[k].jobID in s.jobs
  {
    var id := s.leases[k].jobID;
    && id in t.jobs
    && (k in tasks ==> t.jobs[id] == ChargedOnce(env, s.clock, s.jobs[id], RetryAt(times, k)))
    && (k !in tasks ==> t.jobs[id] == s.jobs[id])
  }

  lemma ChargeStep(env: Env, s: State, u: State, done: set<Id>, task: Id, times: map<Id, int>, k: Id)
    requires LeaseInv(env, s.jobs, s.leases, {}) && Partial(env, u, {}, {}) && task !in done
    requires k in s.leases && s.leases[k].jobID in s.jobs && s.jobs[s.leases[k].jobID].status.Running?
    requires Charged(env, s, u, done, times, k) && u.leases == s.leases - done && u.clock == s.clock
    ensures Charged(env, s, Requeue(env, u, task, RetryAt(times, task)), done + {task}, times, k)
  {
    var id := s.leases[k].jobID;
    if k in done {
      ChargedHasNoLease(env, s, u, k);
      ChargedStays(env, u, task, RetryAt(times, task), id);
    } else {
      RequeueCharges(env, u, task, RetryAt(times, task), k);
    }
  }

  /** An attempt lost for several reasons at once, a dead worker and an expired lease, is
      charged once: after requeuing a list of tasks each leased running job is either untouched
      or has exactly one lost attempt on its record. */
  lemma {:induction false} RequeueAllCharges(env: Env, s: State, tasks: seq<Id>, times: map<Id, int>, k: Id)
    requires Partial(env, s, {}, {}) && Distinct(tasks)
    requires k in s.leases && s.leases[k].jobID in s.jobs && s.jobs[s.leases[k].jobID].status.Running?
    ensures Charged(env, s, RequeueAll(env, s, tasks, times), Elems(tasks), times, k)
  {
    if tasks != [] {
      var init, last := tasks[..|tasks| - 1], tasks[|tasks| - 1];
      Snoc(tasks);
      RequeueAllCharges(env, s, init, times, k);
      RequeueAllKeeps(env, s, init, times);
      RequeueAllLeases(env, s, init, times);
      ChargeStep(env, s, RequeueAll(env, s, init, times), Elems(init), last, times, k);
    }
  }

  /** A job that has no lease and is not waiting is left alone by requeues. */
  lemma ChargedStays(env: Env, u: State, task: Id, at: int, id: Id)
    requires Partial(env, u, {}, {}) && id in u.jobs && !u.jobs[id].status.Pending? && !Leased(u.leases, id)
    ensures var t := Requeue(env, u, task, at); id in t.jobs && t.jobs[id] == u.jobs[id]
  {
    if task in u.leases {
      var y := u.leases[task].jobID;
      DropLeaseKeeps(env, u, task, {});
      if u.jobs[y].status.Running? { FailSpares(env, DropLease(u, task), y, at, {y}, id); }
    }
  }

  lemma {:induction false} ChargedStaysAll(env: Env, u: State, tasks: seq<Id>, times: map<Id, int>, id: Id)
    requires Partial(env, u, {}, {}) && id in u.jobs && !u.jobs[id].status.Pending? && !Leased(u.leases, id)
    ensures var t := RequeueAll(env, u, tasks, times); id in t.jobs && t.jobs[id] == u.jobs[id] && !Leased(t.leases, id)
  {
    RequeueAllLeases(env, u, tasks, times);
    if tasks != [] {
      var init, last := tasks[..|tasks| - 1], tasks[|tasks| - 1];
      ChargedStaysAll(env, u, init, times, id);
      RequeueAllKeeps(env, u, init, times);
      ChargedStays(env, RequeueAll(env, u, init, times), last, RetryAt(times, last), id);
    }
  }

  /** A whole sweep, both of its phases, charges each running job at most one lost attempt, and
      charges it exactly when it takes away its lease. */
  lemma SweepChargesOnce(env: Env, s: State, orphans: seq<Id>, overdue: seq<Id>, times: map<Id, int>, k: Id)
    requires Inv(env, s) && s.leader && Distinct(orphans) && Distinct(overdue)
    requires k in s.leases && s.leases[k].jobID in s.jobs && s.jobs[s.leases[k].jobID].status.Running?
    ensures var id := s.leases[k].jobID; var t := Reap(env, s, orphans, overdue, times);
      && id in t.jobs
      && t.jobs[id] == if k in t.leases then s.jobs[id] else ChargedOnce(env, s.clock, s.jobs[id], RetryAt(times, k))
  {
    var id, u := s.leases[k].jobID, SweepWorkers(env, s);
    assert Partial(env, u, {}, {});
    var v := RequeueAll(env, u, orphans, times);
    RequeueAllCharges(env, u, orphans, times, k);
    RequeueAllKeeps(env, u, orphans, times);
    RequeueAllLeases(env, u, orphans, times);
    RequeueAllLeases(env, v, overdue, times);
    if k in Elems(orphans) {
      ChargedHasNoLease(env, u, v, k);
      ChargedStaysAll(env, v, overdue, times, id);
    } else {
      RequeueAllCharges(env, v, overdue, times, k);
    }
  }

  lemma ChargedHasNoLease(env: Env, s: State, u: State, k: Id)
    requires LeaseInv(env, s.jobs, s.leases, {}) && k in s.leases && k !in u.leases
    requires forall x :: x in u.leases ==> x in s.leases && u.leases[x] == s.leases[x]
    ensures !Leased(u.leases, s.leases[k].jobID)
  {}

  // ----- submission -----

  /** Admission is exact: a well-formed submission is turned away exactly when storing it,
      under a new ID or over an old one, would close a cycle. */
  lemma RejectsExactlyCycles(env: Env, s: State, job: Job)
    requires Graph.Acyclic(DepGraph(s.jobs))
    requires s.leader && job.command != "" && (job.Recurs() ==> env.parses(job.schedule.expr))
    ensures Accepted(env, s, job) <==> Graph.Acyclic(DepGraph(s.jobs)[job.id := job.deps])
  {
    Graph.NewCyclesPassThrough(DepGraph(s.jobs), job.id, job.deps);
    if job.deps == [] { Graph.NoEdgesNoCycle(DepGraph(s.jobs)[job.id := job.deps], job.id); }
  }

  lemma SubmittedJobs(env: Env, s: State, job: Job)
    requires Accepted(env, s, job)
    ensures var t := Submit(env, s, job);
      && job.id in t.jobs && t.jobs == s.jobs[job.id := t.jobs[job.id]]
      && t.jobs[job.id].deps == job.deps && t.jobs[job.id].status == PlacedAs(s.jobs, job.deps)
  {
    var j := Fresh(job, s.clock);
    assert Submit(env, s, job) == PlaceNew(env, s, j);
    assert PlacedJob(env, s.jobs, j, s.clock).id == job.id;
  }

  function PlacedAs(jobs: map<Id, Job>, deps: seq<Id>): Status {
    match Judge(jobs, deps) case Ready => Queued case Waiting => Pending case Doomed(_) => Canceled
  }

  /** After any submission, also one that replaces a stored job, the dependency graph is
      acyclic. */
  lemma SubmitStaysAcyclic(env: Env, s: State, job: Job)
    requires Graph.Acyclic(DepGraph(s.jobs))
    ensures Graph.Acyclic(DepGraph(Submit(env, s, job).jobs))
  {
    if Accepted(env, s, job) {
      SubmittedJobs(env, s, job);
      AcceptedStaysAcyclic(env, s, job);
      var t := Submit(env, s, job);
      assert DepGraph(t.jobs) == DepGraph(s.jobs)[job.id := job.deps];
    }
  }

  /** A job that is queued, running or leased. */
  ghost predicate Active(s: State, id: Id)
    requires id in s.jobs
  {
    s.jobs[id].status.Queued? || s.jobs[id].status.Running? || Leased(s.leases, id)
  }

  /** The dependencies of every active job have succeeded. */
  ghost predicate AllGated(s: State) {
    forall id :: id in s.jobs && Active(s, id) ==> AllDone(s.jobs, s.jobs[id].deps)
  }

  lemma InvIsGated(env: Env, s: State)
    requires Inv(env, s)
    ensures AllGated(s)
  {
    forall id | id in s.jobs && Active(s, id) ensures AllDone(s.jobs, s.jobs[id].deps) {
      if Leased(s.leases, id) {
        var t :| t in s.leases && s.leases[t].jobID == id;
        assert LeaseOk(env, s.jobs, {}, s.leases[t]);
      }
    }
  }

  /** Some other active job depends on `id`. */
  ghost predicate Relied(s: State, id: Id) {
    exists x :: x in s.jobs && x != id && Active(s, x) && id in s.jobs[x].deps
  }

  /** Submitting under an ID that is already stored keeps the gating of dependencies exactly when no
      other active job depends on that ID and, if a task of the old job is still leased, the
      dependencies of the new one have succeeded. */
  lemma ResubmitKeepsGatingIff(env: Env, s: State, job: Job)
    requires AllGated(s) && Accepted(env, s, job)
    ensures AllGated(Submit(env, s, job)) <==>
      !Relied(s, job.id) && (Leased(s.leases, job.id) ==> AllDone(s.jobs, job.deps))
  {
    var t := Submit(env, s, job);
    SubmittedJobs(env, s, job);
    JudgeByFirstUnmet(s.jobs, job.deps);
    NoSelfDependency(env, s, job);
    assert forall d :: d != job.id ==> (Done(t.jobs, d) <==> Done(s.jobs, d));
    assert !Done(t.jobs, job.id);
    assert AllDone(t.jobs, job.deps) <==> AllDone(s.jobs, job.deps);
    forall x | x in s.jobs && x != job.id && Active(s, x)
      ensures Active(t, x) && (AllDone(t.jobs, t.jobs[x].deps) <==> job.id !in s.jobs[x].deps)
    {
      assert AllDone(s.jobs, s.jobs[x].deps);
    }
    forall x | x in t.jobs && x != job.id && Active(t, x) ensures Active(s, x) {}
    assert Leased(s.leases, job.id) ==> Active(t, job.id);
  }

  lemma NoSelfDependency(env: Env, s: State, job: Job)
    requires Accepted(env, s, job)
    ensures job.id !in job.deps
  {
    if job.id in job.deps {
      var p := [job.id, job.id];
      assert p[0] == p[|p| - 1];
      assert Graph.Lasso(DepGraph(s.jobs)[job.id := job.deps], job.id, p);
    }
  }

  // ----- cancellation -----

  /** `y` waits for `id`: a chain of dependencies leads from `y` to `id` through unfinished jobs. */
  ghost predicate WaitChain(jobs: map<Id, Job>, y: Id, id: Id, p: seq<Id>) {
    && Graph.Path(DepGraph(jobs), p) && p[0] == y && p[|p| - 1] == id
    && forall k :: 0 <= k < |p| ==> p[k] in jobs && !jobs[p[k]].status.Terminal()
  }

  ghost predicate WaitsFor(jobs: map<Id, Job>, y: Id, id: Id) {
    exists p :: WaitChain(jobs, y, id, p)
  }

  lemma ChainLonger(jobs: map<Id, Job>, b: Id, a: Id, id: Id)
    requires WaitsFor(jobs, a, id) && b in jobs && !jobs[b].status.Terminal() && a in jobs[b].deps
    ensures WaitsFor(jobs, b, id)
  {
    var p :| WaitChain(jobs, a, id, p);
    var q := [b] + p;
    forall i | 0 <= i < |q| - 1 ensures q[i + 1] in Graph.Next(DepGraph(jobs), q[i]) {
      if i > 0 { assert q[i] == p[i - 1] && q[i + 1] == p[i - 1 + 1]; }
    }
    assert WaitChain(jobs, b, id, q);
  }

  lemma {:induction false} ChainIsDownstream(env: Env, s: State, y: Id, id: Id, p: seq<Id>, k: nat, todo: set<Id>)
    requires Partial(env, s, {}, todo) && WaitChain(s.jobs, y, id, p) && k < |p|
    ensures p[k] in Downstream(s.rev, id)
    decreases |p| - k
  {
    if k == |p| - 1 {
      DownstreamRoot(s.rev, id);
    } else {
      ChainIsDownstream(env, s, y, id, p, k + 1, todo);
      assert p[k + 1] in s.jobs[p[k]].deps && !Done(s.jobs, p[k + 1]);
      assert p[k] in Dependents(s.rev, p[k + 1]);
      DownstreamClosed(s.rev, id, p[k + 1], p[k]);
    }
  }

  /** In reachable states the index reaches exactly the unfinished jobs that wait for `id`. */
  lemma DownstreamIsWaiting(env: Env, s: State, id: Id, y: Id, todo: set<Id>)
    requires Partial(env, s, {}, todo) && id in s.jobs && !s.jobs[id].status.Terminal()
    ensures y in Downstream(s.rev, id) <==> WaitsFor(s.jobs, y, id)
  {
    var S := set x | x in s.jobs && WaitsFor(s.jobs, x, id);
    assert WaitChain(s.jobs, id, id, [id]);
    forall a, b | a in S && b in Dependents(s.rev, a) ensures b in S {
      assert EdgeOk(s.jobs, {}, a, b);
      ChainLonger(s.jobs, b, a, id);
    }
    DownstreamLeast(s.rev, id, S);
    if WaitsFor(s.jobs, y, id) {
      var p :| WaitChain(s.jobs, y, id, p);
      ChainIsDownstream(env, s, y, id, p, 0, todo);
    }
  }

  /** Canceling a job cancels exactly the unfinished jobs that wait for it, directly or through
      others; apart from the job itself they were all waiting. */
  lemma CancelIsExact(env: Env, s: State, id: Id, y: Id)
    requires Inv(env, s) && s.leader && id != "" && id in s.jobs && !s.jobs[id].status.Terminal() && y in s.jobs
    ensures y in Cancel(s, id).jobs
    ensures Cancel(s, id).jobs[y] == if WaitsFor(s.jobs, y, id) then s.jobs[y].(status := Canceled) else s.jobs[y]
    ensures WaitsFor(s.jobs, y, id) && y != id ==> s.jobs[y].status.Pending?
  {
    var u := Put(s, s.jobs[id].(status := Canceled)).(ready := s.ready - {id});
    assert s.jobs[id].id == id by { assert JobOk(env, s.clock, id, s.jobs[id]); }
    DownstreamIsWaiting(env, s, id, y, {});
    DownstreamRoot(s.rev, id);
    CancelOneKeeps(env, s, id);
    VictimsWait(u, id);
    assert Cancel(s, id) == Cascade(u, id);
  }

  lemma DownstreamOfRoot(rev: map<Id, set<Id>>, id: Id)
    ensures Downstream(Without(rev, {id}), id) == Downstream(rev, id)
  {
    var less := Without(rev, {id});
    assert forall d :: Dependents(less, d) == Dependents(rev, d) - {id};
    DownstreamRoot(rev, id);
    DownstreamRoot(less, id);
    forall a, b | a in Downstream(less, id) && b in Dependents(rev, a) ensures b in Downstream(less, id) {
      if b != id { DownstreamClosed(less, id, a, b); }
    }
    forall a, b | a in Downstream(rev, id) && b in Dependents(less, a) ensures b in Downstream(rev, id) {
      DownstreamClosed(rev, id, a, b);
    }
    DownstreamLeast(rev, id, Downstream(less, id));
    DownstreamLeast(less, id, Downstream(rev, id));
  }

  lemma BuryIsExact(env: Env, s: State, id: Id, y: Id)
    requires Partial(env, s, {}, {}) && id in s.jobs && s.jobs[id].status.Running? && y in s.jobs
    ensures Bury(s, s.jobs[id]).jobs[y] ==
      if y == id then FailedJob(s.jobs[id])
      else if WaitsFor(s.jobs, y, id) then s.jobs[y].(status := Canceled)
      else s.jobs[y]
  {
    assert s.jobs[id].id == id by { assert JobOk(env, s.clock, id, s.jobs[id]); }
    DownstreamIsWaiting(env, s, id, y, {});
    DownstreamOfRoot(s.rev, id);
  }

  /** A reported failure with no attempt left kills the job and cancels exactly the jobs that
      wait for it. */
  lemma LastFailureIsExact(env: Env, s: State, task: Id, order: seq<Id>, at: int, y: Id)
    requires Inv(env, s) && s.leader && task in s.leases && y in s.jobs
    requires var id := s.leases[task].jobID;
      && id in s.jobs && s.jobs[id].status.Running? && s.jobs[id].attempt >= s.jobs[id].Limit()
        && !CanRearm(env, s.jobs[id])
    ensures var id := s.leases[task].jobID; var t := Report(env, s, task, Failure, order, at);
      && id in t.dead && y in t.jobs
      && t.jobs[y] == if y == id then FailedJob(s.jobs[id])
                      else if WaitsFor(s.jobs, y, id) then s.jobs[y].(status := Canceled)
                      else s.jobs[y]
  {
    var id, u := s.leases[task].jobID, DropLease(s, task);
    assert s.jobs[id].id == id by { assert JobOk(env, s.clock, id, s.jobs[id]); }
    BuryIsExact(env, s, id, y);
    assert Report(env, s, task, Failure, order, at) == Bury(u, u.jobs[id]);
    assert Victims(Buried(u, u.jobs[id]), id) == Victims(Buried(s, s.jobs[id]), id);
  }

  // ----- hope -----

  /** Some waiting job has `id` as its first unmet dependency. */
  ghost predicate FirstAwaited(jobs: map<Id, Job>, id: Id) {
    exists x, k: nat ::
      x in jobs && jobs[x].status.Pending? && FirstUnmet(jobs, jobs[x].deps, k) && jobs[x].deps[k] == id
  }

  /** A waiting job is held up by the new arrival only as its first unmet dependency. */
  lemma HopeAt(a: map<Id, Job>, b: map<Id, Job>, id: Id, x: Id, k: nat)
    requires id !in a && id in b && b == a[id := b[id]] && !Done(b, id)
    requires x in a && FirstUnmet(a, a[x].deps, k) && !Lost(a, a[x].deps[k])
    ensures Judge(b, a[x].deps).Waiting? <==> !(a[x].deps[k] == id && Lost(b, id))
  {
    JudgeByFirstUnmet(b, a[x].deps);
    assert FirstUnmet(b, a[x].deps, k);
  }

  lemma ArrivalKeepsHopeIff(a: map<Id, Job>, b: map<Id, Job>, id: Id)
    requires id !in a && id in b && b == a[id := b[id]] && !Done(b, id)
    requires HopeInv(a, {}) && (b[id].status.Pending? ==> Judge(b, b[id].deps).Waiting?)
    ensures HopeInv(b, {}) <==> !(Lost(b, id) && FirstAwaited(a, id))
  {
    if Lost(b, id) && FirstAwaited(a, id) {
      var x, k: nat :| x in a && a[x].status.Pending? && FirstUnmet(a, a[x].deps, k) && a[x].deps[k] == id;
      HopeAt(a, b, id, x, k);
      assert !Judge(b, b[x].deps).Waiting?;
    } else {
      forall x | x in a && a[x].status.Pending? ensures Judge(b, a[x].deps).Waiting? {
        JudgeByFirstUnmet(a, a[x].deps);
        var k: nat :| FirstUnmet(a, a[x].deps, k);
        HopeAt(a, b, id, x, k);
      }
    }
  }

  /** Right after recovery no waiting job is held up by a lost dependency. A submission keeps it
      so exactly when it is not itself canceled on arrival while some waiting job has it as its
      first unmet dependency: nothing is canceled in its wake. */
  lemma SubmitKeepsHopeIff(env: Env, s: State, job: Job)
    requires Accepted(env, s, job) && job.id !in s.jobs && HopeInv(s.jobs, {})
    ensures HopeInv(Submit(env, s, job).jobs, {}) <==>
      !(Judge(s.jobs, job.deps).Doomed? && FirstAwaited(s.jobs, job.id))
  {
    var t := Submit(env, s, job);
    SubmittedJobs(env, s, job);
    NoSelfDependency(env, s, job);
    JudgeSame(s.jobs, t.jobs, job.deps);
    ArrivalKeepsHopeIff(s.jobs, t.jobs, job.id);
  }

  // ----- inputs on which the two conditions fail -----

  function Bare(id: Id, deps: seq<Id>, status: Status): Job {
    Job(id, "run", 0, deps, Immediate, None, status, 0, "", 0, None, 0)
  }

  /** `a` finished, and `b` is queued behind it. */
  function Behind(a: Id, b: Id): State {
    var j := Bare(b, [a], Queued);
    State(true, 0, map[a := Bare(a, [], Succeeded), b := j], map[], map[], map[b := j.Place()], map[], map[], map[], {})
  }

  lemma BehindIsStored(env: Env, a: Id, b: Id)
    requires a != b
    ensures DiskInv(env, 0, Behind(a, b).Stored())
  {
    var jobs := Behind(a, b).jobs;
    Graph.NumberedIsAcyclic(DepGraph(jobs), map[a := 0, b := 1]);
    assert Done(jobs, a);
  }

  lemma BehindIsOrderly(env: Env, a: Id, b: Id)
    requires a != b
    ensures Inv(env, Behind(a, b))
  {
    BehindIsStored(env, a, b);
  }

  /** Submitting `a` again then leaves `b` queued with a dependency that has not succeeded. */
  lemma ResubmitMayBreakGating(env: Env, a: Id, b: Id) returns (s: State, job: Job)
    requires a != b
    ensures Inv(env, s) && Accepted(env, s, job) && job.id in s.jobs && !AllGated(Submit(env, s, job))
  {
    s, job := Behind(a, b), Bare(a, [], Pending);
    BehindIsOrderly(env, a, b);
    InvIsGated(env, s);
    ResubmitKeepsGatingIff(env, s, job);
    assert b in s.jobs && Active(s, b) && a in s.jobs[b].deps;
  }

  /** `f` is canceled and `x` waits for an `m` not submitted yet. */
  function HeldUp(f: Id, m: Id, x: Id): State {
    State(true, 0, map[f := Bare(f, [], Canceled), x := Bare(x, [m], Pending)],
          map[], map[], map[], map[], map[], map[m := {x}], {})
  }

  lemma HeldUpIsStored(env: Env, f: Id, m: Id, x: Id)
    requires f != m && m != x && f != x
    ensures DiskInv(env, 0, HeldUp(f, m, x).Stored())
  {
    Graph.NumberedIsAcyclic(DepGraph(HeldUp(f, m, x).jobs), map[f := 0, m := 1, x := 2]);
  }

  lemma HeldUpIsOrderly(env: Env, f: Id, m: Id, x: Id)
    requires f != m && m != x && f != x
    ensures Inv(env, HeldUp(f, m, x)) && HopeInv(HeldUp(f, m, x).jobs, {})
  {
    var s := HeldUp(f, m, x);
    HeldUpIsStored(env, f, m, x);
    assert !Done(s.jobs, m) && Judge(s.jobs, [m]).Waiting?;
    assert x in Dependents(s.rev, m);
  }

  /** An `m` that depends on `f` is then canceled on arrival, and `x` goes on waiting for it. */
  lemma SubmitMayBreakHope(env: Env, f: Id, m: Id, x: Id) returns (s: State, job: Job)
    requires f != m && m != x && f != x
    ensures Inv(env, s) && HopeInv(s.jobs, {}) && Accepted(env, s, job) && job.id !in s.jobs
    ensures !HopeInv(Submit(env, s, job).jobs, {})
  {
    s, job := HeldUp(f, m, x), Bare(m, [f], Pending);
    HeldUpIsOrderly(env, f, m, x);
    Graph.NumberedRunsIntoNoCycle(DepGraph(s.jobs)[m := [f]], map[f := 0, m := 1, x := 2], m);
    assert Lost(s.jobs, f) && Judge(s.jobs, [f]).Doomed?;
    assert FirstUnmet(s.jobs, s.jobs[x].deps, 0);
    SubmitKeepsHopeIff(env, s, job);
  }
}
