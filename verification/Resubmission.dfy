/** Runs in which a submission may replace a stored job: the dependency graph stays acyclic, since
    the cycle check looks at the graph with the replacement in it and no other write changes a
    job's dependencies. */
module Resubmission {
  import opened Prelude
  import opened Jobs
  import opened Invariants
  import opened Handlers
  import opened Recovery
  import opened Runs
  import opened Consequences
  import Graph
  import Ordering

  ghost predicate Keyed(jobs: map<Id, Job>) {
    forall id :: id in jobs ==> jobs[id].id == id
  }

  /** The same jobs with the same dependencies, whatever else changed. */
  ghost predicate SameDeps(a: map<Id, Job>, b: map<Id, Job>) {
    b.Keys == a.Keys && forall x :: x in a ==> b[x].id == a[x].id && b[x].deps == a[x].deps
  }

  ghost predicate Orderly(jobs: map<Id, Job>) {
    Keyed(jobs) && Graph.Acyclic(DepGraph(jobs))
  }

  lemma SameDepsOrderly(a: map<Id, Job>, b: map<Id, Job>)
    requires Orderly(a) && SameDeps(a, b)
    ensures Orderly(b)
  {
    assert DepGraph(b) == DepGraph(a);
  }

  // ----- every handler but a submission -----

  lemma PutSameDeps(s: State, j: Job, t: State)
    requires j.id in s.jobs && s.jobs[j.id].id == j.id && s.jobs[j.id].deps == j.deps && t.jobs == s.jobs[j.id := j]
    ensures SameDeps(s.jobs, t.jobs)
  {}

  lemma FailSameDeps(env: Env, s: State, job: Job, at: int)
    requires job.id in s.jobs && s.jobs[job.id].id == job.id && s.jobs[job.id].deps == job.deps
    ensures SameDeps(s.jobs, Fail(env, s, job, at).jobs)
  {
    var t := Fail(env, s, job, at);
    if job.attempt < job.Limit() {
      PutSameDeps(s, RetriedJob(job, at), t);
    } else if CanRearm(env, job) {
      PutSameDeps(s, Rearmed(job, env.next(job.schedule.expr, s.clock)), t);
    } else {
      PutSameDeps(s, FailedJob(job), Buried(s, job));
      assert SameDeps(Buried(s, job).jobs, t.jobs);
    }
  }

  lemma TryPromoteSameDeps(env: Env, s: State, id: Id)
    requires Keyed(s.jobs)
    ensures SameDeps(s.jobs, TryPromote(env, s, id).jobs)
  {
    if id in s.jobs && s.jobs[id].status.Pending? {
      match Judge(s.jobs, s.jobs[id].deps)
      case Doomed(_) => assert TryPromote(env, s, id) == Cascade(s, id);
      case Waiting =>
      case Ready => PutSameDeps(s, ReadyJob(env, s.jobs[id], s.clock), Promote(env, s, s.jobs[id]));
    }
  }

  lemma {:induction false} PromoteAllSameDeps(env: Env, s: State, ids: seq<Id>)
    requires Keyed(s.jobs)
    ensures SameDeps(s.jobs, PromoteAll(env, s, ids).jobs)
  {
    if ids != [] {
      PromoteAllSameDeps(env, s, ids[..|ids| - 1]);
      TryPromoteSameDeps(env, PromoteAll(env, s, ids[..|ids| - 1]), ids[|ids| - 1]);
    }
  }

  lemma SucceedSameDeps(env: Env, s: State, id: Id, order: seq<Id>)
    requires Keyed(s.jobs) && id in s.jobs
    ensures SameDeps(s.jobs, Succeed(env, s, id, order).jobs)
  {
    var job := s.jobs[id];
    if CanRearm(env, job) {
      PutSameDeps(s, Rearmed(job, env.next(job.schedule.expr, s.clock)), Succeed(env, s, id, order));
    } else {
      PutSameDeps(s, FinishedJob(job), Finished(s, job));
      PromoteAllSameDeps(env, Finished(s, job), order);
    }
  }

  lemma ReportSameDeps(env: Env, s: State, task: Id, outcome: Outcome, order: seq<Id>, at: int)
    requires Keyed(s.jobs)
    ensures SameDeps(s.jobs, Report(env, s, task, outcome, order, at).jobs)
  {
    var t := Report(env, s, task, outcome, order, at);
    if s.leader && task in s.leases && s.leases[task].jobID in s.jobs && s.jobs[s.leases[task].jobID].status.Running? {
      var id, u := s.leases[task].jobID, DropLease(s, task);
      match outcome
      case Success =>
        assert t == Succeed(env, u, id, order);
        SucceedSameDeps(env, u, id, order);
      case Failure =>
        assert t == Fail(env, u, s.jobs[id], at);
        FailSameDeps(env, u, s.jobs[id], at);
      case Unspecified =>
    }
  }

  lemma {:induction false} RequeueAllSameDeps(env: Env, s: State, tasks: seq<Id>, times: map<Id, int>)
    requires Keyed(s.jobs)
    ensures SameDeps(s.jobs, RequeueAll(env, s, tasks, times).jobs)
  {
    if tasks != [] {
      var init, last := tasks[..|tasks| - 1], tasks[|tasks| - 1];
      RequeueAllSameDeps(env, s, init, times);
      var t := RequeueAll(env, s, init, times);
      if last in t.leases && t.leases[last].jobID in t.jobs {
        FailSameDeps(env, DropLease(t, last), t.jobs[t.leases[last].jobID], RetryAt(times, last));
      }
    }
  }

  lemma {:induction false} PollLoopSameDeps(env: Env, s: State, worker: Id, tasks: seq<Id>)
    requires Keyed(s.jobs)
    ensures SameDeps(s.jobs, PollLoop(env, s, worker, tasks).state.jobs)
    decreases |s.ready|
  {
    if tasks != [] && s.ready != map[] {
      var id := Ordering.First(s.ready);
      var t := s.(ready := s.ready - {id});
      PopShrinks(s.ready, id);
      if id in s.jobs && s.jobs[id].status.Queued? {
        PutSameDeps(s, Dispatched(s.jobs[id], worker, s.clock), Dispatch(env, t, id, worker, tasks[0]));
        PollLoopSameDeps(env, Dispatch(env, t, id, worker, tasks[0]), worker, tasks[1..]);
      } else {
        PollLoopSameDeps(env, t, worker, tasks);
      }
    }
  }

  lemma CancelSameDeps(s: State, id: Id)
    requires Keyed(s.jobs)
    ensures SameDeps(s.jobs, Cancel(s, id).jobs)
  {}

  lemma {:induction false} RecoverAllSameDeps(env: Env, s: State, snap: map<Id, Job>, ids: seq<Id>, times: map<Id, int>)
    requires Keyed(snap) && SameDeps(snap, s.jobs) && forall id :: id in ids ==> id in snap
    ensures SameDeps(snap, RecoverAll(env, s, snap, ids, times).jobs)
  {
    if ids != [] {
      var init, last := ids[..|ids| - 1], ids[|ids| - 1];
      RecoverAllSameDeps(env, s, snap, init, times);
      var t := RecoverAll(env, s, snap, init, times);
      RecoverSameDeps(env, t, snap[last], RetryAt(times, last));
    }
  }

  lemma RecoverSameDeps(env: Env, s: State, job: Job, at: int)
    requires job.id in s.jobs && s.jobs[job.id].id == job.id && s.jobs[job.id].deps == job.deps
    ensures SameDeps(s.jobs, Recover(env, s, job, at).jobs)
  {
    if job.status.Running? {
      assert Recover(env, s, job, at) == Fail(env, Indexed(s, job), job, at);
      FailSameDeps(env, Indexed(s, job), job, at);
    }
  }

  lemma LeadSameDeps(env: Env, s: State, ids: seq<Id>, times: map<Id, int>)
    requires Keyed(s.jobs) && forall id :: id in ids ==> id in s.jobs
    ensures SameDeps(s.jobs, Lead(env, s, ids, times).jobs)
  {
    var c := Cleared(s).(leader := true);
    RecoverAllSameDeps(env, c, s.jobs, ids, times);
    PromoteAllSameDeps(env, RecoverAll(env, c, s.jobs, ids, times), PendingOf(s.jobs, ids));
  }

  lemma ReapSameDeps(env: Env, s: State, orphans: seq<Id>, overdue: seq<Id>, times: map<Id, int>)
    requires Keyed(s.jobs)
    ensures SameDeps(s.jobs, Reap(env, s, orphans, overdue, times).jobs)
  {
    var t := SweepWorkers(env, s);
    RequeueAllSameDeps(env, t, orphans, times);
    RequeueAllSameDeps(env, RequeueAll(env, t, orphans, times), overdue, times);
  }

  lemma DiskIsOrderly(env: Env, s: State)
    requires DiskInv(env, s.clock, s.Stored())
    ensures Orderly(s.jobs)
  {
    forall id | id in s.jobs ensures s.jobs[id].id == id { assert JobOk(env, s.clock, id, s.jobs[id]); }
  }

  // ----- runs -----

  /** A single write as far as dependencies go: a stored job keeps its own, or a submission, new or
      replacing, has passed the cycle check. */
  ghost predicate Written(d: Disk, e: Disk) {
    e.jobs == d.jobs || exists j: Job :: (KeepsDeps(d, j) || PassesCheck(d, j)) && e.jobs == d.jobs[j.id := j]
  }

  ghost predicate KeepsDeps(d: Disk, j: Job) {
    j.id in d.jobs && d.jobs[j.id].deps == j.deps
  }

  ghost predicate PassesCheck(d: Disk, j: Job) {
    !(j.deps != [] && Graph.RunsIntoCycle(DepGraph(d.jobs)[j.id := j.deps], j.id))
  }

  ghost predicate WrittenTrail(ds: seq<Disk>) {
    ds != [] && forall i :: 0 <= i < |ds| - 1 ==> Written(ds[i], ds[i + 1])
  }

  /** As in Runs, except that a submission may carry any ID, also one already stored. */
  ghost predicate MayHappen(env: Env, s: State, e: Event) {
    match e
    case Submitted(_) => true
    case Crashed(trail) => WrittenTrail(trail) && trail[0] == s.Stored()
    case _ => Enabled(env, s, e)
  }

  ghost function After(env: Env, s: State, e: Event): State
    requires MayHappen(env, s, e)
  {
    match e
    case Submitted(job) => Submit(env, s, job)
    case Crashed(trail) => Restarted(s, trail[|trail| - 1])
    case _ => Step(env, s, e)
  }

  ghost predicate Happens(env: Env, s: State, e: Event, t: State) {
    MayHappen(env, s, e) && t == After(env, s, e)
  }

  ghost predicate AnyRun(env: Env, ss: seq<State>, es: seq<Event>) {
    && |ss| == |es| + 1 && Init(env, ss[0])
    && forall i :: 0 <= i < |es| ==> Happens(env, ss[i], es[i], ss[i + 1])
  }

  lemma CheckKeepsOrder(d: Disk, j: Job)
    requires Orderly(d.jobs) && PassesCheck(d, j)
    ensures Orderly(d.jobs[j.id := j])
  {
    assert DepGraph(d.jobs[j.id := j]) == DepGraph(d.jobs)[j.id := j.deps];
    Graph.NewCyclesPassThrough(DepGraph(d.jobs), j.id, j.deps);
    if j.deps == [] { Graph.NoEdgesNoCycle(DepGraph(d.jobs)[j.id := j.deps], j.id); }
  }

  lemma {:induction false} WritesKeepOrder(ds: seq<Disk>, i: nat)
    requires WrittenTrail(ds) && i < |ds| && Orderly(ds[0].jobs)
    ensures Orderly(ds[i].jobs)
  {
    if i > 0 {
      WritesKeepOrder(ds, i - 1);
      assert Written(ds[i - 1], ds[i - 1 + 1]);
      var d := ds[i - 1];
      if ds[i].jobs != d.jobs {
        var j: Job :| (KeepsDeps(d, j) || PassesCheck(d, j)) && ds[i].jobs == d.jobs[j.id := j];
        if PassesCheck(d, j) { CheckKeepsOrder(d, j); } else { SameDepsOrderly(d.jobs, ds[i].jobs); }
      }
    }
  }

  lemma SubmitKeepsOrder(env: Env, s: State, job: Job)
    requires Orderly(s.jobs)
    ensures Orderly(Submit(env, s, job).jobs)
  {
    if Accepted(env, s, job) {
      SubmittedJobs(env, s, job);
      CheckKeepsOrder(s.Stored(), PlacedJob(env, s.jobs, Fresh(job, s.clock), s.clock));
    }
  }

  lemma EventKeepsOrder(env: Env, s: State, e: Event)
    requires Orderly(s.jobs) && MayHappen(env, s, e)
    ensures Orderly(After(env, s, e).jobs)
  {
    var t := After(env, s, e);
    match e
    case Submitted(job) => SubmitKeepsOrder(env, s, job);
    case Crashed(trail) => WritesKeepOrder(trail, |trail| - 1);
    case CancelAsked(id) => CancelSameDeps(s, id); SameDepsOrderly(s.jobs, t.jobs);
    case PolledBy(worker, _, tasks) =>
      PollLoopSameDeps(env, s, worker, tasks);
      SameDepsOrderly(s.jobs, t.jobs);
    case Reported(task, outcome, order, at) =>
      ReportSameDeps(env, s, task, outcome, order, at);
      SameDepsOrderly(s.jobs, t.jobs);
    case SweptOnce(orphans, overdue, times) =>
      ReapSameDeps(env, s, orphans, overdue, times);
      SameDepsOrderly(s.jobs, t.jobs);
    case TookLead(ids, times) =>
      assert forall id :: id in ids ==> id in Elems(ids);
      LeadSameDeps(env, s, ids, times);
      SameDepsOrderly(s.jobs, t.jobs);
    case _ =>
  }

  /** In every state of every run, submissions that replace an ID and crashes included, the stored
      dependency graph is acyclic. */
  lemma {:induction false} AlwaysAcyclic(env: Env, ss: seq<State>, es: seq<Event>, i: nat)
    requires AnyRun(env, ss, es) && i < |ss|
    ensures Orderly(ss[i].jobs)
  {
    if i == 0 {
      DiskIsOrderly(env, ss[0]);
    } else {
      AlwaysAcyclic(env, ss, es, i - 1);
      assert Happens(env, ss[i - 1], es[i - 1], ss[i - 1 + 1]);
      EventKeepsOrder(env, ss[i - 1], es[i - 1]);
    }
  }

  // ----- replacing a job in an orderly state -----

  /** A finished job that has left neither a lease nor a timer behind. */
  ghost predicate Gone(s: State, id: Id) {
    id in s.jobs && s.jobs[id].status.Terminal() && !Leased(s.leases, id) && id !in s.timers
  }

  function Forgotten(s: State, id: Id): State {
    s.(jobs := s.jobs - {id})
  }

  lemma ForgottenKeepsDisk(env: Env, s: State, id: Id)
    requires DiskInv(env, s.clock, s.Stored()) && !Relied(s, id)
    ensures DiskInv(env, s.clock, Forgotten(s, id).Stored())
  {
    var jobs := s.jobs - {id};
    assert DepGraph(jobs) == DepGraph(s.jobs) - {id};
    Graph.FewerNodesNoCycle(DepGraph(s.jobs), id);
    forall x | x in jobs && (jobs[x].status.Queued? || jobs[x].status.Running?) ensures AllDone(jobs, jobs[x].deps) {
      assert Active(s, x) && AllDone(s.jobs, s.jobs[x].deps);
    }
  }

  lemma ForgottenKeepsPlaces(env: Env, s: State, id: Id)
    requires MemInv(env, s, {}, {}) && Gone(s, id) && !Relied(s, id)
    ensures var t := Forgotten(s, id);
      QueueInv(t.jobs, t.clock, t.ready, t.timers, {}) && LeaseInv(env, t.jobs, t.leases, {})
  {
    var t := Forgotten(s, id);
    forall x | x in s.ready ensures ReadyOk(t.jobs, t.clock, {}, x, t.ready[x]) {
      assert ReadyOk(s.jobs, s.clock, {}, x, s.ready[x]);
    }
    forall x | x in s.timers ensures TimerOk(t.jobs, t.clock, {}, x, t.timers[x]) {
      assert TimerOk(s.jobs, s.clock, {}, x, s.timers[x]);
    }
    forall k | k in s.leases ensures LeaseOk(env, t.jobs, {}, t.leases[k]) {
      assert LeaseOk(env, s.jobs, {}, s.leases[k]);
      var x := s.leases[k].jobID;
      assert x != id && Active(s, x);
    }
  }

  lemma ForgottenKeepsIndex(s: State, id: Id)
    requires IndexSound(s.jobs, s.rev, {}) && IndexComplete(s.jobs, s.rev, {}) && WakeInv(s.jobs, {})
    requires id in s.jobs && s.jobs[id].status.Terminal()
    ensures var t := Forgotten(s, id);
      IndexSound(t.jobs, t.rev, {}) && IndexComplete(t.jobs, t.rev, {}) && WakeInv(t.jobs, {})
  {
    var t := Forgotten(s, id);
    forall d, x | d in t.rev && x in t.rev[d] ensures EdgeOk(t.jobs, {}, d, x) { assert EdgeOk(s.jobs, {}, d, x); }
    forall x | x in t.jobs && t.jobs[x].status.Pending? ensures !AllDone(t.jobs, t.jobs[x].deps) {
      var d :| d in s.jobs[x].deps && !Done(s.jobs, d);
      assert !Done(t.jobs, d);
    }
  }

  /** A submission does not look at the job it replaces. */
  lemma SubmitForgets(env: Env, s: State, job: Job)
    requires Accepted(env, s, job)
    ensures Accepted(env, Forgotten(s, job.id), job) && Submit(env, Forgotten(s, job.id), job) == Submit(env, s, job)
  {
    var t, j := Forgotten(s, job.id), Fresh(job, s.clock);
    assert DepGraph(t.jobs)[job.id := job.deps] == DepGraph(s.jobs)[job.id := job.deps];
    NoSelfDependency(env, s, job);
    JudgeSame(s.jobs, t.jobs, job.deps);
    assert PlaceNew(env, t, j) == PlaceNew(env, s, j) by {
      var r := PlacedJob(env, s.jobs, j, s.clock);
      assert t.jobs[r.id := r] == s.jobs[r.id := r];
    }
  }

  /** Replacing a finished job that has left nothing behind keeps the whole invariant exactly when
      no other active job depends on it. */
  lemma ResubmitKeepsInvIff(env: Env, s: State, job: Job)
    requires Inv(env, s) && Accepted(env, s, job) && Gone(s, job.id)
    ensures Inv(env, Submit(env, s, job)) <==> !Relied(s, job.id)
  {
    InvIsGated(env, s);
    ResubmitKeepsGatingIff(env, s, job);
    if Inv(env, Submit(env, s, job)) { InvIsGated(env, Submit(env, s, job)); }
    if !Relied(s, job.id) {
      ForgottenKeepsDisk(env, s, job.id);
      ForgottenKeepsPlaces(env, s, job.id);
      ForgottenKeepsIndex(s, job.id);
      SubmitForgets(env, s, job);
      SubmitKeeps(env, Forgotten(s, job.id), job);
    }
  }

  /** Replacing a job whose task is still leased always breaks it: the lease is then of a job that
      is queued or waiting, or canceled behind a dependency that has not succeeded. */
  lemma ResubmitLeasedBreaks(env: Env, s: State, job: Job)
    requires Inv(env, s) && Accepted(env, s, job) && job.id in s.jobs && Leased(s.leases, job.id)
    ensures !Inv(env, Submit(env, s, job))
  {
    var t := Submit(env, s, job);
    SubmittedJobs(env, s, job);
    NoSelfDependency(env, s, job);
    JudgeByFirstUnmet(s.jobs, job.deps);
    var k :| k in s.leases && s.leases[k].jobID == job.id;
    assert AllDone(t.jobs, job.deps) <==> AllDone(s.jobs, job.deps);
    assert !LeaseOk(env, t.jobs, {}, t.leases[k]);
  }
}
