/** Which events put a job into the queue ahead of the time on its record. A submission may carry
    such a time, and becoming ready does not wait for it. */
module Presets {
  import opened Prelude
  import opened Jobs
  import opened Invariants
  import opened Preservation
  import opened Handlers
  import opened Recovery
  import opened Runs
  import opened Consequences
  import opened Wakeups
  import opened RecoveryOrder
  import opened Timeliness
  import Guarantees
  import Ordering

  // ----- what leaves the queue or enters it by the scheduler's own time -----

  /** Nothing new is in the queue. */
  lemma FewerOnRecord(s: State, t: State)
    requires OnRecord(s) && s.clock <= t.clock && t.ready.Keys <= s.ready.Keys
    requires forall id :: id in t.ready && id in t.jobs ==> id in s.jobs && t.jobs[id] == s.jobs[id]
    ensures OnRecord(t)
  {}

  lemma ArmOnRecord(s: State, j: Job, at: int)
    requires OnRecord(s) && j.id !in s.ready && j.scheduledAt == Some(at)
    ensures OnRecord(Arm(Put(s, j), j.id, at))
  {
    var t := Arm(Put(s, j), j.id, at);
    forall id | id in t.ready && id in t.jobs ensures OnTime(t.jobs[id], t.clock) {}
  }

  lemma CascadeOnRecord(s: State, root: Id)
    requires OnRecord(s)
    ensures OnRecord(Cascade(s, root))
  {
    FewerOnRecord(s, Cascade(s, root));
  }

  lemma FailOnRecord(env: Env, s: State, job: Job, at: int)
    requires OnRecord(s) && job.id !in s.ready
    ensures OnRecord(Fail(env, s, job, at))
  {
    if job.attempt < job.Limit() {
      assert Fail(env, s, job, at) == Requeued(s, job, at);
      ArmOnRecord(s, RetriedJob(job, at), at);
    } else if CanRearm(env, job) {
      var next := env.next(job.schedule.expr, s.clock);
      assert Fail(env, s, job, at) == Rearm(env, s, job);
      ArmOnRecord(s, Rearmed(job, next), next);
    } else {
      var u := Buried(s, job);
      assert Fail(env, s, job, at) == Cascade(u, job.id);
      FewerOnRecord(s, u);
      CascadeOnRecord(u, job.id);
    }
  }

  lemma RunningNotReady(env: Env, s: State, id: Id, raw: set<Id>, todo: set<Id>)
    requires Partial(env, s, raw, todo) && id in s.jobs && s.jobs[id].status.Running?
    ensures id !in s.ready && s.jobs[id].id == id
  {
    assert id in s.ready ==> ReadyOk(s.jobs, s.clock, raw, id, s.ready[id]);
    assert JobOk(env, s.clock, id, s.jobs[id]);
  }

  lemma RequeueOnRecord(env: Env, s: State, task: Id, at: int)
    requires Partial(env, s, {}, {}) && OnRecord(s)
    ensures OnRecord(Requeue(env, s, task, at))
  {
    if task in s.leases && s.leases[task].jobID in s.jobs && s.jobs[s.leases[task].jobID].status.Running? {
      var id := s.leases[task].jobID;
      RunningNotReady(env, s, id, {}, {});
      FailOnRecord(env, DropLease(s, task), s.jobs[id], at);
    }
  }

  lemma {:induction false} RequeueAllOnRecord(env: Env, s: State, tasks: seq<Id>, times: map<Id, int>)
    requires Partial(env, s, {}, {}) && OnRecord(s)
    ensures OnRecord(RequeueAll(env, s, tasks, times))
  {
    if tasks != [] {
      var init, last := tasks[..|tasks| - 1], tasks[|tasks| - 1];
      RequeueAllKeeps(env, s, init, times);
      RequeueAllOnRecord(env, s, init, times);
      RequeueOnRecord(env, RequeueAll(env, s, init, times), last, RetryAt(times, last));
    }
  }

  lemma ReapOnRecord(env: Env, s: State, orphans: seq<Id>, overdue: seq<Id>, times: map<Id, int>)
    requires Inv(env, s) && OnRecord(s)
    ensures OnRecord(Reap(env, s, orphans, overdue, times))
  {
    if s.leader {
      var t := SweepWorkers(env, s);
      assert Partial(env, t, {}, {});
      RequeueAllOnRecord(env, t, orphans, times);
      RequeueAllKeeps(env, t, orphans, times);
      RequeueAllOnRecord(env, RequeueAll(env, t, orphans, times), overdue, times);
    }
  }

  lemma CancelOnRecord(env: Env, s: State, id: Id)
    requires Inv(env, s) && OnRecord(s)
    ensures OnRecord(Cancel(s, id))
  {
    if s.leader && id != "" && id in s.jobs && !s.jobs[id].status.Terminal() {
      assert s.jobs[id].id == id by { assert JobOk(env, s.clock, id, s.jobs[id]); }
      var u := Put(s, s.jobs[id].(status := Canceled)).(ready := s.ready - {id});
      FewerOnRecord(s, u);
      CascadeOnRecord(u, id);
    }
  }

  lemma DispatchOnRecord(env: Env, s: State, id: Id, worker: Id, task: Id)
    requires OnRecord(s) && id in s.jobs && s.jobs[id].id == id
    ensures OnRecord(Dispatch(env, s.(ready := s.ready - {id}), id, worker, task))
  {
    FewerOnRecord(s, Dispatch(env, s.(ready := s.ready - {id}), id, worker, task));
  }

  lemma {:induction false} PollLoopOnRecord(env: Env, s: State, worker: Id, tasks: seq<Id>)
    requires Partial(env, s, {}, {}) && FreshTasks(s.issued, tasks) && OnRecord(s)
    ensures OnRecord(PollLoop(env, s, worker, tasks).state)
    decreases |tasks|
  {
    if tasks != [] && s.ready != map[] {
      var id := Ordering.First(s.ready);
      Guarantees.PollNext(env, s, worker, tasks);
      PollUnfold(env, s, worker, tasks);
      DispatchOnRecord(env, s, id, worker, tasks[0]);
      PollLoopOnRecord(env, LeaseFirst(env, s, worker, tasks[0]), worker, tasks[1..]);
    }
  }

  lemma FireOnRecord(env: Env, s: State, id: Id)
    requires Inv(env, s) && OnRecord(s) && id in s.timers && s.timers[id] <= s.clock
    ensures OnRecord(Fire(s, id))
  {
    if s.leader {
      assert TimerOk(s.jobs, s.clock, {}, id, s.timers[id]);
      var t := Fire(s, id);
      forall x | x in t.ready && x in t.jobs ensures OnTime(t.jobs[x], t.clock) {}
    }
  }

  // ----- jobs that become ready -----

  lemma ReadyOnRecordIff(env: Env, s: State, job: Job)
    requires s.leader && job.id !in s.ready
    ensures OnRecord(MakeReady(env, s, job)) <==> OnRecord(s) && !Preset(env, s.clock, job)
  {
    var t := MakeReady(env, s, job);
    assert t.jobs[job.id] == ReadyJob(env, job, s.clock);
    assert forall id :: id in s.ready && id in s.jobs ==> id in t.ready && t.jobs[id] == s.jobs[id];
  }

  lemma PlacedOnRecord(env: Env, s: State, job: Job)
    requires job.id !in s.ready && OnRecord(s) && !Judge(s.jobs, job.deps).Ready?
    ensures OnRecord(PlaceNew(env, s, job))
  {
    var t, j := PlaceNew(env, s, job), PlacedJob(env, s.jobs, job, s.clock);
    match Judge(s.jobs, job.deps)
    case Doomed(_) => assert t == Put(s, j);
    case Waiting => assert t == Indexed(Put(s, j), job);
  }

  lemma SubmitOnRecordIff(env: Env, s: State, job: Job)
    requires Inv(env, s) && Accepted(env, s, job) && job.id !in s.jobs && OnRecord(s)
    ensures OnRecord(Submit(env, s, job)) <==> !(Judge(s.jobs, job.deps).Ready? && Preset(env, s.clock, job))
  {
    var j := Fresh(job, s.clock);
    assert job.id in s.ready ==> ReadyOk(s.jobs, s.clock, {}, job.id, s.ready[job.id]);
    assert Submit(env, s, job) == PlaceNew(env, s, j);
    if Judge(s.jobs, job.deps).Ready? {
      assert PlaceNew(env, s, j) == MakeReady(env, s, j);
      ReadyOnRecordIff(env, s, j);
    } else {
      PlacedOnRecord(env, s, j);
    }
  }

  /** `x` has nothing left to wait for, and a time of its own. */
  ghost predicate EarlyIn(env: Env, jobs: map<Id, Job>, clock: int, x: Id) {
    Wakes(jobs, x) && Preset(env, clock, jobs[x])
  }

  /** A cascade reaches nothing in the queue. */
  lemma CascadeKeepsReady(env: Env, s: State, x: Id, todo: set<Id>)
    requires Partial(env, s, {}, todo) && x in s.jobs && s.jobs[x].status.Pending?
    ensures var t := Cascade(s, x);
      t.ready == s.ready && forall id :: id in s.ready ==> id in s.jobs && t.jobs[id] == s.jobs[id]
  {
    WeakenSound(s.jobs, s.rev, {x});
    VictimsWait(s, x);
    forall id | id in s.ready ensures id in s.jobs && id !in Victims(s, x) {
      assert ReadyOk(s.jobs, s.clock, {}, id, s.ready[id]);
    }
  }

  lemma TryPromoteOnRecordIff(env: Env, s: State, x: Id, todo: set<Id>)
    requires Partial(env, s, {}, todo)
    ensures OnRecord(TryPromote(env, s, x)) <==> OnRecord(s) && !EarlyIn(env, s.jobs, s.clock, x)
  {
    if x in s.jobs && s.jobs[x].status.Pending? {
      match Judge(s.jobs, s.jobs[x].deps)
      case Doomed(_) =>
        assert TryPromote(env, s, x) == Cascade(s, x);
        CascadeKeepsReady(env, s, x, todo);
      case Waiting =>
      case Ready =>
        PendingNotReady(env, s, x, todo);
        assert TryPromote(env, s, x) == Promote(env, s, s.jobs[x]);
        ReadyOnRecordIff(env, s, s.jobs[x]);
    }
  }

  lemma PendingNotReady(env: Env, s: State, x: Id, todo: set<Id>)
    requires Partial(env, s, {}, todo) && x in s.jobs && s.jobs[x].status.Pending?
    ensures x !in s.ready && s.jobs[x].id == x
  {
    assert x in s.ready ==> ReadyOk(s.jobs, s.clock, {}, x, s.ready[x]);
    assert JobOk(env, s.clock, x, s.jobs[x]);
  }

  ghost predicate EarlyAmong(env: Env, jobs: map<Id, Job>, clock: int, m: set<Id>) {
    exists x :: x in m && EarlyIn(env, jobs, clock, x)
  }

  /** A job not re-evaluated yet is early exactly if it was at the start. */
  lemma EarlyAlike(env: Env, jobs: map<Id, Job>, m: set<Id>, clock: int, x: Id)
    requires Gated(jobs) && x !in m
    ensures EarlyIn(env, Woken(env, jobs, m, clock), clock, x) <==> EarlyIn(env, jobs, clock, x)
  {
    if Fallen(jobs, m, x) {
      FallenWaits(jobs, m, x);
    } else if x in jobs && jobs[x].status.Pending? {
      JudgedAlike(env, jobs, m, clock, x);
    }
  }

  lemma {:induction false} PromoteAllOnRecordIff(env: Env, s: State, ids: seq<Id>, todo: set<Id>)
    requires Partial(env, s, {}, todo)
    ensures OnRecord(PromoteAll(env, s, ids)) <==> OnRecord(s) && !EarlyAmong(env, s.jobs, s.clock, Elems(ids))
  {
    if ids != [] {
      var init, last := ids[..|ids| - 1], ids[|ids| - 1];
      var v := PromoteAll(env, s, init);
      Snoc(ids);
      PromoteAllOnRecordIff(env, s, init, todo);
      PromoteAllKeeps(env, s, init, todo);
      PromoteAllIsWoken(env, s, init, todo);
      TryPromoteOnRecordIff(env, v, last, todo - Elems(init));
      if last in Elems(init) {
        WokenOnce(env, s.jobs, Elems(init), s.clock, last);
      } else {
        EarlyAlike(env, s.jobs, Elems(init), s.clock, last);
      }
    }
  }

  lemma WokenOnce(env: Env, jobs: map<Id, Job>, m: set<Id>, clock: int, x: Id)
    requires x in m && Gated(jobs)
    ensures !EarlyIn(env, Woken(env, jobs, m, clock), clock, x)
  {
    if Fallen(jobs, m, x) {
      FallenWaits(jobs, m, x);
    } else if x in jobs && jobs[x].status.Pending? {
      JudgedAlike(env, jobs, m, clock, x);
    }
  }

  /** Some waiting job has nothing left to wait for, and a time of its own. */
  ghost predicate WakesEarly(env: Env, jobs: map<Id, Job>, clock: int) {
    exists x :: EarlyIn(env, jobs, clock, x)
  }

  lemma SucceedOnRecordIff(env: Env, s: State, id: Id, order: seq<Id>)
    requires Partial(env, s, {id}, {}) && id in s.jobs && s.jobs[id].status.Running? && OnRecord(s)
    requires Lists(order, Dependents(Without(s.rev, {id}), id))
    ensures OnRecord(Succeed(env, s, id, order)) <==>
      (CanRearm(env, s.jobs[id]) || !WakesEarly(env, s.jobs[id := FinishedJob(s.jobs[id])], s.clock))
  {
    var job := s.jobs[id];
    RunningNotReady(env, s, id, {id}, {});
    if CanRearm(env, job) {
      var next := env.next(job.schedule.expr, s.clock);
      assert Succeed(env, s, id, order) == Rearm(env, s, job);
      ArmOnRecord(s, Rearmed(job, next), next);
    } else {
      var u := Finished(s, job);
      FewerOnRecord(s, u);
      NotOwnDependent(s.jobs, s.rev, id);
      FinishedKeeps(env, s, id);
      PromoteAllOnRecordIff(env, u, order, Dependents(s.rev, id));
      AmongDependents(env, u.jobs, Dependents(s.rev, id), s.clock);
    }
  }

  /** Only the jobs in doubt can wake. */
  lemma AmongDependents(env: Env, jobs: map<Id, Job>, todo: set<Id>, clock: int)
    requires WakeInv(jobs, todo)
    ensures EarlyAmong(env, jobs, clock, todo) <==> WakesEarly(env, jobs, clock)
  {
    forall x | EarlyIn(env, jobs, clock, x) ensures x in todo {
      JudgeByFirstUnmet(jobs, jobs[x].deps);
    }
  }

  /** The leased job of a report that will be recorded as a success for good. */
  ghost predicate Finishes(env: Env, s: State, task: Id, outcome: Outcome) {
    && outcome.Success? && s.leader && task in s.leases && s.leases[task].jobID in s.jobs
    && var j := s.jobs[s.leases[task].jobID]; j.status.Running? && !CanRearm(env, j)
  }

  lemma ReportOnRecordIff(env: Env, s: State, task: Id, outcome: Outcome, order: seq<Id>, at: int)
    requires Inv(env, s) && OnRecord(s)
    requires task in s.leases && outcome.Success? ==>
      Lists(order, Dependents(Without(s.rev, {s.leases[task].jobID}), s.leases[task].jobID))
    ensures OnRecord(Report(env, s, task, outcome, order, at)) <==>
      !(Finishes(env, s, task, outcome) &&
        var id := s.leases[task].jobID; WakesEarly(env, s.jobs[id := FinishedJob(s.jobs[id])], s.clock))
  {
    if s.leader && task in s.leases {
      var id, u := s.leases[task].jobID, DropLease(s, task);
      DropLeaseKeeps(env, s, task, {});
      if s.jobs[id].status.Running? {
        match outcome
        case Success => SucceedOnRecordIff(env, u, id, order);
        case Failure =>
          RunningNotReady(env, s, id, {}, {});
          FailOnRecord(env, u, s.jobs[id], at);
        case Unspecified =>
      }
    }
  }

  // ----- recovery -----

  lemma RecoverOnRecord(env: Env, s: State, snap: map<Id, Job>, id: Id, at: int, raw: set<Id>)
    requires Recovering(env, s, snap, raw) && id in raw && OnRecord(s)
    ensures OnRecord(Recover(env, s, snap[id], at))
  {
    var j := snap[id];
    assert j.id == id by { assert JobOk(env, s.clock, id, s.jobs[id]); }
    assert id in s.ready ==> ReadyOk(s.jobs, s.clock, raw, id, s.ready[id]);
    var u := Indexed(s, j);
    match j.status
    case Queued =>
      assert Recover(env, s, j, at) == Relisted(u, j);
      RelistOnRecord(u, j);
    case Running =>
      assert Recover(env, s, j, at) == Fail(env, u, j, at);
      FailOnRecord(env, u, j, at);
    case _ =>
  }

  lemma RelistOnRecord(s: State, j: Job)
    requires OnRecord(s) && j.id in s.jobs && s.jobs[j.id] == j
    ensures OnRecord(Relisted(s, j))
  {
    var t := Relisted(s, j);
    forall id | id in t.ready && id in t.jobs ensures OnTime(t.jobs[id], t.clock) {}
  }

  lemma {:induction false} RecoverAllOnRecord(env: Env, s: State, snap: map<Id, Job>, ids: seq<Id>, times: map<Id, int>)
    requires Recovering(env, s, snap, snap.Keys) && OnRecord(s)
    requires (forall id :: id in ids ==> id in snap) && Distinct(ids)
    ensures OnRecord(RecoverAll(env, s, snap, ids, times))
  {
    if ids != [] {
      var init, last := ids[..|ids| - 1], ids[|ids| - 1];
      Snoc(ids);
      RecoverAllSteps(env, s, snap, init, times);
      RecoverAllOnRecord(env, s, snap, init, times);
      Shrinks(snap.Keys, ids);
      RecoverLast(env, s, snap, ids, times);
      RecoverOnRecord(env, RecoverAll(env, s, snap, init, times), snap, last, RetryAt(times, last),
        snap.Keys - Elems(init));
    }
  }

  /** The first loop neither wakes a job nor keeps one from waking. */
  lemma FirstLoopEarlyAlike(env: Env, snap: map<Id, Job>, base: map<Id, Job>, a: map<Id, Job>, clock: int, x: Id)
    requires Left(env, snap, base, a)
    ensures EarlyIn(env, a, clock, x) <==> EarlyIn(env, snap, clock, x)
  {
    LeftFacts(env, snap, base, a, x);
    if x in snap && snap[x].status.Pending? {
      forall d ensures Done(a, d) <==> Done(snap, d) { LeftFacts(env, snap, base, a, d); }
      JudgeByFirstUnmet(snap, snap[x].deps);
      JudgeByFirstUnmet(a, snap[x].deps);
      if Bereft(env, snap, x) {
        var r :| r in snap && Exhausted(env, snap[r]) && WaitsFor(snap, x, r);
        WaitsIsUnmet(snap, x, r);
      }
    }
  }

  lemma LeadOnRecordIff(env: Env, s: State, ids: seq<Id>, times: map<Id, int>)
    requires DiskInv(env, s.clock, s.Stored()) && Lists(ids, s.jobs.Keys)
    ensures (forall id :: id in ids ==> id in s.jobs) &&
      (OnRecord(Lead(env, s, ids, times)) <==> !WakesEarly(env, s.jobs, s.clock))
  {
    var c, pending := Cleared(s).(leader := true), PendingOf(s.jobs, ids);
    SecondLoopStarts(env, s, ids, times);
    FirstLoopBetween(env, s, ids, times);
    ReclaimedIsBase(env, s.jobs, times, s.clock);
    ClearedRecovers(env, s);
    RecoverAllOnRecord(env, c, s.jobs, ids, times);
    var u := RecoverAll(env, c, s.jobs, ids, times);
    PromoteAllOnRecordIff(env, u, pending, Elems(pending));
    forall x ensures EarlyIn(env, u.jobs, s.clock, x) <==> EarlyIn(env, s.jobs, s.clock, x) {
      FirstLoopEarlyAlike(env, s.jobs, Reclaimed(env, s.jobs, times, s.clock), u.jobs, s.clock, x);
    }
  }

  // ----- every event -----

  /** The event lets a job into the queue ahead of the time on its record. */
  ghost predicate Jumps(env: Env, s: State, e: Event) {
    match e
    case Submitted(job) => Accepted(env, s, job) && Judge(s.jobs, job.deps).Ready? && Preset(env, s.clock, job)
    case Reported(task, outcome, _, _) =>
      && Finishes(env, s, task, outcome)
      && var id := s.leases[task].jobID; WakesEarly(env, s.jobs[id := FinishedJob(s.jobs[id])], s.clock)
    case TookLead(_, _) => WakesEarly(env, s.jobs, s.clock)
    case _ => false
  }

  lemma StepOnRecordIff(env: Env, s: State, e: Event)
    requires Inv(env, s) && OnRecord(s) && Enabled(env, s, e)
    ensures OnRecord(Step(env, s, e)) <==> !Jumps(env, s, e)
  {
    match e
    case Submitted(job) => if Accepted(env, s, job) { SubmitOnRecordIff(env, s, job); }
    case CancelAsked(id) => CancelOnRecord(env, s, id);
    case PolledBy(worker, _, tasks) => if s.leader && worker in s.workers { PollLoopOnRecord(env, s, worker, tasks); }
    case Reported(task, outcome, order, at) => ReportOnRecordIff(env, s, task, outcome, order, at);
    case TimerFired(id) => FireOnRecord(env, s, id);
    case SweptOnce(orphans, overdue, times) => ReapOnRecord(env, s, orphans, overdue, times);
    case WorkerSeen(worker) =>
    case TimePassed(now) => FewerOnRecord(s, Step(env, s, e));
    case LostLead =>
    case TookLead(ids, times) => LeadOnRecordIff(env, s, ids, times);
    case Crashed(trail) =>
  }

  // ----- runs -----

  ghost predicate OnRecordThrough(ss: seq<State>, k: nat)
    requires k < |ss|
  {
    forall i :: 0 <= i <= k ==> OnRecord(ss[i])
  }

  ghost predicate NoneJumps(env: Env, ss: seq<State>, es: seq<Event>, k: nat)
    requires k <= |es| < |ss|
  {
    forall i :: 0 <= i < k ==> !Jumps(env, ss[i], es[i])
  }

  lemma RunStepOnRecordIff(env: Env, ss: seq<State>, es: seq<Event>, i: nat)
    requires Run(env, ss, es) && i < |es| && OnRecord(ss[i])
    ensures OnRecord(ss[i + 1]) <==> !Jumps(env, ss[i], es[i])
  {
    RunKeepsInv(env, ss, es, i);
    assert Moves(env, ss[i], es[i], ss[i + 1]);
    StepOnRecordIff(env, ss[i], es[i]);
  }

  lemma {:induction false} ThroughIff(env: Env, ss: seq<State>, es: seq<Event>, k: nat)
    requires k <= |es| < |ss| && OnRecord(ss[0])
    requires forall i {:trigger Jumps(env, ss[i], es[i])} :: 0 <= i < k && OnRecord(ss[i]) ==>
      (OnRecord(ss[i + 1]) <==> !Jumps(env, ss[i], es[i]))
    ensures OnRecordThrough(ss, k) <==> NoneJumps(env, ss, es, k)
  {
    if k > 0 {
      ThroughIff(env, ss, es, k - 1);
      assert OnRecordThrough(ss, k) <==> OnRecordThrough(ss, k - 1) && OnRecord(ss[k]);
      assert NoneJumps(env, ss, es, k) <==> NoneJumps(env, ss, es, k - 1) && !Jumps(env, ss[k - 1], es[k - 1]);
      assert OnRecordThrough(ss, k - 1) ==> OnRecord(ss[k - 1]);
    }
  }

  /** Over every run: no job was ever in the queue ahead of the time on its record, up to `k`,
      exactly when no event before `k` let one in. */
  lemma OnRecordIff(env: Env, ss: seq<State>, es: seq<Event>, k: nat)
    requires Run(env, ss, es) && k <= |es|
    ensures OnRecordThrough(ss, k) <==> NoneJumps(env, ss, es, k)
  {
    forall i | 0 <= i < k && OnRecord(ss[i]) ensures OnRecord(ss[i + 1]) <==> !Jumps(env, ss[i], es[i]) {
      RunStepOnRecordIff(env, ss, es, i);
    }
    ThroughIff(env, ss, es, k);
  }
}
