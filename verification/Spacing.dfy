/** What is written when an attempt fails, by report, with its worker, with its lease, by a change
    of leader, or in a handler that a crash cut short: the time set for a retry lies within the
    backoff of its policy and attempt, and a last failure leaves a dead letter. */
module Spacing {
  import opened Prelude
  import opened Jobs
  import opened Invariants
  import opened Preservation
  import opened Recovery
  import opened Runs
  import opened Timeliness
  import Ordering
  import Retry

  /** Every record of `b` is one of `a`, or one that is spaced from `clock`. */
  ghost predicate NewlySpaced(a: map<Id, Job>, b: map<Id, Job>, clock: int) {
    forall x :: x in b ==> (x in a && b[x] == a[x]) || SpacedRecord(b[x], clock)
  }

  /** A failed job whose record is not in the dead-letter bucket. */
  ghost predicate Unlettered(d: Disk, x: Id) {
    x in d.jobs && d.jobs[x].status.Failed? && !(x in d.dead && d.dead[x] == d.jobs[x])
  }

  /** What leads from `d` to `e` spaces its retries and writes its dead letters. */
  ghost predicate Careful(d: Disk, e: Disk, clock: int) {
    NewlySpaced(d.jobs, e.jobs, clock) && forall x :: Unlettered(e, x) ==> Unlettered(d, x)
  }

  lemma CarefulTransitive(a: Disk, b: Disk, c: Disk, clock: int)
    requires Careful(a, b, clock) && Careful(b, c, clock)
    ensures Careful(a, c, clock)
  {}

  lemma PutCareful(d: Disk, j: Job, e: Disk, clock: int)
    requires SpacedRecord(j, clock) && e.jobs == d.jobs[j.id := j]
    requires if j.status.Failed? then e.dead == d.dead[j.id := j] else e.dead == d.dead
    ensures Careful(d, e, clock)
  {}

  lemma CascadeCareful(s: State, root: Id)
    ensures Careful(s.Stored(), Cascade(s, root).Stored(), s.clock)
  {}

  lemma BuryCareful(s: State, job: Job)
    ensures Careful(s.Stored(), Bury(s, job).Stored(), s.clock)
  {
    var u := Buried(s, job);
    PutCareful(s.Stored(), FailedJob(job), u.Stored(), s.clock);
    CascadeCareful(u, job.id);
    CarefulTransitive(s.Stored(), u.Stored(), Cascade(u, job.id).Stored(), s.clock);
  }

  lemma FailCareful(env: Env, s: State, job: Job, at: int)
    requires Spaced(job, s.clock, at)
    ensures Careful(s.Stored(), Fail(env, s, job, at).Stored(), s.clock)
  {
    var t := Fail(env, s, job, at);
    if job.attempt < job.Limit() {
      PutCareful(s.Stored(), RetriedJob(job, at), t.Stored(), s.clock);
    } else if CanRearm(env, job) {
      PutCareful(s.Stored(), Rearmed(job, env.next(job.schedule.expr, s.clock)), t.Stored(), s.clock);
    } else {
      BuryCareful(s, job);
    }
  }

  lemma TryPromoteCareful(env: Env, s: State, id: Id)
    requires DiskInv(env, s.clock, s.Stored())
    ensures Careful(s.Stored(), TryPromote(env, s, id).Stored(), s.clock)
  {
    if id in s.jobs && s.jobs[id].status.Pending? {
      assert JobOk(env, s.clock, id, s.jobs[id]);
      match Judge(s.jobs, s.jobs[id].deps)
      case Doomed(_) =>
        assert TryPromote(env, s, id) == Cascade(s, id);
        CascadeCareful(s, id);
      case Waiting =>
      case Ready =>
        assert TryPromote(env, s, id) == Promote(env, s, s.jobs[id]);
        PutCareful(s.Stored(), ReadyJob(env, s.jobs[id], s.clock), Promote(env, s, s.jobs[id]).Stored(), s.clock);
    }
  }

  lemma {:induction false} PromoteAllCareful(env: Env, s: State, ids: seq<Id>, todo: set<Id>)
    requires Partial(env, s, {}, todo)
    ensures Careful(s.Stored(), PromoteAll(env, s, ids).Stored(), s.clock)
  {
    if ids != [] {
      var init, last := ids[..|ids| - 1], ids[|ids| - 1];
      var t := PromoteAll(env, s, init);
      PromoteAllKeeps(env, s, init, todo);
      PromoteAllCareful(env, s, init, todo);
      TryPromoteCareful(env, t, last);
      CarefulTransitive(s.Stored(), t.Stored(), TryPromote(env, t, last).Stored(), s.clock);
    }
  }

  lemma SucceedCareful(env: Env, s: State, id: Id, order: seq<Id>)
    requires Partial(env, s, {id}, {}) && id in s.jobs && s.jobs[id].status.Running?
    ensures Careful(s.Stored(), Succeed(env, s, id, order).Stored(), s.clock)
  {
    var job, t := s.jobs[id], Succeed(env, s, id, order);
    if CanRearm(env, job) {
      PutCareful(s.Stored(), Rearmed(job, env.next(job.schedule.expr, s.clock)), t.Stored(), s.clock);
    } else {
      var u := Finished(s, job);
      PutCareful(s.Stored(), FinishedJob(job), u.Stored(), s.clock);
      FinishedKeeps(env, s, id);
      PromoteAllCareful(env, u, order, Dependents(s.rev, id));
      CarefulTransitive(s.Stored(), u.Stored(), t.Stored(), s.clock);
    }
  }

  lemma ReportCareful(env: Env, s: State, task: Id, outcome: Outcome, order: seq<Id>, at: int)
    requires Inv(env, s) && (outcome.Failure? ==> TaskSpaced(s, task, at))
    ensures Careful(s.Stored(), Report(env, s, task, outcome, order, at).Stored(), s.clock)
  {
    if s.leader && task in s.leases {
      var id, u := s.leases[task].jobID, DropLease(s, task);
      DropLeaseKeeps(env, s, task, {});
      if s.jobs[id].status.Running? {
        match outcome
        case Success => SucceedCareful(env, u, id, order);
        case Failure => FailCareful(env, u, s.jobs[id], at);
        case Unspecified =>
      }
    }
  }

  lemma RequeueCareful(env: Env, s: State, task: Id, at: int)
    requires s.leader && TaskSpaced(s, task, at)
    ensures Careful(s.Stored(), Requeue(env, s, task, at).Stored(), s.clock)
  {
    if task in s.leases && s.leases[task].jobID in s.jobs && s.jobs[s.leases[task].jobID].status.Running? {
      FailCareful(env, DropLease(s, task), s.jobs[s.leases[task].jobID], at);
    }
  }

  lemma {:induction false} RequeueAllCareful(env: Env, s: State, tasks: seq<Id>, times: map<Id, int>)
    requires s.leader && AllSpaced(env, s, tasks, times)
    ensures Careful(s.Stored(), RequeueAll(env, s, tasks, times).Stored(), s.clock)
  {
    if tasks != [] {
      var init, last := tasks[..|tasks| - 1], tasks[|tasks| - 1];
      forall i | 0 <= i < |init| ensures TurnSpaced(env, s, init, i, times) {
        assert TurnSpaced(env, s, tasks, i, times) && init[..i] == tasks[..i] && init[i] == tasks[i];
      }
      assert TurnSpaced(env, s, tasks, |tasks| - 1, times);
      RequeueAllCareful(env, s, init, times);
      var t := RequeueAll(env, s, init, times);
      RequeueCareful(env, t, last, RetryAt(times, last));
      CarefulTransitive(s.Stored(), t.Stored(), Requeue(env, t, last, RetryAt(times, last)).Stored(), s.clock);
    }
  }

  lemma ReapCareful(env: Env, s: State, orphans: seq<Id>, overdue: seq<Id>, times: map<Id, int>)
    requires s.leader ==> AllSpaced(env, SweepWorkers(env, s), orphans, times)
    requires s.leader ==> AllSpaced(env, RequeueAll(env, SweepWorkers(env, s), orphans, times), overdue, times)
    ensures Careful(s.Stored(), Reap(env, s, orphans, overdue, times).Stored(), s.clock)
  {
    if s.leader {
      var u := SweepWorkers(env, s);
      var v := RequeueAll(env, u, orphans, times);
      RequeueAllCareful(env, u, orphans, times);
      RequeueAllCareful(env, v, overdue, times);
      CarefulTransitive(s.Stored(), v.Stored(), RequeueAll(env, v, overdue, times).Stored(), s.clock);
    }
  }

  lemma {:induction false} PollLoopCareful(env: Env, s: State, worker: Id, tasks: seq<Id>)
    ensures Careful(s.Stored(), PollLoop(env, s, worker, tasks).state.Stored(), s.clock)
    decreases |s.ready|
  {
    if tasks != [] && s.ready != map[] {
      var id := Ordering.First(s.ready);
      var t := s.(ready := s.ready - {id});
      PopShrinks(s.ready, id);
      if id in s.jobs && s.jobs[id].status.Queued? {
        var u := Dispatch(env, t, id, worker, tasks[0]);
        PutCareful(s.Stored(), Dispatched(s.jobs[id], worker, s.clock), u.Stored(), s.clock);
        PollLoopCareful(env, u, worker, tasks[1..]);
        CarefulTransitive(s.Stored(), u.Stored(), PollLoop(env, u, worker, tasks[1..]).state.Stored(), s.clock);
      } else {
        PollLoopCareful(env, t, worker, tasks);
      }
    }
  }

  lemma CancelCareful(s: State, id: Id)
    ensures Careful(s.Stored(), Cancel(s, id).Stored(), s.clock)
  {
    if s.leader && id != "" && id in s.jobs && !s.jobs[id].status.Terminal() {
      var j := s.jobs[id].(status := Canceled);
      var u := Put(s, j).(ready := s.ready - {id});
      PutCareful(s.Stored(), j, u.Stored(), s.clock);
      CascadeCareful(u, id);
      CarefulTransitive(s.Stored(), u.Stored(), Cascade(u, id).Stored(), s.clock);
    }
  }

  lemma SubmitCareful(env: Env, s: State, job: Job)
    ensures Careful(s.Stored(), Submit(env, s, job).Stored(), s.clock)
  {
    if Accepted(env, s, job) {
      PutCareful(s.Stored(), PlacedJob(env, s.jobs, Fresh(job, s.clock), s.clock), Submit(env, s, job).Stored(),
        s.clock);
    }
  }

  lemma RecoverCareful(env: Env, s: State, j: Job, at: int)
    requires j.status.Running? ==> Spaced(j, s.clock, at)
    ensures Careful(s.Stored(), Recover(env, s, j, at).Stored(), s.clock)
  {
    if j.status.Running? {
      assert Recover(env, s, j, at) == Fail(env, Indexed(s, j), j, at);
      FailCareful(env, Indexed(s, j), j, at);
    }
  }

  lemma {:induction false} RecoverAllCareful(env: Env, s: State, snap: map<Id, Job>, ids: seq<Id>, times: map<Id, int>)
    requires (forall id :: id in ids ==> id in snap) && OrphansSpaced(snap, s.clock, ids, times)
    ensures Careful(s.Stored(), RecoverAll(env, s, snap, ids, times).Stored(), s.clock)
  {
    if ids != [] {
      var init, last := ids[..|ids| - 1], ids[|ids| - 1];
      RecoverAllCareful(env, s, snap, init, times);
      var t := RecoverAll(env, s, snap, init, times);
      RecoverCareful(env, t, snap[last], RetryAt(times, last));
      CarefulTransitive(s.Stored(), t.Stored(), Recover(env, t, snap[last], RetryAt(times, last)).Stored(), s.clock);
    }
  }

  lemma LeadCareful(env: Env, s: State, ids: seq<Id>, times: map<Id, int>)
    requires DiskInv(env, s.clock, s.Stored()) && Lists(ids, s.jobs.Keys) && OrphansSpaced(s.jobs, s.clock, ids, times)
    ensures (forall id :: id in ids ==> id in s.jobs) && Careful(s.Stored(), Lead(env, s, ids, times).Stored(), s.clock)
  {
    SecondLoopStarts(env, s, ids, times);
    var c, pending := Cleared(s).(leader := true), PendingOf(s.jobs, ids);
    var u := RecoverAll(env, c, s.jobs, ids, times);
    RecoverAllCareful(env, c, s.jobs, ids, times);
    PromoteAllCareful(env, u, pending, Elems(pending));
    CarefulTransitive(s.Stored(), u.Stored(), Lead(env, s, ids, times).Stored(), s.clock);
  }

  lemma {:induction false} TrailCareful(env: Env, clock: int, ds: seq<Disk>, i: nat)
    requires Trail(env, clock, ds) && i < |ds|
    ensures Careful(ds[0], ds[i], clock)
  {
    if i > 0 {
      TrailCareful(env, clock, ds, i - 1);
      assert Wrote(env, clock, ds[i - 1], ds[i - 1 + 1]);
      CarefulTransitive(ds[0], ds[i - 1], ds[i], clock);
    }
  }

  lemma StepCareful(env: Env, s: State, e: Event)
    requires Inv(env, s) && Enabled(env, s, e)
    ensures Careful(s.Stored(), Step(env, s, e).Stored(), s.clock)
  {
    match e
    case Submitted(job) => SubmitCareful(env, s, job);
    case CancelAsked(id) => CancelCareful(s, id);
    case PolledBy(worker, _, tasks) => PollLoopCareful(env, s, worker, tasks);
    case Reported(task, outcome, order, at) => ReportCareful(env, s, task, outcome, order, at);
    case TimerFired(id) =>
    case SweptOnce(orphans, overdue, times) => ReapCareful(env, s, orphans, overdue, times);
    case WorkerSeen(worker) =>
    case TimePassed(now) =>
    case LostLead =>
    case TookLead(ids, times) => LeadCareful(env, s, ids, times);
    case Crashed(trail) => TrailCareful(env, s.clock, trail, |trail| - 1);
  }

  // ----- runs -----

  /** The record of `id` has been the same from state `i` to state `k`. */
  ghost predicate SameSince(ss: seq<State>, i: nat, k: nat, id: Id)
    requires k < |ss| && id in ss[k].jobs
  {
    i <= k && forall j :: i <= j <= k ==> id in ss[j].jobs && ss[j].jobs[id] == ss[k].jobs[id]
  }

  /** The time on the record of a queued retry was set, spaced, when the record came about, unless
      the run began with that record. */
  lemma {:induction false} RetryIsSpaced(env: Env, ss: seq<State>, es: seq<Event>, k: nat, id: Id) returns (i: nat)
    requires Run(env, ss, es) && k < |ss| && id in ss[k].jobs
    requires ss[k].jobs[id].status.Queued? && ss[k].jobs[id].attempt >= 1
    ensures SameSince(ss, i, k, id) && (i > 0 ==> SpacedRecord(ss[k].jobs[id], ss[i].clock))
  {
    i := 0;
    if k > 0 {
      var s, t := ss[k - 1], ss[k];
      RunKeepsInv(env, ss, es, k - 1);
      assert Moves(env, s, es[k - 1], ss[k - 1 + 1]);
      StepCareful(env, s, es[k - 1]);
      if id in s.jobs && t.jobs[id] == s.jobs[id] {
        i := RetryIsSpaced(env, ss, es, k - 1, id);
      } else {
        i := k;
        SameClock(env, s, es[k - 1]);
      }
    }
  }

  /** Only the passing of time moves the clock. */
  lemma SameClock(env: Env, s: State, e: Event)
    requires Inv(env, s) && Enabled(env, s, e) && Step(env, s, e).jobs != s.jobs
    ensures Step(env, s, e).clock == s.clock
  {}

  /** A retry does not run before the backoff of its policy and attempt, counted from when it was
      queued and reduced by at most the jitter, has passed. */
  lemma RetryWaits(env: Env, ss: seq<State>, es: seq<Event>, k: nat, n: nat, id: Id) returns (i: nat)
    requires Run(env, ss, es) && k <= n < |ss|
    requires id in ss[k].jobs && ss[k].jobs[id].status.Queued? && ss[k].jobs[id].attempt >= 1
    requires id in ss[n].jobs && ss[n].jobs[id].status.Running?
    ensures SameSince(ss, i, k, id) && ss[k].jobs[id].scheduledAt.Some?
    ensures var j := ss[k].jobs[id];
      && (i > 0 ==> Retry.InRange(j.policy, j.attempt, j.scheduledAt.value - ss[i].clock))
      && j.scheduledAt.value <= ss[n].clock
  {
    i := RetryIsSpaced(env, ss, es, k, id);
    RunKeepsInv(env, ss, es, k);
    assert JobOk(env, ss[k].clock, id, ss[k].jobs[id]);
    NeverEarly(env, ss, es, k, n, id);
  }

  /** The record of a failed job is in the dead-letter bucket, unless the run began with a store
      that had not got it. */
  lemma {:induction false} FailedIsLettered(env: Env, ss: seq<State>, es: seq<Event>, k: nat, id: Id)
    requires Run(env, ss, es) && k < |ss|
    ensures Unlettered(ss[k].Stored(), id) ==> Unlettered(ss[0].Stored(), id)
  {
    if k > 0 && Unlettered(ss[k].Stored(), id) {
      RunKeepsInv(env, ss, es, k - 1);
      assert Moves(env, ss[k - 1], es[k - 1], ss[k - 1 + 1]);
      StepCareful(env, ss[k - 1], es[k - 1]);
      FailedIsLettered(env, ss, es, k - 1, id);
    }
  }
}
