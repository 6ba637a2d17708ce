/** Whether every waiting job is held up, first, by a job that can still succeed. Recovery makes it
    so; every later event keeps it so, except for one kind of submission. */
module Hope {
  import opened Prelude
  import opened Jobs
  import opened Invariants
  import opened Preservation
  import opened Handlers
  import opened Recovery
  import opened Runs
  import opened Consequences
  import Ordering

  /** Nothing succeeded or was lost, and nothing began to wait. */
  lemma SameKeepsHope(a: map<Id, Job>, b: map<Id, Job>, todo: set<Id>)
    requires HopeInv(a, todo)
    requires forall d :: (Done(b, d) <==> Done(a, d)) && (Lost(b, d) <==> Lost(a, d))
    requires forall x :: x in b && b[x].status.Pending? ==> x in a && a[x].status.Pending? && a[x].deps == b[x].deps
    ensures HopeInv(b, todo)
  {
    forall x | x in b && x !in todo && b[x].status.Pending? ensures Judge(b, b[x].deps).Waiting? {
      JudgeSame(a, b, b[x].deps);
    }
  }

  /** A job is lost, and what waits for it is canceled. */
  lemma LossKeepsHope(jobs: map<Id, Job>, u: State, id: Id)
    requires HopeInv(jobs, {}) && id in u.jobs && u.jobs == jobs[id := u.jobs[id]] && Lost(u.jobs, id)
    requires Gated(u.jobs) && IndexSound(u.jobs, u.rev, {id}) && IndexComplete(u.jobs, u.rev, {})
    ensures HopeInv(Cascade(u, id).jobs, {})
  {
    var below := Downstream(u.rev, id);
    DownstreamRoot(u.rev, id);
    forall x | x in u.jobs && x !in below && u.jobs[x].status.Pending? ensures Judge(u.jobs, u.jobs[x].deps).Waiting? {
      assert id in u.jobs[x].deps ==> x in Dependents(u.rev, id);
      if id in u.jobs[x].deps { DownstreamClosed(u.rev, id, id, x); }
      JudgeSame(jobs, u.jobs, u.jobs[x].deps);
    }
    CascadeKeepsHope(u, id, below);
  }

  lemma CancelKeepsHope(env: Env, s: State, id: Id)
    requires Inv(env, s) && HopeInv(s.jobs, {})
    ensures HopeInv(Cancel(s, id).jobs, {})
  {
    if s.leader && id != "" && id in s.jobs && !s.jobs[id].status.Terminal() {
      assert s.jobs[id].id == id by { assert JobOk(env, s.clock, id, s.jobs[id]); }
      CancelOneKeeps(env, s, id);
      LossKeepsHope(s.jobs, Put(s, s.jobs[id].(status := Canceled)).(ready := s.ready - {id}), id);
    }
  }

  lemma QueuedKeepsHope(s: State, j: Job, t: State)
    requires HopeInv(s.jobs, {}) && j.id in s.jobs && s.jobs[j.id].status.Running? && j.status.Queued?
    requires t.jobs == s.jobs[j.id := j]
    ensures HopeInv(t.jobs, {})
  {
    SameKeepsHope(s.jobs, t.jobs, {});
  }

  lemma FailKeepsHope(env: Env, s: State, id: Id, at: int)
    requires Partial(env, s, {id}, {}) && id in s.jobs && s.jobs[id].status.Running? && HopeInv(s.jobs, {})
    ensures HopeInv(Fail(env, s, s.jobs[id], at).jobs, {})
  {
    var job, t := s.jobs[id], Fail(env, s, s.jobs[id], at);
    assert job.id == id by { assert JobOk(env, s.clock, id, s.jobs[id]); }
    if job.attempt < job.Limit() {
      QueuedKeepsHope(s, RetriedJob(job, at), t);
    } else if CanRearm(env, job) {
      QueuedKeepsHope(s, Rearmed(job, env.next(job.schedule.expr, s.clock)), t);
    } else {
      BuriedKeeps(env, s, id, {id}, {});
      assert {id} - {id} == {};
      LossKeepsHope(s.jobs, Buried(s, job), id);
    }
  }

  lemma RequeueKeepsHope(env: Env, s: State, task: Id, at: int)
    requires Partial(env, s, {}, {}) && HopeInv(s.jobs, {})
    ensures HopeInv(Requeue(env, s, task, at).jobs, {})
  {
    if task in s.leases {
      DropLeaseKeeps(env, s, task, {});
      var id := s.leases[task].jobID;
      if s.jobs[id].status.Running? { FailKeepsHope(env, DropLease(s, task), id, at); }
    }
  }

  lemma {:induction false} RequeueAllKeepsHope(env: Env, s: State, tasks: seq<Id>, times: map<Id, int>)
    requires Partial(env, s, {}, {}) && HopeInv(s.jobs, {})
    ensures HopeInv(RequeueAll(env, s, tasks, times).jobs, {})
  {
    if tasks != [] {
      var init, last := tasks[..|tasks| - 1], tasks[|tasks| - 1];
      RequeueAllKeeps(env, s, init, times);
      RequeueAllKeepsHope(env, s, init, times);
      RequeueKeepsHope(env, RequeueAll(env, s, init, times), last, RetryAt(times, last));
    }
  }

  lemma ReapKeepsHope(env: Env, s: State, orphans: seq<Id>, overdue: seq<Id>, times: map<Id, int>)
    requires Inv(env, s) && HopeInv(s.jobs, {})
    ensures HopeInv(Reap(env, s, orphans, overdue, times).jobs, {})
  {
    if s.leader {
      var t := SweepWorkers(env, s);
      assert Partial(env, t, {}, {});
      RequeueAllKeepsHope(env, t, orphans, times);
      RequeueAllKeeps(env, t, orphans, times);
      RequeueAllKeepsHope(env, RequeueAll(env, t, orphans, times), overdue, times);
    }
  }

  /** A success leaves only its dependents in doubt, and they are re-evaluated. */
  lemma FinishedHope(jobs: map<Id, Job>, j: Job, rev: map<Id, set<Id>>)
    requires HopeInv(jobs, {}) && j.id in jobs && jobs[j.id].status.Running? && j.status.Succeeded?
    requires IndexComplete(jobs[j.id := j], rev, {})
    ensures HopeInv(jobs[j.id := j], Dependents(rev, j.id))
  {
    var after := jobs[j.id := j];
    forall x | x in after && x !in Dependents(rev, j.id) && after[x].status.Pending?
      ensures Judge(after, after[x].deps).Waiting?
    {
      assert j.id !in after[x].deps;
      JudgeSame(jobs, after, after[x].deps);
    }
  }

  lemma SucceedKeepsHope(env: Env, s: State, id: Id, order: seq<Id>)
    requires Partial(env, s, {id}, {}) && id in s.jobs && s.jobs[id].status.Running? && HopeInv(s.jobs, {})
    requires Lists(order, Dependents(Without(s.rev, {id}), id))
    ensures HopeInv(Succeed(env, s, id, order).jobs, {})
  {
    var job, t := s.jobs[id], Succeed(env, s, id, order);
    assert job.id == id by { assert JobOk(env, s.clock, id, s.jobs[id]); }
    if CanRearm(env, job) {
      QueuedKeepsHope(s, Rearmed(job, env.next(job.schedule.expr, s.clock)), t);
    } else {
      var u := Finished(s, job);
      NotOwnDependent(s.jobs, s.rev, id);
      FinishedKeeps(env, s, id);
      FinishedHope(s.jobs, FinishedJob(job), u.rev);
      PromoteAllSettles(env, u, order, Dependents(s.rev, id));
      assert Dependents(s.rev, id) - Elems(order) == {};
    }
  }

  lemma ReportKeepsHope(env: Env, s: State, task: Id, outcome: Outcome, order: seq<Id>, at: int)
    requires Inv(env, s) && HopeInv(s.jobs, {})
    requires task in s.leases && outcome.Success? ==>
      Lists(order, Dependents(Without(s.rev, {s.leases[task].jobID}), s.leases[task].jobID))
    ensures HopeInv(Report(env, s, task, outcome, order, at).jobs, {})
  {
    if s.leader && task in s.leases {
      var id, u := s.leases[task].jobID, DropLease(s, task);
      DropLeaseKeeps(env, s, task, {});
      if s.jobs[id].status.Running? {
        match outcome
        case Success => SucceedKeepsHope(env, u, id, order);
        case Failure => FailKeepsHope(env, u, id, at);
        case Unspecified =>
      }
    }
  }

  lemma DispatchKeepsHope(env: Env, s: State, id: Id, worker: Id, task: Id)
    requires Partial(env, s, {}, {}) && id in s.ready && id in s.jobs && HopeInv(s.jobs, {})
    ensures HopeInv(Dispatch(env, s.(ready := s.ready - {id}), id, worker, task).jobs, {})
  {
    assert ReadyOk(s.jobs, s.clock, {}, id, s.ready[id]);
    assert s.jobs[id].id == id by { assert JobOk(env, s.clock, id, s.jobs[id]); }
    SameKeepsHope(s.jobs, s.jobs[id := Dispatched(s.jobs[id], worker, s.clock)], {});
  }

  lemma {:induction false} PollLoopKeepsHope(env: Env, s: State, worker: Id, tasks: seq<Id>)
    requires Partial(env, s, {}, {}) && FreshTasks(s.issued, tasks) && HopeInv(s.jobs, {})
    ensures HopeInv(PollLoop(env, s, worker, tasks).state.jobs, {})
    decreases |tasks|
  {
    if tasks != [] && s.ready != map[] {
      var id := Ordering.First(s.ready);
      FreshTail(s.issued, tasks);
      DispatchKeeps(env, s, id, worker, tasks[0]);
      PollUnfold(env, s, worker, tasks);
      var u := LeaseFirst(env, s, worker, tasks[0]);
      DispatchKeepsHope(env, s, id, worker, tasks[0]);
      PollLoopKeepsHope(env, u, worker, tasks[1..]);
    }
  }

  /** A submission that is canceled on arrival while some waiting job has it as its first unmet
      dependency. */
  ghost predicate DashesHope(env: Env, s: State, e: Event) {
    e.Submitted? && Accepted(env, s, e.job) && Judge(s.jobs, e.job.deps).Doomed? && FirstAwaited(s.jobs, e.job.id)
  }

  /** Every event but a crash keeps hope, unless it is such a submission. */
  lemma StepKeepsHopeIff(env: Env, s: State, e: Event)
    requires Inv(env, s) && HopeInv(s.jobs, {}) && Enabled(env, s, e) && !e.Crashed?
    ensures HopeInv(Step(env, s, e).jobs, {}) <==> !DashesHope(env, s, e)
  {
    match e
    case Submitted(job) => if Accepted(env, s, job) { SubmitKeepsHopeIff(env, s, job); }
    case CancelAsked(id) => CancelKeepsHope(env, s, id);
    case PolledBy(worker, _, tasks) => if s.leader && worker in s.workers { PollLoopKeepsHope(env, s, worker, tasks); }
    case Reported(task, outcome, order, at) => ReportKeepsHope(env, s, task, outcome, order, at);
    case TimerFired(id) =>
    case SweptOnce(orphans, overdue, times) => ReapKeepsHope(env, s, orphans, overdue, times);
    case WorkerSeen(worker) =>
    case TimePassed(now) =>
    case LostLead =>
    case TookLead(ids, times) => LeadRecovers(env, s, ids, times);
  }

  lemma RunStepKeepsHopeIff(env: Env, ss: seq<State>, es: seq<Event>, k: nat)
    requires Run(env, ss, es) && k < |es| && !es[k].Crashed? && HopeInv(ss[k].jobs, {})
    ensures HopeInv(ss[k + 1].jobs, {}) <==> !DashesHope(env, ss[k], es[k])
  {
    RunKeepsInv(env, ss, es, k);
    assert Moves(env, ss[k], es[k], ss[k + 1]);
    StepKeepsHopeIff(env, ss[k], es[k]);
  }

  lemma LeadGivesHope(env: Env, ss: seq<State>, es: seq<Event>, i: nat)
    requires Run(env, ss, es) && i < |es| && es[i].TookLead?
    ensures HopeInv(ss[i + 1].jobs, {})
  {
    RunKeepsInv(env, ss, es, i);
    assert Moves(env, ss[i], es[i], ss[i + 1]);
    LeadRecovers(env, ss[i], es[i].ids, es[i].times);
  }

  ghost predicate HopeAlong(ss: seq<State>, i: nat, k: nat)
    requires k < |ss|
  {
    forall j :: i < j <= k ==> HopeInv(ss[j].jobs, {})
  }

  ghost predicate NoneDashed(env: Env, ss: seq<State>, es: seq<Event>, i: nat, k: nat)
    requires k <= |es| < |ss|
  {
    forall j :: i < j < k ==> !DashesHope(env, ss[j], es[j])
  }

  lemma {:induction false} HopeAlongIff(env: Env, ss: seq<State>, es: seq<Event>, i: nat, k: nat)
    requires i < k <= |es| < |ss| && HopeInv(ss[i + 1].jobs, {})
    requires forall j {:trigger DashesHope(env, ss[j], es[j])} :: i < j < k && HopeInv(ss[j].jobs, {}) ==>
      (HopeInv(ss[j + 1].jobs, {}) <==> !DashesHope(env, ss[j], es[j]))
    ensures HopeAlong(ss, i, k) <==> NoneDashed(env, ss, es, i, k)
    decreases k
  {
    if k - 1 > i {
      HopeAlongIff(env, ss, es, i, k - 1);
      assert HopeAlong(ss, i, k) <==> HopeAlong(ss, i, k - 1) && HopeInv(ss[k].jobs, {});
      assert NoneDashed(env, ss, es, i, k) <==>
        NoneDashed(env, ss, es, i, k - 1) && !DashesHope(env, ss[k - 1], es[k - 1]);
      assert HopeAlong(ss, i, k - 1) ==> HopeInv(ss[k - 1].jobs, {});
    }
  }

  /** From taking the lead until the next crash: no waiting job is held up by a lost one, at any
      moment up to `k`, exactly when no event before `k` is such a submission. */
  lemma HopeFromLead(env: Env, ss: seq<State>, es: seq<Event>, i: nat, k: nat)
    requires Run(env, ss, es) && i < k <= |es| && es[i].TookLead?
    requires forall j :: i < j < k ==> !es[j].Crashed?
    ensures HopeAlong(ss, i, k) <==> NoneDashed(env, ss, es, i, k)
  {
    LeadGivesHope(env, ss, es, i);
    forall j | i < j < k && HopeInv(ss[j].jobs, {})
      ensures HopeInv(ss[j + 1].jobs, {}) <==> !DashesHope(env, ss[j], es[j])
    {
      RunStepKeepsHopeIff(env, ss, es, j);
    }
    HopeAlongIff(env, ss, es, i, k);
  }
}
