/** What no handler ever undoes: finished jobs stay as they are, queued jobs stay as they are
    until their time has come, attempts of one-shot jobs only grow, and a task ID whose lease is
    gone never gets it back. */
module Progress {
  import opened Prelude
  import opened Ordering
  import opened Jobs
  import opened Invariants
  import opened Preservation
  import opened Handlers

  ghost predicate JobAdvances(i: Job, j: Job, clock: int) {
    && j.id == i.id && j.priority == i.priority && j.createdAt == i.createdAt && j.command == i.command
    && j.deps == i.deps && j.schedule == i.schedule && j.policy == i.policy
    && (i.status.Terminal() ==> j == i)
    && (!i.Recurs() ==> i.attempt <= j.attempt)
    && (Plain(i) ==> Plain(j))
    && (i.status.Queued? ==> j == i || j == i.(status := Canceled) || Due(i, clock))
  }

  /** What became of the jobs `a` by the time `clock`. */
  ghost predicate Onward(a: map<Id, Job>, b: map<Id, Job>, clock: int) {
    forall x :: x in a ==> x in b && JobAdvances(a[x], b[x], clock)
  }

  /** A lease of a task that was handed out before is an old lease, unchanged. */
  ghost predicate NoneRevived(s: State, t: State) {
    && s.issued <= t.issued
    && forall k :: k in t.leases && k in s.issued ==> k in s.leases && t.leases[k] == s.leases[k]
  }

  ghost predicate Advances(s: State, t: State) {
    s.clock <= t.clock && Onward(s.jobs, t.jobs, t.clock) && NoneRevived(s, t)
  }

  lemma OnwardTransitive(a: map<Id, Job>, b: map<Id, Job>, c: map<Id, Job>, soon: int, late: int)
    requires Onward(a, b, soon) && Onward(b, c, late) && soon <= late
    ensures Onward(a, c, late)
  {
    forall x | x in a ensures x in c && JobAdvances(a[x], c[x], late) {
      assert JobAdvances(a[x], b[x], soon) && JobAdvances(b[x], c[x], late);
    }
  }

  lemma AdvancesTransitive(s: State, t: State, u: State)
    requires Advances(s, t) && Advances(t, u)
    ensures Advances(s, u)
  {
    OnwardTransitive(s.jobs, t.jobs, u.jobs, t.clock, u.clock);
  }

  /** Storing one job that progresses, or is new. */
  lemma PutAdvances(s: State, j: Job, t: State)
    requires j.id in s.jobs ==> Progresses(s.jobs[j.id], j)
    requires j.id in s.jobs && Plain(s.jobs[j.id]) ==> Plain(j)
    requires j.id in s.jobs && j.status.Running? ==> Due(s.jobs[j.id], s.clock)
    requires s.clock == t.clock && t.jobs == s.jobs[j.id := j] && t.leases == s.leases && t.issued == s.issued
    ensures Advances(s, t)
  {}

  /** A step that leaves jobs and leases alone. */
  lemma IdleAdvances(s: State, t: State)
    requires s.clock <= t.clock && t.jobs == s.jobs && t.leases == s.leases && t.issued == s.issued
    ensures Advances(s, t)
  {}

  lemma CascadeAdvances(s: State, root: Id)
    ensures Advances(s, Cascade(s, root))
  {}

  lemma BuryAdvances(s: State, job: Job)
    requires job.id in s.jobs && s.jobs[job.id] == job && job.status.Running?
    ensures Advances(s, Bury(s, job))
  {
    PutAdvances(s, FailedJob(job), Buried(s, job));
    CascadeAdvances(Buried(s, job), job.id);
    AdvancesTransitive(s, Buried(s, job), Bury(s, job));
  }

  lemma FailAdvances(env: Env, s: State, id: Id, at: int)
    requires DiskInv(env, s.clock, s.Stored()) && id in s.jobs && s.jobs[id].status.Running?
    ensures Advances(s, Fail(env, s, s.jobs[id], at))
  {
    var job, t := s.jobs[id], Fail(env, s, s.jobs[id], at);
    assert JobOk(env, s.clock, id, job);
    if job.attempt < job.Limit() {
      PutAdvances(s, RetriedJob(job, at), t);
    } else if CanRearm(env, job) {
      PutAdvances(s, Rearmed(job, env.next(job.schedule.expr, s.clock)), t);
    } else {
      BuryAdvances(s, job);
    }
  }

  lemma TryPromoteAdvances(env: Env, s: State, id: Id)
    requires DiskInv(env, s.clock, s.Stored())
    ensures Advances(s, TryPromote(env, s, id))
  {
    var t := TryPromote(env, s, id);
    if id in s.jobs && s.jobs[id].status.Pending? {
      assert JobOk(env, s.clock, id, s.jobs[id]);
      match Judge(s.jobs, s.jobs[id].deps)
      case Doomed(_) => CascadeAdvances(s, id);
      case Waiting =>
      case Ready => PutAdvances(s, ReadyJob(env, s.jobs[id], s.clock), t);
    }
  }

  lemma {:induction false} PromoteAllAdvances(env: Env, s: State, ids: seq<Id>, todo: set<Id>)
    requires Partial(env, s, {}, todo)
    ensures Advances(s, PromoteAll(env, s, ids))
  {
    if ids != [] {
      var init, last := ids[..|ids| - 1], ids[|ids| - 1];
      var t := PromoteAll(env, s, init);
      PromoteAllKeeps(env, s, init, todo);
      PromoteAllAdvances(env, s, init, todo);
      TryPromoteAdvances(env, t, last);
      AdvancesTransitive(s, t, TryPromote(env, t, last));
    }
  }

  lemma DropLeaseAdvances(s: State, task: Id)
    ensures Advances(s, DropLease(s, task))
  {}

  lemma SucceedAdvances(env: Env, s: State, id: Id, order: seq<Id>)
    requires Partial(env, s, {id}, {}) && id in s.jobs && s.jobs[id].status.Running?
    ensures Advances(s, Succeed(env, s, id, order))
  {
    var job, t := s.jobs[id], Succeed(env, s, id, order);
    assert JobOk(env, s.clock, id, job);
    if CanRearm(env, job) {
      PutAdvances(s, Rearmed(job, env.next(job.schedule.expr, s.clock)), t);
    } else {
      var u := Finished(s, job);
      PutAdvances(s, FinishedJob(job), u);
      FinishedKeeps(env, s, id);
      PromoteAllAdvances(env, u, order, Dependents(s.rev, id));
      AdvancesTransitive(s, u, t);
    }
  }

  lemma ReportAdvances(env: Env, s: State, task: Id, outcome: Outcome, order: seq<Id>, at: int)
    requires Inv(env, s)
    ensures Advances(s, Report(env, s, task, outcome, order, at))
  {
    if s.leader && task in s.leases {
      var id, u := s.leases[task].jobID, DropLease(s, task);
      DropLeaseAdvances(s, task);
      DropLeaseKeeps(env, s, task, {});
      if s.jobs[id].status.Running? {
        match outcome
        case Success =>
          SucceedAdvances(env, u, id, order);
          AdvancesTransitive(s, u, Succeed(env, u, id, order));
        case Failure =>
          FailAdvances(env, u, id, at);
          AdvancesTransitive(s, u, Fail(env, u, s.jobs[id], at));
        case Unspecified =>
      }
    }
  }

  lemma RequeueAdvances(env: Env, s: State, task: Id, at: int)
    requires Partial(env, s, {}, {})
    ensures Advances(s, Requeue(env, s, task, at))
  {
    if task in s.leases {
      var id, u := s.leases[task].jobID, DropLease(s, task);
      DropLeaseAdvances(s, task);
      DropLeaseKeeps(env, s, task, {});
      if s.jobs[id].status.Running? {
        FailAdvances(env, u, id, at);
        AdvancesTransitive(s, u, Fail(env, u, s.jobs[id], at));
      }
    }
  }

  lemma {:induction false} RequeueAllAdvances(env: Env, s: State, tasks: seq<Id>, times: map<Id, int>)
    requires Partial(env, s, {}, {})
    ensures Advances(s, RequeueAll(env, s, tasks, times))
  {
    if tasks != [] {
      var init, last := tasks[..|tasks| - 1], tasks[|tasks| - 1];
      var t := RequeueAll(env, s, init, times);
      RequeueAllKeeps(env, s, init, times);
      RequeueAllAdvances(env, s, init, times);
      RequeueAdvances(env, t, last, RetryAt(times, last));
      AdvancesTransitive(s, t, Requeue(env, t, last, RetryAt(times, last)));
    }
  }

  lemma MintAdvances(s: State, t: State, u: State, task: Id)
    requires Advances(s, t) && t.leases == s.leases && t.issued == s.issued && task !in s.issued
    requires u.clock == t.clock && u.jobs == t.jobs && u.issued == t.issued + {task}
    requires task in u.leases && u.leases == t.leases[task := u.leases[task]]
    ensures Advances(s, u)
  {}

  lemma DispatchAdvances(env: Env, s: State, id: Id, worker: Id, task: Id)
    requires Partial(env, s, {}, {}) && id in s.ready && task !in s.issued && id in s.jobs
    ensures Advances(s, Dispatch(env, s.(ready := s.ready - {id}), id, worker, task))
  {
    assert ReadyOk(s.jobs, s.clock, {}, id, s.ready[id]);
    var j := Dispatched(s.jobs[id], worker, s.clock);
    assert JobOk(env, s.clock, id, s.jobs[id]);
    PutAdvances(s, j, Put(s, j));
    MintAdvances(s, Put(s, j), Dispatch(env, s.(ready := s.ready - {id}), id, worker, task), task);
  }

  lemma {:induction false} PollLoopAdvances(env: Env, s: State, worker: Id, tasks: seq<Id>)
    requires Partial(env, s, {}, {}) && FreshTasks(s.issued, tasks)
    ensures Advances(s, PollLoop(env, s, worker, tasks).state)
    decreases |tasks|
  {
    if tasks != [] && s.ready != map[] {
      FreshTail(s.issued, tasks);
      DispatchKeeps(env, s, First(s.ready), worker, tasks[0]);
      DispatchAdvances(env, s, First(s.ready), worker, tasks[0]);
      PollUnfold(env, s, worker, tasks);
      var u := LeaseFirst(env, s, worker, tasks[0]);
      PollLoopAdvances(env, u, worker, tasks[1..]);
      AdvancesTransitive(s, u, PollLoop(env, u, worker, tasks[1..]).state);
    }
  }

  lemma SubmitAdvances(env: Env, s: State, job: Job)
    requires Inv(env, s) && job.id !in s.jobs
    ensures Advances(s, Submit(env, s, job))
  {
    if Accepted(env, s, job) {
      PutAdvances(s, PlacedJob(env, s.jobs, Fresh(job, s.clock), s.clock), PlaceNew(env, s, Fresh(job, s.clock)));
    }
  }

  lemma CancelAdvances(env: Env, s: State, id: Id)
    requires Inv(env, s)
    ensures Advances(s, Cancel(s, id))
  {
    if s.leader && id != "" && id in s.jobs && !s.jobs[id].status.Terminal() {
      var j := s.jobs[id].(status := Canceled);
      var u := Put(s, j).(ready := s.ready - {id});
      assert JobOk(env, s.clock, id, s.jobs[id]);
      PutAdvances(s, j, u);
      CascadeAdvances(u, id);
      AdvancesTransitive(s, u, Cascade(u, id));
    }
  }
}
