/** The building blocks of the handlers keep the invariant. */
module Preservation {
  import opened Prelude
  import opened Ordering
  import opened Jobs
  import opened Invariants

  // ----- cascades -----

  /** A state in which a cascade from `root` may start. */
  ghost predicate BeforeCascade(env: Env, s: State, root: Id, raw: set<Id>, todo: set<Id>) {
    && s.leader && DiskInv(env, s.clock, s.Stored())
    && QueueInv(s.jobs, s.clock, s.ready, s.timers, raw)
    && LeaseInv(env, s.jobs, s.leases, raw) && s.leases.Keys <= s.issued
    && IndexSound(s.jobs, s.rev, {root}) && IndexComplete(s.jobs, s.rev, raw) && WakeInv(s.jobs, todo)
    && CascadeFrom(s, root)
  }

  lemma CancelingKeepsDisk(env: Env, clock: int, d: Disk, xs: set<Id>)
    requires DiskInv(env, clock, d)
    requires forall x :: x in xs ==> x in d.jobs && !d.jobs[x].status.Terminal()
    ensures DiskInv(env, clock, Disk(WithCanceled(d.jobs, xs), d.dead))
  {
    var jobs := WithCanceled(d.jobs, xs);
    assert DepGraph(jobs) == DepGraph(d.jobs);
    forall id | id in jobs ensures JobOk(env, clock, id, jobs[id]) {
      assert JobOk(env, clock, id, d.jobs[id]);
    }
    forall id | id in jobs && (jobs[id].status.Queued? || jobs[id].status.Running?)
      ensures AllDone(jobs, jobs[id].deps)
    {
      CancelingKeepsDone(d.jobs, xs, jobs[id].deps);
    }
  }

  lemma CancelingKeepsDone(jobs: map<Id, Job>, xs: set<Id>, deps: seq<Id>)
    requires forall x :: x in xs && x in jobs ==> !jobs[x].status.Terminal()
    ensures AllDone(WithCanceled(jobs, xs), deps) <==> AllDone(jobs, deps)
  {
    forall d ensures Done(WithCanceled(jobs, xs), d) <==> Done(jobs, d) {}
  }

  /** Canceling waiting jobs disturbs neither queue nor leases. */
  lemma CancelingKeepsPlaces(env: Env, s: State, xs: set<Id>, raw: set<Id>)
    requires QueueInv(s.jobs, s.clock, s.ready, s.timers, raw) && LeaseInv(env, s.jobs, s.leases, raw)
    requires forall x :: x in xs ==> x in s.jobs && s.jobs[x].status.Pending?
    ensures QueueInv(WithCanceled(s.jobs, xs), s.clock, s.ready - xs, s.timers, raw)
    ensures LeaseInv(env, WithCanceled(s.jobs, xs), s.leases, raw)
  {
    var jobs := WithCanceled(s.jobs, xs);
    forall id | id in s.ready ensures ReadyOk(jobs, s.clock, raw, id, s.ready[id]) && id !in xs {
      assert ReadyOk(s.jobs, s.clock, raw, id, s.ready[id]);
    }
    forall id | id in s.timers ensures TimerOk(jobs, s.clock, raw, id, s.timers[id]) {
      assert TimerOk(s.jobs, s.clock, raw, id, s.timers[id]);
    }
    forall x | x in s.leases ensures LeaseOk(env, jobs, raw, s.leases[x]) {
      assert LeaseOk(env, s.jobs, raw, s.leases[x]);
      CancelingKeepsDone(s.jobs, xs, s.jobs[s.leases[x].jobID].deps);
    }
  }

  lemma CascadeKeepsSound(s: State, root: Id)
    requires Gated(s.jobs) && IndexSound(s.jobs, s.rev, {root}) && CascadeFrom(s, root)
    ensures IndexSound(Cascade(s, root).jobs, Cascade(s, root).rev, {})
  {
    var t := Cascade(s, root);
    DownstreamRoot(s.rev, root);
    forall d, x | d in t.rev && x in t.rev[d] ensures EdgeOk(t.jobs, {}, d, x) {
      assert x in s.rev[d] && x !in Downstream(s.rev, root) && x != root;
      assert EdgeOk(s.jobs, {root}, d, x) && t.jobs[x] == s.jobs[x];
    }
  }

  lemma CascadeKeepsComplete(s: State, root: Id, raw: set<Id>)
    requires Gated(s.jobs) && IndexSound(s.jobs, s.rev, {root}) && CascadeFrom(s, root)
    requires IndexComplete(s.jobs, s.rev, raw)
    ensures IndexComplete(Cascade(s, root).jobs, Cascade(s, root).rev, raw)
  {
    VictimsWait(s, root);
    var t := Cascade(s, root);
    forall x, d | x in t.jobs && x !in raw && t.jobs[x].status.Pending? && d in t.jobs[x].deps
      ensures x in Dependents(t.rev, d)
    {
      assert x in Dependents(s.rev, d);
      assert x !in Downstream(s.rev, root);
    }
  }

  lemma CascadeKeepsWake(s: State, root: Id, todo: set<Id>)
    requires WakeInv(s.jobs, todo)
    ensures WakeInv(Cascade(s, root).jobs, todo)
  {
    var jobs := Cascade(s, root).jobs;
    forall x | x in jobs && x !in todo && jobs[x].status.Pending? ensures !AllDone(jobs, jobs[x].deps) {
      CancelingKeepsDone(s.jobs, Victims(s, root), s.jobs[x].deps);
    }
  }

  lemma CascadeKeeps(env: Env, s: State, root: Id, raw: set<Id>, todo: set<Id>)
    requires BeforeCascade(env, s, root, raw, todo)
    ensures Partial(env, Cascade(s, root), raw, todo)
  {
    VictimsWait(s, root);
    CancelingKeepsDisk(env, s.clock, s.Stored(), Victims(s, root));
    CancelingKeepsPlaces(env, s, Victims(s, root), raw);
    CascadeKeepsSound(s, root);
    CascadeKeepsComplete(s, root, raw);
    CascadeKeepsWake(s, root, todo);
  }

  // ----- a job enters the queue or the timer table -----

  ghost predicate Unplaced(s: State, id: Id) {
    id !in s.ready && id !in s.timers && !Leased(s.leases, id)
  }

  /** The job may enter the queue at the time `at`, by a timer if that is still to come. */
  ghost predicate Timely(s: State, j: Job, at: int) {
    DueBy(j, s.clock, at) && (at > s.clock ==> OnTime(j, at))
  }

  /** Storing a job that is in neither table leaves the tables right for all others. */
  lemma PutKeepsPlaces(jobs: map<Id, Job>, clock: int, ready: map<Id, Key>, timers: map<Id, int>, raw: set<Id>, j: Job)
    requires QueueInv(jobs, clock, ready, timers, raw) && j.id !in ready && j.id !in timers
    ensures QueueInv(jobs[j.id := j], clock, ready, timers, raw + {j.id})
  {
    var after := jobs[j.id := j];
    forall id | id in ready ensures ReadyOk(after, clock, raw + {j.id}, id, ready[id]) {
      assert ReadyOk(jobs, clock, raw, id, ready[id]);
    }
    forall id | id in timers ensures TimerOk(after, clock, raw + {j.id}, id, timers[id]) {
      assert TimerOk(jobs, clock, raw, id, timers[id]);
    }
  }

  /** A queued job enters one of the two tables. */
  lemma EnterKeepsPlaces(jobs: map<Id, Job>, clock: int, ready: map<Id, Key>, timers: map<Id, int>, raw: set<Id>,
                         id: Id, at: int)
    requires QueueInv(jobs, clock, ready, timers, raw + {id}) && id in jobs && jobs[id].status.Queued?
    ensures Due(jobs[id], clock) ==> QueueInv(jobs, clock, ready[id := jobs[id].Place()], timers, raw - {id})
    ensures DueBy(jobs[id], clock, at) && OnTime(jobs[id], at) ==>
      QueueInv(jobs, clock, ready, timers[id := at], raw - {id})
  {
    forall x | x in ready ensures ReadyOk(jobs, clock, raw - {id}, x, ready[x]) && x != id {
      assert ReadyOk(jobs, clock, raw + {id}, x, ready[x]);
    }
    forall x | x in timers ensures TimerOk(jobs, clock, raw - {id}, x, timers[x]) && x != id {
      assert TimerOk(jobs, clock, raw + {id}, x, timers[x]);
    }
  }

  lemma QueuedKeepsQueue(s: State, j: Job, at: int, raw: set<Id>)
    requires s.leader && QueueInv(s.jobs, s.clock, s.ready, s.timers, raw)
    requires Unplaced(s, j.id) && j.status.Queued? && Timely(s, j, at)
    ensures var t := Arm(Put(s, j), j.id, at); QueueInv(t.jobs, t.clock, t.ready, t.timers, raw - {j.id})
  {
    PutKeepsPlaces(s.jobs, s.clock, s.ready, s.timers, raw, j);
    EnterKeepsPlaces(s.jobs[j.id := j], s.clock, s.ready, s.timers, raw, j.id, at);
  }

  lemma PutKeepsLeases(env: Env, s: State, j: Job, raw: set<Id>)
    requires LeaseInv(env, s.jobs, s.leases, raw) && !Leased(s.leases, j.id)
    requires !j.status.Running? && !Done(s.jobs, j.id)
    ensures LeaseInv(env, s.jobs[j.id := j], s.leases, raw - {j.id})
  {
    var jobs := s.jobs[j.id := j];
    forall x | x in s.leases ensures LeaseOk(env, jobs, raw - {j.id}, s.leases[x]) {
      assert LeaseOk(env, s.jobs, raw, s.leases[x]);
      PutDone(s.jobs, j, s.jobs[s.leases[x].jobID].deps);
    }
  }

  lemma PutKeepsWake(jobs: map<Id, Job>, j: Job, todo: set<Id>)
    requires WakeInv(jobs, todo) && !Done(jobs, j.id) && !j.status.Succeeded?
    requires j.status.Pending? ==> !AllDone(jobs, j.deps)
    ensures WakeInv(jobs[j.id := j], todo)
  {
    var after := jobs[j.id := j];
    forall x | x in after && x !in todo && after[x].status.Pending? ensures !AllDone(after, after[x].deps) {
      PutDone(jobs, j, after[x].deps);
    }
  }

  /** A stored job that stays unfinished and is not left waiting keeps the index right. */
  lemma PutKeepsIndex(jobs: map<Id, Job>, rev: map<Id, set<Id>>, j: Job, raw: set<Id>)
    requires IndexSound(jobs, rev, {}) && IndexComplete(jobs, rev, raw)
    requires j.id in jobs ==> jobs[j.id].deps == j.deps
    requires !j.status.Terminal() && !j.status.Pending?
    ensures IndexSound(jobs[j.id := j], rev, {}) && IndexComplete(jobs[j.id := j], rev, raw - {j.id})
  {
    forall d, x | d in rev && x in rev[d] ensures EdgeOk(jobs[j.id := j], {}, d, x) {
      assert EdgeOk(jobs, {}, d, x);
    }
  }

  lemma QueuedKeeps(env: Env, s: State, j: Job, at: int, raw: set<Id>, todo: set<Id>)
    requires Partial(env, s, raw, todo) && LegalPut(env, s.clock, s.Stored(), j)
    requires j.status.Queued? && Unplaced(s, j.id) && Timely(s, j, at)
    ensures Partial(env, Arm(Put(s, j), j.id, at), raw - {j.id}, todo)
  {
    PutKeepsDisk(env, s.clock, s.Stored(), j);
    QueuedKeepsQueue(s, j, at, raw);
    PutKeepsLeases(env, s, j, raw);
    PutKeepsWake(s.jobs, j, todo);
    PutKeepsIndex(s.jobs, s.rev, j, raw);
  }

  lemma NotPlaced(env: Env, s: State, id: Id, raw: set<Id>, todo: set<Id>)
    requires MemInv(env, s, raw, todo)
    requires id !in s.jobs || id in raw || s.jobs[id].status.Pending?
    ensures Unplaced(s, id)
  {
    assert id in s.ready ==> ReadyOk(s.jobs, s.clock, raw, id, s.ready[id]);
    assert id in s.timers ==> TimerOk(s.jobs, s.clock, raw, id, s.timers[id]);
    forall t | t in s.leases ensures s.leases[t].jobID != id {
      assert LeaseOk(env, s.jobs, raw, s.leases[t]);
    }
  }

  // ----- lost attempts -----

  lemma RetryKeeps(env: Env, s: State, id: Id, at: int, raw: set<Id>, todo: set<Id>)
    requires Partial(env, s, raw, todo) && id in raw && id in s.jobs && s.jobs[id].status.Running?
    requires s.jobs[id].attempt < s.jobs[id].Limit()
    ensures Partial(env, Requeued(s, s.jobs[id], at), raw - {id}, todo)
  {
    LegalRetry(env, s.clock, s.Stored(), id, at);
    NotPlaced(env, s, id, raw, todo);
    QueuedKeeps(env, s, RetriedJob(s.jobs[id], at), at, raw, todo);
  }

  lemma RearmKeeps(env: Env, s: State, id: Id, raw: set<Id>, todo: set<Id>)
    requires Partial(env, s, raw, todo) && id in raw && id in s.jobs && s.jobs[id].status.Running?
    requires CanRearm(env, s.jobs[id])
    ensures Partial(env, Rearm(env, s, s.jobs[id]), raw - {id}, todo)
  {
    var next := env.next(s.jobs[id].schedule.expr, s.clock);
    LegalRearm(env, s.clock, s.Stored(), id, next);
    NotPlaced(env, s, id, raw, todo);
    QueuedKeeps(env, s, Rearmed(s.jobs[id], next), next, raw, todo);
  }

  lemma WithoutKeepsIndex(jobs: map<Id, Job>, rev: map<Id, set<Id>>, j: Job, raw: set<Id>)
    requires IndexSound(jobs, rev, {}) && IndexComplete(jobs, rev, raw)
    requires j.id in jobs ==> jobs[j.id].deps == j.deps
    requires !j.status.Pending?
    ensures IndexSound(jobs[j.id := j], Without(rev, {j.id}), {})
    ensures IndexComplete(jobs[j.id := j], Without(rev, {j.id}), raw - {j.id})
  {
    var after, index := jobs[j.id := j], Without(rev, {j.id});
    forall d, x | d in index && x in index[d] ensures EdgeOk(after, {}, d, x) {
      assert x in rev[d] && EdgeOk(jobs, {}, d, x);
    }
    forall x, d | x in after && x !in raw - {j.id} && after[x].status.Pending? && d in after[x].deps
      ensures x in Dependents(index, d)
    {
      assert x in Dependents(rev, d);
    }
  }

  /** A job that is not queued needs no place. */
  lemma StaysOut(jobs: map<Id, Job>, clock: int, ready: map<Id, Key>, timers: map<Id, int>, raw: set<Id>, id: Id)
    requires QueueInv(jobs, clock, ready, timers, raw + {id}) && (id in jobs ==> !jobs[id].status.Queued?)
    ensures QueueInv(jobs, clock, ready, timers, raw - {id})
  {
    forall x | x in ready ensures ReadyOk(jobs, clock, raw - {id}, x, ready[x]) {
      assert ReadyOk(jobs, clock, raw + {id}, x, ready[x]);
    }
    forall x | x in timers ensures TimerOk(jobs, clock, raw - {id}, x, timers[x]) {
      assert TimerOk(jobs, clock, raw + {id}, x, timers[x]);
    }
  }

  lemma BuriedKeeps(env: Env, s: State, id: Id, raw: set<Id>, todo: set<Id>)
    requires Partial(env, s, raw, todo) && id in raw && id in s.jobs && s.jobs[id].status.Running?
    requires s.jobs[id].attempt >= s.jobs[id].Limit() && !CanRearm(env, s.jobs[id])
    ensures BeforeCascade(env, Buried(s, s.jobs[id]), id, raw - {id}, todo)
  {
    var failed := FailedJob(s.jobs[id]);
    LegalFailure(env, s.clock, s.Stored(), id);
    PutKeepsDisk(env, s.clock, Disk(s.jobs, s.dead[id := failed]), failed);
    NotPlaced(env, s, id, raw, todo);
    PutKeepsPlaces(s.jobs, s.clock, s.ready, s.timers, raw, failed);
    StaysOut(s.jobs[id := failed], s.clock, s.ready, s.timers, raw, id);
    PutKeepsLeases(env, s, failed, raw);
    PutKeepsWake(s.jobs, failed, todo);
    WithoutKeepsIndex(s.jobs, s.rev, failed, raw);
    WeakenSound(s.jobs[id := failed], Without(s.rev, {id}), {id});
  }

  lemma WeakenSound(jobs: map<Id, Job>, rev: map<Id, set<Id>>, but: set<Id>)
    requires IndexSound(jobs, rev, {})
    ensures IndexSound(jobs, rev, but)
  {
    forall d, x | d in rev && x in rev[d] ensures EdgeOk(jobs, but, d, x) { assert EdgeOk(jobs, {}, d, x); }
  }

  lemma BuryKeeps(env: Env, s: State, id: Id, raw: set<Id>, todo: set<Id>)
    requires Partial(env, s, raw, todo) && id in raw && id in s.jobs && s.jobs[id].status.Running?
    requires s.jobs[id].attempt >= s.jobs[id].Limit() && !CanRearm(env, s.jobs[id]) && s.jobs[id].id == id
    ensures Partial(env, Bury(s, s.jobs[id]), raw - {id}, todo)
  {
    BuriedKeeps(env, s, id, raw, todo);
    CascadeKeeps(env, Buried(s, s.jobs[id]), id, raw - {id}, todo);
  }

  /** The invariant after a failure, seen case by case. */
  lemma FailIsRetry(env: Env, s: State, job: Job, at: int, raw: set<Id>, todo: set<Id>)
    requires job.attempt < job.Limit() && Partial(env, Requeued(s, job, at), raw, todo)
    ensures Partial(env, Fail(env, s, job, at), raw, todo)
  {}

  lemma FailIsRearm(env: Env, s: State, job: Job, at: int, raw: set<Id>, todo: set<Id>)
    requires job.attempt >= job.Limit() && CanRearm(env, job) && Partial(env, Rearm(env, s, job), raw, todo)
    ensures Partial(env, Fail(env, s, job, at), raw, todo)
  {}

  lemma FailIsBury(env: Env, s: State, job: Job, at: int, raw: set<Id>, todo: set<Id>)
    requires job.attempt >= job.Limit() && !CanRearm(env, job) && Partial(env, Bury(s, job), raw, todo)
    ensures Partial(env, Fail(env, s, job, at), raw, todo)
  {}

  /** Charging a lost attempt: retry, next occurrence, or failure with its cascade. */
  lemma FailKeeps(env: Env, s: State, id: Id, at: int, raw: set<Id>, todo: set<Id>)
    requires Partial(env, s, raw, todo) && id in raw && id in s.jobs && s.jobs[id].status.Running?
    ensures Partial(env, Fail(env, s, s.jobs[id], at), raw - {id}, todo)
  {
    var job := s.jobs[id];
    assert job.id == id by { assert JobOk(env, s.clock, id, s.jobs[id]); }
    if job.attempt < job.Limit() {
      RetryKeeps(env, s, id, at, raw, todo);
      FailIsRetry(env, s, job, at, raw - {id}, todo);
    } else if CanRearm(env, job) {
      RearmKeeps(env, s, id, raw, todo);
      FailIsRearm(env, s, job, at, raw - {id}, todo);
    } else {
      BuryKeeps(env, s, id, raw, todo);
      FailIsBury(env, s, job, at, raw - {id}, todo);
    }
  }

  // ----- promotion -----

  /** The jobs other than `id` keep their place in the index when `id` leaves it. */
  lemma LeavingKeepsIndex(jobs: map<Id, Job>, rev: map<Id, set<Id>>, id: Id, raw: set<Id>)
    requires IndexSound(jobs, rev, {}) && IndexComplete(jobs, rev, raw) && (id in jobs ==> !jobs[id].status.Pending?)
    ensures IndexSound(jobs, Without(rev, {id}), {}) && IndexComplete(jobs, Without(rev, {id}), raw)
  {
    var index := Without(rev, {id});
    forall d, x | d in index && x in index[d] ensures EdgeOk(jobs, {}, d, x) {
      assert x in rev[d] && EdgeOk(jobs, {}, d, x);
    }
    forall x, d | x in jobs && x !in raw && jobs[x].status.Pending? && d in jobs[x].deps
      ensures x in Dependents(index, d)
    {
      assert x in Dependents(rev, d);
    }
  }

  lemma LeaveIndexKeeps(env: Env, s: State, id: Id, todo: set<Id>)
    requires Partial(env, s, {}, todo) && (id in s.jobs ==> !s.jobs[id].status.Pending?)
    ensures Partial(env, s.(rev := Without(s.rev, {id})), {}, todo - {id})
  {
    LeavingKeepsIndex(s.jobs, s.rev, id, {});
    DoneWaking(s.jobs, todo, id);
  }

  lemma MakeReadyKeeps(env: Env, s: State, job: Job, todo: set<Id>)
    requires Partial(env, s, {}, todo) && Unplaced(s, job.id)
    requires LegalPut(env, s.clock, s.Stored(), ReadyJob(env, job, s.clock))
    ensures Partial(env, MakeReady(env, s, job), {}, todo)
  {
    assert {} - {job.id} == {};
    QueuedKeeps(env, s, ReadyJob(env, job, s.clock), ReadyAt(env, job, s.clock), {}, todo);
  }

  lemma PromoteKeeps(env: Env, s: State, id: Id, todo: set<Id>)
    requires Partial(env, s, {}, todo) && id in s.jobs && s.jobs[id].status.Pending? && s.jobs[id].id == id
    requires AllDone(s.jobs, s.jobs[id].deps)
    ensures Partial(env, Promote(env, s, s.jobs[id]), {}, todo - {id})
  {
    var t := MakeReady(env, s, s.jobs[id]);
    LegalPromotion(env, s.clock, s.Stored(), id);
    NotPlaced(env, s, id, {}, todo);
    MakeReadyKeeps(env, s, s.jobs[id], todo);
    LeaveIndexKeeps(env, t, id, todo);
  }

  lemma DoneWaking(jobs: map<Id, Job>, todo: set<Id>, id: Id)
    requires WakeInv(jobs, todo) && (id in jobs && jobs[id].status.Pending? ==> !AllDone(jobs, jobs[id].deps))
    ensures WakeInv(jobs, todo - {id})
  {}

  lemma DoomedMayCascade(env: Env, s: State, id: Id, todo: set<Id>)
    requires Partial(env, s, {}, todo) && id in s.jobs && s.jobs[id].status.Pending?
    ensures BeforeCascade(env, s, id, {}, todo)
  {
    WeakenSound(s.jobs, s.rev, {id});
  }

  lemma DoomKeeps(env: Env, s: State, id: Id, todo: set<Id>)
    requires Partial(env, s, {}, todo) && id in s.jobs && s.jobs[id].status.Pending?
    ensures Partial(env, Cascade(s, id), {}, todo - {id})
  {
    DoomedMayCascade(env, s, id, todo);
    CascadeKeeps(env, s, id, {}, todo);
    RootCanceled(s, id);
    Settled(env, Cascade(s, id), id, todo);
  }

  lemma Settled(env: Env, s: State, id: Id, todo: set<Id>)
    requires Partial(env, s, {}, todo)
    requires id in s.jobs && s.jobs[id].status.Pending? ==> !AllDone(s.jobs, s.jobs[id].deps)
    ensures Partial(env, s, {}, todo - {id})
  {
    DoneWaking(s.jobs, todo, id);
  }

  /** Re-evaluating a job settles it. */
  lemma TryPromoteKeeps(env: Env, s: State, id: Id, todo: set<Id>)
    requires Partial(env, s, {}, todo)
    ensures Partial(env, TryPromote(env, s, id), {}, todo - {id})
  {
    var t := TryPromote(env, s, id);
    if id !in s.jobs || !s.jobs[id].status.Pending? {
      Settled(env, s, id, todo);
    } else {
      JudgeByFirstUnmet(s.jobs, s.jobs[id].deps);
      assert s.jobs[id].id == id by { assert JobOk(env, s.clock, id, s.jobs[id]); }
      match Judge(s.jobs, s.jobs[id].deps)
      case Doomed(_) =>
        assert t == Cascade(s, id);
        DoomKeeps(env, s, id, todo);
      case Waiting =>
        Settled(env, s, id, todo);
      case Ready =>
        assert t == Promote(env, s, s.jobs[id]);
        PromoteKeeps(env, s, id, todo);
    }
  }

  lemma RootCanceled(s: State, root: Id)
    requires root in s.jobs && !s.jobs[root].status.Terminal()
    ensures Cascade(s, root).jobs[root].status.Canceled?
  {
    DownstreamRoot(s.rev, root);
  }

  lemma {:induction false} PromoteAllKeeps(env: Env, s: State, ids: seq<Id>, todo: set<Id>)
    requires Partial(env, s, {}, todo)
    ensures Partial(env, PromoteAll(env, s, ids), {}, todo - Elems(ids))
  {
    if ids == [] {
      assert todo - Elems(ids) == todo;
    } else {
      var init, last := ids[..|ids| - 1], ids[|ids| - 1];
      Snoc(ids);
      PromoteAllKeeps(env, s, init, todo);
      assert todo - Elems(ids) == todo - Elems(init) - {last};
      TryPromoteKeeps(env, PromoteAll(env, s, init), last, todo - Elems(init));
    }
  }

  // ----- results and requeues -----

  /** Dropping a lease leaves its running job unaccounted for; a canceled one needs no lease. */
  lemma DropLeaseKeeps(env: Env, s: State, task: Id, todo: set<Id>)
    requires Partial(env, s, {}, todo) && task in s.leases
    ensures var id := s.leases[task].jobID;
      && id in s.jobs
      && (s.jobs[id].status.Running? ==> Partial(env, DropLease(s, task), {id}, todo))
      && (!s.jobs[id].status.Running? ==> Partial(env, DropLease(s, task), {}, todo))
  {
    var id := s.leases[task].jobID;
    assert LeaseOk(env, s.jobs, {}, s.leases[task]);
    DropLeaseKeepsLeases(env, s, task);
    if s.jobs[id].status.Running? {
      RunningHasNoPlace(s.jobs, s.clock, s.ready, s.timers, id);
    }
  }

  lemma RunningHasNoPlace(jobs: map<Id, Job>, clock: int, ready: map<Id, Key>, timers: map<Id, int>, id: Id)
    requires QueueInv(jobs, clock, ready, timers, {}) && id in jobs && jobs[id].status.Running?
    ensures QueueInv(jobs, clock, ready, timers, {id})
  {
    forall x | x in ready ensures ReadyOk(jobs, clock, {id}, x, ready[x]) {
      assert ReadyOk(jobs, clock, {}, x, ready[x]);
    }
    forall x | x in timers ensures TimerOk(jobs, clock, {id}, x, timers[x]) {
      assert TimerOk(jobs, clock, {}, x, timers[x]);
    }
  }

  lemma DropLeaseKeepsLeases(env: Env, s: State, task: Id)
    requires LeaseInv(env, s.jobs, s.leases, {}) && task in s.leases
    ensures LeaseInv(env, s.jobs, s.leases - {task}, {s.leases[task].jobID})
    ensures s.leases[task].jobID in s.jobs && !s.jobs[s.leases[task].jobID].status.Running? ==>
      LeaseInv(env, s.jobs, s.leases - {task}, {})
  {
    var id, left := s.leases[task].jobID, s.leases - {task};
    forall t | t in left ensures LeaseOk(env, s.jobs, {}, left[t]) && left[t].jobID != id {
      assert LeaseOk(env, s.jobs, {}, s.leases[t]);
    }
    forall x | x in s.jobs && x != id && s.jobs[x].status.Running? ensures Leased(left, x) {
      var t :| t in s.leases && s.leases[t].jobID == x;
      assert t in left;
    }
  }

  /** A finished job leaves its dependents to be re-evaluated. */
  lemma FinishedKeeps(env: Env, s: State, id: Id)
    requires Partial(env, s, {id}, {}) && id in s.jobs && s.jobs[id].status.Running? && !CanRearm(env, s.jobs[id])
    ensures Partial(env, Finished(s, s.jobs[id]), {}, Dependents(s.rev, id))
  {
    var j := FinishedJob(s.jobs[id]);
    LegalFinish(env, s.clock, s.Stored(), id);
    PutKeepsDisk(env, s.clock, s.Stored(), j);
    NotPlaced(env, s, id, {id}, {});
    PutKeepsPlaces(s.jobs, s.clock, s.ready, s.timers, {id}, j);
    StaysOut(s.jobs[id := j], s.clock, s.ready, s.timers, {id}, id);
    assert {id} - {id} == {};
    PutKeepsLeases(env, s, j, {id});
    WithoutKeepsIndex(s.jobs, s.rev, j, {id});
    FinishedWakes(s.jobs, s.rev, j);
  }

  /** Only jobs indexed under the finished job can have become ready. */
  lemma FinishedWakes(jobs: map<Id, Job>, rev: map<Id, set<Id>>, j: Job)
    requires WakeInv(jobs, {}) && j.id in jobs && jobs[j.id].status.Running? && j.status.Succeeded?
    requires IndexComplete(jobs, rev, {j.id})
    ensures WakeInv(jobs[j.id := j], Dependents(rev, j.id))
  {
    var after := jobs[j.id := j];
    forall x | x in after && x !in Dependents(rev, j.id) && after[x].status.Pending?
      ensures !AllDone(after, after[x].deps)
    {
      var d :| d in jobs[x].deps && !Done(jobs, d);
      assert d != j.id;
      assert !Done(after, d);
    }
  }

  lemma NotOwnDependent(jobs: map<Id, Job>, rev: map<Id, set<Id>>, id: Id)
    requires Gated(jobs) && IndexSound(jobs, rev, {}) && id in jobs && jobs[id].status.Running?
    ensures Dependents(Without(rev, {id}), id) == Dependents(rev, id)
  {
    assert AllDone(jobs, jobs[id].deps);
    assert id in Dependents(rev, id) ==> EdgeOk(jobs, {}, id, id);
  }

  lemma PromoteAllClears(env: Env, s: State, ids: seq<Id>)
    requires Partial(env, s, {}, Elems(ids))
    ensures Partial(env, PromoteAll(env, s, ids), {}, {})
  {
    PromoteAllKeeps(env, s, ids, Elems(ids));
    assert Elems(ids) - Elems(ids) == {};
  }

  lemma FinishKeeps(env: Env, s: State, id: Id, order: seq<Id>)
    requires Partial(env, s, {id}, {}) && id in s.jobs && s.jobs[id].status.Running? && !CanRearm(env, s.jobs[id])
    requires Lists(order, Dependents(s.rev, id))
    ensures Partial(env, PromoteAll(env, Finished(s, s.jobs[id]), order), {}, {})
  {
    FinishedKeeps(env, s, id);
    PromoteAllClears(env, Finished(s, s.jobs[id]), order);
  }

  lemma SucceedKeeps(env: Env, s: State, id: Id, order: seq<Id>)
    requires Partial(env, s, {id}, {}) && id in s.jobs && s.jobs[id].status.Running?
    requires Lists(order, Dependents(Without(s.rev, {id}), id))
    ensures Partial(env, Succeed(env, s, id, order), {}, {})
  {
    var t := Succeed(env, s, id, order);
    if CanRearm(env, s.jobs[id]) {
      assert t == Rearm(env, s, s.jobs[id]);
      assert {id} - {id} == {};
      RearmKeeps(env, s, id, {id}, {});
    } else {
      NotOwnDependent(s.jobs, s.rev, id);
      FinishKeeps(env, s, id, order);
    }
  }

  lemma RequeueKeeps(env: Env, s: State, task: Id, at: int)
    requires Partial(env, s, {}, {})
    ensures Partial(env, Requeue(env, s, task, at), {}, {})
  {
    if task in s.leases {
      var id := s.leases[task].jobID;
      DropLeaseKeeps(env, s, task, {});
      if s.jobs[id].status.Running? {
        FailKeeps(env, DropLease(s, task), id, at, {id}, {});
        assert {id} - {id} == {};
      }
    }
  }

  lemma {:induction false} RequeueAllKeeps(env: Env, s: State, tasks: seq<Id>, times: map<Id, int>)
    requires Partial(env, s, {}, {})
    ensures Partial(env, RequeueAll(env, s, tasks, times), {}, {})
  {
    if tasks != [] {
      var init, last := tasks[..|tasks| - 1], tasks[|tasks| - 1];
      RequeueAllKeeps(env, s, init, times);
      RequeueKeeps(env, RequeueAll(env, s, init, times), last, RetryAt(times, last));
    }
  }

  lemma ReportKeeps(env: Env, s: State, task: Id, outcome: Outcome, order: seq<Id>, at: int)
    requires Partial(env, s, {}, {})
    requires task in s.leases && outcome.Success? ==>
      Lists(order, Dependents(Without(s.rev, {s.leases[task].jobID}), s.leases[task].jobID))
    ensures Partial(env, Report(env, s, task, outcome, order, at), {}, {})
  {
    if task in s.leases {
      var id := s.leases[task].jobID;
      DropLeaseKeeps(env, s, task, {});
      if s.jobs[id].status.Running? {
        assert {id} - {id} == {};
        match outcome
        case Success => SucceedKeeps(env, DropLease(s, task), id, order);
        case Failure => FailKeeps(env, DropLease(s, task), id, at, {id}, {});
        case Unspecified =>
      }
    }
  }
}
