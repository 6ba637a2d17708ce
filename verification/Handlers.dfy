/** Every handler keeps the invariant. */
module Handlers {
  import opened Prelude
  import opened Ordering
  import opened Jobs
  import opened Invariants
  import opened Preservation
  import Graph

  // ----- submission -----

  lemma NewKeepsIndex(jobs: map<Id, Job>, rev: map<Id, set<Id>>, j: Job)
    requires IndexSound(jobs, rev, {}) && IndexComplete(jobs, rev, {}) && j.id !in jobs
    ensures IndexSound(jobs[j.id := j], rev, {}) && IndexComplete(jobs[j.id := j], rev, {j.id})
  {
    forall d, x | d in rev && x in rev[d] ensures EdgeOk(jobs[j.id := j], {}, d, x) {
      assert EdgeOk(jobs, {}, d, x);
    }
  }

  /** Indexing a stored, unfinished job. */
  lemma WithDepsKeepsIndex(jobs: map<Id, Job>, rev: map<Id, set<Id>>, id: Id, raw: set<Id>)
    requires IndexSound(jobs, rev, {}) && IndexComplete(jobs, rev, raw + {id})
    requires id in jobs && !jobs[id].status.Terminal()
    ensures IndexSound(jobs, WithDeps(rev, id, jobs[id].deps), {})
    ensures IndexComplete(jobs, WithDeps(rev, id, jobs[id].deps), raw - {id})
  {
    var index := WithDeps(rev, id, jobs[id].deps);
    forall d, x | d in index && x in index[d] ensures EdgeOk(jobs, {}, d, x) {
      if x in Dependents(rev, d) { assert EdgeOk(jobs, {}, d, x); }
    }
    forall x, d | x in jobs && x !in raw - {id} && jobs[x].status.Pending? && d in jobs[x].deps
      ensures x in Dependents(index, d)
    {
      if x != id { assert x in Dependents(rev, d); }
    }
  }

  /** The cycle check makes the write of a new job legal. */
  lemma AcceptedStaysAcyclic(env: Env, s: State, job: Job)
    requires Accepted(env, s, job) && Graph.Acyclic(DepGraph(s.jobs))
    ensures Graph.Acyclic(DepGraph(s.jobs)[job.id := job.deps])
  {
    var g := DepGraph(s.jobs)[job.id := job.deps];
    if job.deps == [] { Graph.NoEdgesNoCycle(g, job.id); }
    Graph.NewCyclesPassThrough(DepGraph(s.jobs), job.id, job.deps);
  }

  lemma LegalNew(env: Env, s: State, job: Job, j: Job)
    requires DiskInv(env, s.clock, s.Stored()) && Accepted(env, s, job) && job.id !in s.jobs
    requires
      || j == Fresh(job, s.clock).(status := Canceled)
      || j == Fresh(job, s.clock).(status := Pending)
      || (j == ReadyJob(env, Fresh(job, s.clock), s.clock) && AllDone(s.jobs, job.deps))
    ensures LegalWrite(env, s.clock, s.Stored(), j)
  {
    AcceptedStaysAcyclic(env, s, job);
  }

  lemma PutNewKeeps(env: Env, s: State, j: Job)
    requires Partial(env, s, {}, {}) && LegalPut(env, s.clock, s.Stored(), j) && j.id !in s.jobs
    requires j.status.Canceled? || (j.status.Pending? && !AllDone(s.jobs, j.deps))
    ensures Partial(env, Put(s, j), {j.id}, {})
  {
    PutKeepsDisk(env, s.clock, s.Stored(), j);
    NotPlaced(env, s, j.id, {}, {});
    PutKeepsPlaces(s.jobs, s.clock, s.ready, s.timers, {}, j);
    assert {} + {j.id} == {j.id};
    PutKeepsLeases(env, s, j, {});
    LeasesForFewer(env, s.jobs[j.id := j], s.leases, j.id);
    PutKeepsWake(s.jobs, j, {});
    NewKeepsIndex(s.jobs, s.rev, j);
  }

  lemma LeasesForFewer(env: Env, jobs: map<Id, Job>, leases: map<Id, Lease>, id: Id)
    requires LeaseInv(env, jobs, leases, {} - {id}) && !Leased(leases, id)
    ensures LeaseInv(env, jobs, leases, {id})
  {
    forall t | t in leases ensures LeaseOk(env, jobs, {id}, leases[t]) {
      assert LeaseOk(env, jobs, {} - {id}, leases[t]);
    }
  }

  /** Nothing is missing for a job that is neither queued nor running nor waiting. */
  lemma CanceledNeedsNothing(env: Env, s: State, id: Id)
    requires Partial(env, s, {id}, {}) && id in s.jobs && s.jobs[id].status.Canceled?
    ensures Partial(env, s, {}, {})
  {
    assert {id} + {id} == {id} && {id} - {id} == {};
    StaysOut(s.jobs, s.clock, s.ready, s.timers, {id}, id);
    forall t | t in s.leases ensures LeaseOk(env, s.jobs, {}, s.leases[t]) {
      assert LeaseOk(env, s.jobs, {id}, s.leases[t]);
    }
  }

  lemma IndexedNeedsNothing(env: Env, s: State, id: Id)
    requires Partial(env, s, {id}, {}) && id in s.jobs && s.jobs[id].status.Pending?
    ensures Partial(env, Indexed(s, s.jobs[id]), {}, {})
  {
    assert s.jobs[id].id == id by { assert JobOk(env, s.clock, id, s.jobs[id]); }
    assert {id} + {id} == {id} && {id} - {id} == {};
    StaysOut(s.jobs, s.clock, s.ready, s.timers, {id}, id);
    forall t | t in s.leases ensures LeaseOk(env, s.jobs, {}, s.leases[t]) {
      assert LeaseOk(env, s.jobs, {id}, s.leases[t]);
    }
    WithDepsKeepsIndex(s.jobs, s.rev, id, {id});
  }

  lemma PlaceDoomedKeeps(env: Env, s: State, job: Job)
    requires Partial(env, s, {}, {}) && Accepted(env, s, job) && job.id !in s.jobs
    ensures Partial(env, Put(s, Fresh(job, s.clock).(status := Canceled)), {}, {})
  {
    var j := Fresh(job, s.clock).(status := Canceled);
    LegalNew(env, s, job, j);
    PutNewKeeps(env, s, j);
    CanceledNeedsNothing(env, Put(s, j), job.id);
  }

  lemma PlaceWaitingKeeps(env: Env, s: State, job: Job)
    requires Partial(env, s, {}, {}) && Accepted(env, s, job) && job.id !in s.jobs && !AllDone(s.jobs, job.deps)
    ensures Partial(env, Indexed(Put(s, Fresh(job, s.clock).(status := Pending)), Fresh(job, s.clock)), {}, {})
  {
    var j := Fresh(job, s.clock).(status := Pending);
    LegalNew(env, s, job, j);
    PutNewKeeps(env, s, j);
    IndexedNeedsNothing(env, Put(s, j), job.id);
  }

  lemma PlaceReadyKeeps(env: Env, s: State, job: Job)
    requires Partial(env, s, {}, {}) && Accepted(env, s, job) && job.id !in s.jobs && AllDone(s.jobs, job.deps)
    ensures Partial(env, MakeReady(env, s, Fresh(job, s.clock)), {}, {})
  {
    LegalNew(env, s, job, ReadyJob(env, Fresh(job, s.clock), s.clock));
    NotPlaced(env, s, job.id, {}, {});
    MakeReadyKeeps(env, s, Fresh(job, s.clock), {});
  }

  lemma PlaceNewKeeps(env: Env, s: State, job: Job)
    requires Partial(env, s, {}, {}) && Accepted(env, s, job) && job.id !in s.jobs
    ensures Partial(env, PlaceNew(env, s, Fresh(job, s.clock)), {}, {})
  {
    JudgeByFirstUnmet(s.jobs, job.deps);
    if Judge(s.jobs, job.deps).Ready? {
      PlaceReadyKeeps(env, s, job);
    } else if Judge(s.jobs, job.deps).Waiting? {
      PlaceWaitingKeeps(env, s, job);
    } else {
      PlaceDoomedKeeps(env, s, job);
    }
  }

  lemma SubmitKeeps(env: Env, s: State, job: Job)
    requires Inv(env, s) && s.leader && job.id !in s.jobs
    ensures Inv(env, Submit(env, s, job))
  {
    if Accepted(env, s, job) { PlaceNewKeeps(env, s, job); }
  }

  // ----- cancellation -----

  lemma CancelOneKeeps(env: Env, s: State, id: Id)
    requires Partial(env, s, {}, {}) && id in s.jobs && !s.jobs[id].status.Terminal()
    ensures BeforeCascade(env, Put(s, s.jobs[id].(status := Canceled)).(ready := s.ready - {id}), id, {}, {})
  {
    var j := s.jobs[id].(status := Canceled);
    assert j.id == id by { assert JobOk(env, s.clock, id, s.jobs[id]); }
    LegalCancel(env, s.clock, s.Stored(), id);
    PutKeepsDisk(env, s.clock, s.Stored(), j);
    PutKeepsWake(s.jobs, j, {});
    CancelOneKeepsPlaces(env, s, j);
    CancelOneKeepsIndex(s, j);
  }

  lemma CancelOneKeepsPlaces(env: Env, s: State, j: Job)
    requires QueueInv(s.jobs, s.clock, s.ready, s.timers, {}) && LeaseInv(env, s.jobs, s.leases, {})
    requires j.id in s.jobs && j == s.jobs[j.id].(status := Canceled) && !s.jobs[j.id].status.Terminal()
    ensures QueueInv(s.jobs[j.id := j], s.clock, s.ready - {j.id}, s.timers, {})
    ensures LeaseInv(env, s.jobs[j.id := j], s.leases, {})
  {
    var jobs := s.jobs[j.id := j];
    forall id | id in s.ready && id != j.id ensures ReadyOk(jobs, s.clock, {}, id, s.ready[id]) {
      assert ReadyOk(s.jobs, s.clock, {}, id, s.ready[id]);
    }
    forall id | id in s.timers ensures TimerOk(jobs, s.clock, {}, id, s.timers[id]) {
      assert TimerOk(s.jobs, s.clock, {}, id, s.timers[id]);
    }
    forall t | t in s.leases ensures LeaseOk(env, jobs, {}, s.leases[t]) {
      assert LeaseOk(env, s.jobs, {}, s.leases[t]);
      PutDone(s.jobs, j, s.jobs[s.leases[t].jobID].deps);
    }
  }

  lemma CancelOneKeepsIndex(s: State, j: Job)
    requires IndexSound(s.jobs, s.rev, {}) && IndexComplete(s.jobs, s.rev, {})
    requires j.id in s.jobs && j == s.jobs[j.id].(status := Canceled)
    ensures IndexSound(s.jobs[j.id := j], s.rev, {j.id}) && IndexComplete(s.jobs[j.id := j], s.rev, {})
  {
    forall d, x | d in s.rev && x in s.rev[d] ensures EdgeOk(s.jobs[j.id := j], {j.id}, d, x) {
      assert EdgeOk(s.jobs, {}, d, x);
    }
  }

  lemma CancelKeeps(env: Env, s: State, id: Id)
    requires Inv(env, s)
    ensures Inv(env, Cancel(s, id))
  {
    if s.leader && id != "" && id in s.jobs && !s.jobs[id].status.Terminal() {
      CancelOneKeeps(env, s, id);
      CascadeKeeps(env, Put(s, s.jobs[id].(status := Canceled)).(ready := s.ready - {id}), id, {}, {});
    }
  }

  // ----- dispatch -----

  lemma PoppedKeepsPlaces(jobs: map<Id, Job>, clock: int, ready: map<Id, Key>, timers: map<Id, int>, j: Job)
    requires QueueInv(jobs, clock, ready, timers, {}) && j.id in ready && j.status.Running?
    ensures QueueInv(jobs[j.id := j], clock, ready - {j.id}, timers, {})
  {
    var after := jobs[j.id := j];
    assert ReadyOk(jobs, clock, {}, j.id, ready[j.id]);
    forall x | x in ready && x != j.id ensures ReadyOk(after, clock, {}, x, ready[x]) {
      assert ReadyOk(jobs, clock, {}, x, ready[x]);
    }
    forall x | x in timers ensures TimerOk(after, clock, {}, x, timers[x]) && x != j.id {
      assert TimerOk(jobs, clock, {}, x, timers[x]);
    }
  }

  lemma NewLeaseKeepsLeases(env: Env, s: State, j: Job, task: Id, l: Lease)
    requires LeaseInv(env, s.jobs, s.leases, {}) && task !in s.leases
    requires j.id in s.jobs && s.jobs[j.id].status.Queued? && j.status.Running? && j.deps == s.jobs[j.id].deps
    requires AllDone(s.jobs, j.deps) && l == LeaseFor(env, j)
    ensures LeaseInv(env, s.jobs[j.id := j], s.leases[task := l], {})
  {
    var jobs, leases := s.jobs[j.id := j], s.leases[task := l];
    forall t | t in s.leases ensures LeaseOk(env, jobs, {}, s.leases[t]) && s.leases[t].jobID != j.id {
      assert LeaseOk(env, s.jobs, {}, s.leases[t]);
      PutDone(s.jobs, j, s.jobs[s.leases[t].jobID].deps);
    }
    PutDone(s.jobs, j, j.deps);
    forall id | id in jobs && jobs[id].status.Running? ensures Leased(leases, id) {
      if id == j.id {
        assert leases[task].jobID == id;
      } else {
        var t :| t in s.leases && s.leases[t].jobID == id;
        assert t in leases && leases[t].jobID == id;
      }
    }
  }

  lemma DispatchKeepsDisk(env: Env, clock: int, d: Disk, id: Id, worker: Id)
    requires DiskInv(env, clock, d) && id in d.jobs && d.jobs[id].status.Queued? && Due(d.jobs[id], clock)
    ensures d.jobs[id].id == id
    ensures DiskInv(env, clock, Disk(d.jobs[id := Dispatched(d.jobs[id], worker, clock)], d.dead))
  {
    assert JobOk(env, clock, id, d.jobs[id]);
    LegalDispatch(env, clock, d, id, worker);
    PutKeepsDisk(env, clock, d, Dispatched(d.jobs[id], worker, clock));
  }

  lemma DispatchKeepsMemory(env: Env, s: State, id: Id, worker: Id, task: Id)
    requires MemInv(env, s, {}, {}) && id in s.ready && task !in s.issued
    requires id in s.jobs && s.jobs[id].id == id && s.jobs[id].status.Queued? && AllDone(s.jobs, s.jobs[id].deps)
    ensures MemInv(env, Dispatch(env, s.(ready := s.ready - {id}), id, worker, task), {}, {})
  {
    var j := Dispatched(s.jobs[id], worker, s.clock);
    var l := LeaseFor(env, j);
    Mint(s.leases, s.issued, task, l);
    PoppedKeepsPlaces(s.jobs, s.clock, s.ready, s.timers, j);
    NewLeaseKeepsLeases(env, s, j, task, l);
    PutKeepsWake(s.jobs, j, {});
    RunningKeepsIndex(s.jobs, s.rev, j);
  }

  lemma Mint(leases: map<Id, Lease>, issued: set<Id>, task: Id, l: Lease)
    requires leases.Keys <= issued && task !in issued
    ensures task !in leases && leases[task := l].Keys <= issued + {task}
  {}

  lemma RunningKeepsIndex(jobs: map<Id, Job>, rev: map<Id, set<Id>>, j: Job)
    requires IndexSound(jobs, rev, {}) && IndexComplete(jobs, rev, {})
    requires j.id in jobs && jobs[j.id].deps == j.deps && j.status.Running?
    ensures IndexSound(jobs[j.id := j], rev, {}) && IndexComplete(jobs[j.id := j], rev, {})
  {
    assert {} - {j.id} == {};
    PutKeepsIndex(jobs, rev, j, {});
  }

  lemma DispatchKeeps(env: Env, s: State, id: Id, worker: Id, task: Id)
    requires Partial(env, s, {}, {}) && id in s.ready && task !in s.issued
    ensures id in s.jobs && s.jobs[id].status.Queued?
    ensures Partial(env, Dispatch(env, s.(ready := s.ready - {id}), id, worker, task), {}, {})
  {
    assert ReadyOk(s.jobs, s.clock, {}, id, s.ready[id]);
    DispatchKeepsDisk(env, s.clock, s.Stored(), id, worker);
    DispatchKeepsMemory(env, s, id, worker, task);
  }

  ghost predicate FreshTasks(issued: set<Id>, tasks: seq<Id>) {
    Elems(tasks) !! issued && Distinct(tasks)
  }

  lemma FreshTail(issued: set<Id>, tasks: seq<Id>)
    requires FreshTasks(issued, tasks) && tasks != []
    ensures tasks[0] !in issued && FreshTasks(issued + {tasks[0]}, tasks[1..])
  {
    assert tasks[0] in Elems(tasks);
    forall t | t in Elems(tasks[1..]) ensures t in Elems(tasks) && t != tasks[0] {}
  }

  lemma {:induction false} PollLoopKeeps(env: Env, s: State, worker: Id, tasks: seq<Id>)
    requires Partial(env, s, {}, {}) && FreshTasks(s.issued, tasks)
    ensures Partial(env, PollLoop(env, s, worker, tasks).state, {}, {})
    decreases |tasks|
  {
    if tasks != [] && s.ready != map[] {
      FreshTail(s.issued, tasks);
      DispatchKeeps(env, s, First(s.ready), worker, tasks[0]);
      PollUnfold(env, s, worker, tasks);
      PollLoopKeeps(env, LeaseFirst(env, s, worker, tasks[0]), worker, tasks[1..]);
    }
  }

  // ----- timers, sweeps, time -----

  lemma FireKeepsPlaces(jobs: map<Id, Job>, clock: int, ready: map<Id, Key>, timers: map<Id, int>, id: Id)
    requires QueueInv(jobs, clock, ready, timers, {}) && id in timers
    ensures id in jobs && QueueInv(jobs, clock, ready, timers - {id}, {id})
  {
    assert TimerOk(jobs, clock, {}, id, timers[id]);
    forall x | x in ready ensures ReadyOk(jobs, clock, {id}, x, ready[x]) {
      assert ReadyOk(jobs, clock, {}, x, ready[x]);
    }
    forall x | x in timers && x != id ensures TimerOk(jobs, clock, {id}, x, timers[x]) {
      assert TimerOk(jobs, clock, {}, x, timers[x]);
    }
  }

  lemma FireKeeps(env: Env, s: State, id: Id)
    requires Inv(env, s) && id in s.timers && s.timers[id] <= s.clock
    ensures Inv(env, Fire(s, id))
  {
    assert TimerOk(s.jobs, s.clock, {}, id, s.timers[id]);
    FireKeepsPlaces(s.jobs, s.clock, s.ready, s.timers, id);
    assert {} + {id} == {id} && {} - {id} == {};
    if s.jobs[id].status.Queued? {
      EnterKeepsPlaces(s.jobs, s.clock, s.ready, s.timers - {id}, {}, id, s.clock);
    } else {
      StaysOut(s.jobs, s.clock, s.ready, s.timers - {id}, {}, id);
    }
  }

  lemma ReapKeeps(env: Env, s: State, orphans: seq<Id>, overdue: seq<Id>, times: map<Id, int>)
    requires Inv(env, s)
    ensures Inv(env, Reap(env, s, orphans, overdue, times))
  {
    if s.leader {
      var t := SweepWorkers(env, s);
      assert Partial(env, t, {}, {});
      RequeueAllKeeps(env, t, orphans, times);
      RequeueAllKeeps(env, RequeueAll(env, t, orphans, times), overdue, times);
    }
  }

  lemma TimePasses(env: Env, s: State, now: int)
    requires Inv(env, s) && s.clock <= now
    ensures Inv(env, s.(clock := now))
  {
    DiskLater(env, s.clock, now, s.Stored());
    forall x | x in s.ready ensures s.leader && ReadyOk(s.jobs, now, {}, x, s.ready[x]) {
      assert ReadyOk(s.jobs, s.clock, {}, x, s.ready[x]);
    }
    forall x | x in s.timers ensures s.leader && TimerOk(s.jobs, now, {}, x, s.timers[x]) {
      assert TimerOk(s.jobs, s.clock, {}, x, s.timers[x]);
    }
  }
}
