/** Taking leadership rebuilds the scheduling state from whatever store a crash or a previous
    leader left behind (internal/scheduler/server.go, rebuildSchedulingState). */
module Recovery {
  import opened Prelude
  import opened Jobs
  import opened Invariants
  import opened Preservation
  import opened Handlers

  // ----- the first loop -----

  lemma FewerLeases(env: Env, jobs: map<Id, Job>, leases: map<Id, Lease>, raw: set<Id>, id: Id)
    requires LeaseInv(env, jobs, leases, raw) && (id in jobs ==> !jobs[id].status.Running?)
    ensures LeaseInv(env, jobs, leases, raw - {id})
  {
    forall t | t in leases ensures LeaseOk(env, jobs, raw - {id}, leases[t]) {
      assert LeaseOk(env, jobs, raw, leases[t]);
    }
  }

  /** A finished job needs nothing in memory. */
  lemma RecoverTerminalKeeps(env: Env, s: State, id: Id, raw: set<Id>, todo: set<Id>)
    requires Partial(env, s, raw, todo) && id in raw && id in s.jobs && s.jobs[id].status.Terminal()
    ensures Partial(env, s, raw - {id}, todo)
  {
    assert raw + {id} == raw;
    StaysOut(s.jobs, s.clock, s.ready, s.timers, raw, id);
    FewerLeases(env, s.jobs, s.leases, raw, id);
  }

  lemma IndexedKeeps(env: Env, s: State, id: Id, raw: set<Id>, todo: set<Id>)
    requires Partial(env, s, raw, todo) && id in raw && id in s.jobs && !s.jobs[id].status.Terminal()
    ensures Partial(env, Indexed(s, s.jobs[id]), raw, todo)
    ensures IndexComplete(s.jobs, Indexed(s, s.jobs[id]).rev, raw - {id})
  {
    assert s.jobs[id].id == id by { assert JobOk(env, s.clock, id, s.jobs[id]); }
    assert raw + {id} == raw;
    WithDepsKeepsIndex(s.jobs, s.rev, id, raw);
  }

  lemma RecoverPendingKeeps(env: Env, s: State, id: Id, raw: set<Id>, todo: set<Id>)
    requires Partial(env, s, raw, todo) && id in raw && id in s.jobs && s.jobs[id].status.Pending?
    ensures Partial(env, Indexed(s, s.jobs[id]), raw - {id}, todo)
  {
    IndexedKeeps(env, s, id, raw, todo);
    assert raw + {id} == raw;
    StaysOut(s.jobs, s.clock, s.ready, s.timers, raw, id);
    FewerLeases(env, s.jobs, s.leases, raw, id);
  }

  lemma RecoverQueuedKeeps(env: Env, s: State, id: Id, raw: set<Id>, todo: set<Id>)
    requires Partial(env, s, raw, todo) && id in raw && id in s.jobs && s.jobs[id].status.Queued?
    requires IndexComplete(s.jobs, s.rev, raw - {id})
    ensures Partial(env, Relisted(s, s.jobs[id]), raw - {id}, todo)
  {
    NotPlaced(env, s, id, raw, todo);
    FewerLeases(env, s.jobs, s.leases, raw, id);
    RelistedKeepsPlaces(env, s, id, raw);
  }

  lemma RelistedKeepsPlaces(env: Env, s: State, id: Id, raw: set<Id>)
    requires QueueInv(s.jobs, s.clock, s.ready, s.timers, raw) && id in raw
    requires id in s.jobs && JobOk(env, s.clock, id, s.jobs[id]) && s.jobs[id].status.Queued? && id !in s.ready
    ensures var t := Relisted(s, s.jobs[id]); QueueInv(t.jobs, t.clock, t.ready, t.timers, raw - {id})
  {
    var j := s.jobs[id];
    assert raw + {id} == raw;
    var at := if j.scheduledAt.Some? then j.scheduledAt.value else 0;
    EnterKeepsPlaces(s.jobs, s.clock, s.ready, s.timers, raw, id, at);
  }

  lemma RecoverKeeps(env: Env, s: State, id: Id, at: int, raw: set<Id>, todo: set<Id>)
    requires Partial(env, s, raw, todo) && id in raw && id in s.jobs
    ensures Partial(env, Recover(env, s, s.jobs[id], at), raw - {id}, todo)
  {
    var j := s.jobs[id];
    assert j.id == id by { assert JobOk(env, s.clock, id, s.jobs[id]); }
    var t := Recover(env, s, j, at);
    match j.status
    case Pending =>
      assert t == Indexed(s, j);
      RecoverPendingKeeps(env, s, id, raw, todo);
    case Queued =>
      assert t == Relisted(Indexed(s, j), j);
      IndexedKeeps(env, s, id, raw, todo);
      RecoverQueuedKeeps(env, Indexed(s, j), id, raw, todo);
    case Running =>
      assert t == Fail(env, Indexed(s, j), j, at);
      IndexedKeeps(env, s, id, raw, todo);
      FailKeeps(env, Indexed(s, j), id, at, raw, todo);
    case _ =>
      assert t == s;
      RecoverTerminalKeeps(env, s, id, raw, todo);
  }

  /** No job still to be recovered is in the index as a dependent. */
  ghost predicate Unindexed(rev: map<Id, set<Id>>, raw: set<Id>) {
    forall d, x :: d in rev && x in rev[d] ==> x !in raw
  }

  /** A failure touches only the failed job and what is indexed downstream of it. */
  lemma FailFrame(env: Env, s: State, j: Job, at: int, raw: set<Id>)
    requires Unindexed(s.rev, raw) && j.id !in raw && j.id in s.jobs
    ensures var t := Fail(env, s, j, at);
      && t.jobs.Keys == s.jobs.Keys
      && t.leases == s.leases
      && Unindexed(t.rev, raw)
      && (forall x :: x in raw && x in s.jobs ==> t.jobs[x] == s.jobs[x])
      && (forall x :: x in s.jobs && t.jobs[x].status.Pending? ==> s.jobs[x].status.Pending?)
  {
    if j.attempt >= j.Limit() && !CanRearm(env, j) {
      BuriedFrame(s, j, raw);
    }
  }

  lemma BuriedFrame(s: State, j: Job, raw: set<Id>)
    requires Unindexed(s.rev, raw) && j.id !in raw && j.id in s.jobs
    ensures var t := Cascade(Buried(s, j), j.id);
      && t.jobs.Keys == s.jobs.Keys
      && t.leases == s.leases
      && Unindexed(t.rev, raw)
      && (forall x :: x in raw && x in s.jobs ==> t.jobs[x] == s.jobs[x])
      && (forall x :: x in s.jobs && t.jobs[x].status.Pending? ==> s.jobs[x].status.Pending?)
  {
    var u := Buried(s, j);
    forall x | x in Downstream(u.rev, j.id) ensures x !in raw {}
  }

  /** Recovering one job touches no job still to be recovered. */
  lemma RecoverFrame(env: Env, s: State, j: Job, at: int, raw: set<Id>)
    requires Unindexed(s.rev, raw) && j.id !in raw && j.id in s.jobs
    ensures var t := Recover(env, s, j, at);
      && t.jobs.Keys == s.jobs.Keys
      && t.leases == s.leases
      && Unindexed(t.rev, raw)
      && (forall x :: x in raw && x in s.jobs ==> t.jobs[x] == s.jobs[x])
      && (forall x :: x in s.jobs && t.jobs[x].status.Pending? ==> s.jobs[x].status.Pending?)
  {
    var t := Indexed(s, j);
    assert Unindexed(t.rev, raw);
    if j.status.Running? { FailFrame(env, t, j, at, raw); }
  }

  /** The state of the first loop with `raw` still ahead of it. */
  ghost predicate Recovering(env: Env, s: State, snap: map<Id, Job>, raw: set<Id>) {
    && Partial(env, s, raw, snap.Keys)
    && s.jobs.Keys == snap.Keys && s.leases == map[] && Unindexed(s.rev, raw)
    && (forall x :: x in raw ==> x in snap && s.jobs[x] == snap[x])
    && (forall x :: x in snap && s.jobs[x].status.Pending? ==> snap[x].status.Pending?)
  }

  lemma RecoverStep(env: Env, s: State, snap: map<Id, Job>, id: Id, at: int, raw: set<Id>)
    requires Recovering(env, s, snap, raw) && id in raw
    ensures Recovering(env, Recover(env, s, snap[id], at), snap, raw - {id})
  {
    assert s.jobs[id].id == id by { assert JobOk(env, s.clock, id, s.jobs[id]); }
    RecoverKeeps(env, s, id, at, raw, snap.Keys);
    RecoverFrame(env, s, snap[id], at, raw - {id});
  }

  lemma Shrinks(keys: set<Id>, ids: seq<Id>)
    requires ids != [] && Distinct(ids) && ids[|ids| - 1] in keys
    ensures var init, last := ids[..|ids| - 1], ids[|ids| - 1];
      last in keys - Elems(init) && keys - Elems(init) - {last} == keys - Elems(ids)
  {
    Snoc(ids);
  }

  lemma {:induction false} RecoverAllSteps(env: Env, s: State, snap: map<Id, Job>, ids: seq<Id>, times: map<Id, int>)
    requires Recovering(env, s, snap, snap.Keys)
    requires (forall id :: id in ids ==> id in snap) && Distinct(ids)
    ensures Recovering(env, RecoverAll(env, s, snap, ids, times), snap, snap.Keys - Elems(ids))
  {
    if ids == [] {
      assert snap.Keys - Elems(ids) == snap.Keys;
    } else {
      var init, last := ids[..|ids| - 1], ids[|ids| - 1];
      Snoc(ids);
      RecoverAllSteps(env, s, snap, init, times);
      Shrinks(snap.Keys, ids);
      RecoverStep(env, RecoverAll(env, s, snap, init, times), snap, last, RetryAt(times, last),
        snap.Keys - Elems(init));
    }
  }

  lemma ClearedRecovers(env: Env, s: State)
    requires DiskInv(env, s.clock, s.Stored())
    ensures Recovering(env, Cleared(s).(leader := true), s.jobs, s.jobs.Keys)
  {}

  // ----- the second loop -----

  lemma {:induction false} PendingOfElems(snap: map<Id, Job>, ids: seq<Id>)
    requires forall id :: id in ids ==> id in snap
    ensures forall x :: x in PendingOf(snap, ids) <==> x in ids && snap[x].status.Pending?
  {
    if ids != [] {
      var init := ids[..|ids| - 1];
      PendingOfElems(snap, init);
      assert ids == init + [ids[|ids| - 1]];
    }
  }

  /** Every waiting job has, first among its unmet dependencies, one that can still succeed. */
  ghost predicate HopeInv(jobs: map<Id, Job>, todo: set<Id>) {
    forall x :: x in jobs && x !in todo && jobs[x].status.Pending? ==> Judge(jobs, jobs[x].deps).Waiting?
  }

  lemma {:induction false} JudgeSame(a: map<Id, Job>, b: map<Id, Job>, deps: seq<Id>)
    requires forall d :: d in deps ==> (Done(a, d) <==> Done(b, d)) && (Lost(a, d) <==> Lost(b, d))
    ensures Judge(a, deps) == Judge(b, deps)
  {
    if deps != [] {
      assert forall d :: d in deps[1..] ==> d in deps;
      JudgeSame(a, b, deps[1..]);
    }
  }

  /** A job that keeps waiting through a cascade depends on none of the victims. */
  lemma CascadeKeepsHope(s: State, root: Id, todo: set<Id>)
    requires Gated(s.jobs) && IndexSound(s.jobs, s.rev, {root})
    requires IndexComplete(s.jobs, s.rev, {}) && CascadeFrom(s, root)
    requires HopeInv(s.jobs, todo)
    ensures HopeInv(Cascade(s, root).jobs, todo)
  {
    var t := Cascade(s, root);
    VictimsWait(s, root);
    forall x | x in t.jobs && x !in todo && t.jobs[x].status.Pending? ensures Judge(t.jobs, t.jobs[x].deps).Waiting? {
      forall d | d in s.jobs[x].deps ensures d !in Victims(s, root) {
        assert x in Dependents(s.rev, d);
        if d in Victims(s, root) { DownstreamClosed(s.rev, root, d, x); }
      }
      JudgeSame(s.jobs, t.jobs, s.jobs[x].deps);
    }
  }

  lemma PromoteKeepsHope(env: Env, s: State, id: Id, todo: set<Id>)
    requires HopeInv(s.jobs, todo) && id in s.jobs && s.jobs[id].status.Pending? && s.jobs[id].id == id
    ensures HopeInv(Promote(env, s, s.jobs[id]).jobs, todo)
  {
    var t := Promote(env, s, s.jobs[id]);
    assert t.jobs == s.jobs[id := ReadyJob(env, s.jobs[id], s.clock)];
    forall x | x in t.jobs && x !in todo && t.jobs[x].status.Pending? ensures Judge(t.jobs, t.jobs[x].deps).Waiting? {
      JudgeSame(s.jobs, t.jobs, s.jobs[x].deps);
    }
  }

  lemma TryPromoteSettles(env: Env, s: State, id: Id, todo: set<Id>)
    requires Partial(env, s, {}, todo) && HopeInv(s.jobs, todo)
    ensures HopeInv(TryPromote(env, s, id).jobs, todo - {id})
  {
    if id in s.jobs && s.jobs[id].status.Pending? {
      assert s.jobs[id].id == id by { assert JobOk(env, s.clock, id, s.jobs[id]); }
      match Judge(s.jobs, s.jobs[id].deps)
      case Doomed(_) =>
        WeakenSound(s.jobs, s.rev, {id});
        CascadeKeepsHope(s, id, todo);
        RootCanceled(s, id);
      case Waiting =>
      case Ready => PromoteKeepsHope(env, s, id, todo);
    }
  }

  lemma {:induction false} PromoteAllSettles(env: Env, s: State, ids: seq<Id>, todo: set<Id>)
    requires Partial(env, s, {}, todo) && HopeInv(s.jobs, todo)
    ensures HopeInv(PromoteAll(env, s, ids).jobs, todo - Elems(ids))
  {
    if ids == [] {
      assert todo - Elems(ids) == todo;
    } else {
      var init, last := ids[..|ids| - 1], ids[|ids| - 1];
      Snoc(ids);
      PromoteAllKeeps(env, s, init, todo);
      PromoteAllSettles(env, s, init, todo);
      assert todo - Elems(ids) == todo - Elems(init) - {last};
      TryPromoteSettles(env, PromoteAll(env, s, init), last, todo - Elems(init));
    }
  }

  // ----- recovery as a whole -----

  lemma SecondLoopStarts(env: Env, s: State, ids: seq<Id>, times: map<Id, int>)
    requires DiskInv(env, s.clock, s.Stored()) && Lists(ids, s.jobs.Keys)
    ensures (forall id :: id in ids ==> id in s.jobs) &&
      var t := RecoverAll(env, Cleared(s).(leader := true), s.jobs, ids, times);
      var todo := Elems(PendingOf(s.jobs, ids));
      && Partial(env, t, {}, todo) && HopeInv(t.jobs, todo) && t.leases == map[]
      && (forall x :: x in t.jobs && t.jobs[x].status.Pending? ==> x in todo)
  {
    assert forall id :: id in ids ==> id in Elems(ids);
    ClearedRecovers(env, s);
    RecoverAllSteps(env, Cleared(s).(leader := true), s.jobs, ids, times);
    assert s.jobs.Keys - Elems(ids) == {};
    PendingOfElems(s.jobs, ids);
    var t := RecoverAll(env, Cleared(s).(leader := true), s.jobs, ids, times);
    forall x | x in t.jobs && t.jobs[x].status.Pending? ensures x in Elems(PendingOf(s.jobs, ids)) {
      assert x in Elems(ids);
    }
  }

  /** Recovery, from any store that satisfies the store invariant: the node leads with a full
      invariant, no lease and hence no running job, every queued job in the queue or a timer,
      every waiting job indexed under all its dependencies, and each of them waiting for a
      dependency that can still succeed. */
  lemma LeadRecovers(env: Env, s: State, ids: seq<Id>, times: map<Id, int>)
    requires DiskInv(env, s.clock, s.Stored()) && Lists(ids, s.jobs.Keys)
    ensures (forall id :: id in ids ==> id in s.jobs) &&
      var t := Lead(env, s, ids, times);
      && t.leader && Inv(env, t)
      && t.leases == map[]
      && (forall id :: id in t.jobs ==> !t.jobs[id].status.Running?)
      && HopeInv(t.jobs, {})
  {
    SecondLoopStarts(env, s, ids, times);
    var u := RecoverAll(env, Cleared(s).(leader := true), s.jobs, ids, times);
    var pending := PendingOf(s.jobs, ids);
    PromoteAllClears(env, u, pending);
    PromoteAllSettles(env, u, pending, Elems(pending));
    assert Elems(pending) - Elems(pending) == {};
    var t := Lead(env, s, ids, times);
    forall id | id in t.jobs ensures !t.jobs[id].status.Running? {
      assert !Leased(t.leases, id);
    }
  }
}
