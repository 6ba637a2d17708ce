/** Re-evaluating waiting jobs one by one, in whatever order a Go map yields them, has a result
    that can be read off the jobs before: it does not depend on the order. */
module Wakeups {
  import opened Prelude
  import opened Jobs
  import opened Invariants
  import opened Preservation
  import opened Recovery
  import opened Consequences

  ghost predicate Wakes(jobs: map<Id, Job>, x: Id) {
    x in jobs && jobs[x].status.Pending? && Judge(jobs, jobs[x].deps).Ready?
  }

  ghost predicate Falls(jobs: map<Id, Job>, x: Id) {
    x in jobs && jobs[x].status.Pending? && Judge(jobs, jobs[x].deps).Doomed?
  }

  /** `z` waits for a job of `m` that falls, or is one. */
  ghost predicate Fallen(jobs: map<Id, Job>, m: set<Id>, z: Id) {
    exists x :: x in m && Falls(jobs, x) && WaitsFor(jobs, z, x)
  }

  /** The jobs once those in `m` have been re-evaluated: the ones with nothing left to wait for
      are queued, the ones held up by a lost job are canceled with all that waits for them. */
  ghost function Woken(env: Env, jobs: map<Id, Job>, m: set<Id>, clock: int): map<Id, Job> {
    map z | z in jobs ::
      if z in m && Wakes(jobs, z) then ReadyJob(env, jobs[z], clock)
      else if Fallen(jobs, m, z) then jobs[z].(status := Canceled)
      else jobs[z]
  }

  // ----- waiting -----

  lemma WaitsForSelf(jobs: map<Id, Job>, x: Id)
    requires x in jobs && !jobs[x].status.Terminal()
    ensures WaitsFor(jobs, x, x)
  {
    assert WaitChain(jobs, x, x, [x]);
  }

  lemma WaitsForTransitive(jobs: map<Id, Job>, z: Id, y: Id, x: Id)
    requires WaitsFor(jobs, z, y) && WaitsFor(jobs, y, x)
    ensures WaitsFor(jobs, z, x)
  {
    var p :| WaitChain(jobs, z, y, p);
    var q :| WaitChain(jobs, y, x, q);
    var r := p + q[1..];
    forall i | 0 <= i < |r| - 1 ensures r[i + 1] in Graph.Next(DepGraph(jobs), r[i]) {
      if i < |p| - 1 {
        assert r[i + 1] == p[i + 1];
      } else {
        assert r[i] == q[i - |p| + 1] && r[i + 1] == q[i - |p| + 1 + 1];
      }
    }
    assert WaitChain(jobs, z, x, r);
  }

  /** A job that waits for another has a dependency that has not succeeded. */
  lemma WaitsIsUnmet(jobs: map<Id, Job>, z: Id, x: Id)
    requires WaitsFor(jobs, z, x) && z != x
    ensures z in jobs && !AllDone(jobs, jobs[z].deps)
  {
    var p :| WaitChain(jobs, z, x, p);
    assert p[0 + 1] in Graph.Next(DepGraph(jobs), p[0]);
    assert !Done(jobs, p[1]);
  }

  lemma FallenWaits(jobs: map<Id, Job>, m: set<Id>, z: Id)
    requires Gated(jobs) && Fallen(jobs, m, z)
    ensures z in jobs && jobs[z].status.Pending? && !Wakes(jobs, z)
  {
    var x :| x in m && Falls(jobs, x) && WaitsFor(jobs, z, x);
    JudgeByFirstUnmet(jobs, jobs[x].deps);
    var p :| WaitChain(jobs, z, x, p);
    if z != x {
      WaitsIsUnmet(jobs, z, x);
      JudgeByFirstUnmet(jobs, jobs[z].deps);
    }
  }

  /** What has fallen takes along everything that waits for it. */
  lemma FallenCloses(jobs: map<Id, Job>, m: set<Id>, z: Id, y: Id)
    requires Fallen(jobs, m, y) && WaitsFor(jobs, z, y)
    ensures Fallen(jobs, m, z)
  {
    var x :| x in m && Falls(jobs, x) && WaitsFor(jobs, y, x);
    WaitsForTransitive(jobs, z, y, x);
  }

  /** Chains of waiting jobs clear of the fallen are not touched. */
  lemma ChainStaysUp(env: Env, jobs: map<Id, Job>, m: set<Id>, clock: int, z: Id, x: Id)
    requires Gated(jobs) && !Fallen(jobs, m, z)
    ensures WaitsFor(Woken(env, jobs, m, clock), z, x) <==> WaitsFor(jobs, z, x)
  {
    var after := Woken(env, jobs, m, clock);
    assert DepGraph(after) == DepGraph(jobs);
    if WaitsFor(jobs, z, x) {
      var p :| WaitChain(jobs, z, x, p);
      forall k | 0 <= k < |p| ensures !after[p[k]].status.Terminal() {
        if Fallen(jobs, m, p[k]) {
          ChainPrefix(jobs, z, x, p, k);
          FallenCloses(jobs, m, z, p[k]);
        }
      }
      assert WaitChain(after, z, x, p);
    }
    if WaitsFor(after, z, x) {
      var p :| WaitChain(after, z, x, p);
      forall k | 0 <= k < |p| ensures !jobs[p[k]].status.Terminal() {}
      assert WaitChain(jobs, z, x, p);
    }
  }

  lemma ChainPrefix(jobs: map<Id, Job>, z: Id, x: Id, p: seq<Id>, k: nat)
    requires WaitChain(jobs, z, x, p) && k < |p|
    ensures WaitsFor(jobs, z, p[k])
  {
    var q := p[..k + 1];
    forall i | 0 <= i < |q| - 1 ensures q[i + 1] in Graph.Next(DepGraph(jobs), q[i]) {
      assert q[i + 1] == p[i + 1];
    }
    assert WaitChain(jobs, z, p[k], q);
  }

  // ----- one more job -----

  /** A job still waiting is judged as it would have been at the start. */
  lemma JudgedAlike(env: Env, jobs: map<Id, Job>, m: set<Id>, clock: int, x: Id)
    requires Gated(jobs) && x in jobs && jobs[x].status.Pending? && !Fallen(jobs, m, x)
    ensures Judge(Woken(env, jobs, m, clock), jobs[x].deps) == Judge(jobs, jobs[x].deps)
  {
    var after := Woken(env, jobs, m, clock);
    forall d | d in jobs[x].deps ensures (Done(after, d) <==> Done(jobs, d)) && (Lost(after, d) <==> Lost(jobs, d)) {
      if Fallen(jobs, m, d) {
        FallenWaits(jobs, m, d);
        WaitsForSelf(jobs, d);
        ChainLonger(jobs, x, d, d);
        FallenCloses(jobs, m, x, d);
      }
    }
    JudgeSame(after, jobs, jobs[x].deps);
  }

  /** Re-evaluating a job that no longer waits, or that goes on waiting, adds nothing. */
  lemma NothingMore(env: Env, jobs: map<Id, Job>, m: set<Id>, clock: int, x: Id)
    requires Gated(jobs) && (x in m || !Wakes(jobs, x)) && (Falls(jobs, x) ==> Fallen(jobs, m, x))
    ensures Woken(env, jobs, m + {x}, clock) == Woken(env, jobs, m, clock)
  {
    forall z | Fallen(jobs, m + {x}, z) ensures Fallen(jobs, m, z) {
      var y :| y in m + {x} && Falls(jobs, y) && WaitsFor(jobs, z, y);
      if y == x { FallenCloses(jobs, m, z, x); }
    }
    forall z | Fallen(jobs, m, z) ensures Fallen(jobs, m + {x}, z) {}
  }

  lemma OneWakes(env: Env, jobs: map<Id, Job>, m: set<Id>, clock: int, x: Id)
    requires Gated(jobs) && Wakes(jobs, x)
    ensures Woken(env, jobs, m + {x}, clock) == Woken(env, jobs, m, clock)[x := ReadyJob(env, jobs[x], clock)]
  {
    forall z ensures Fallen(jobs, m + {x}, z) <==> Fallen(jobs, m, z) {
      if y :| y in m + {x} && Falls(jobs, y) && WaitsFor(jobs, z, y) { assert y in m; }
    }
  }

  lemma OneFalls(env: Env, jobs: map<Id, Job>, m: set<Id>, clock: int, x: Id, z: Id)
    requires Gated(jobs) && Falls(jobs, x) && z in jobs
    ensures Woken(env, jobs, m + {x}, clock)[z]
         == if WaitsFor(jobs, z, x) then jobs[z].(status := Canceled) else Woken(env, jobs, m, clock)[z]
  {
    if WaitsFor(jobs, z, x) {
      assert Fallen(jobs, m + {x}, z);
      FallenWaits(jobs, m + {x}, z);
    } else {
      assert Fallen(jobs, m + {x}, z) <==> Fallen(jobs, m, z);
    }
  }

  /** The jobs once `x` has fallen. */
  ghost function Felled(jobs: map<Id, Job>, x: Id): map<Id, Job> {
    map z | z in jobs :: if WaitsFor(jobs, z, x) then jobs[z].(status := Canceled) else jobs[z]
  }

  lemma FelledIsWoken(env: Env, jobs: map<Id, Job>, m: set<Id>, clock: int, x: Id)
    requires Gated(jobs) && Falls(jobs, x)
    ensures Felled(Woken(env, jobs, m, clock), x) == Woken(env, jobs, m + {x}, clock)
  {
    var after := Woken(env, jobs, m, clock);
    forall z | z in jobs ensures Felled(after, x)[z] == Woken(env, jobs, m + {x}, clock)[z] {
      OneFalls(env, jobs, m, clock, x, z);
      if Fallen(jobs, m, z) {
        FallenWaits(jobs, m, z);
      } else {
        ChainStaysUp(env, jobs, m, clock, z, x);
        if WaitsFor(jobs, z, x) {
          assert Fallen(jobs, m + {x}, z);
          FallenWaits(jobs, m + {x}, z);
        }
      }
    }
  }

  /** The jobs once `x` has been re-evaluated. */
  ghost function Reevaluated(env: Env, jobs: map<Id, Job>, x: Id, clock: int): map<Id, Job> {
    if Wakes(jobs, x) then jobs[x := ReadyJob(env, jobs[x], clock)]
    else if Falls(jobs, x) then Felled(jobs, x)
    else jobs
  }

  lemma ReevaluatedIsWoken(env: Env, jobs: map<Id, Job>, m: set<Id>, clock: int, x: Id)
    requires Gated(jobs)
    ensures Reevaluated(env, Woken(env, jobs, m, clock), x, clock) == Woken(env, jobs, m + {x}, clock)
  {
    var after := Woken(env, jobs, m, clock);
    if Fallen(jobs, m, x) { FallenWaits(jobs, m, x); }
    if x !in after || !after[x].status.Pending? {
      NothingMore(env, jobs, m, clock, x);
    } else {
      JudgedAlike(env, jobs, m, clock, x);
      if Wakes(jobs, x) {
        OneWakes(env, jobs, m, clock, x);
      } else if Falls(jobs, x) {
        FelledIsWoken(env, jobs, m, clock, x);
      } else {
        NothingMore(env, jobs, m, clock, x);
      }
    }
  }

  lemma CascadeFells(env: Env, s: State, x: Id, todo: set<Id>)
    requires Partial(env, s, {}, todo) && x in s.jobs && !s.jobs[x].status.Terminal()
    ensures Cascade(s, x).jobs == Felled(s.jobs, x)
  {
    forall z | z in s.jobs ensures z in Victims(s, x) <==> WaitsFor(s.jobs, z, x) {
      DownstreamIsWaiting(env, s, x, z, todo);
    }
  }

  lemma TryPromoteReevaluates(env: Env, s: State, x: Id, todo: set<Id>)
    requires Partial(env, s, {}, todo)
    ensures TryPromote(env, s, x).jobs == Reevaluated(env, s.jobs, x, s.clock)
  {
    if Falls(s.jobs, x) { CascadeFells(env, s, x, todo); }
    if x in s.jobs { assert JobOk(env, s.clock, x, s.jobs[x]); }
  }

  /** The loop as a whole. */
  lemma {:induction false} PromoteAllIsWoken(env: Env, s: State, ids: seq<Id>, todo: set<Id>)
    requires Partial(env, s, {}, todo)
    ensures PromoteAll(env, s, ids).jobs == Woken(env, s.jobs, Elems(ids), s.clock)
  {
    if ids != [] {
      var init, last := ids[..|ids| - 1], ids[|ids| - 1];
      Snoc(ids);
      PromoteAllIsWoken(env, s, init, todo);
      PromoteAllKeeps(env, s, init, todo);
      TryPromoteReevaluates(env, PromoteAll(env, s, init), last, todo - Elems(init));
      ReevaluatedIsWoken(env, s.jobs, Elems(init), s.clock, last);
    }
  }

  /** Whatever the order, and however often a job is listed, the records come out the same. */
  lemma OrderIrrelevant(env: Env, s: State, xs: seq<Id>, ys: seq<Id>, todo: set<Id>)
    requires Partial(env, s, {}, todo) && Elems(xs) == Elems(ys)
    ensures PromoteAll(env, s, xs).jobs == PromoteAll(env, s, ys).jobs
  {
    PromoteAllIsWoken(env, s, xs, todo);
    PromoteAllIsWoken(env, s, ys, todo);
  }

  // ----- a success, and a recovery -----

  /** Only the waiting jobs of `m` matter. */
  lemma WokenByPending(env: Env, jobs: map<Id, Job>, m: set<Id>, n: set<Id>, clock: int)
    requires forall x :: x in jobs && jobs[x].status.Pending? ==> (x in m <==> x in n)
    ensures Woken(env, jobs, m, clock) == Woken(env, jobs, n, clock)
  {
    forall z ensures Fallen(jobs, m, z) <==> Fallen(jobs, n, z) {
      if x :| x in m && Falls(jobs, x) && WaitsFor(jobs, z, x) { assert x in n; }
      if x :| x in n && Falls(jobs, x) && WaitsFor(jobs, z, x) { assert x in m; }
    }
  }

  ghost function DependsOn(jobs: map<Id, Job>, id: Id): set<Id> {
    set y | y in jobs && id in jobs[y].deps
  }

  /** Finishing a job: the jobs that depend on it are re-evaluated, each of them and no other. */
  lemma FinishWakes(env: Env, s: State, id: Id, order: seq<Id>)
    requires Partial(env, s, {id}, {}) && id in s.jobs && s.jobs[id].status.Running? && !CanRearm(env, s.jobs[id])
    requires Lists(order, Dependents(Without(s.rev, {id}), id))
    ensures var jobs := s.jobs[id := FinishedJob(s.jobs[id])];
      Succeed(env, s, id, order).jobs == Woken(env, jobs, DependsOn(jobs, id), s.clock)
  {
    var u := Finished(s, s.jobs[id]);
    assert s.jobs[id].id == id by { assert JobOk(env, s.clock, id, s.jobs[id]); }
    FinishedKeeps(env, s, id);
    PromoteAllIsWoken(env, u, order, Dependents(s.rev, id));
    PendingDependents(u.jobs, u.rev, id);
    WokenByPending(env, u.jobs, Elems(order), DependsOn(u.jobs, id), s.clock);
  }

  lemma PendingDependents(jobs: map<Id, Job>, rev: map<Id, set<Id>>, id: Id)
    requires IndexSound(jobs, rev, {}) && IndexComplete(jobs, rev, {})
    ensures forall x :: x in jobs && jobs[x].status.Pending? ==>
      (x in Dependents(rev, id) <==> x in DependsOn(jobs, id))
  {
    forall x | x in Dependents(rev, id) ensures x in DependsOn(jobs, id) {
      assert EdgeOk(jobs, {}, id, x);
    }
  }

  /** What a reported success does to the records, exactly, whatever order the index yields: the
      job has succeeded, a job that waited for nothing else is queued, and one whose first unmet
      dependency is now a lost one is canceled with everything that waits for it. */
  lemma SuccessIsExact(env: Env, s: State, task: Id, order: seq<Id>, at: int)
    requires Inv(env, s) && s.leader && task in s.leases
    requires var id := s.leases[task].jobID;
      && id in s.jobs && s.jobs[id].status.Running? && !CanRearm(env, s.jobs[id])
      && Lists(order, Dependents(Without(s.rev, {id}), id))
    ensures var id := s.leases[task].jobID; var jobs := s.jobs[id := FinishedJob(s.jobs[id])];
      Report(env, s, task, Success, order, at).jobs == Woken(env, jobs, DependsOn(jobs, id), s.clock)
  {
    var id, u := s.leases[task].jobID, DropLease(s, task);
    DropLeaseKeeps(env, s, task, {});
    FinishWakes(env, u, id, order);
  }

  /** The second recovery loop re-evaluates every waiting job; the order of the list is
      irrelevant to it. */
  lemma SecondLoopIsExact(env: Env, s: State, ids: seq<Id>, times: map<Id, int>)
    requires DiskInv(env, s.clock, s.Stored()) && Lists(ids, s.jobs.Keys)
    ensures (forall id :: id in ids ==> id in s.jobs) &&
      var u := RecoverAll(env, Cleared(s).(leader := true), s.jobs, ids, times);
      Lead(env, s, ids, times).jobs == Woken(env, u.jobs, u.jobs.Keys, u.clock)
  {
    SecondLoopStarts(env, s, ids, times);
    var u := RecoverAll(env, Cleared(s).(leader := true), s.jobs, ids, times);
    var pending := PendingOf(s.jobs, ids);
    PromoteAllIsWoken(env, u, pending, Elems(pending));
    WokenByPending(env, u.jobs, Elems(pending), u.jobs.Keys, u.clock);
  }
}
