/** The scheduler node as the mutable object of the source (internal/scheduler). Each method is
    proved to do to the node's state, `View`, what the functions of module Jobs say; the ghost
    `trail` records the store after every single write, and every one of those writes is legal,
    so a crash between any two of them is a crash that module Runs allows for. */
module Server {
  import opened Prelude
  import opened Ordering
  import opened Jobs
  import opened Invariants
  import opened Handlers
  import opened Recovery
  import opened Runs
  import opened Consequences
  import Graph
  import Queue
  import Retry

  // ----- facts about the value-level functions that the loops below need -----

  lemma WithDepsMore(rev: map<Id, set<Id>>, id: Id, deps: seq<Id>, i: nat)
    requires i < |deps|
    ensures var part := WithDeps(rev, id, deps[..i]);
      WithDeps(rev, id, deps[..i + 1]) == part[deps[i] := Dependents(part, deps[i]) + {id}]
  {
    assert deps[..i + 1] == deps[..i] + [deps[i]];
  }

  lemma WithoutMore(rev: map<Id, set<Id>>, a: set<Id>, b: set<Id>)
    ensures Without(Without(rev, a), b) == Without(rev, a + b)
  {
    forall d | d in rev ensures rev[d] - a - b == rev[d] - (a + b) {}
  }

  /** The state of the cancel loop once `visited` has been dealt with. */
  function CascadeAt(s: State, visited: set<Id>): State {
    if visited == {} then s else CascadePart(s, visited)
  }

  lemma UnfinishedMore(jobs: map<Id, Job>, visited: set<Id>, cur: Id)
    requires cur !in visited
    ensures cur !in Unfinished(jobs, visited)
    ensures Unfinished(jobs, visited + {cur})
      == if cur in jobs && !jobs[cur].status.Terminal() then Unfinished(jobs, visited) + {cur}
        else Unfinished(jobs, visited)
  {}

  lemma CancelOneMore(jobs: map<Id, Job>, xs: set<Id>, cur: Id)
    requires cur in jobs && cur !in xs
    ensures WithCanceled(jobs, xs + {cur}) == WithCanceled(jobs, xs)[cur := jobs[cur].(status := Canceled)]
  {}

  /** Dealing with one more job of the cascade. */
  lemma CascadeJobs(s: State, visited: set<Id>, cur: Id)
    requires cur !in visited && cur in s.jobs && !s.jobs[cur].status.Terminal()
    ensures var t := CascadePart(s, visited); var u := CascadePart(s, visited + {cur});
      u.jobs == t.jobs[cur := s.jobs[cur].(status := Canceled)] && u.ready == t.ready - {cur}
  {
    var xs := Unfinished(s.jobs, visited);
    UnfinishedMore(s.jobs, visited, cur);
    CancelOneMore(s.jobs, xs, cur);
    assert s.ready - (xs + {cur}) == s.ready - xs - {cur};
  }

  lemma CascadeSkips(s: State, visited: set<Id>, cur: Id)
    requires cur !in visited && !(cur in s.jobs && !s.jobs[cur].status.Terminal())
    ensures var t := CascadePart(s, visited); var u := CascadePart(s, visited + {cur});
      u.jobs == t.jobs && u.ready == t.ready
  {
    UnfinishedMore(s.jobs, visited, cur);
  }

  lemma Untouched(s: State, visited: set<Id>, cur: Id)
    requires cur !in visited
    ensures var t := CascadeAt(s, visited);
      (cur in t.jobs <==> cur in s.jobs) && (cur in s.jobs ==> t.jobs[cur] == s.jobs[cur])
  {}

  lemma CascadeStarts(s: State, visited: set<Id>)
    ensures CascadeAt(s, visited).jobs == CascadePart(s, visited).jobs
    ensures CascadeAt(s, visited).ready == CascadePart(s, visited).ready
  {
    if visited == {} {
      assert Unfinished(s.jobs, {}) == {};
      assert WithCanceled(s.jobs, {}) == s.jobs && s.ready - {} == s.ready;
    }
  }

  lemma CascadeIndex(s: State, visited: set<Id>, cur: Id)
    ensures Without(CascadeAt(s, visited).rev, {cur}) == Without(s.rev, visited + {cur})
    ensures forall x :: Dependents(CascadeAt(s, visited).rev, x) == Dependents(s.rev, x) - visited
  {
    if visited == {} { assert {} + {cur} == {cur}; } else { WithoutMore(s.rev, visited, {cur}); }
  }

  function WithoutJob(s: State, cur: Id): State {
    if cur in s.jobs && !s.jobs[cur].status.Terminal()
    then s.(jobs := s.jobs[cur := s.jobs[cur].(status := Canceled)], ready := s.ready - {cur})
    else s
  }

  /** One iteration of the cancel loop. */
  function Visit(s: State, cur: Id): State {
    WithoutJob(s, cur).(rev := Without(s.rev, {cur}))
  }

  lemma VisitUnfinished(s: State, visited: set<Id>, cur: Id)
    requires cur !in visited && cur in s.jobs && !s.jobs[cur].status.Terminal()
    ensures CascadePart(s, visited + {cur}) == Visit(CascadeAt(s, visited), cur)
  {
    CascadeStarts(s, visited);
    CascadeIndex(s, visited, cur);
    Untouched(s, visited, cur);
    CascadeJobs(s, visited, cur);
  }

  lemma VisitFinished(s: State, visited: set<Id>, cur: Id)
    requires cur !in visited && !(cur in s.jobs && !s.jobs[cur].status.Terminal())
    ensures CascadePart(s, visited + {cur}) == Visit(CascadeAt(s, visited), cur)
  {
    CascadeStarts(s, visited);
    CascadeIndex(s, visited, cur);
    Untouched(s, visited, cur);
    CascadeSkips(s, visited, cur);
  }

  lemma CascadeStep(s: State, visited: set<Id>, cur: Id)
    requires cur !in visited
    ensures CascadeAt(s, visited + {cur}) == Visit(CascadeAt(s, visited), cur)
    ensures Dependents(CascadeAt(s, visited).rev, cur) == Dependents(s.rev, cur) - visited
  {
    CascadeIndex(s, visited, cur);
    if cur in s.jobs && !s.jobs[cur].status.Terminal() {
      VisitUnfinished(s, visited, cur);
    } else {
      VisitFinished(s, visited, cur);
    }
  }

  /** Where the cancel loop stands: everything it has seen is downstream of the root, and what
      the visited jobs lead to has been visited or is on the work list. */
  ghost predicate Frontier(rev: map<Id, set<Id>>, root: Id, visited: set<Id>, work: set<Id>) {
    && visited <= Downstream(rev, root) && work <= Downstream(rev, root)
    && root in visited + work
    && forall x :: x in visited ==> Dependents(rev, x) <= visited + work
  }

  lemma FrontierStart(rev: map<Id, set<Id>>, root: Id)
    ensures Frontier(rev, root, {}, {root})
  {
    DownstreamRoot(rev, root);
  }

  lemma FrontierSkips(rev: map<Id, set<Id>>, root: Id, visited: set<Id>, work: set<Id>, cur: Id)
    requires Frontier(rev, root, visited, work + {cur}) && cur in visited
    ensures Frontier(rev, root, visited, work)
  {
    assert visited + (work + {cur}) == visited + work;
  }

  lemma FrontierMoves(rev: map<Id, set<Id>>, root: Id, visited: set<Id>, work: set<Id>, cur: Id, more: set<Id>)
    requires Frontier(rev, root, visited, work + {cur}) && more == Dependents(rev, cur) - visited
    ensures Frontier(rev, root, visited + {cur}, work + more)
  {
    assert cur in Downstream(rev, root);
    forall y | y in more ensures y in Downstream(rev, root) { DownstreamClosed(rev, root, cur, y); }
    forall x | x in visited + {cur} ensures Dependents(rev, x) <= (visited + {cur}) + (work + more) {
      if x in visited { assert Dependents(rev, x) <= visited + (work + {cur}); }
    }
  }

  lemma SkipLast(rev: map<Id, set<Id>>, root: Id, visited: set<Id>, work: seq<Id>)
    requires work != [] && Frontier(rev, root, visited, Elems(work)) && work[|work| - 1] in visited
    ensures Frontier(rev, root, visited, Elems(work[..|work| - 1]))
  {
    Snoc(work);
    FrontierSkips(rev, root, visited, Elems(work[..|work| - 1]), work[|work| - 1]);
  }

  lemma MoveLast(rev: map<Id, set<Id>>, root: Id, visited: set<Id>, work: seq<Id>, dependents: seq<Id>)
    requires work != [] && Frontier(rev, root, visited, Elems(work))
    requires Elems(dependents) == Dependents(rev, work[|work| - 1]) - visited
    ensures work[|work| - 1] in Downstream(rev, root)
    ensures Frontier(rev, root, visited + {work[|work| - 1]}, Elems(work[..|work| - 1] + dependents))
  {
    var init := work[..|work| - 1];
    Snoc(work);
    FrontierMoves(rev, root, visited, Elems(init), work[|work| - 1], Elems(dependents));
    assert Elems(init + dependents) == Elems(init) + Elems(dependents);
  }

  /** A closed set that holds the root and lies downstream of it is the downstream set. */
  lemma CascadeDone(s: State, root: Id, visited: set<Id>)
    requires Frontier(s.rev, root, visited, {})
    ensures CascadeAt(s, visited) == Cascade(s, root)
  {
    forall x, y | x in visited && y in Dependents(s.rev, x) ensures y in visited {
      assert Dependents(s.rev, x) <= visited + {};
    }
    DownstreamLeast(s.rev, root, visited);
    assert visited == Downstream(s.rev, root);
    assert Unfinished(s.jobs, visited) == Victims(s, root);
  }

  lemma PromoteMore(env: Env, s: State, ids: seq<Id>, i: nat)
    requires i < |ids|
    ensures PromoteAll(env, s, ids[..i + 1]) == Jobs.TryPromote(env, PromoteAll(env, s, ids[..i]), ids[i])
  {
    assert ids[..i + 1][..i] == ids[..i];
  }

  lemma TrailGrows(env: Env, clock: int, ds: seq<Disk>, d: Disk)
    requires Trail(env, clock, ds) && Wrote(env, clock, ds[|ds| - 1], d)
    ensures Trail(env, clock, ds + [d])
  {
    var es := ds + [d];
    forall i | 0 <= i < |es| - 1 ensures Wrote(env, clock, es[i], es[i + 1]) {
      if i < |ds| - 1 { assert es[i] == ds[i] && es[i + 1] == ds[i + 1]; }
    }
  }

  // ----- the dispatch loop -----

  /** Everything in the queue that is still queued is due. */
  ghost predicate ReadyIsDue(s: State) {
    forall id :: id in s.ready && id in s.jobs && s.jobs[id].status.Queued? ==> Due(s.jobs[id], s.clock)
  }

  ghost predicate Leasable(s: State) {
    s.ready != map[] && First(s.ready) in s.jobs && s.jobs[First(s.ready)].status.Queued?
  }

  ghost function PoppedStale(s: State): State
    requires s.ready != map[]
  {
    s.(ready := s.ready - {First(s.ready)})
  }

  ghost function FirstAssignment(env: Env, s: State, worker: Id, task: Id): Assignment
    requires Leasable(s)
  {
    Assignment(task, LeaseFor(env, Dispatched(s.jobs[First(s.ready)], worker, s.clock)))
  }

  /** What is left to do in state `u`, together with `out`, is what the poll does. */
  ghost predicate PolledSoFar(env: Env, s: State, worker: Id, tasks: seq<Id>, u: State, out: seq<Assignment>) {
    && |out| <= |tasks|
    && var rest := PollLoop(env, u, worker, tasks[|out|..]);
    PollLoop(env, s, worker, tasks) == Polled(rest.state, out + rest.out)
  }

  lemma SoFarStarts(env: Env, s: State, worker: Id, tasks: seq<Id>)
    ensures PolledSoFar(env, s, worker, tasks, s, [])
  {
    assert tasks[0..] == tasks;
    var p := PollLoop(env, s, worker, tasks);
    assert [] + p.out == p.out;
  }

  lemma SoFarGoesOn(env: Env, s: State, worker: Id, tasks: seq<Id>, u: State, out: seq<Assignment>)
    requires PolledSoFar(env, s, worker, tasks, u, out) && |out| < |tasks|
    ensures u.ready != map[] && !Leasable(u) ==>
      PolledSoFar(env, s, worker, tasks, PoppedStale(u), out) && |PoppedStale(u).ready| < |u.ready|
    ensures Leasable(u) ==>
      PolledSoFar(env, s, worker, tasks, LeaseFirst(env, u, worker, tasks[|out|]),
        out + [FirstAssignment(env, u, worker, tasks[|out|])])
  {
    var left := tasks[|out|..];
    assert left[0] == tasks[|out|] && left[1..] == tasks[|out| + 1..];
    if u.ready != map[] { PopShrinks(u.ready, First(u.ready)); }
    if Leasable(u) {
      PollUnfold(env, u, worker, left);
      var rest := PollLoop(env, LeaseFirst(env, u, worker, left[0]), worker, left[1..]);
      var a := FirstAssignment(env, u, worker, left[0]);
      assert out + ([a] + rest.out) == out + [a] + rest.out;
    }
  }

  lemma SoFarEnds(env: Env, s: State, worker: Id, tasks: seq<Id>, u: State, out: seq<Assignment>)
    requires PolledSoFar(env, s, worker, tasks, u, out) && (|out| == |tasks| || u.ready == map[])
    ensures PollLoop(env, s, worker, tasks) == Polled(u, out)
  {
    assert out + [] == out;
  }

  // ----- lost attempts -----

  lemma RetryIgnoresLeases(s: State, job: Job, at: int, leases: map<Id, Lease>)
    ensures Requeued(s.(leases := leases), job, at) == Requeued(s, job, at).(leases := leases)
  {}

  lemma RearmIgnoresLeases(env: Env, s: State, job: Job, leases: map<Id, Lease>)
    requires CanRearm(env, job)
    ensures Rearm(env, s.(leases := leases), job) == Rearm(env, s, job).(leases := leases)
  {}

  lemma BuryIgnoresLeases(s: State, job: Job, leases: map<Id, Lease>)
    ensures Bury(s.(leases := leases), job) == Bury(s, job).(leases := leases)
  {
    var u, v := Buried(s, job), Buried(s.(leases := leases), job);
    assert Victims(u, job.id) == Victims(v, job.id);
  }

  /** A failure neither looks at the lease table nor changes it. */
  lemma FailIgnoresLeases(env: Env, s: State, job: Job, at: int, leases: map<Id, Lease>)
    ensures Fail(env, s.(leases := leases), job, at) == Fail(env, s, job, at).(leases := leases)
  {
    var u := s.(leases := leases);
    if job.attempt < job.Limit() {
      RetryIgnoresLeases(s, job, at, leases);
      assert Fail(env, u, job, at) == Requeued(u, job, at) && Fail(env, s, job, at) == Requeued(s, job, at);
    } else if CanRearm(env, job) {
      RearmIgnoresLeases(env, s, job, leases);
      assert Fail(env, u, job, at) == Rearm(env, u, job) && Fail(env, s, job, at) == Rearm(env, s, job);
    } else {
      BuryIgnoresLeases(s, job, leases);
      assert Fail(env, u, job, at) == Bury(u, job) && Fail(env, s, job, at) == Bury(s, job);
    }
  }

  // ----- the reaper -----

  /** The members of a set, in some order. */
  method Listing(m: set<Id>) returns (xs: seq<Id>)
    ensures Lists(xs, m)
  {
    xs := [];
    var left := m;
    while left != {}
      invariant left <= m && Elems(xs) == m - left && Distinct(xs)
      decreases left
    {
      var x :| x in left;
      assert Elems(xs + [x]) == Elems(xs) + {x};
      assert x !in Elems(xs);
      xs := xs + [x];
      left := left - {x};
    }
  }

  lemma {:induction false} RequeueAllAgree(env: Env, s: State, tasks: seq<Id>, a: map<Id, int>, b: map<Id, int>)
    requires forall k :: k in Elems(tasks) ==> RetryAt(a, k) == RetryAt(b, k)
    ensures RequeueAll(env, s, tasks, a) == RequeueAll(env, s, tasks, b)
  {
    if tasks != [] {
      Snoc(tasks);
      RequeueAllAgree(env, s, tasks[..|tasks| - 1], a, b);
    }
  }

  lemma {:induction false} RequeueAllConcat(env: Env, s: State, a: seq<Id>, b: seq<Id>, times: map<Id, int>)
    ensures RequeueAll(env, s, a + b, times) == RequeueAll(env, RequeueAll(env, s, a, times), b, times)
  {
    if b == [] {
      assert a + b == a;
    } else {
      var all, init := a + b, b[..|b| - 1];
      assert all[..|all| - 1] == a + init && all[|all| - 1] == b[|b| - 1];
      RequeueAllConcat(env, s, a, init, times);
    }
  }

  lemma RequeueMore(env: Env, s: State, tasks: seq<Id>, i: nat, times: map<Id, int>, at: int)
    requires i < |tasks| && Distinct(tasks)
    ensures RequeueAll(env, s, tasks[..i + 1], times[tasks[i] := at])
         == Requeue(env, RequeueAll(env, s, tasks[..i], times), tasks[i], at)
  {
    assert tasks[..i + 1][..i] == tasks[..i];
    assert tasks[i] !in Elems(tasks[..i]);
    RequeueAllAgree(env, s, tasks[..i], times, times[tasks[i] := at]);
  }

  lemma SpacedAgree(env: Env, s: State, tasks: seq<Id>, a: map<Id, int>, b: map<Id, int>)
    requires (forall k :: k in Elems(tasks) ==> RetryAt(a, k) == RetryAt(b, k)) && AllSpaced(env, s, tasks, a)
    ensures AllSpaced(env, s, tasks, b)
  {
    forall i | 0 <= i < |tasks| ensures TurnSpaced(env, s, tasks, i, b) {
      assert TurnSpaced(env, s, tasks, i, a) && tasks[i] in Elems(tasks);
      assert forall k :: k in Elems(tasks[..i]) ==> k in Elems(tasks);
      RequeueAllAgree(env, s, tasks[..i], a, b);
    }
  }

  /** The same turn of another list. */
  lemma TurnAlike(env: Env, s: State, xs: seq<Id>, ys: seq<Id>, i: nat, times: map<Id, int>)
    requires i < |xs| && i < |ys| && xs[..i] == ys[..i] && xs[i] == ys[i] && TurnSpaced(env, s, xs, i, times)
    ensures TurnSpaced(env, s, ys, i, times)
  {}

  lemma SpacedMore(env: Env, s: State, tasks: seq<Id>, i: nat, times: map<Id, int>, at: int)
    requires i < |tasks| && Distinct(tasks) && AllSpaced(env, s, tasks[..i], times)
    requires TaskSpaced(RequeueAll(env, s, tasks[..i], times), tasks[i], at)
    ensures AllSpaced(env, s, tasks[..i + 1], times[tasks[i] := at])
  {
    var after, init, all := times[tasks[i] := at], tasks[..i], tasks[..i + 1];
    assert tasks[i] !in Elems(init);
    SpacedAgree(env, s, init, times, after);
    RequeueAllAgree(env, s, init, times, after);
    forall k | 0 <= k < |all| ensures TurnSpaced(env, s, all, k, after) {
      if k < i {
        assert all[..k] == init[..k] && all[k] == init[k];
        TurnAlike(env, s, init, all, k, after);
      } else {
        assert all[..k] == init && all[k] == tasks[i];
      }
    }
  }

  lemma SpacedBefore(env: Env, s: State, a: seq<Id>, all: seq<Id>, times: map<Id, int>, k: nat)
    requires a <= all && k < |a| && TurnSpaced(env, s, a, k, times)
    ensures TurnSpaced(env, s, all, k, times)
  {
    assert all[..k] == a[..k] && all[k] == a[k];
  }

  lemma SpacedAfter(env: Env, s: State, a: seq<Id>, b: seq<Id>, all: seq<Id>, times: map<Id, int>, k: nat)
    requires all == a + b && |a| <= k < |all| && TurnSpaced(env, RequeueAll(env, s, a, times), b, k - |a|, times)
    ensures TurnSpaced(env, s, all, k, times)
  {
    var rest := b[..k - |a|];
    assert all[..k] == a + rest && all[k] == b[k - |a|];
    RequeueAllConcat(env, s, a, rest, times);
  }

  lemma SpacedConcat(env: Env, s: State, a: seq<Id>, b: seq<Id>, all: seq<Id>, times: map<Id, int>)
    requires all == a + b && AllSpaced(env, s, a, times) && AllSpaced(env, RequeueAll(env, s, a, times), b, times)
    ensures AllSpaced(env, s, all, times)
  {
    forall k: nat | k < |all| ensures TurnSpaced(env, s, all, k, times) {
      if k < |a| { SpacedBefore(env, s, a, all, times, k); } else { SpacedAfter(env, s, a, b, all, times, k); }
    }
  }

  lemma OrphansStaySpaced(env: Env, s: State, orphans: seq<Id>, times: map<Id, int>, tasks: seq<Id>, more: map<Id, int>)
    requires AllSpaced(env, s, orphans, times) && AllSpaced(env, RequeueAll(env, s, orphans, times), tasks, more)
    requires forall k :: k !in Elems(tasks) ==> RetryAt(more, k) == RetryAt(times, k)
    requires Elems(orphans) !! Elems(tasks)
    ensures AllSpaced(env, s, orphans + tasks, more)
  {
    SpacedAgree(env, s, orphans, times, more);
    RequeueAllAgree(env, s, orphans, times, more);
    SpacedConcat(env, s, orphans, tasks, orphans + tasks, more);
  }

  lemma OrphansMore(env: Env, s: State, deadIDs: seq<Id>, i: nat, orphans: seq<Id>, times: map<Id, int>,
                    tasks: seq<Id>, more: map<Id, int>)
    requires i < |deadIDs| && Distinct(deadIDs)
    requires Lists(orphans, LeasesOf(s, Elems(deadIDs[..i])))
    requires Lists(tasks, LeasesOf(RequeueAll(env, s, orphans, times), {deadIDs[i]}))
    requires forall k :: k !in Elems(tasks) ==> RetryAt(more, k) == RetryAt(times, k)
    ensures Lists(orphans + tasks, LeasesOf(s, Elems(deadIDs[..i + 1]))) && Elems(orphans) !! Elems(tasks)
    ensures RequeueAll(env, s, orphans + tasks, more) ==
      RequeueAll(env, RequeueAll(env, s, orphans, times), tasks, more)
  {
    RequeueAllLeases(env, s, orphans, times);
    assert deadIDs[..i + 1] == deadIDs[..i] + [deadIDs[i]];
    assert Elems(deadIDs[..i + 1]) == Elems(deadIDs[..i]) + {deadIDs[i]};
    assert deadIDs[i] !in Elems(deadIDs[..i]);
    assert Elems(orphans + tasks) == Elems(orphans) + Elems(tasks);
    DistinctConcat(orphans, tasks);
    RequeueAllAgree(env, s, orphans, times, more);
    RequeueAllConcat(env, s, orphans, tasks, more);
  }

  lemma DistinctConcat(a: seq<Id>, b: seq<Id>)
    requires Distinct(a) && Distinct(b) && Elems(a) !! Elems(b)
    ensures Distinct(a + b)
  {
    assert forall i :: 0 <= i < |a| ==> a[i] in Elems(a);
    assert forall i :: 0 <= i < |b| ==> b[i] in Elems(b);
  }

  /** The two phases of a sweep requeue different tasks, so one table of retry times serves both. */
  lemma PhasesApart(env: Env, s: State, orphans: seq<Id>, first: map<Id, int>, overdue: seq<Id>, times: map<Id, int>)
    requires Lists(overdue, Expired(RequeueAll(env, s, orphans, first))) && AllSpaced(env, s, orphans, first)
    requires forall k :: k !in Elems(overdue) ==> RetryAt(times, k) == RetryAt(first, k)
    ensures RequeueAll(env, s, orphans, times) == RequeueAll(env, s, orphans, first)
    ensures AllSpaced(env, s, orphans, times)
  {
    RequeueAllLeases(env, s, orphans, first);
    RequeueAllAgree(env, s, orphans, times, first);
    SpacedAgree(env, s, orphans, first, times);
  }

  // ----- taking leadership -----

  ghost predicate Listed(ids: seq<Id>, jobs: map<Id, Job>) {
    forall id :: id in ids ==> id in jobs
  }

  lemma ListedKeys(ids: seq<Id>, jobs: map<Id, Job>)
    requires Lists(ids, jobs.Keys)
    ensures Listed(ids, jobs)
  {
    assert forall id :: id in ids ==> id in Elems(ids);
  }

  lemma {:induction false} RecoverAllAgree(env: Env, s: State, snap: map<Id, Job>, ids: seq<Id>,
                                           a: map<Id, int>, b: map<Id, int>)
    requires Listed(ids, snap) && forall k :: k in Elems(ids) ==> RetryAt(a, k) == RetryAt(b, k)
    ensures RecoverAll(env, s, snap, ids, a) == RecoverAll(env, s, snap, ids, b)
  {
    if ids != [] {
      Snoc(ids);
      RecoverAllAgree(env, s, snap, ids[..|ids| - 1], a, b);
    }
  }

  lemma RecoverMore(env: Env, s: State, snap: map<Id, Job>, ids: seq<Id>, i: nat, times: map<Id, int>, at: int)
    requires i < |ids| && Distinct(ids) && Listed(ids, snap)
    ensures RecoverAll(env, s, snap, ids[..i + 1], times[ids[i] := at])
         == Recover(env, RecoverAll(env, s, snap, ids[..i], times), snap[ids[i]], at)
  {
    assert ids[..i + 1][..i] == ids[..i];
    assert ids[i] !in Elems(ids[..i]);
    RecoverAllAgree(env, s, snap, ids[..i], times, times[ids[i] := at]);
  }

  /** What the first loop has made of the store `s` after the jobs in `ids`. */
  ghost function Rebuilt(env: Env, s: State, ids: seq<Id>, times: map<Id, int>): State
    requires Listed(ids, s.jobs)
  {
    RecoverAll(env, Cleared(s).(leader := true), s.jobs, ids, times)
  }

  lemma OrphansSpacedMore(jobs: map<Id, Job>, clock: int, ids: seq<Id>, i: nat, times: map<Id, int>, at: int)
    requires i < |ids| && Distinct(ids) && Listed(ids, jobs) && OrphansSpaced(jobs, clock, ids[..i], times)
    requires jobs[ids[i]].status.Running? ==> Spaced(jobs[ids[i]], clock, at)
    ensures OrphansSpaced(jobs, clock, ids[..i + 1], times[ids[i] := at])
  {
    assert ids[..i + 1] == ids[..i] + [ids[i]];
  }

  /** The next job of the loop is still as it was listed. */
  lemma Unrecovered(env: Env, s: State, ids: seq<Id>, i: nat, times: map<Id, int>)
    requires DiskInv(env, s.clock, s.Stored()) && i < |ids| && Lists(ids, s.jobs.Keys) && Listed(ids, s.jobs)
    ensures var id, t := ids[i], Rebuilt(env, s, ids[..i], times);
      s.jobs[id].id == id && id in t.jobs && t.jobs[id] == s.jobs[id]
  {
    ClearedRecovers(env, s);
    RecoverAllSteps(env, Cleared(s).(leader := true), s.jobs, ids[..i], times);
    assert ids[i] in s.jobs.Keys - Elems(ids[..i]);
    assert JobOk(env, s.clock, ids[i], s.jobs[ids[i]]);
  }

  datatype Submission = Stored(id: Id) | NotLeader | NoJob | NoCommand | BadCron | Cyclic

  /** The first check a submission fails, if any. */
  ghost function SubmitAnswer(env: Env, s: State, request: Option<Job>): Submission {
    if !s.leader then NotLeader
    else if request.None? then NoJob
    else
      var job := request.value;
      if job.command == "" then NoCommand
      else if job.Recurs() && !env.parses(job.schedule.expr) then BadCron
      else if job.deps != [] && Graph.RunsIntoCycle(DepGraph(s.jobs)[job.id := job.deps], job.id) then Cyclic
      else Stored(job.id)
  }

  /** What a worker that calls is told. */
  datatype Standing = AskLeader | Reregister | Known

  function StandingOf(s: State, worker: Id): Standing {
    if !s.leader then AskLeader else if worker !in s.workers then Reregister else Known
  }

  datatype Registration = NotHere | NoWorker | Registered(id: Id)

  datatype Cancellation = Redirected | NoID | NotFound | AlreadyCanceled | AlreadyFinished | CanceledNow

  function CancelAnswer(s: State, id: Id): Cancellation {
    if !s.leader then Redirected
    else if id == "" then NoID
    else if id !in s.jobs then NotFound
    else if s.jobs[id].status.Canceled? then AlreadyCanceled
    else if s.jobs[id].status.Terminal() then AlreadyFinished
    else CanceledNow
  }

  function NamedRequest(request: Option<Job>, minted: Id): Option<Job> {
    if request.Some? then Some(Named(request.value, minted)) else None
  }

  function Named(job: Job, minted: Id): Job {
    if job.id == "" then job.(id := minted) else job
  }

  lemma LegalPlaced(env: Env, s: State, job: Job)
    requires DiskInv(env, s.clock, s.Stored()) && Accepted(env, s, job) && job.id !in s.jobs
    ensures LegalWrite(env, s.clock, s.Stored(), PlacedJob(env, s.jobs, Fresh(job, s.clock), s.clock))
  {
    JudgeByFirstUnmet(s.jobs, job.deps);
    LegalNew(env, s, job, PlacedJob(env, s.jobs, Fresh(job, s.clock), s.clock));
  }

  class Node {
    const env: Env
    const queue: Queue.PriorityQueue
    var leader: bool
    var clock: int
    // the store
    var jobs: map<Id, Job>
    var dead: map<Id, Job>
    var workers: map<Id, Worker>
    // scheduling state
    var timers: map<Id, int>
    var leases: map<Id, Lease>
    var rev: map<Id, set<Id>>
    // history
    ghost var issued: set<Id>
    ghost var trail: seq<Disk>

    ghost function View(): State
      reads this, queue
    {
      State(leader, clock, jobs, dead, workers, queue.Contents(), timers, leases, rev, issued)
    }

    ghost function Repr(): set<object>
      reads this, queue
    {
      {this, queue} + queue.Items()
    }

    ghost predicate Valid()
      reads this, queue, queue.Items()
    {
      queue.Valid()
    }

    /** The trail ends at the store, every write of it was legal and the store is in order. */
    ghost predicate Durable()
      reads this
    {
      Trail(env, clock, trail) && trail[|trail| - 1] == Disk(jobs, dead) && DiskInv(env, clock, Disk(jobs, dead))
    }

    constructor (env: Env)
      ensures Valid() && fresh(Repr()) && this.env == env && Init(env, View()) && trail == []
    {
      this.env := env;
      queue := new Queue.PriorityQueue();
      leader, clock := false, 0;
      jobs, dead, workers, timers, leases, rev := map[], map[], map[], map[], map[], map[];
      issued, trail := {}, [];
      new;
      EmptyIsInit(env, View());
    }

    // ----- store -----

    method PutJob(j: Job)
      modifies this`jobs, this`trail
      ensures View() == Put(old(View()), j)
      ensures old(Durable()) && LegalWrite(env, clock, old(Disk(jobs, dead)), j) ==> Durable()
      ensures old(trail) <= trail
    {
      jobs := jobs[j.id := j];
      trail := trail + [Disk(jobs, dead)];
      if old(Durable()) && LegalWrite(env, clock, old(Disk(jobs, dead)), j) {
        PutKeepsDisk(env, clock, old(Disk(jobs, dead)), j);
        TrailGrows(env, clock, old(trail), Disk(jobs, dead));
      }
    }

    method PutDeadLetter(j: Job)
      requires Durable() && LegalDeath(env, Disk(jobs, dead), j)
      modifies this`dead, this`trail
      ensures View() == old(View()).(dead := old(dead)[j.id := j])
      ensures Durable() && old(trail) <= trail
    {
      dead := dead[j.id := j];
      trail := trail + [Disk(jobs, dead)];
      TrailGrows(env, clock, old(trail), Disk(jobs, dead));
    }

    // ----- reverse dependency index -----

    method AddDeps(id: Id, deps: seq<Id>)
      modifies this`rev
      ensures rev == WithDeps(old(rev), id, deps)
    {
      assert WithDeps(rev, id, deps[..0]) == rev;
      for i := 0 to |deps|
        invariant rev == WithDeps(old(rev), id, deps[..i])
      {
        WithDepsMore(old(rev), id, deps, i);
        var d := deps[i];
        rev := rev[d := (if d in rev then rev[d] else {}) + {id}];
      }
      assert deps[..|deps|] == deps;
    }

    method RemoveFromIndex(id: Id)
      modifies this`rev
      ensures rev == Without(old(rev), {id})
    {
      var todo := rev.Keys;
      while todo != {}
        invariant todo <= old(rev).Keys
        invariant rev == map d | d in old(rev) && (d in todo || old(rev)[d] - {id} != {}) ::
                           if d in todo then old(rev)[d] else old(rev)[d] - {id}
        decreases todo
      {
        var d :| d in todo;
        var left := rev[d] - {id};
        todo := todo - {d};
        rev := if left == {} then rev - {d} else rev[d := left];
      }
    }

    method DependentsOf(dep: Id) returns (out: seq<Id>)
      ensures Lists(out, Dependents(rev, dep))
    {
      out := [];
      var left := if dep in rev then rev[dep] else {};
      while left != {}
        invariant left <= Dependents(rev, dep) && Elems(out) == Dependents(rev, dep) - left && Distinct(out)
        decreases left
      {
        var x :| x in left;
        assert x !in Elems(out);
        assert Elems(out + [x]) == Elems(out) + {x};
        out := out + [x];
        left := left - {x};
      }
    }

    method DepsSatisfied(deps: seq<Id>) returns (v: Verdict)
      ensures v == Judge(jobs, deps)
    {
      var i := 0;
      assert deps[0..] == deps;
      while i < |deps|
        invariant 0 <= i <= |deps| && Judge(jobs, deps) == Judge(jobs, deps[i..])
      {
        var d := deps[i];
        assert deps[i..][0] == d && deps[i..][1..] == deps[i + 1..];
        if d !in jobs { return Waiting; }
        match jobs[d].status {
          case Succeeded =>
          case Failed => return Doomed(d);
          case Canceled => return Doomed(d);
          case _ => return Waiting;
        }
        i := i + 1;
      }
      return Ready;
    }

    // ----- queue and timers -----

    method EnqueueJob(id: Id)
      requires Valid()
      modifies Repr()
      ensures Valid() && fresh(Repr() - old(Repr())) && trail == old(trail)
      ensures View() == Enqueue(old(View()), id)
    {
      if !leader || id !in jobs || !jobs[id].status.Queued? { return; }
      var _ := queue.Push(id, jobs[id].Place());
    }

    method ArmEnqueue(id: Id, at: int)
      requires Valid()
      modifies Repr()
      ensures Valid() && fresh(Repr() - old(Repr())) && trail == old(trail)
      ensures View() == Arm(old(View()), id, at)
    {
      if at <= clock {
        EnqueueJob(id);
      } else {
        timers := timers[id := at];
      }
    }

    /** The record a ready job is stored as, and when it is due. */
    method FireAt(job: Job) returns (j: Job, at: int)
      ensures j == ReadyJob(env, job, clock) && at == ReadyAt(env, job, clock)
    {
      j, at := job.(status := Queued), clock;
      match job.schedule {
        case Cron(expr) =>
          if expr != "" && env.parses(expr) {
            at := env.next(expr, clock);
            j := j.(scheduledAt := Some(at));
          }
        case RunAt(t) =>
          if t > clock {
            at := t;
            j := j.(scheduledAt := Some(at));
          }
        case Immediate =>
      }
    }

    method MakeReady(job: Job)
      requires Valid()
      modifies Repr()
      ensures Valid() && fresh(Repr() - old(Repr())) && old(trail) <= trail
      ensures View() == Jobs.MakeReady(env, old(View()), job)
      ensures old(Durable()) && LegalWrite(env, clock, old(Disk(jobs, dead)), ReadyJob(env, job, clock)) ==> Durable()
    {
      var j, at := FireAt(job);
      PutJob(j);
      ArmEnqueue(job.id, at);
    }

    // ----- cancellation and promotion -----

    /** Cancels a job unless it is missing or finished. */
    method CancelUnfinished(cur: Id)
      requires Valid() && Durable()
      modifies Repr()
      ensures Valid() && Repr() <= old(Repr()) && Durable() && old(trail) <= trail
      ensures View() == WithoutJob(old(View()), cur)
    {
      if cur in jobs && !jobs[cur].status.Terminal() {
        assert jobs[cur].id == cur by { assert JobOk(env, clock, cur, jobs[cur]); }
        LegalCancel(env, clock, Disk(jobs, dead), cur);
        PutJob(jobs[cur].(status := Canceled));
        var _ := queue.Remove(cur);
      }
    }

    method VisitOne(cur: Id) returns (dependents: seq<Id>)
      requires Valid() && Durable()
      modifies Repr()
      ensures Valid() && Repr() <= old(Repr()) && Durable() && old(trail) <= trail
      ensures View() == Visit(old(View()), cur)
      ensures Lists(dependents, Dependents(old(rev), cur))
    {
      CancelUnfinished(cur);
      dependents := DependentsOf(cur);
      RemoveFromIndex(cur);
    }

    /** cancelCascade: the work list deletes index edges as it goes, and still cancels exactly
        what is downstream of the root in the index it started with. */
    method CancelCascade(root: Id)
      requires Valid() && Durable()
      modifies Repr()
      ensures Valid() && Repr() <= old(Repr()) && Durable() && old(trail) <= trail
      ensures View() == Cascade(old(View()), root)
    {
      ghost var s := View();
      var visited: set<Id> := {};
      var work := [root];
      FrontierStart(rev, root);
      assert Elems(work) == {root};
      while work != []
        invariant Valid() && Repr() <= old(Repr()) && Durable() && old(trail) <= trail
        invariant View() == CascadeAt(s, visited)
        invariant Frontier(s.rev, root, visited, Elems(work))
        decreases Downstream(s.rev, root) - visited, |work|
      {
        var cur := work[|work| - 1];
        if cur in visited {
          SkipLast(s.rev, root, visited, work);
          work := work[..|work| - 1];
        } else {
          CascadeStep(s, visited, cur);
          var dependents := VisitOne(cur);
          MoveLast(s.rev, root, visited, work, dependents);
          work := work[..|work| - 1] + dependents;
          visited := visited + {cur};
        }
      }
      CascadeDone(s, root, visited);
    }

    method TryPromote(id: Id)
      requires Valid() && Durable()
      modifies Repr()
      ensures Valid() && fresh(Repr() - old(Repr())) && Durable() && old(trail) <= trail
      ensures View() == Jobs.TryPromote(env, old(View()), id)
    {
      if id !in jobs || !jobs[id].status.Pending? { return; }
      var job := jobs[id];
      var v := DepsSatisfied(job.deps);
      match v {
        case Doomed(_) => CancelCascade(id);
        case Waiting =>
        case Ready =>
          JudgeByFirstUnmet(jobs, job.deps);
          Promote(id);
      }
    }

    method Promote(id: Id)
      requires Valid() && Durable() && id in jobs && jobs[id].status.Pending? && AllDone(jobs, jobs[id].deps)
      modifies Repr()
      ensures Valid() && fresh(Repr() - old(Repr())) && Durable() && old(trail) <= trail
      ensures View() == Jobs.Promote(env, old(View()), old(jobs)[id])
    {
      assert jobs[id].id == id by { assert JobOk(env, clock, id, jobs[id]); }
      LegalPromotion(env, clock, Disk(jobs, dead), id);
      MakeReady(jobs[id]);
      RemoveFromIndex(id);
    }

    /** Re-evaluates everything that waits on `dep`, in whatever order the map yields. */
    method PromoteDependents(dep: Id) returns (ghost order: seq<Id>)
      requires Valid() && Durable()
      modifies Repr()
      ensures Valid() && fresh(Repr() - old(Repr())) && Durable() && old(trail) <= trail
      ensures Lists(order, Dependents(old(rev), dep))
      ensures View() == PromoteAll(env, old(View()), order)
    {
      var ids := DependentsOf(dep);
      order := ids;
      PromoteEach(ids);
    }

    method PromoteEach(ids: seq<Id>)
      requires Valid() && Durable()
      modifies Repr()
      ensures Valid() && fresh(Repr() - old(Repr())) && Durable() && old(trail) <= trail
      ensures View() == PromoteAll(env, old(View()), ids)
    {
      assert ids[..0] == [];
      for i := 0 to |ids|
        invariant Valid() && fresh(Repr() - old(Repr())) && Durable() && old(trail) <= trail
        invariant View() == PromoteAll(env, old(View()), ids[..i])
      {
        PromoteMore(env, old(View()), ids, i);
        TryPromote(ids[i]);
      }
      assert ids[..|ids|] == ids;
    }

    method PlaceNewJob(job: Job)
      requires Valid()
      modifies Repr()
      ensures Valid() && fresh(Repr() - old(Repr())) && old(trail) <= trail
      ensures View() == PlaceNew(env, old(View()), job)
      ensures old(Durable()) && LegalWrite(env, clock, old(Disk(jobs, dead)), PlacedJob(env, old(jobs), job, clock)) ==>
        Durable()
    {
      var v := DepsSatisfied(job.deps);
      match v {
        case Doomed(_) => PutJob(job.(status := Canceled));
        case Waiting => PlaceWaiting(job);
        case Ready => MakeReady(job);
      }
    }

    method PlaceWaiting(job: Job)
      modifies this`jobs, this`rev, this`trail
      ensures old(trail) <= trail
      ensures View() == Indexed(Put(old(View()), job.(status := Pending)), job)
      ensures old(Durable()) && LegalWrite(env, clock, old(Disk(jobs, dead)), job.(status := Pending)) ==> Durable()
    {
      PutJob(job.(status := Pending));
      AddDeps(job.id, job.deps);
    }

    // ----- failure -----

    method MaybeRescheduleCron(job: Job) returns (rearmed: bool)
      requires Valid() && Durable() && job.id in jobs && jobs[job.id].status.Running?
      requires job == jobs[job.id] || job == jobs[job.id].(worker := "")
      modifies Repr()
      ensures Valid() && fresh(Repr() - old(Repr())) && Durable() && old(trail) <= trail
      ensures rearmed <==> CanRearm(env, job)
      ensures View() == if CanRearm(env, job) then Rearm(env, old(View()), job) else old(View())
    {
      var expr := if job.schedule.Cron? then job.schedule.expr else "";
      if expr == "" || !env.parses(expr) { return false; }
      var next := env.next(expr, clock);
      LegalRearm(env, clock, Disk(jobs, dead), job.id, next);
      PutJob(Rearmed(job, next));
      ArmEnqueue(job.id, next);
      return true;
    }

    /** Charges a lost attempt; returns when the jittered backoff of a retry ends. */
    method HandleFailure(job: Job) returns (ghost at: int)
      requires Valid() && Durable() && job.id in jobs && jobs[job.id] == job && job.status.Running?
      modifies Repr()
      ensures Valid() && fresh(Repr() - old(Repr())) && Durable() && old(trail) <= trail
      ensures View() == Fail(env, old(View()), job, at)
      ensures Spaced(job, clock, at)
    {
      at := clock;
      if job.attempt < job.Limit() {
        at := ScheduleRetry(job);
        return;
      }
      var rearmed := MaybeRescheduleCron(job.(worker := ""));
      if rearmed { return; }
      DeadLetter(job);
    }

    method ScheduleRetry(job: Job) returns (ghost at: int)
      requires Valid() && Durable() && job.id in jobs && jobs[job.id] == job && job.status.Running?
      requires job.attempt < job.Limit()
      modifies Repr()
      ensures Valid() && fresh(Repr() - old(Repr())) && Durable() && old(trail) <= trail
      ensures View() == Requeued(old(View()), job, at)
      ensures Retry.InRange(job.policy, job.attempt, at - clock)
    {
      var unit: real :| 0.0 <= unit < 1.0;
      var delay := Retry.Backoff(job.policy, job.attempt, unit);
      var due := clock + delay;
      LegalRetry(env, clock, Disk(jobs, dead), job.id, due);
      PutJob(RetriedJob(job, due));
      ArmEnqueue(job.id, due);
      at := due;
    }

    /** The dead-letter entry is written before the terminal state. */
    method DeadLetter(job: Job)
      requires Valid() && Durable() && job.id in jobs && jobs[job.id] == job && job.status.Running?
      requires job.attempt >= job.Limit() && !CanRearm(env, job)
      modifies Repr()
      ensures Valid() && Repr() <= old(Repr()) && Durable() && old(trail) <= trail
      ensures View() == Bury(old(View()), job)
    {
      PersistFailure(job);
      CancelCascade(job.id);
    }

    method PersistFailure(job: Job)
      requires Durable() && job.id in jobs && jobs[job.id] == job && job.status.Running?
      requires job.attempt >= job.Limit() && !CanRearm(env, job)
      modifies this`jobs, this`dead, this`rev, this`trail
      ensures Durable() && old(trail) <= trail
      ensures View() == Buried(old(View()), job)
    {
      LegalFailure(env, clock, Disk(jobs, dead), job.id);
      PutDeadLetter(FailedJob(job));
      PutJob(FailedJob(job));
      RemoveFromIndex(job.id);
    }

    // ----- client requests -----

    /** The checks a submission must pass. */
    method Admission(job: Job) returns (r: Submission)
      ensures r == SubmitAnswer(env, View(), Some(job))
    {
      if !leader { return NotLeader; }
      if job.command == "" { return NoCommand; }
      if job.Recurs() && !env.parses(job.schedule.expr) { return BadCron; }
      if job.deps != [] {
        var cyclic := Graph.WouldCreateCycle(DepGraph(jobs), job.id, job.deps);
        if cyclic { return Cyclic; }
      }
      return Stored(job.id);
    }

    /** SubmitJob; `minted` is the ID given to a job that comes without one. A job under an ID
        not stored before is written legally; one that replaces a stored job need not be. */
    method SubmitJob(request: Option<Job>, minted: Id) returns (r: Submission)
      requires Valid() && DiskInv(env, clock, Disk(jobs, dead))
      modifies Repr()
      ensures Valid() && fresh(Repr() - old(Repr()))
      ensures r == SubmitAnswer(env, old(View()), NamedRequest(request, minted))
      ensures request.None? ==> View() == old(View()) && trail == [old(Disk(jobs, dead))]
      ensures request.Some? ==> var job := Named(request.value, minted);
        && View() == Submit(env, old(View()), job)
        && (r.Stored? <==> Accepted(env, old(View()), job))
        && (job.id !in old(jobs) ==> Durable() && trail[0] == old(Disk(jobs, dead)))
    {
      trail := [Disk(jobs, dead)];
      if request.None? { return if leader then NoJob else NotLeader; }
      var job := Named(request.value, minted);
      r := Admission(job);
      if r.Stored? { StoreJob(job); }
    }

    /** Stores an admitted job. */
    method StoreJob(job: Job)
      requires Valid() && Durable() && Accepted(env, View(), job)
      modifies Repr()
      ensures Valid() && fresh(Repr() - old(Repr())) && old(trail) <= trail
      ensures View() == Submit(env, old(View()), job)
      ensures job.id !in old(jobs) ==> Durable()
    {
      if job.id !in jobs { LegalPlaced(env, View(), job); }
      PlaceNewJob(Fresh(job, clock));
    }

    method CancelJob(id: Id) returns (r: Cancellation)
      requires Valid() && DiskInv(env, clock, Disk(jobs, dead))
      modifies Repr()
      ensures Valid() && Repr() <= old(Repr()) && Durable() && trail[0] == old(Disk(jobs, dead))
      ensures View() == Cancel(old(View()), id)
      ensures r == CancelAnswer(old(View()), id)
    {
      trail := [Disk(jobs, dead)];
      if !leader { return Redirected; }
      if id == "" { return NoID; }
      if id !in jobs { return NotFound; }
      if jobs[id].status.Canceled? { return AlreadyCanceled; }
      if jobs[id].status.Succeeded? || jobs[id].status.Failed? { return AlreadyFinished; }
      CancelNow(id);
      return CanceledNow;
    }

    method CancelNow(id: Id)
      requires Valid() && Durable() && leader && id != "" && id in jobs && !jobs[id].status.Terminal()
      modifies Repr()
      ensures Valid() && Repr() <= old(Repr()) && Durable() && old(trail) <= trail
      ensures View() == Cancel(old(View()), id)
    {
      assert jobs[id].id == id by { assert JobOk(env, clock, id, jobs[id]); }
      CancelUnfinished(id);
      CancelCascade(id);
    }

    // ----- timers, workers, leadership -----

    method TimerFires(id: Id)
      requires Valid() && id in timers
      modifies Repr()
      ensures Valid() && fresh(Repr() - old(Repr())) && trail == [old(Disk(jobs, dead))]
      ensures View() == Fire(old(View()), id)
    {
      trail := [Disk(jobs, dead)];
      timers := timers - {id};
      EnqueueJob(id);
    }

    /** RegisterWorker; `minted` is the ID given to a worker that comes without one. */
    method RegisterWorker(request: Option<Id>, minted: Id) returns (r: Registration)
      modifies this`workers, this`trail
      ensures trail == [Disk(jobs, dead)]
      ensures r.NotHere? <==> !leader
      ensures r.NoWorker? <==> leader && request.None?
      ensures r.Registered? ==> r.id == (if request.value == "" then minted else request.value)
      ensures View() == if r.Registered? then Beat(old(View()), r.id) else old(View())
    {
      trail := [Disk(jobs, dead)];
      if !leader { return NotHere; }
      if request.None? { return NoWorker; }
      var id := if request.value == "" then minted else request.value;
      workers := workers[id := Worker(Alive, clock)];
      return Registered(id);
    }

    method Heartbeat(id: Id) returns (r: Standing)
      modifies this`workers, this`trail
      ensures trail == [Disk(jobs, dead)]
      ensures r == StandingOf(old(View()), id)
      ensures View() == if r.Known? then Beat(old(View()), id) else old(View())
    {
      trail := [Disk(jobs, dead)];
      if !leader { return AskLeader; }
      if id !in workers { return Reregister; }
      workers := workers[id := Worker(Alive, clock)];
      return Known;
    }

    method ClearSchedulingState()
      requires Valid()
      modifies Repr()
      ensures Valid() && Repr() <= old(Repr()) && trail == old(trail)
      ensures View() == Cleared(old(View()))
    {
      queue.Clear();
      timers, leases, rev := map[], map[], map[];
    }

    method OnStepDown()
      requires Valid()
      modifies Repr()
      ensures Valid() && Repr() <= old(Repr()) && trail == [old(Disk(jobs, dead))]
      ensures View() == StepDown(old(View()))
    {
      trail := [Disk(jobs, dead)];
      leader := false;
      ClearSchedulingState();
    }

    // ----- dispatch -----

    /** Leases the job just popped. */
    method LeaseJob(id: Id, worker: Id, task: Id) returns (a: Assignment)
      requires Durable() && id in jobs && jobs[id].status.Queued? && Due(jobs[id], clock)
      modifies this`jobs, this`trail, this`leases, this`issued
      ensures Durable() && old(trail) <= trail
      ensures View() == Dispatch(env, old(View()), id, worker, task)
      ensures a == Assignment(task, LeaseFor(env, Dispatched(old(jobs)[id], worker, clock)))
    {
      assert jobs[id].id == id by { assert JobOk(env, clock, id, jobs[id]); }
      LegalDispatch(env, clock, Disk(jobs, dead), id, worker);
      var job := Dispatched(jobs[id], worker, clock);
      PutJob(job);
      var l := Lease(id, worker, job.attempt, clock + env.leaseTTL);
      leases := leases[task := l];
      issued := issued + {task};
      a := Assignment(task, l);
    }

    /** Pops one job and leases it; a stale queue entry is dropped. */
    method PollOnce(worker: Id, task: Id) returns (ok: bool, got: Option<Assignment>)
      requires Valid() && Durable() && ReadyIsDue(View())
      modifies Repr()
      ensures Valid() && Repr() <= old(Repr()) && Durable() && old(trail) <= trail && ReadyIsDue(View())
      ensures ok <==> old(View()).ready != map[]
      ensures !ok ==> got.None? && View() == old(View())
      ensures ok && !Leasable(old(View())) ==> got.None? && View() == PoppedStale(old(View()))
      ensures ok && Leasable(old(View())) ==> got == Some(FirstAssignment(env, old(View()), worker, task))
                                              && View() == LeaseFirst(env, old(View()), worker, task)
    {
      got := None;
      var id;
      id, ok := queue.Pop();
      if !ok { return; }
      FirstUnique(old(queue.Contents()), id, First(old(queue.Contents())));
      if id !in jobs || !jobs[id].status.Queued? { return; }
      var a := LeaseJob(id, worker, task);
      got := Some(a);
    }

    /** The dispatch loop. */
    method PollBatch(worker: Id, n: nat, tasks: seq<Id>) returns (out: seq<Assignment>)
      requires Valid() && Durable() && ReadyIsDue(View()) && |tasks| == n
      modifies Repr()
      ensures Valid() && Repr() <= old(Repr()) && Durable() && old(trail) <= trail
      ensures Polled(View(), out) == PollLoop(env, old(View()), worker, tasks)
    {
      out := [];
      ghost var s := View();
      SoFarStarts(env, s, worker, tasks);
      while |out| < n
        invariant |out| <= n
        invariant Valid() && Repr() <= old(Repr()) && Durable() && old(trail) <= trail
        invariant ReadyIsDue(View()) && PolledSoFar(env, s, worker, tasks, View(), out)
        decreases n - |out|, |View().ready|
      {
        SoFarGoesOn(env, s, worker, tasks, View(), out);
        var ok, got := PollOnce(worker, tasks[|out|]);
        if !ok { break; }
        if got.Some? { out := out + [got.value]; }
      }
      SoFarEnds(env, s, worker, tasks, View(), out);
    }

    /** PollTask; `tasks` are the task IDs it mints, as many as it may hand out. */
    method PollTask(worker: Id, requested: int, tasks: seq<Id>) returns (out: seq<Assignment>, r: Standing)
      requires Valid() && DiskInv(env, clock, Disk(jobs, dead)) && ReadyIsDue(View())
      requires |tasks| == Batch(requested)
      modifies Repr()
      ensures Valid() && Repr() <= old(Repr()) && Durable() && trail[0] == old(Disk(jobs, dead))
      ensures r == StandingOf(old(View()), worker)
      ensures Polled(View(), out) == Poll(env, old(View()), worker, tasks)
    {
      trail := [Disk(jobs, dead)];
      out, r := [], Known;
      if !leader { return out, AskLeader; }
      if worker !in workers { return out, Reregister; }
      var n := requested;
      if n <= 0 { n := 1; }
      if n > MAX_BATCH { n := MAX_BATCH; }
      out := PollBatch(worker, n, tasks);
    }

    // ----- results and lost leases -----

    /** Drops a lease and charges its attempt as lost. */
    method RequeueLease(task: Id) returns (ghost at: int)
      requires Valid() && Durable()
      modifies Repr()
      ensures Valid() && fresh(Repr() - old(Repr())) && Durable() && old(trail) <= trail
      ensures View() == Requeue(env, old(View()), task, at)
      ensures TaskSpaced(old(View()), task, at)
    {
      at := 0;
      if task !in leases { return; }
      var id := leases[task].jobID;
      leases := leases - {task};
      if id !in jobs { return; }
      if !jobs[id].status.Running? { return; }
      assert jobs[id].id == id by { assert JobOk(env, clock, id, jobs[id]); }
      at := HandleFailure(jobs[id]);
    }

    /** The success branch of ReportTask, after the lease is gone. */
    method RecordSuccess(id: Id) returns (ghost order: seq<Id>)
      requires Valid() && Durable() && id in jobs && jobs[id].status.Running?
      modifies Repr()
      ensures Valid() && fresh(Repr() - old(Repr())) && Durable() && old(trail) <= trail
      ensures Lists(order, Dependents(Without(old(rev), {id}), id))
      ensures View() == Succeed(env, old(View()), id, order)
    {
      assert jobs[id].id == id by { assert JobOk(env, clock, id, jobs[id]); }
      var job := jobs[id];
      var rearmed := MaybeRescheduleCron(job);
      if rearmed {
        order := SomeOrder(Dependents(Without(old(rev), {id}), id));
        return;
      }
      Finish(job);
      order := PromoteDependents(id);
    }

    method Finish(job: Job)
      requires Durable() && job.id in jobs && jobs[job.id] == job && job.status.Running? && !CanRearm(env, job)
      modifies this`jobs, this`rev, this`trail
      ensures Durable() && old(trail) <= trail
      ensures View() == Finished(old(View()), job)
    {
      LegalFinish(env, clock, Disk(jobs, dead), job.id);
      PutJob(FinishedJob(job));
      RemoveFromIndex(job.id);
    }

    /** ReportTask; answers whether the report is acknowledged. */
    method ReportTask(task: Id, outcome: Outcome) returns (ack: bool, ghost order: seq<Id>, ghost at: int)
      requires Valid() && DiskInv(env, clock, Disk(jobs, dead))
      modifies Repr()
      ensures Valid() && fresh(Repr() - old(Repr())) && Durable() && trail[0] == old(Disk(jobs, dead))
      ensures View() == Report(env, old(View()), task, outcome, order, at)
      ensures task in old(leases) ==>
        Lists(order, Dependents(Without(old(rev), {old(leases)[task].jobID}), old(leases)[task].jobID))
      ensures outcome.Failure? ==> TaskSpaced(old(View()), task, at)
      ensures ack <==> old(leader) && !(outcome.Unspecified? && task in old(leases)
                       && old(leases)[task].jobID in old(jobs) && old(jobs)[old(leases)[task].jobID].status.Running?)
    {
      trail := [Disk(jobs, dead)];
      order, at := [], 0;
      if task in leases { order := SomeOrder(Dependents(Without(rev, {leases[task].jobID}), leases[task].jobID)); }
      if !leader { return false, order, at; }
      if task !in leases { return true, order, at; }
      ack, order, at := ReportLeased(task, outcome);
    }

    /** The result of a task that still holds its lease. */
    method ReportLeased(task: Id, outcome: Outcome) returns (ack: bool, ghost order: seq<Id>, ghost at: int)
      requires Valid() && Durable() && leader && task in leases
      modifies Repr()
      ensures Valid() && fresh(Repr() - old(Repr())) && Durable() && old(trail) <= trail
      ensures View() == Report(env, old(View()), task, outcome, order, at)
      ensures Lists(order, Dependents(Without(old(rev), {old(leases)[task].jobID}), old(leases)[task].jobID))
      ensures outcome.Failure? ==> TaskSpaced(old(View()), task, at)
      ensures ack <==> !(outcome.Unspecified? && old(leases)[task].jobID in old(jobs)
                         && old(jobs)[old(leases)[task].jobID].status.Running?)
    {
      var id := leases[task].jobID;
      if id !in jobs || !jobs[id].status.Running? {
        order, at := SomeOrder(Dependents(Without(rev, {id}), id)), 0;
        leases := leases - {task};
        return true, order, at;
      }
      ack, order, at := RecordResult(task, outcome, id);
    }

    /** The result of a task whose job is still running. */
    method RecordResult(task: Id, outcome: Outcome, id: Id) returns (ack: bool, ghost order: seq<Id>, ghost at: int)
      requires Valid() && Durable() && id in jobs && jobs[id].status.Running?
      modifies Repr()
      ensures Valid() && fresh(Repr() - old(Repr())) && Durable() && old(trail) <= trail
      ensures Lists(order, Dependents(Without(old(rev), {id}), id))
      ensures ack <==> !outcome.Unspecified?
      ensures View() == match outcome
        case Success => Succeed(env, DropLease(old(View()), task), id, order)
        case Failure => Fail(env, DropLease(old(View()), task), old(jobs)[id], at)
        case Unspecified => old(View())
      ensures outcome.Failure? ==> Spaced(old(jobs)[id], clock, at)
    {
      order, at, ack := SomeOrder(Dependents(Without(rev, {id}), id)), 0, true;
      match outcome {
        case Success =>
          leases := leases - {task};
          order := RecordSuccess(id);
        case Failure =>
          at := ReportFailure(task, id);
        case Unspecified =>
          ack := false;
      }
    }

    /** The failure branch: here the lease goes last. */
    method ReportFailure(task: Id, id: Id) returns (ghost at: int)
      requires Valid() && Durable() && id in jobs && jobs[id].status.Running?
      modifies Repr()
      ensures Valid() && fresh(Repr() - old(Repr())) && Durable() && old(trail) <= trail
      ensures View() == Fail(env, DropLease(old(View()), task), old(jobs)[id], at)
      ensures Spaced(old(jobs)[id], clock, at)
    {
      assert jobs[id].id == id by { assert JobOk(env, clock, id, jobs[id]); }
      at := HandleFailure(jobs[id]);
      FailIgnoresLeases(env, old(View()), old(jobs)[id], at, old(leases) - {task});
      leases := leases - {task};
    }

    // ----- the reaper -----

    method RequeueEach(tasks: seq<Id>, ghost before: map<Id, int>) returns (ghost times: map<Id, int>)
      requires Valid() && Durable() && Distinct(tasks)
      modifies Repr()
      ensures Valid() && fresh(Repr() - old(Repr())) && Durable() && old(trail) <= trail
      ensures View() == RequeueAll(env, old(View()), tasks, times) && AllSpaced(env, old(View()), tasks, times)
      ensures forall k :: k !in Elems(tasks) ==> RetryAt(times, k) == RetryAt(before, k)
    {
      times := before;
      for i := 0 to |tasks|
        invariant Valid() && fresh(Repr() - old(Repr())) && Durable() && old(trail) <= trail
        invariant View() == RequeueAll(env, old(View()), tasks[..i], times)
        invariant AllSpaced(env, old(View()), tasks[..i], times)
        invariant forall k :: k !in Elems(tasks) ==> RetryAt(times, k) == RetryAt(before, k)
      {
        ghost var at := RequeueLease(tasks[i]);
        RequeueMore(env, old(View()), tasks, i, times, at);
        SpacedMore(env, old(View()), tasks, i, times, at);
        times := times[tasks[i] := at];
        assert tasks[i] in Elems(tasks);
      }
      assert tasks[..|tasks|] == tasks;
    }

    /** The tasks leased to one worker, in whatever order the map yields. */
    method TasksOf(worker: Id) returns (tasks: seq<Id>)
      ensures Lists(tasks, LeasesOf(View(), {worker}))
    {
      tasks := Listing(set t | t in leases && leases[t].worker == worker);
    }

    method ExpiredTasks() returns (tasks: seq<Id>)
      ensures Lists(tasks, Expired(View()))
    {
      tasks := Listing(set t | t in leases && clock > leases[t].deadline);
    }

    method RequeueLeasesForWorker(worker: Id, ghost before: map<Id, int>)
      returns (ghost tasks: seq<Id>, ghost times: map<Id, int>)
      requires Valid() && Durable()
      modifies Repr()
      ensures Valid() && fresh(Repr() - old(Repr())) && Durable() && old(trail) <= trail
      ensures Lists(tasks, LeasesOf(old(View()), {worker}))
      ensures View() == RequeueAll(env, old(View()), tasks, times) && AllSpaced(env, old(View()), tasks, times)
      ensures forall k :: k !in Elems(tasks) ==> RetryAt(times, k) == RetryAt(before, k)
    {
      var ts := TasksOf(worker);
      tasks := ts;
      times := RequeueEach(ts, before);
    }

    /** Liveness: marks workers suspect or dead and lists the newly dead. */
    method MarkWorkers() returns (deadIDs: seq<Id>)
      modifies this`workers
      ensures View() == SweepWorkers(env, old(View()))
      ensures Lists(deadIDs, NewlyDead(env, old(View())))
    {
      deadIDs := [];
      var todo := workers.Keys;
      while todo != {}
        invariant todo <= old(workers).Keys
        invariant workers == map w | w in old(workers) ::
                               if w in todo then old(workers)[w] else Swept(env, clock, old(workers)[w])
        invariant Distinct(deadIDs) && Elems(deadIDs) == NewlyDead(env, old(View())) - todo
        decreases todo
      {
        var w :| w in todo;
        var cur := workers[w];
        var age := clock - cur.lastHeartbeat;
        var target := Alive;
        if age > env.heartbeatTimeout {
          target := Dead;
        } else if age > env.heartbeatTimeout / 2 {
          target := Suspect;
        }
        if target != Alive && cur.liveness != target {
          workers := workers[w := cur.(liveness := target)];
          if target == Dead {
            assert Elems(deadIDs + [w]) == Elems(deadIDs) + {w};
            deadIDs := deadIDs + [w];
          }
        }
        todo := todo - {w};
      }
    }

    /** Requeues the tasks of every newly dead worker. */
    method RequeueDead(deadIDs: seq<Id>) returns (ghost orphans: seq<Id>, ghost times: map<Id, int>)
      requires Valid() && Durable() && Distinct(deadIDs)
      modifies Repr()
      ensures Valid() && fresh(Repr() - old(Repr())) && Durable() && old(trail) <= trail
      ensures Lists(orphans, LeasesOf(old(View()), Elems(deadIDs)))
      ensures View() == RequeueAll(env, old(View()), orphans, times) && AllSpaced(env, old(View()), orphans, times)
    {
      orphans, times := [], map[];
      ghost var s := View();
      for i := 0 to |deadIDs|
        invariant Valid() && fresh(Repr() - old(Repr())) && Durable() && old(trail) <= trail
        invariant Lists(orphans, LeasesOf(s, Elems(deadIDs[..i])))
        invariant View() == RequeueAll(env, s, orphans, times) && AllSpaced(env, s, orphans, times)
      {
        ghost var u := View();
        ghost var tasks, more := RequeueLeasesForWorker(deadIDs[i], times);
        OrphansMore(env, s, deadIDs, i, orphans, times, tasks, more);
        OrphansStaySpaced(env, s, orphans, times, tasks, more);
        orphans, times := orphans + tasks, more;
      }
      assert deadIDs[..|deadIDs|] == deadIDs;
    }

    /** reapOnce; the caller checks leadership. */
    method ReapOnce() returns (ghost orphans: seq<Id>, ghost overdue: seq<Id>, ghost times: map<Id, int>)
      requires Valid() && leader && DiskInv(env, clock, Disk(jobs, dead))
      modifies Repr()
      ensures Valid() && fresh(Repr() - old(Repr())) && Durable() && trail[0] == old(Disk(jobs, dead))
      ensures Lists(orphans, LeasesOf(old(View()), NewlyDead(env, old(View()))))
      ensures Lists(overdue, Expired(RequeueAll(env, SweepWorkers(env, old(View())), orphans, times)))
      ensures AllSpaced(env, SweepWorkers(env, old(View())), orphans, times)
      ensures AllSpaced(env, RequeueAll(env, SweepWorkers(env, old(View())), orphans, times), overdue, times)
      ensures View() == Reap(env, old(View()), orphans, overdue, times)
    {
      trail := [Disk(jobs, dead)];
      var deadIDs := MarkWorkers();
      ghost var s := View();
      ghost var first;
      orphans, first := RequeueDead(deadIDs);
      ghost var u := View();
      var expired := ExpiredTasks();
      overdue := expired;
      times := RequeueEach(expired, first);
      PhasesApart(env, s, orphans, first, overdue, times);
    }

    // ----- taking leadership -----

    /** One job of the first recovery loop. */
    method RecoverJob(snap: Job) returns (ghost at: int)
      requires Valid() && Durable()
      requires snap.status.Running? ==> snap.id in jobs && jobs[snap.id] == snap
      modifies Repr()
      ensures Valid() && fresh(Repr() - old(Repr())) && Durable() && old(trail) <= trail
      ensures View() == Recover(env, old(View()), snap, at)
      ensures snap.status.Running? ==> Spaced(snap, clock, at)
    {
      at := 0;
      if !snap.status.Terminal() {
        AddDeps(snap.id, snap.deps);
      }
      match snap.status {
        case Queued => Relist(snap);
        case Running => at := HandleFailure(snap);
        case _ =>
      }
    }

    method Relist(snap: Job)
      requires Valid()
      modifies Repr()
      ensures Valid() && fresh(Repr() - old(Repr())) && trail == old(trail)
      ensures View() == Relisted(old(View()), snap)
    {
      if snap.scheduledAt.None? || snap.scheduledAt.value <= clock {
        var _ := queue.Push(snap.id, snap.Place());
      } else {
        ArmEnqueue(snap.id, snap.scheduledAt.value);
      }
    }

    /** One turn of the first loop, which began in `start`. */
    method RecoverNext(snap: map<Id, Job>, ids: seq<Id>, i: nat, ghost start: State, ghost times: map<Id, int>)
      returns (ghost more: map<Id, int>)
      requires Valid() && Durable() && i < |ids| && Lists(ids, snap.Keys) && Listed(ids, snap)
      requires snap == start.jobs && DiskInv(env, start.clock, start.Stored())
      requires View() == Rebuilt(env, start, ids[..i], times) && OrphansSpaced(snap, start.clock, ids[..i], times)
      modifies Repr()
      ensures Valid() && fresh(Repr() - old(Repr())) && Durable() && old(trail) <= trail
      ensures View() == Rebuilt(env, start, ids[..i + 1], more) && OrphansSpaced(snap, start.clock, ids[..i + 1], more)
    {
      Unrecovered(env, start, ids, i, times);
      ghost var at := RecoverJob(snap[ids[i]]);
      more := times[ids[i] := at];
      RecoverMore(env, Cleared(start).(leader := true), snap, ids, i, times, at);
      OrphansSpacedMore(snap, start.clock, ids, i, times, at);
    }

    /** The first loop, over the jobs as they were listed. */
    method RecoverEach(snap: map<Id, Job>, ids: seq<Id>, ghost start: State) returns (ghost times: map<Id, int>)
      requires Valid() && Durable() && Lists(ids, snap.Keys) && Listed(ids, snap)
      requires snap == start.jobs && DiskInv(env, start.clock, start.Stored())
      requires View() == Cleared(start).(leader := true)
      modifies Repr()
      ensures Valid() && fresh(Repr() - old(Repr())) && Durable() && old(trail) <= trail
      ensures View() == Rebuilt(env, start, ids, times) && OrphansSpaced(snap, start.clock, ids, times)
    {
      times := map[];
      for i := 0 to |ids|
        invariant Valid() && fresh(Repr() - old(Repr())) && Durable() && old(trail) <= trail
        invariant View() == Rebuilt(env, start, ids[..i], times) && OrphansSpaced(snap, start.clock, ids[..i], times)
      {
        times := RecoverNext(snap, ids, i, start, times);
      }
      assert ids[..|ids|] == ids;
    }

    /** The listed jobs that were waiting, in list order. */
    method ListPending(snap: map<Id, Job>, ids: seq<Id>) returns (pending: seq<Id>)
      requires Listed(ids, snap)
      ensures pending == PendingOf(snap, ids)
    {
      pending := [];
      for i := 0 to |ids|
        invariant pending == PendingOf(snap, ids[..i])
      {
        assert ids[..i + 1][..i] == ids[..i];
        if snap[ids[i]].status.Pending? {
          pending := pending + [ids[i]];
        }
      }
      assert ids[..|ids|] == ids;
    }

    /** Both loops. */
    method RecoverListed(snap: map<Id, Job>, ids: seq<Id>, ghost start: State) returns (ghost times: map<Id, int>)
      requires Valid() && Durable() && Lists(ids, snap.Keys) && Listed(ids, snap)
      requires snap == start.jobs && DiskInv(env, start.clock, start.Stored())
      requires View() == Cleared(start).(leader := true)
      modifies Repr()
      ensures Valid() && fresh(Repr() - old(Repr())) && Durable() && old(trail) <= trail
      ensures View() == Lead(env, start, ids, times) && OrphansSpaced(snap, start.clock, ids, times)
    {
      times := RecoverEach(snap, ids, start);
      var pending := ListPending(snap, ids);
      PromoteEach(pending);
    }

    method RebuildSchedulingState() returns (ghost ids: seq<Id>, ghost times: map<Id, int>)
      requires Valid() && Durable() && leader
      modifies Repr()
      ensures Valid() && fresh(Repr() - old(Repr())) && Durable() && old(trail) <= trail
      ensures Lists(ids, old(jobs).Keys) && Listed(ids, old(jobs))
      ensures View() == Lead(env, old(View()), ids, times) && OrphansSpaced(old(jobs), old(clock), ids, times)
    {
      ghost var start := View();
      ClearSchedulingState();
      var listed := Listing(jobs.Keys);
      ListedKeys(listed, jobs);
      ids := listed;
      times := RecoverListed(jobs, listed, start);
    }

    method OnBecomeLeader() returns (ghost ids: seq<Id>, ghost times: map<Id, int>)
      requires Valid() && DiskInv(env, clock, Disk(jobs, dead))
      modifies Repr()
      ensures Valid() && fresh(Repr() - old(Repr())) && Durable() && trail[0] == old(Disk(jobs, dead))
      ensures Lists(ids, old(jobs).Keys) && Listed(ids, old(jobs))
      ensures View() == Lead(env, old(View()), ids, times) && OrphansSpaced(old(jobs), old(clock), ids, times)
    {
      trail := [Disk(jobs, dead)];
      leader := true;
      ids, times := RebuildSchedulingState();
    }
  }
}
