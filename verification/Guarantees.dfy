/** What users of the scheduler are promised, over every run of a node, with crashes, restarts
    and changes of leadership. */
module Guarantees {
  import opened Prelude
  import opened Ordering
  import opened Jobs
  import opened Invariants
  import opened Preservation
  import opened Handlers
  import opened Recovery
  import opened Progress
  import opened Runs
  import Retry
  import Graph

  // ----- dependencies -----

  /** A job that is queued, running or leased has seen all its dependencies succeed. */
  lemma DependencyGating(env: Env, ss: seq<State>, es: seq<Event>, i: nat, id: Id)
    requires Run(env, ss, es) && i < |ss| && id in ss[i].jobs
    requires ss[i].jobs[id].status.Queued? || ss[i].jobs[id].status.Running? || Leased(ss[i].leases, id)
    ensures AllDone(ss[i].jobs, ss[i].jobs[id].deps)
  {
    RunKeepsInv(env, ss, es, i);
    if Leased(ss[i].leases, id) {
      var t :| t in ss[i].leases && ss[i].leases[t].jobID == id;
      assert LeaseOk(env, ss[i].jobs, {}, ss[i].leases[t]);
    }
  }

  /** Finished jobs never change again. */
  lemma TerminalIsFinal(env: Env, ss: seq<State>, es: seq<Event>, i: nat, j: nat, id: Id)
    requires Run(env, ss, es) && i <= j < |ss| && id in ss[i].jobs && ss[i].jobs[id].status.Terminal()
    ensures id in ss[j].jobs && ss[j].jobs[id] == ss[i].jobs[id]
  {
    RunAdvances(env, ss, es, i, j);
    assert JobAdvances(ss[i].jobs[id], ss[j].jobs[id], ss[j].clock);
  }

  /** No wake-up is lost: on the leader a waiting job is indexed under every dependency and
      still has one that has not succeeded; the index never holds a finished job. */
  lemma NoLostWakeup(env: Env, ss: seq<State>, es: seq<Event>, i: nat, id: Id)
    requires Run(env, ss, es) && i < |ss| && ss[i].leader && id in ss[i].jobs
    ensures ss[i].jobs[id].status.Pending? ==>
      && !AllDone(ss[i].jobs, ss[i].jobs[id].deps)
      && forall d :: d in ss[i].jobs[id].deps ==> id in Dependents(ss[i].rev, d)
    ensures ss[i].jobs[id].status.Terminal() ==> forall d :: id !in Dependents(ss[i].rev, d)
  {
    RunKeepsInv(env, ss, es, i);
    forall d | id in Dependents(ss[i].rev, d) ensures !ss[i].jobs[id].status.Terminal() {
      assert EdgeOk(ss[i].jobs, {}, d, id);
    }
  }

  /** The chain of waiting jobs that `p` is ends at a job that will not succeed by itself. */
  ghost predicate Blocked(jobs: map<Id, Job>, p: seq<Id>) {
    && Graph.Path(DepGraph(jobs), p)
    && (forall k :: 0 <= k < |p| - 1 ==> p[k] in jobs && jobs[p[k]].status.Pending?)
    && (p[|p| - 1] !in jobs || Lost(jobs, p[|p| - 1]))
  }

  /** Waiting chains cannot go on: acyclicity bounds them. */
  lemma {:induction false} FollowUnmet(jobs: map<Id, Job>, p: seq<Id>) returns (q: seq<Id>)
    requires Graph.Acyclic(DepGraph(jobs)) && WakeInv(jobs, {})
    requires forall id :: id in jobs ==> !jobs[id].status.Queued? && !jobs[id].status.Running?
    requires Graph.Path(DepGraph(jobs), p) && Distinct(p)
    requires forall k :: 0 <= k < |p| ==> p[k] in jobs && jobs[p[k]].status.Pending?
    ensures Blocked(jobs, q) && q[0] == p[0]
    decreases |jobs.Keys - Elems(p)|
  {
    var x := p[|p| - 1];
    var d :| d in jobs[x].deps && !Done(jobs, d);
    q := p + [d];
    ExtendPath(DepGraph(jobs), p, d);
    if d in jobs && jobs[d].status.Pending? {
      Deeper(jobs, p, d);
      q := FollowUnmet(jobs, q);
    }
  }

  /** A path down the acyclic graph never comes back, and so uses up the jobs. */
  lemma Deeper(jobs: map<Id, Job>, p: seq<Id>, d: Id)
    requires Graph.Acyclic(DepGraph(jobs)) && Graph.Path(DepGraph(jobs), p) && Distinct(p)
    requires p[|p| - 1] in jobs && d in jobs[p[|p| - 1]].deps && d in jobs
    ensures Graph.Path(DepGraph(jobs), p + [d]) && Distinct(p + [d])
    ensures |jobs.Keys - Elems(p + [d])| < |jobs.Keys - Elems(p)|
  {
    ExtendPath(DepGraph(jobs), p, d);
    if d in p {
      var k :| 0 <= k < |p| && p[k] == d;
      var q := p + [d];
      assert q[k] == d == q[|q| - 1];
      assert Graph.Lasso(DepGraph(jobs), p[0], q);
      Graph.LassoHoldsCycle(DepGraph(jobs), p[0], q);
    }
    Smaller(jobs.Keys, p, d);
  }

  lemma ExtendPath(g: Graph.Graph, p: seq<Id>, d: Id)
    requires Graph.Path(g, p) && d in Graph.Next(g, p[|p| - 1])
    ensures Graph.Path(g, p + [d])
  {
    var q := p + [d];
    forall i | 0 <= i < |q| - 1 ensures q[i + 1] in Graph.Next(g, q[i]) {
      if i < |p| - 1 { assert q[i + 1] == p[i + 1]; }
    }
  }

  lemma Smaller(keys: set<Id>, p: seq<Id>, d: Id)
    requires d in keys && d !in p
    ensures |keys - Elems(p + [d])| < |keys - Elems(p)|
  {
    assert keys - Elems(p + [d]) == (keys - Elems(p)) - {d};
    assert d in keys - Elems(p);
  }

  /** No dependency deadlock: when nothing is queued or running, every waiting job is held up,
      through waiting jobs only, by a job that was never submitted, has failed or was canceled. */
  lemma NoDeadlock(env: Env, ss: seq<State>, es: seq<Event>, i: nat, id: Id)
    requires Run(env, ss, es) && i < |ss| && ss[i].leader
    requires forall x :: x in ss[i].jobs ==> !ss[i].jobs[x].status.Queued? && !ss[i].jobs[x].status.Running?
    requires id in ss[i].jobs && ss[i].jobs[id].status.Pending?
    ensures exists p :: Blocked(ss[i].jobs, p) && p[0] == id
  {
    RunKeepsInv(env, ss, es, i);
    var p := FollowUnmet(ss[i].jobs, [id]);
  }

  // ----- leases and reports -----

  /** On the leader every running job has exactly one lease, for its current attempt and worker;
      every other lease belongs to a canceled job. */
  lemma LeaseExactness(env: Env, ss: seq<State>, es: seq<Event>, i: nat)
    requires Run(env, ss, es) && i < |ss| && ss[i].leader
    ensures forall id :: id in ss[i].jobs && ss[i].jobs[id].status.Running? ==> Leased(ss[i].leases, id)
    ensures forall t, u ::
      t in ss[i].leases && u in ss[i].leases && ss[i].leases[t].jobID == ss[i].leases[u].jobID ==> t == u
    ensures forall t :: t in ss[i].leases ==>
      && ss[i].leases[t].jobID in ss[i].jobs
      && var l, j := ss[i].leases[t], ss[i].jobs[ss[i].leases[t].jobID];
      j.status.Canceled? || (j.status.Running? && l.attempt == j.attempt && l.worker == j.worker)
  {
    RunKeepsInv(env, ss, es, i);
    forall t | t in ss[i].leases ensures LeaseOk(env, ss[i].jobs, {}, ss[i].leases[t]) {}
  }

  /** A report that gives a result takes the lease away. */
  lemma ReportRetires(env: Env, s: State, task: Id, outcome: Outcome, order: seq<Id>, at: int)
    requires Inv(env, s) && s.leader && task in s.leases && !outcome.Unspecified?
    ensures task !in Report(env, s, task, outcome, order, at).leases
  {
    var id, u := s.leases[task].jobID, DropLease(s, task);
    DropLeaseKeeps(env, s, task, {});
    if s.jobs[id].status.Running? {
      assert task in u.issued;
      match outcome
      case Success => SucceedAdvances(env, u, id, order);
      case Failure => FailAdvances(env, u, id, at);
    }
  }

  /** Each task ID is decided at most once: after a report with a result, every later report of
      the same task, in whatever state of the run, changes nothing. */
  lemma DecidedOnce(env: Env, ss: seq<State>, es: seq<Event>, i: nat, j: nat)
    requires Run(env, ss, es) && i < j < |es|
    requires es[i].Reported? && !es[i].outcome.Unspecified? && ss[i].leader && es[i].task in ss[i].leases
    requires es[j].Reported? && es[j].task == es[i].task
    ensures ss[j + 1] == ss[j]
  {
    RunKeepsInv(env, ss, es, i);
    assert Moves(env, ss[i], es[i], ss[i + 1]) && Moves(env, ss[j], es[j], ss[j + 1]);
    ReportRetires(env, ss[i], es[i].task, es[i].outcome, es[i].order, es[i].at);
    RunAdvances(env, ss, es, i, i + 1);
    RunAdvances(env, ss, es, i + 1, j);
    assert es[i].task in ss[i].issued;
  }

  /** The same for a task whose lease is gone for any reason: reclaimed by the sweep, or lost
      with the node's memory. */
  lemma LateReportIgnored(env: Env, ss: seq<State>, es: seq<Event>, i: nat, j: nat)
    requires Run(env, ss, es) && i <= j < |es|
    requires es[j].Reported? && es[j].task in ss[i].issued && es[j].task !in ss[i].leases
    ensures ss[j + 1] == ss[j]
  {
    assert Moves(env, ss[j], es[j], ss[j + 1]);
    RunAdvances(env, ss, es, i, j);
  }

  // ----- the queue -----

  /** No queued work is lost: on the leader a queued job is in exactly one of the ready queue and
      the timer table, what is in the queue is queued, under its stored key, and due, and no timer
      of a queued job goes off before the job is due. */
  lemma QueuedWorkKept(env: Env, ss: seq<State>, es: seq<Event>, i: nat, id: Id)
    requires Run(env, ss, es) && i < |ss| && ss[i].leader
    ensures id in ss[i].jobs && ss[i].jobs[id].status.Queued? ==> (id in ss[i].ready <==> id !in ss[i].timers)
    ensures id in ss[i].ready ==>
      && id in ss[i].jobs && ss[i].jobs[id].status.Queued? && ss[i].ready[id] == ss[i].jobs[id].Place()
      && Due(ss[i].jobs[id], ss[i].clock)
    ensures id in ss[i].timers ==> id in ss[i].jobs && DueBy(ss[i].jobs[id], ss[i].clock, ss[i].timers[id])
  {
    RunKeepsInv(env, ss, es, i);
    if id in ss[i].ready { assert ReadyOk(ss[i].jobs, ss[i].clock, {}, id, ss[i].ready[id]); }
    if id in ss[i].timers { assert TimerOk(ss[i].jobs, ss[i].clock, {}, id, ss[i].timers[id]); }
  }

  ghost function JobsOf(out: seq<Assignment>): seq<Id> {
    if out == [] then [] else [out[0].lease.jobID] + JobsOf(out[1..])
  }

  /** `xs` are the first |xs| jobs of `m`, in order. */
  ghost predicate Best(m: map<Id, Key>, xs: seq<Id>) {
    && (forall i :: 0 <= i < |xs| ==> xs[i] in m)
    && (forall i, j :: 0 <= i < j < |xs| ==> Before(xs[i], m[xs[i]], xs[j], m[xs[j]]))
    && (forall i, y :: 0 <= i < |xs| && y in m && y !in xs ==> Before(xs[i], m[xs[i]], y, m[y]))
  }

  lemma BestCons(m: map<Id, Key>, xs: seq<Id>)
    requires m != map[] && Best(m - {First(m)}, xs)
    ensures Best(m, [First(m)] + xs)
  {
    var x := First(m);
    var all := [x] + xs;
    assert forall z :: z in all <==> z == x || z in xs;
    forall i, j | 0 <= i < j < |all| ensures Before(all[i], m[all[i]], all[j], m[all[j]]) {
      if i > 0 { assert all[i] == xs[i - 1]; }
      assert all[j] == xs[j - 1];
    }
    forall i, y | 0 <= i < |all| && y in m && y !in all ensures Before(all[i], m[all[i]], y, m[y]) {
      assert y != x by { assert all[0] == x; }
      assert y !in xs;
    }
  }

  lemma TakeOne(m: map<Id, Key>, xs: seq<Id>, left: map<Id, Key>)
    requires m != map[] && Best(m - {First(m)}, xs) && left == m - {First(m)} - Elems(xs)
    ensures Best(m, [First(m)] + xs) && left == m - Elems([First(m)] + xs)
  {
    BestCons(m, xs);
    assert Elems([First(m)] + xs) == {First(m)} + Elems(xs);
  }

  lemma JobsOfCons(a: Assignment, out: seq<Assignment>)
    ensures JobsOf([a] + out) == [a.lease.jobID] + JobsOf(out)
  {
    assert ([a] + out)[1..] == out;
  }

  ghost predicate TookBest(ready: map<Id, Key>, wanted: nat, p: Polled) {
    && |p.out| == (if wanted < |ready| then wanted else |ready|)
    && Best(ready, JobsOf(p.out))
    && p.state.ready == ready - Elems(JobsOf(p.out))
  }

  lemma PollNothing(env: Env, s: State, worker: Id, tasks: seq<Id>)
    requires tasks == [] || s.ready == map[]
    ensures TookBest(s.ready, |tasks|, PollLoop(env, s, worker, tasks))
  {
    NoneTaken(s, |tasks|);
  }

  lemma NoneTaken(s: State, wanted: nat)
    requires wanted == 0 || s.ready == map[]
    ensures TookBest(s.ready, wanted, Polled(s, []))
  {
    assert s.ready - {} == s.ready;
  }

  /** A poll leases exactly the best jobs of the queue, in order: as many as asked for, or all. */
  lemma {:induction false} PollTakesBest(env: Env, s: State, worker: Id, tasks: seq<Id>)
    requires Partial(env, s, {}, {}) && FreshTasks(s.issued, tasks)
    ensures TookBest(s.ready, |tasks|, PollLoop(env, s, worker, tasks))
    decreases |tasks|
  {
    if tasks == [] || s.ready == map[] {
      PollNothing(env, s, worker, tasks);
    } else {
      PollNext(env, s, worker, tasks);
      PollTakesBest(env, LeaseFirst(env, s, worker, tasks[0]), worker, tasks[1..]);
      PollStep(env, s, worker, tasks);
    }
  }

  /** The first job of the queue can be leased, and the poll go on. */
  lemma PollNext(env: Env, s: State, worker: Id, tasks: seq<Id>)
    requires Partial(env, s, {}, {}) && FreshTasks(s.issued, tasks) && tasks != [] && s.ready != map[]
    ensures var id := First(s.ready); id in s.jobs && s.jobs[id].status.Queued? && s.jobs[id].id == id
    ensures var u := LeaseFirst(env, s, worker, tasks[0]);
      u.ready == s.ready - {First(s.ready)} && Partial(env, u, {}, {}) && FreshTasks(u.issued, tasks[1..])
  {
    FreshTail(s.issued, tasks);
    DispatchKeeps(env, s, First(s.ready), worker, tasks[0]);
    assert JobOk(env, s.clock, First(s.ready), s.jobs[First(s.ready)]);
  }

  lemma PollStep(env: Env, s: State, worker: Id, tasks: seq<Id>)
    requires tasks != [] && s.ready != map[]
    requires var id := First(s.ready); id in s.jobs && s.jobs[id].status.Queued? && s.jobs[id].id == id
    requires TookBest(s.ready - {First(s.ready)}, |tasks[1..]|,
      PollLoop(env, LeaseFirst(env, s, worker, tasks[0]), worker, tasks[1..]))
    ensures TookBest(s.ready, |tasks|, PollLoop(env, s, worker, tasks))
  {
    var id := First(s.ready);
    var rest := PollLoop(env, LeaseFirst(env, s, worker, tasks[0]), worker, tasks[1..]);
    var a := Assignment(tasks[0], LeaseFor(env, Dispatched(s.jobs[id], worker, s.clock)));
    PollUnfold(env, s, worker, tasks);
    PopShrinks(s.ready, id);
    JobsOfCons(a, rest.out);
    TakeOne(s.ready, JobsOf(rest.out), rest.state.ready);
  }

  // ----- attempts -----

  ghost function Count(out: seq<Assignment>, id: Id): nat {
    if out == [] then 0 else (if out[0].lease.jobID == id then 1 else 0) + Count(out[1..], id)
  }

  lemma CountCons(a: Assignment, out: seq<Assignment>, id: Id)
    ensures Count([a] + out, id) == (if a.lease.jobID == id then 1 else 0) + Count(out, id)
  {
    assert ([a] + out)[1..] == out;
  }

  ghost predicate Counted(jobs: map<Id, Job>, p: Polled, id: Id) {
    && (id in jobs ==> id in p.state.jobs && p.state.jobs[id].attempt == jobs[id].attempt + Count(p.out, id))
    && (id !in jobs ==> Count(p.out, id) == 0)
  }

  /** Every hand-out of a job is an attempt on record. */
  lemma {:induction false} PollCounts(env: Env, s: State, worker: Id, tasks: seq<Id>, id: Id)
    requires Partial(env, s, {}, {}) && FreshTasks(s.issued, tasks)
    ensures Counted(s.jobs, PollLoop(env, s, worker, tasks), id)
    decreases |tasks|
  {
    if tasks != [] && s.ready != map[] {
      FreshTail(s.issued, tasks);
      DispatchKeeps(env, s, First(s.ready), worker, tasks[0]);
      PollCounts(env, LeaseFirst(env, s, worker, tasks[0]), worker, tasks[1..], id);
      PollCountsStep(env, s, worker, tasks, id);
    }
  }

  lemma PollCountsStep(env: Env, s: State, worker: Id, tasks: seq<Id>, id: Id)
    requires DiskInv(env, s.clock, s.Stored()) && tasks != [] && s.ready != map[]
    requires First(s.ready) in s.jobs && s.jobs[First(s.ready)].status.Queued?
    requires var u := LeaseFirst(env, s, worker, tasks[0]); Counted(u.jobs, PollLoop(env, u, worker, tasks[1..]), id)
    ensures Counted(s.jobs, PollLoop(env, s, worker, tasks), id)
  {
    var x := First(s.ready);
    assert s.jobs[x].id == x by { assert JobOk(env, s.clock, x, s.jobs[x]); }
    PollUnfold(env, s, worker, tasks);
    var a := Assignment(tasks[0], LeaseFor(env, Dispatched(s.jobs[x], worker, s.clock)));
    CountCons(a, PollLoop(env, LeaseFirst(env, s, worker, tasks[0]), worker, tasks[1..]).out, id);
  }

  /** How often the events before `k` handed out the job. */
  ghost function HandedOut(env: Env, ss: seq<State>, es: seq<Event>, id: Id, k: nat): nat
    requires k <= |es| < |ss|
  {
    if k == 0 then 0
    else
      var s, e := ss[k - 1], es[k - 1];
      var now := if e.PolledBy? then Count(Poll(env, s, e.worker, e.tasks).out, id) else 0;
      HandedOut(env, ss, es, id, k - 1) + now
  }

  lemma {:induction false} HandedOutIsAttempt(env: Env, ss: seq<State>, es: seq<Event>, id: Id, k: nat)
    requires Run(env, ss, es) && k <= |es|
    ensures id !in ss[k].jobs ==> HandedOut(env, ss, es, id, k) == 0
    ensures id in ss[k].jobs && !ss[k].jobs[id].Recurs() ==> HandedOut(env, ss, es, id, k) <= ss[k].jobs[id].attempt
  {
    if k == 0 {
      if id in ss[0].jobs { assert JobOk(env, ss[0].clock, id, ss[0].jobs[id]); }
    } else {
      var s, e := ss[k - 1], es[k - 1];
      HandedOutIsAttempt(env, ss, es, id, k - 1);
      RunKeepsInv(env, ss, es, k - 1);
      RunKeepsInv(env, ss, es, k);
      RunAdvances(env, ss, es, k - 1, k);
      assert Moves(env, s, e, ss[k - 1 + 1]);
      if e.PolledBy? && s.leader && e.worker in s.workers { PollCounts(env, s, e.worker, e.tasks, id); }
      if id in s.jobs { assert JobAdvances(s.jobs[id], ss[k].jobs[id], ss[k].clock); }
      else if id in ss[k].jobs { assert JobOk(env, ss[k].clock, id, ss[k].jobs[id]); }
    }
  }

  /** Over any run a one-shot job is handed out at most MaxAttempts times, a number that fits
      the record's int32. */
  lemma AttemptsBounded(env: Env, ss: seq<State>, es: seq<Event>, id: Id, k: nat)
    requires Run(env, ss, es) && k <= |es| && id in ss[k].jobs
    ensures !ss[k].jobs[id].Recurs() ==> HandedOut(env, ss, es, id, k) <= Retry.MaxAttempts(ss[k].jobs[id].policy)
    ensures 0 <= ss[k].jobs[id].attempt <= Retry.MaxAttempts(ss[k].jobs[id].policy) <= 0x7fff_ffff
  {
    RunKeepsInv(env, ss, es, k);
    HandedOutIsAttempt(env, ss, es, id, k);
    assert JobOk(env, ss[k].clock, id, ss[k].jobs[id]);
  }

  /** Failed means: all attempts used. Recurring jobs neither fail nor succeed for good. */
  lemma FailedMeansExhausted(env: Env, ss: seq<State>, es: seq<Event>, k: nat, id: Id)
    requires Run(env, ss, es) && k < |ss| && id in ss[k].jobs
    ensures ss[k].jobs[id].status.Failed? ==> ss[k].jobs[id].attempt == Retry.MaxAttempts(ss[k].jobs[id].policy)
    ensures ss[k].jobs[id].Recurs() ==> !ss[k].jobs[id].status.Failed? && !ss[k].jobs[id].status.Succeeded?
  {
    RunKeepsInv(env, ss, es, k);
    assert JobOk(env, ss[k].clock, id, ss[k].jobs[id]);
  }

  // ----- recovery -----

  /** Whatever came before, crashes in the middle of handlers included, taking leadership ends
      with no lease and no running job, every queued job placed, every waiting job indexed under
      all its dependencies and waiting, first, for one that can still succeed. */
  lemma RecoveryComplete(env: Env, ss: seq<State>, es: seq<Event>, i: nat)
    requires Run(env, ss, es) && i < |es| && es[i].TookLead?
    ensures var t := ss[i + 1];
      && t.leader && t.leases == map[]
      && (forall id :: id in t.jobs ==> !t.jobs[id].status.Running?)
      && (forall id :: id in t.jobs && t.jobs[id].status.Queued? ==> (id in t.ready <==> id !in t.timers))
      && IndexComplete(t.jobs, t.rev, {})
      && HopeInv(t.jobs, {})
  {
    RunKeepsInv(env, ss, es, i);
    assert Moves(env, ss[i], es[i], ss[i + 1]);
    LeadRecovers(env, ss[i], es[i].ids, es[i].times);
  }
}
