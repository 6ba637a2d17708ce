/** One scheduler node as a step system: every handler, timer and sweep is an event, and so are
    losing leadership, a crash after any number of the store writes that handlers make, and
    taking leadership again. Submissions carry IDs not used before. */
module Runs {
  import opened Prelude
  import opened Jobs
  import opened Invariants
  import opened Preservation
  import opened Handlers
  import opened Recovery
  import opened Progress
  import Graph

  // ----- single store writes -----

  /** A dead letter is written for a running job with no attempt and no occurrence left. */
  ghost predicate LegalDeath(env: Env, d: Disk, j: Job) {
    && j.id in d.jobs && d.jobs[j.id].status.Running? && j == FailedJob(d.jobs[j.id])
    && j.attempt >= j.Limit() && !CanRearm(env, j)
  }

  /** One write: a legal job record, or a legal dead letter. */
  ghost predicate Wrote(env: Env, clock: int, d: Disk, e: Disk) {
    exists j ::
      || (LegalWrite(env, clock, d, j) && e == Disk(d.jobs[j.id := j], d.dead))
      || (LegalDeath(env, d, j) && e == Disk(d.jobs, d.dead[j.id := j]))
  }

  /** A store and what a number of single writes make of it. */
  ghost predicate Trail(env: Env, clock: int, ds: seq<Disk>) {
    ds != [] && forall i :: 0 <= i < |ds| - 1 ==> Wrote(env, clock, ds[i], ds[i + 1])
  }

  lemma PutOnward(env: Env, clock: int, d: Disk, j: Job)
    requires LegalPut(env, clock, d, j) && (j.id in d.jobs ==> JobOk(env, clock, j.id, d.jobs[j.id]))
    ensures Onward(d.jobs, d.jobs[j.id := j], clock)
  {
    forall x | x in d.jobs && x != j.id ensures JobAdvances(d.jobs[x], d.jobs[j.id := j][x], clock) {}
    if j.id in d.jobs { assert JobAdvances(d.jobs[j.id], j, clock); }
  }

  lemma DeathKeepsDisk(env: Env, clock: int, d: Disk, j: Job)
    requires DiskInv(env, clock, d) && LegalDeath(env, d, j)
    ensures DiskInv(env, clock, Disk(d.jobs, d.dead[j.id := j]))
  {}

  lemma WroteKeeps(env: Env, clock: int, d: Disk, e: Disk)
    requires DiskInv(env, clock, d) && Wrote(env, clock, d, e)
    ensures DiskInv(env, clock, e) && Onward(d.jobs, e.jobs, clock)
  {
    if j :| LegalWrite(env, clock, d, j) && e == Disk(d.jobs[j.id := j], d.dead) {
      PutKeepsDisk(env, clock, d, j);
      PutOnward(env, clock, d, j);
    } else {
      var j :| LegalDeath(env, d, j) && e == Disk(d.jobs, d.dead[j.id := j]);
      DeathKeepsDisk(env, clock, d, j);
    }
  }

  /** After every single write of a trail the store invariant holds, and nothing is undone. */
  lemma {:induction false} TrailKeeps(env: Env, clock: int, ds: seq<Disk>, i: nat)
    requires Trail(env, clock, ds) && DiskInv(env, clock, ds[0]) && i < |ds|
    ensures DiskInv(env, clock, ds[i]) && Onward(ds[0].jobs, ds[i].jobs, clock)
  {
    if i > 0 {
      TrailKeeps(env, clock, ds, i - 1);
      assert Wrote(env, clock, ds[i - 1], ds[i - 1 + 1]);
      WroteKeeps(env, clock, ds[i - 1], ds[i]);
      OnwardTransitive(ds[0].jobs, ds[i - 1].jobs, ds[i].jobs, clock, clock);
    }
  }

  // ----- events -----

  datatype Event =
    | Submitted(job: Job)
    | CancelAsked(id: Id)
    | PolledBy(worker: Id, requested: int, tasks: seq<Id>)
    | Reported(task: Id, outcome: Outcome, order: seq<Id>, at: int)
    | TimerFired(id: Id)
    | SweptOnce(orphans: seq<Id>, overdue: seq<Id>, times: map<Id, int>)
    | WorkerSeen(worker: Id)
    | TimePassed(now: int)
    | LostLead
    | TookLead(ids: seq<Id>, times: map<Id, int>)
    | Crashed(trail: seq<Disk>)

  ghost predicate Enabled(env: Env, s: State, e: Event) {
    match e
    case Submitted(job) => job.id != "" && job.id !in s.jobs
    case PolledBy(_, requested, tasks) => |tasks| == Batch(requested) && FreshTasks(s.issued, tasks)
    case Reported(task, outcome, order, at) =>
      && (task in s.leases && outcome.Success? ==>
            Lists(order, Dependents(Without(s.rev, {s.leases[task].jobID}), s.leases[task].jobID)))
      && (outcome.Failure? ==> TaskSpaced(s, task, at))
    case TimerFired(id) => id in s.timers && s.timers[id] <= s.clock
    case SweptOnce(orphans, overdue, times) =>
      && Lists(orphans, LeasesOf(s, NewlyDead(env, s)))
      && Lists(overdue, Expired(RequeueAll(env, SweepWorkers(env, s), orphans, times)))
      && (s.leader ==> AllSpaced(env, SweepWorkers(env, s), orphans, times))
      && (s.leader ==> AllSpaced(env, RequeueAll(env, SweepWorkers(env, s), orphans, times), overdue, times))
    case TimePassed(now) => s.clock <= now
    case TookLead(ids, times) => !s.leader && Lists(ids, s.jobs.Keys) && OrphansSpaced(s.jobs, s.clock, ids, times)
    case Crashed(trail) => Trail(env, s.clock, trail) && trail[0] == s.Stored()
    case _ => true
  }

  /** A node that lost everything but its store. */
  function Restarted(s: State, d: Disk): State {
    StepDown(s).(jobs := d.jobs, dead := d.dead)
  }

  ghost function Step(env: Env, s: State, e: Event): State
    requires Enabled(env, s, e)
  {
    match e
    case Submitted(job) => Submit(env, s, job)
    case CancelAsked(id) => Cancel(s, id)
    case PolledBy(worker, _, tasks) => Poll(env, s, worker, tasks).state
    case Reported(task, outcome, order, at) => Report(env, s, task, outcome, order, at)
    case TimerFired(id) => Fire(s, id)
    case SweptOnce(orphans, overdue, times) => Reap(env, s, orphans, overdue, times)
    case WorkerSeen(worker) => if s.leader then Beat(s, worker) else s
    case TimePassed(now) => s.(clock := now)
    case LostLead => StepDown(s)
    case TookLead(ids, times) => assert forall id :: id in ids ==> id in Elems(ids); Lead(env, s, ids, times)
    case Crashed(trail) => Restarted(s, trail[|trail| - 1])
  }

  /** A node that has nothing but its store, and a store that is in order. */
  ghost predicate Init(env: Env, s: State) {
    !s.leader && Idle(s) && DiskInv(env, s.clock, s.Stored())
  }

  /** A node that has just been set up is one. */
  lemma EmptyIsInit(env: Env, s: State)
    requires !s.leader && s.jobs == map[] && Idle(s)
    ensures Init(env, s)
  {
    forall p ensures !Graph.Cycle(DepGraph(s.jobs), p) {
      assert |p| >= 2 && Graph.Path(DepGraph(s.jobs), p) ==> p[0 + 1] in Graph.Next(DepGraph(s.jobs), p[0]);
    }
  }

  lemma StepKeepsInv(env: Env, s: State, e: Event)
    requires Inv(env, s) && Enabled(env, s, e)
    ensures Inv(env, Step(env, s, e))
  {
    match e
    case Submitted(job) => if s.leader { SubmitKeeps(env, s, job); }
    case CancelAsked(id) => CancelKeeps(env, s, id);
    case PolledBy(worker, _, tasks) => if s.leader && worker in s.workers { PollLoopKeeps(env, s, worker, tasks); }
    case Reported(task, outcome, order, at) => if s.leader { ReportKeeps(env, s, task, outcome, order, at); }
    case TimerFired(id) => FireKeeps(env, s, id);
    case SweptOnce(orphans, overdue, times) => ReapKeeps(env, s, orphans, overdue, times);
    case WorkerSeen(worker) =>
    case TimePassed(now) => TimePasses(env, s, now);
    case LostLead =>
    case TookLead(ids, times) => LeadRecovers(env, s, ids, times);
    case Crashed(trail) => TrailKeeps(env, s.clock, trail, |trail| - 1);
  }

  // ----- nothing is undone -----

  lemma RecoverAdvances(env: Env, s: State, id: Id, at: int)
    requires DiskInv(env, s.clock, s.Stored()) && id in s.jobs
    ensures Advances(s, Recover(env, s, s.jobs[id], at))
  {
    var j := s.jobs[id];
    var u, t := Indexed(s, j), Recover(env, s, j, at);
    IdleAdvances(s, u);
    if j.status.Running? {
      FailAdvances(env, u, id, at);
      AdvancesTransitive(s, u, t);
    } else {
      IdleAdvances(s, t);
    }
  }

  lemma {:induction false} RecoverAllAdvances(env: Env, s: State, snap: map<Id, Job>, ids: seq<Id>, times: map<Id, int>)
    requires Recovering(env, s, snap, snap.Keys)
    requires (forall id :: id in ids ==> id in snap) && Distinct(ids)
    ensures Advances(s, RecoverAll(env, s, snap, ids, times))
  {
    if ids != [] {
      var init, last := ids[..|ids| - 1], ids[|ids| - 1];
      Snoc(ids);
      var t := RecoverAll(env, s, snap, init, times);
      RecoverAllSteps(env, s, snap, init, times);
      RecoverAllAdvances(env, s, snap, init, times);
      RecoverAdvances(env, t, last, RetryAt(times, last));
      AdvancesTransitive(s, t, Recover(env, t, snap[last], RetryAt(times, last)));
    }
  }

  lemma LeadAdvances(env: Env, s: State, ids: seq<Id>, times: map<Id, int>)
    requires DiskInv(env, s.clock, s.Stored()) && Lists(ids, s.jobs.Keys)
    ensures (forall id :: id in ids ==> id in s.jobs) && Advances(s, Lead(env, s, ids, times))
  {
    assert forall id :: id in ids ==> id in Elems(ids);
    var c := Cleared(s).(leader := true);
    ClearedRecovers(env, s);
    RecoverAllAdvances(env, c, s.jobs, ids, times);
    var t := RecoverAll(env, c, s.jobs, ids, times);
    SecondLoopStarts(env, s, ids, times);
    PromoteAllAdvances(env, t, PendingOf(s.jobs, ids), Elems(PendingOf(s.jobs, ids)));
    AdvancesTransitive(c, t, Lead(env, s, ids, times));
    assert Advances(s, c);
    AdvancesTransitive(s, c, Lead(env, s, ids, times));
  }

  lemma ReapAdvances(env: Env, s: State, orphans: seq<Id>, overdue: seq<Id>, times: map<Id, int>)
    requires Inv(env, s)
    ensures Advances(s, Reap(env, s, orphans, overdue, times))
  {
    if s.leader {
      var t := SweepWorkers(env, s);
      assert Partial(env, t, {}, {});
      RequeueAllAdvances(env, t, orphans, times);
      RequeueAllKeeps(env, t, orphans, times);
      var u := RequeueAll(env, t, orphans, times);
      RequeueAllAdvances(env, u, overdue, times);
      AdvancesTransitive(t, u, RequeueAll(env, u, overdue, times));
    }
  }

  lemma StepAdvances(env: Env, s: State, e: Event)
    requires Inv(env, s) && Enabled(env, s, e)
    ensures Advances(s, Step(env, s, e))
  {
    match e
    case Submitted(job) => SubmitAdvances(env, s, job);
    case CancelAsked(id) => CancelAdvances(env, s, id);
    case PolledBy(worker, _, tasks) => if s.leader && worker in s.workers { PollLoopAdvances(env, s, worker, tasks); }
    case Reported(task, outcome, order, at) => ReportAdvances(env, s, task, outcome, order, at);
    case TimerFired(id) =>
    case SweptOnce(orphans, overdue, times) => ReapAdvances(env, s, orphans, overdue, times);
    case WorkerSeen(worker) =>
    case TimePassed(now) =>
    case LostLead =>
    case TookLead(ids, times) => LeadAdvances(env, s, ids, times);
    case Crashed(trail) => TrailKeeps(env, s.clock, trail, |trail| - 1);
  }

  // ----- runs -----

  ghost predicate Moves(env: Env, s: State, e: Event, t: State) {
    Enabled(env, s, e) && t == Step(env, s, e)
  }

  /** A run: the states a node goes through and the events between them. */
  ghost predicate Run(env: Env, ss: seq<State>, es: seq<Event>) {
    && |ss| == |es| + 1 && Init(env, ss[0])
    && forall i :: 0 <= i < |es| ==> Moves(env, ss[i], es[i], ss[i + 1])
  }

  lemma {:induction false} RunKeepsInv(env: Env, ss: seq<State>, es: seq<Event>, i: nat)
    requires Run(env, ss, es) && i < |ss|
    ensures Inv(env, ss[i])
  {
    if i > 0 {
      RunKeepsInv(env, ss, es, i - 1);
      assert Moves(env, ss[i - 1], es[i - 1], ss[i - 1 + 1]);
      StepKeepsInv(env, ss[i - 1], es[i - 1]);
    }
  }

  lemma {:induction false} RunAdvances(env: Env, ss: seq<State>, es: seq<Event>, i: nat, j: nat)
    requires Run(env, ss, es) && i <= j < |ss|
    ensures Advances(ss[i], ss[j])
    decreases j
  {
    if i < j {
      RunAdvances(env, ss, es, i, j - 1);
      RunKeepsInv(env, ss, es, j - 1);
      assert Moves(env, ss[j - 1], es[j - 1], ss[j - 1 + 1]);
      StepAdvances(env, ss[j - 1], es[j - 1]);
      AdvancesTransitive(ss[i], ss[j - 1], ss[j]);
    }
  }
}
