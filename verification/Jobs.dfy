/** Jobs, the scheduling state of one node, and what each handler does to it
    (internal/scheduler). `State` is the whole state as a value. Choices the source leaves to
    map iteration, random numbers or fresh IDs are explicit parameters. One clock reading,
    `State.clock`, serves a whole handler. */
module Jobs {
  import opened Prelude
  import opened Ordering
  import Retry
  import Graph

  datatype Status = Pending | Queued | Running | Succeeded | Failed | Canceled
  {
    predicate Terminal() { Succeeded? || Failed? || Canceled? }
  }

  datatype Schedule = Immediate | RunAt(at: int) | Cron(expr: string)

  datatype Job = Job(
    id: Id, command: string, priority: int, deps: seq<Id>, schedule: Schedule, policy: Option<Retry.Policy>,
    status: Status, attempt: int, worker: Id,
    createdAt: int, scheduledAt: Option<int>, startedAt: int)
  {
    predicate Recurs() { schedule.Cron? && schedule.expr != "" }
    function Limit(): int { Retry.MaxAttempts(policy) }
    function Place(): Key { Key(priority, createdAt) }
  }

  datatype Lease = Lease(jobID: Id, worker: Id, attempt: int, deadline: int)

  datatype Liveness = Alive | Suspect | Dead
  datatype Worker = Worker(liveness: Liveness, lastHeartbeat: int)

  /** The node's surroundings: the cron library and the configuration. `next` may return any
      time, also one in the past: the library returns the zero time for a schedule that never
      fires. */
  datatype Env = Env(parses: string -> bool, next: (string, int) -> int, leaseTTL: int, heartbeatTimeout: int)

  /** The durable buckets. */
  datatype Disk = Disk(jobs: map<Id, Job>, dead: map<Id, Job>)

  /** `issued` is history: every task ID ever handed out. */
  datatype State = State(
    leader: bool, clock: int,
    jobs: map<Id, Job>, dead: map<Id, Job>, workers: map<Id, Worker>,
    ready: map<Id, Key>, timers: map<Id, int>, leases: map<Id, Lease>, rev: map<Id, set<Id>>,
    issued: set<Id>)
  {
    function Stored(): Disk { Disk(jobs, dead) }
  }

  /** What scheduling a job leaves alone: leadership, time, workers and leases. */
  ghost predicate SameOffice(s: State, t: State) {
    t.leader == s.leader && t.clock == s.clock && t.workers == s.workers && t.leases == s.leases && t.issued == s.issued
  }

  function DepGraph(jobs: map<Id, Job>): Graph.Graph {
    map id | id in jobs :: jobs[id].deps
  }

  // ----- reverse dependency index -----

  /** The jobs waiting on `dep`. */
  function Dependents(rev: map<Id, set<Id>>, dep: Id): set<Id> {
    if dep in rev then rev[dep] else {}
  }

  function WithDeps(rev: map<Id, set<Id>>, id: Id, deps: seq<Id>): map<Id, set<Id>> {
    map d | d in rev.Keys + (set x | x in deps) :: if d in deps then Dependents(rev, d) + {id} else Dependents(rev, d)
  }

  /** The index without the given jobs as dependents; entries left empty go away. */
  function Without(rev: map<Id, set<Id>>, ids: set<Id>): map<Id, set<Id>> {
    map d | d in rev && rev[d] - ids != {} :: rev[d] - ids
  }

  // ----- dependencies -----

  predicate Done(jobs: map<Id, Job>, id: Id) {
    id in jobs && jobs[id].status.Succeeded?
  }

  predicate AllDone(jobs: map<Id, Job>, deps: seq<Id>) {
    forall d :: d in deps ==> Done(jobs, d)
  }

  /** Failed or canceled: it will never succeed. */
  predicate Lost(jobs: map<Id, Job>, id: Id) {
    id in jobs && (jobs[id].status.Failed? || jobs[id].status.Canceled?)
  }

  datatype Verdict = Ready | Doomed(dep: Id) | Waiting

  /** depsSatisfied: decided by the first dependency that has not succeeded. */
  function Judge(jobs: map<Id, Job>, deps: seq<Id>): Verdict {
    if deps == [] then Ready
    else if Done(jobs, deps[0]) then Judge(jobs, deps[1..])
    else if Lost(jobs, deps[0]) then Doomed(deps[0])
    else Waiting
  }

  // ----- queue and timers -----

  function Put(s: State, j: Job): State {
    s.(jobs := s.jobs[j.id := j])
  }

  /** enqueueJob. A job already in the queue keeps its place. */
  function Enqueue(s: State, id: Id): (t: State)
    ensures t == s.(ready := t.ready)
  {
    if s.leader && id in s.jobs && s.jobs[id].status.Queued? && id !in s.ready
    then s.(ready := s.ready[id := s.jobs[id].Place()])
    else s
  }

  /** armEnqueue, for the time `at`. */
  function Arm(s: State, id: Id, at: int): (t: State)
    ensures t == s.(ready := t.ready, timers := t.timers)
  {
    if at <= s.clock then Enqueue(s, id) else s.(timers := s.timers[id := at])
  }

  /** When a job that becomes ready now should enter the queue, if its schedule says so. */
  function FireTime(env: Env, schedule: Schedule, now: int): Option<int> {
    match schedule
    case Cron(expr) => if expr != "" && env.parses(expr) then Some(env.next(expr, now)) else None
    case RunAt(t) => if t > now then Some(t) else None
    case Immediate => None
  }

  function ReadyJob(env: Env, job: Job, now: int): Job {
    var at := FireTime(env, job.schedule, now);
    job.(status := Queued, scheduledAt := if at.Some? then at else job.scheduledAt)
  }

  function ReadyAt(env: Env, job: Job, now: int): int {
    var at := FireTime(env, job.schedule, now);
    if at.Some? then at.value else now
  }

  function MakeReady(env: Env, s: State, job: Job): (t: State)
    ensures SameOffice(s, t) && t.rev == s.rev && t.dead == s.dead
    ensures t.jobs == s.jobs[job.id := ReadyJob(env, job, s.clock)]
  {
    Arm(Put(s, ReadyJob(env, job, s.clock)), job.id, ReadyAt(env, job, s.clock))
  }

  // ----- submission -----

  /** The record that a new job is stored as. */
  function PlacedJob(env: Env, jobs: map<Id, Job>, job: Job, now: int): Job {
    match Judge(jobs, job.deps)
    case Doomed(_) => job.(status := Canceled)
    case Waiting => job.(status := Pending)
    case Ready => ReadyJob(env, job, now)
  }

  function PlaceNew(env: Env, s: State, job: Job): (t: State)
    ensures SameOffice(s, t) && t.jobs == s.jobs[job.id := PlacedJob(env, s.jobs, job, s.clock)]
  {
    var j := PlacedJob(env, s.jobs, job, s.clock);
    match Judge(s.jobs, job.deps)
    case Doomed(_) => Put(s, j)
    case Waiting => Indexed(Put(s, j), job)
    case Ready => MakeReady(env, s, job)
  }

  /** The job as it is stored: the client does not choose these fields. */
  function Fresh(job: Job, now: int): Job {
    job.(attempt := 0, worker := "", createdAt := now)
  }

  ghost predicate Accepted(env: Env, s: State, job: Job) {
    && s.leader
    && job.command != ""
    && (job.Recurs() ==> env.parses(job.schedule.expr))
    && !(job.deps != [] && Graph.RunsIntoCycle(DepGraph(s.jobs)[job.id := job.deps], job.id))
  }

  ghost function Submit(env: Env, s: State, job: Job): State {
    if Accepted(env, s, job) then PlaceNew(env, s, Fresh(job, s.clock)) else s
  }

  // ----- cancellation -----

  /** There is a chain of index edges from `a` to `b`. */
  ghost predicate Chain(rev: map<Id, set<Id>>, a: Id, b: Id, p: seq<Id>) {
    p != [] && p[0] == a && p[|p| - 1] == b && forall i :: 0 <= i < |p| - 1 ==> p[i + 1] in Dependents(rev, p[i])
  }

  ghost predicate Reaches(rev: map<Id, set<Id>>, a: Id, b: Id) {
    exists p :: Chain(rev, a, b, p)
  }

  /** Everything that waits, directly or through others, on `root`; and `root` itself. */
  ghost function Downstream(rev: map<Id, set<Id>>, root: Id): set<Id> {
    set x | x in {root} + (set d, y | d in rev && y in rev[d] :: y) && Reaches(rev, root, x)
  }

  ghost function Victims(s: State, root: Id): set<Id> {
    set x | x in Downstream(s.rev, root) && x in s.jobs && !s.jobs[x].status.Terminal()
  }

  function WithCanceled(jobs: map<Id, Job>, xs: set<Id>): map<Id, Job> {
    map id | id in jobs :: if id in xs then jobs[id].(status := Canceled) else jobs[id]
  }

  /** cancelCascade: cancels what is not finished of everything downstream of `root`, and drops
      all of it from the index. */
  ghost function Cascade(s: State, root: Id): (t: State)
    ensures SameOffice(s, t)
  {
    s.(jobs := WithCanceled(s.jobs, Victims(s, root)),
       ready := s.ready - Victims(s, root),
       rev := Without(s.rev, Downstream(s.rev, root)))
  }

  ghost function Cancel(s: State, id: Id): State {
    if s.leader && id != "" && id in s.jobs && !s.jobs[id].status.Terminal() then
      Cascade(Put(s, s.jobs[id].(status := Canceled)).(ready := s.ready - {id}), id)
    else s
  }

  /** A cascade in progress: the jobs in `visited` are done. */
  function CascadePart(s: State, visited: set<Id>): State {
    s.(jobs := WithCanceled(s.jobs, Unfinished(s.jobs, visited)),
       ready := s.ready - Unfinished(s.jobs, visited),
       rev := Without(s.rev, visited))
  }

  function Unfinished(jobs: map<Id, Job>, ids: set<Id>): set<Id> {
    set x | x in ids && x in jobs && !jobs[x].status.Terminal()
  }

  // ----- promotion -----

  function Promote(env: Env, s: State, job: Job): (t: State)
    ensures SameOffice(s, t)
  {
    MakeReady(env, s, job).(rev := Without(s.rev, {job.id}))
  }

  ghost function TryPromote(env: Env, s: State, id: Id): (t: State)
    ensures SameOffice(s, t)
  {
    if id !in s.jobs || !s.jobs[id].status.Pending? then s
    else match Judge(s.jobs, s.jobs[id].deps)
      case Doomed(_) => Cascade(s, id)
      case Waiting => s
      case Ready =>
        Promote(env, s, s.jobs[id])
  }

  ghost function PromoteAll(env: Env, s: State, ids: seq<Id>): (t: State)
    ensures SameOffice(s, t)
  {
    if ids == [] then s else TryPromote(env, PromoteAll(env, s, ids[..|ids| - 1]), ids[|ids| - 1])
  }

  // ----- failure -----

  /** The next occurrence of a recurring job. */
  function Rearmed(job: Job, next: int): Job {
    job.(status := Queued, attempt := 0, worker := "", scheduledAt := Some(next))
  }

  predicate CanRearm(env: Env, job: Job) {
    job.Recurs() && env.parses(job.schedule.expr)
  }

  function Rearm(env: Env, s: State, job: Job): (t: State)
    requires CanRearm(env, job)
    ensures SameOffice(s, t) && t.jobs == s.jobs[job.id := Rearmed(job, env.next(job.schedule.expr, s.clock))]
  {
    var next := env.next(job.schedule.expr, s.clock);
    Arm(Put(s, Rearmed(job, next)), job.id, next)
  }

  function RetriedJob(job: Job, at: int): Job {
    job.(worker := "", status := Queued, scheduledAt := Some(at))
  }

  /** A retry due at `at` waits as long as the policy says for this attempt. */
  ghost predicate Spaced(job: Job, clock: int, at: int) {
    job.attempt < job.Limit() ==> Retry.InRange(job.policy, job.attempt, at - clock)
  }

  /** The same for the job leased as `task`, if it is running. */
  ghost predicate TaskSpaced(s: State, task: Id, at: int) {
    s.leader && task in s.leases && s.leases[task].jobID in s.jobs && s.jobs[s.leases[task].jobID].status.Running? ==>
      Spaced(s.jobs[s.leases[task].jobID], s.clock, at)
  }

  /** A queued retry is spaced from `clock`. */
  ghost predicate SpacedRecord(j: Job, clock: int) {
    j.status.Queued? && j.attempt >= 1 ==> j.scheduledAt.Some? && Spaced(j, clock, j.scheduledAt.value)
  }

  /** Every requeued task is spaced, as its job is found when its turn comes. */
  ghost predicate AllSpaced(env: Env, s: State, tasks: seq<Id>, times: map<Id, int>) {
    forall i :: 0 <= i < |tasks| ==> TurnSpaced(env, s, tasks, i, times)
  }

  ghost predicate TurnSpaced(env: Env, s: State, tasks: seq<Id>, i: nat, times: map<Id, int>)
    requires i < |tasks|
  {
    TaskSpaced(RequeueAll(env, s, tasks[..i], times), tasks[i], RetryAt(times, tasks[i]))
  }

  /** Every orphan is spaced. */
  ghost predicate OrphansSpaced(jobs: map<Id, Job>, clock: int, ids: seq<Id>, times: map<Id, int>) {
    forall id :: id in ids && id in jobs && jobs[id].status.Running? ==> Spaced(jobs[id], clock, RetryAt(times, id))
  }

  function Requeued(s: State, job: Job, at: int): (t: State)
    ensures SameOffice(s, t) && t.jobs == s.jobs[job.id := RetriedJob(job, at)]
  {
    Arm(Put(s, RetriedJob(job, at)), job.id, at)
  }

  function FailedJob(job: Job): Job {
    job.(worker := "", status := Failed)
  }

  /** Retries are exhausted: the dead-letter entry, then the terminal state. */
  function Buried(s: State, job: Job): (t: State)
    ensures SameOffice(s, t)
  {
    Put(s.(dead := s.dead[job.id := FailedJob(job)]), FailedJob(job)).(rev := Without(s.rev, {job.id}))
  }

  ghost function Bury(s: State, job: Job): (t: State)
    ensures SameOffice(s, t)
  {
    Cascade(Buried(s, job), job.id)
  }

  /** handleFailure of a job whose attempt was lost; `at` is when the jittered backoff ends. */
  ghost function Fail(env: Env, s: State, job: Job, at: int): (t: State)
    ensures SameOffice(s, t)
  {
    if job.attempt < job.Limit() then Requeued(s, job, at)
    else if CanRearm(env, job) then Rearm(env, s, job)
    else Bury(s, job)
  }

  // ----- dispatch -----

  const MAX_BATCH := 64

  function Batch(requested: int): (n: int)
    ensures 1 <= n <= MAX_BATCH
  {
    if requested <= 0 then 1 else if requested > MAX_BATCH then MAX_BATCH else requested
  }

  /** A task handed to a worker: its ID and its lease. */
  datatype Assignment = Assignment(task: Id, lease: Lease)

  function Dispatched(job: Job, worker: Id, now: int): Job {
    job.(status := Running, attempt := job.attempt + 1, worker := worker, scheduledAt := None, startedAt := now)
  }

  /** The lease of an attempt that has just started. */
  function LeaseFor(env: Env, job: Job): Lease {
    Lease(job.id, job.worker, job.attempt, job.startedAt + env.leaseTTL)
  }

  function Dispatch(env: Env, s: State, id: Id, worker: Id, task: Id): State
    requires id in s.jobs
  {
    var job := Dispatched(s.jobs[id], worker, s.clock);
    Put(s, job).(leases := s.leases[task := LeaseFor(env, job)], issued := s.issued + {task})
  }

  datatype Polled = Polled(state: State, out: seq<Assignment>)

  /** The dispatch loop: pop, drop what is stale, lease the rest, at most |tasks| of them. */
  ghost function PollLoop(env: Env, s: State, worker: Id, tasks: seq<Id>): (p: Polled)
    ensures p.state.clock == s.clock
    decreases |s.ready|
  {
    if tasks == [] || s.ready == map[] then Polled(s, [])
    else
      var id := First(s.ready);
      var t := s.(ready := s.ready - {id});
      PopShrinks(s.ready, id);
      if id in t.jobs && t.jobs[id].status.Queued? then
        var u := Dispatch(env, t, id, worker, tasks[0]);
        var rest := PollLoop(env, u, worker, tasks[1..]);
        Polled(rest.state, [Assignment(tasks[0], LeaseFor(env, Dispatched(s.jobs[id], worker, s.clock)))] + rest.out)
      else PollLoop(env, t, worker, tasks)
  }

  /** The state in which the next job has been taken from the queue and leased. */
  ghost function LeaseFirst(env: Env, s: State, worker: Id, task: Id): State
    requires s.ready != map[] && First(s.ready) in s.jobs
  {
    Dispatch(env, s.(ready := s.ready - {First(s.ready)}), First(s.ready), worker, task)
  }

  lemma PollUnfold(env: Env, s: State, worker: Id, tasks: seq<Id>)
    requires tasks != [] && s.ready != map[]
    requires First(s.ready) in s.jobs && s.jobs[First(s.ready)].status.Queued?
    ensures var id := First(s.ready);
      var rest := PollLoop(env, LeaseFirst(env, s, worker, tasks[0]), worker, tasks[1..]);
      PollLoop(env, s, worker, tasks)
      == Polled(rest.state, [Assignment(tasks[0], LeaseFor(env, Dispatched(s.jobs[id], worker, s.clock)))] + rest.out)
  {}

  lemma PopShrinks(m: map<Id, Key>, id: Id)
    requires id in m
    ensures |m - {id}| == |m| - 1
  {
    assert (m - {id}).Keys == m.Keys - {id};
  }

  /** PollTask; `tasks` are the fresh task IDs it may mint. */
  ghost function Poll(env: Env, s: State, worker: Id, tasks: seq<Id>): Polled {
    if s.leader && worker in s.workers then PollLoop(env, s, worker, tasks) else Polled(s, [])
  }

  // ----- results -----

  datatype Outcome = Success | Failure | Unspecified

  function DropLease(s: State, task: Id): State {
    s.(leases := s.leases - {task})
  }

  function FinishedJob(job: Job): Job {
    job.(status := Succeeded, worker := "")
  }

  function Finished(s: State, job: Job): State {
    Put(s, FinishedJob(job)).(rev := Without(s.rev, {job.id}))
  }

  /** A success: `order` lists the dependents in the order they are re-evaluated. */
  ghost function Succeed(env: Env, s: State, id: Id, order: seq<Id>): (t: State)
    requires id in s.jobs
    ensures SameOffice(s, t)
  {
    if CanRearm(env, s.jobs[id]) then Rearm(env, s, s.jobs[id])
    else
      PromoteAll(env, Finished(s, s.jobs[id]), order)
  }

  ghost function Report(env: Env, s: State, task: Id, outcome: Outcome, order: seq<Id>, at: int): (t: State)
    ensures t.clock == s.clock
  {
    if !s.leader || task !in s.leases then s
    else
      var id := s.leases[task].jobID;
      if id !in s.jobs || !s.jobs[id].status.Running? then DropLease(s, task)
      else match outcome
        case Success => Succeed(env, DropLease(s, task), id, order)
        case Failure => Fail(env, DropLease(s, task), s.jobs[id], at)
        case Unspecified => s
  }

  /** A timer goes off. */
  function Fire(s: State, id: Id): State
    requires id in s.timers
  {
    Enqueue(s.(timers := s.timers - {id}), id)
  }

  // ----- workers and the reaper -----

  function Beat(s: State, worker: Id): State {
    s.(workers := s.workers[worker := Worker(Alive, s.clock)])
  }

  /** The liveness the sweep wants for a worker. */
  function Target(env: Env, now: int, w: Worker): Liveness {
    var age := now - w.lastHeartbeat;
    if age > env.heartbeatTimeout then Dead
    else if age > env.heartbeatTimeout / 2 then Suspect
    else Alive
  }

  function Swept(env: Env, now: int, w: Worker): Worker {
    var t := Target(env, now, w);
    if t != Alive && w.liveness != t then w.(liveness := t) else w
  }

  /** The workers the sweep newly declares dead. */
  function NewlyDead(env: Env, s: State): set<Id> {
    set w | w in s.workers && Target(env, s.clock, s.workers[w]) == Dead && s.workers[w].liveness != Dead
  }

  function SweepWorkers(env: Env, s: State): State {
    s.(workers := map w | w in s.workers :: Swept(env, s.clock, s.workers[w]))
  }

  /** requeueLease: drop the lease and charge the lost attempt as a failure. */
  ghost function Requeue(env: Env, s: State, task: Id, at: int): (t: State)
    ensures t.clock == s.clock && t.leader == s.leader
  {
    if task !in s.leases then s
    else
      var id := s.leases[task].jobID;
      var t := DropLease(s, task);
      if id in t.jobs && t.jobs[id].status.Running? then Fail(env, t, t.jobs[id], at) else t
  }

  /** When the backoff of the given task or job ends. */
  function RetryAt(times: map<Id, int>, id: Id): int {
    if id in times then times[id] else 0
  }

  ghost function RequeueAll(env: Env, s: State, tasks: seq<Id>, times: map<Id, int>): (t: State)
    ensures t.clock == s.clock && t.leader == s.leader
  {
    if tasks == [] then s
    else
      var last := tasks[|tasks| - 1];
      Requeue(env, RequeueAll(env, s, tasks[..|tasks| - 1], times), last, RetryAt(times, last))
  }

  ghost predicate Distinct(xs: seq<Id>) {
    forall i, j :: 0 <= i < j < |xs| ==> xs[i] != xs[j]
  }

  /** `xs` lists the members of `m`, each once. */
  ghost predicate Lists(xs: seq<Id>, m: set<Id>) {
    Elems(xs) == m && Distinct(xs)
  }

  /** A listing of a finite set. */
  ghost function SomeOrder(m: set<Id>): (xs: seq<Id>)
    ensures Lists(xs, m)
  {
    if m == {} then [] else
      var x :| x in m;
      var rest := SomeOrder(m - {x});
      assert Elems([x] + rest) == {x} + Elems(rest);
      [x] + rest
  }

  lemma Snoc(xs: seq<Id>)
    requires xs != []
    ensures Elems(xs) == Elems(xs[..|xs| - 1]) + {xs[|xs| - 1]}
    ensures Distinct(xs) ==> Distinct(xs[..|xs| - 1]) && xs[|xs| - 1] !in Elems(xs[..|xs| - 1])
  {
    var init, last := xs[..|xs| - 1], xs[|xs| - 1];
    assert xs == init + [last];
    assert forall i :: 0 <= i < |init| ==> init[i] == xs[i];
  }

  function LeasesOf(s: State, workers: set<Id>): set<Id> {
    set t | t in s.leases && s.leases[t].worker in workers
  }

  function Expired(s: State): set<Id> {
    set t | t in s.leases && s.clock > s.leases[t].deadline
  }

  /** reapOnce: `orphans` are the leases of newly dead workers, `overdue` those that are past
      their deadline after that. */
  ghost function Reap(env: Env, s: State, orphans: seq<Id>, overdue: seq<Id>, times: map<Id, int>): State {
    if !s.leader then s
    else RequeueAll(env, RequeueAll(env, SweepWorkers(env, s), orphans, times), overdue, times)
  }

  // ----- leadership -----

  function Cleared(s: State): State {
    s.(ready := map[], timers := map[], leases := map[], rev := map[])
  }

  /** addDeps. */
  function Indexed(s: State, job: Job): State {
    s.(rev := WithDeps(s.rev, job.id, job.deps))
  }

  /** Where recovery puts a job found queued. */
  function Relisted(s: State, job: Job): (t: State)
    ensures t == s.(ready := t.ready, timers := t.timers)
  {
    if job.scheduledAt.None? || job.scheduledAt.value <= s.clock
    then if job.id in s.ready then s else s.(ready := s.ready[job.id := job.Place()])
    else Arm(s, job.id, job.scheduledAt.value)
  }

  /** One job of the first recovery loop; `snap` is the job as listed. */
  ghost function Recover(env: Env, s: State, snap: Job, at: int): (t: State)
    ensures SameOffice(s, t) && (!snap.status.Running? ==> t.jobs == s.jobs)
  {
    match snap.status
    case Pending => Indexed(s, snap)
    case Queued => Relisted(Indexed(s, snap), snap)
    case Running => Fail(env, Indexed(s, snap), snap, at)
    case _ => s
  }

  ghost function RecoverAll(env: Env, s: State, snap: map<Id, Job>, ids: seq<Id>, times: map<Id, int>): (t: State)
    requires forall id :: id in ids ==> id in snap
    ensures SameOffice(s, t)
  {
    if ids == [] then s
    else
      var last := ids[|ids| - 1];
      Recover(env, RecoverAll(env, s, snap, ids[..|ids| - 1], times), snap[last], RetryAt(times, last))
  }

  /** The listed jobs that were waiting on dependencies, in list order. */
  function PendingOf(snap: map<Id, Job>, ids: seq<Id>): seq<Id>
    requires forall id :: id in ids ==> id in snap
  {
    if ids == [] then []
    else
      var rest := PendingOf(snap, ids[..|ids| - 1]);
      if snap[ids[|ids| - 1]].status.Pending? then rest + [ids[|ids| - 1]] else rest
  }

  /** Taking leadership: rebuildSchedulingState over the jobs listed as `ids`. */
  ghost function Lead(env: Env, s: State, ids: seq<Id>, times: map<Id, int>): State
    requires forall id :: id in ids ==> id in s.jobs
  {
    var t := RecoverAll(env, Cleared(s).(leader := true), s.jobs, ids, times);
    PromoteAll(env, t, PendingOf(s.jobs, ids))
  }

  function StepDown(s: State): State {
    Cleared(s).(leader := false)
  }
}
