/** The calls a node receives, from clients, workers, its own timers and the election. Each is
    one step of the transition system of Runs, so what holds of every run holds of the node; a
    submission that replaces a stored job is a step of the wider system of Resubmission. */
module Service {
  import opened Prelude
  import opened Jobs
  import opened Invariants
  import opened Handlers
  import opened Runs
  import opened Server
  import Resubmission

  datatype Request =
    | SubmitJob(request: Option<Job>, minted: Id)
    | CancelJob(id: Id)
    | PollTask(worker: Id, requested: int, tasks: seq<Id>)
    | ReportTask(task: Id, outcome: Outcome)
    | RegisterWorker(caller: Option<Id>, minted: Id)
    | Heartbeat(worker: Id)
    | TimerDue(id: Id)
    | ReapTick
    | ClockReads(now: int)
    | Deposed
    | Elected

  /** Minted job IDs are not empty, minted task IDs are new, timers fire when due, the clock does
      not go back, and only a follower is elected. */
  ghost predicate Admissible(s: State, r: Request) {
    match r
    case SubmitJob(request, minted) => request.Some? ==> Named(request.value, minted).id != ""
    case PollTask(_, requested, tasks) => |tasks| == Batch(requested) && FreshTasks(s.issued, tasks)
    case TimerDue(id) => id in s.timers && s.timers[id] <= s.clock
    case ClockReads(now) => s.clock <= now
    case Elected => !s.leader
    case _ => true
  }

  /** The call does not submit a job under an ID that is stored. */
  ghost predicate Novel(s: State, r: Request) {
    r.SubmitJob? && r.request.Some? ==> Named(r.request.value, r.minted).id !in s.jobs
  }

  /** The writes of a call, from the store it found to the store it left. */
  ghost predicate Wrought(env: Env, s: State, t: State, trail: seq<Disk>) {
    Trail(env, s.clock, trail) && trail[0] == s.Stored() && trail[|trail| - 1] == t.Stored()
  }

  lemma NothingHappens(env: Env, s: State)
    ensures Moves(env, s, TimePassed(s.clock), s)
  {}

  lemma QueueIsDue(env: Env, s: State)
    requires Inv(env, s)
    ensures ReadyIsDue(s)
  {
    forall id | id in s.ready && id in s.jobs && s.jobs[id].status.Queued? ensures Due(s.jobs[id], s.clock) {
      assert ReadyOk(s.jobs, s.clock, {}, id, s.ready[id]);
    }
  }

  method Submitting(node: Node, request: Option<Job>, minted: Id) returns (ghost e: Event)
    requires node.Valid() && DiskInv(node.env, node.clock, Disk(node.jobs, node.dead))
    requires Admissible(node.View(), SubmitJob(request, minted))
    modifies node.Repr()
    ensures node.Valid() && fresh(node.Repr() - old(node.Repr()))
    ensures Resubmission.Happens(node.env, old(node.View()), e, node.View())
    ensures Novel(old(node.View()), SubmitJob(request, minted)) ==>
      Moves(node.env, old(node.View()), e, node.View()) && Wrought(node.env, old(node.View()), node.View(), node.trail)
  {
    NothingHappens(node.env, node.View());
    var _ := node.SubmitJob(request, minted);
    e := if request.Some? then Submitted(Named(request.value, minted)) else TimePassed(node.clock);
  }

  method Polling(node: Node, worker: Id, requested: int, tasks: seq<Id>) returns (ghost e: Event)
    requires node.Valid() && DiskInv(node.env, node.clock, Disk(node.jobs, node.dead)) && ReadyIsDue(node.View())
    requires |tasks| == Batch(requested) && FreshTasks(node.issued, tasks)
    modifies node.Repr()
    ensures node.Valid() && fresh(node.Repr() - old(node.Repr()))
    ensures Moves(node.env, old(node.View()), e, node.View())
    ensures Wrought(node.env, old(node.View()), node.View(), node.trail)
  {
    var _, _ := node.PollTask(worker, requested, tasks);
    e := PolledBy(worker, requested, tasks);
  }

  method Reporting(node: Node, task: Id, outcome: Outcome) returns (ghost e: Event)
    requires node.Valid() && DiskInv(node.env, node.clock, Disk(node.jobs, node.dead))
    modifies node.Repr()
    ensures node.Valid() && fresh(node.Repr() - old(node.Repr()))
    ensures Moves(node.env, old(node.View()), e, node.View())
    ensures Wrought(node.env, old(node.View()), node.View(), node.trail)
  {
    var _, order, at := node.ReportTask(task, outcome);
    e := Reported(task, outcome, order, at);
  }

  /** The reaper looks at leadership first. */
  method Reaping(node: Node) returns (ghost e: Event)
    requires node.Valid() && DiskInv(node.env, node.clock, Disk(node.jobs, node.dead))
    modifies node.Repr()
    ensures node.Valid() && fresh(node.Repr() - old(node.Repr()))
    ensures Moves(node.env, old(node.View()), e, node.View())
    ensures Wrought(node.env, old(node.View()), node.View(), node.trail)
  {
    if node.leader {
      var orphans, overdue, times := node.ReapOnce();
      e := SweptOnce(orphans, overdue, times);
    } else {
      e := TimePassed(node.clock);
      node.trail := [Disk(node.jobs, node.dead)];
      NothingHappens(node.env, node.View());
    }
  }

  method Leading(node: Node) returns (ghost e: Event)
    requires node.Valid() && DiskInv(node.env, node.clock, Disk(node.jobs, node.dead)) && !node.leader
    modifies node.Repr()
    ensures node.Valid() && fresh(node.Repr() - old(node.Repr()))
    ensures Moves(node.env, old(node.View()), e, node.View())
    ensures Wrought(node.env, old(node.View()), node.View(), node.trail)
  {
    var ids, times := node.OnBecomeLeader();
    e := TookLead(ids, times);
  }

  /** Calls that touch no job. */
  method Hearing(node: Node, r: Request) returns (ghost e: Event)
    requires node.Valid() && Admissible(node.View(), r)
    requires r.RegisterWorker? || r.Heartbeat? || r.ClockReads?
    modifies node`workers, node`clock, node`trail
    ensures node.Valid() && node.Repr() == old(node.Repr())
    ensures Moves(node.env, old(node.View()), e, node.View())
    ensures Wrought(node.env, old(node.View()), node.View(), node.trail)
  {
    match r {
      case RegisterWorker(request, minted) =>
        NothingHappens(node.env, node.View());
        var reg := node.RegisterWorker(request, minted);
        e := if reg.Registered? then WorkerSeen(reg.id) else TimePassed(node.clock);
      case Heartbeat(worker) =>
        NothingHappens(node.env, node.View());
        var standing := node.Heartbeat(worker);
        e := if standing.Known? then WorkerSeen(worker) else TimePassed(node.clock);
      case ClockReads(now) =>
        node.clock, node.trail := now, [Disk(node.jobs, node.dead)];
        e := TimePassed(now);
    }
  }

  method Canceling(node: Node, id: Id) returns (ghost e: Event)
    requires node.Valid() && DiskInv(node.env, node.clock, Disk(node.jobs, node.dead))
    modifies node.Repr()
    ensures node.Valid() && fresh(node.Repr() - old(node.Repr()))
    ensures Moves(node.env, old(node.View()), e, node.View())
    ensures Wrought(node.env, old(node.View()), node.View(), node.trail)
  {
    var _ := node.CancelJob(id);
    e := CancelAsked(id);
  }

  method Firing(node: Node, id: Id) returns (ghost e: Event)
    requires node.Valid() && id in node.timers && node.timers[id] <= node.clock
    modifies node.Repr()
    ensures node.Valid() && fresh(node.Repr() - old(node.Repr()))
    ensures Moves(node.env, old(node.View()), e, node.View())
    ensures Wrought(node.env, old(node.View()), node.View(), node.trail)
  {
    node.TimerFires(id);
    e := TimerFired(id);
  }

  method Yielding(node: Node) returns (ghost e: Event)
    requires node.Valid()
    modifies node.Repr()
    ensures node.Valid() && fresh(node.Repr() - old(node.Repr()))
    ensures Moves(node.env, old(node.View()), e, node.View())
    ensures Wrought(node.env, old(node.View()), node.View(), node.trail)
  {
    node.OnStepDown();
    e := LostLead;
  }

  /** One call is one enabled step. */
  method Serve(node: Node, r: Request) returns (ghost e: Event)
    requires node.Valid() && DiskInv(node.env, node.clock, Disk(node.jobs, node.dead)) && ReadyIsDue(node.View())
    requires Admissible(node.View(), r)
    modifies node.Repr()
    ensures node.Valid() && fresh(node.Repr() - old(node.Repr()))
    ensures r.SubmitJob? ==> Resubmission.Happens(node.env, old(node.View()), e, node.View())
    ensures Novel(old(node.View()), r) ==>
      Moves(node.env, old(node.View()), e, node.View()) && Wrought(node.env, old(node.View()), node.View(), node.trail)
  {
    match r {
      case SubmitJob(request, minted) => e := Submitting(node, request, minted);
      case CancelJob(id) => e := Canceling(node, id);
      case PollTask(worker, requested, tasks) => e := Polling(node, worker, requested, tasks);
      case ReportTask(task, outcome) => e := Reporting(node, task, outcome);
      case TimerDue(id) => e := Firing(node, id);
      case ReapTick => e := Reaping(node);
      case Elected => e := Leading(node);
      case Deposed => e := Yielding(node);
      case _ => e := Hearing(node, r);
    }
  }

  /** A call made in an orderly state leaves an orderly state, unless it replaces a stored job; the
      stored dependencies stay acyclic in any case. */
  method Handle(node: Node, r: Request) returns (ghost e: Event)
    requires node.Valid() && Inv(node.env, node.View()) && Admissible(node.View(), r)
    modifies node.Repr()
    ensures node.Valid() && fresh(node.Repr() - old(node.Repr()))
    ensures Novel(old(node.View()), r) ==>
      && Moves(node.env, old(node.View()), e, node.View()) && Inv(node.env, node.View())
      && Wrought(node.env, old(node.View()), node.View(), node.trail)
    ensures !Novel(old(node.View()), r) ==>
      Resubmission.Happens(node.env, old(node.View()), e, node.View()) && Resubmission.Orderly(node.jobs)
  {
    QueueIsDue(node.env, node.View());
    e := Serve(node, r);
    if Novel(old(node.View()), r) {
      StepKeepsInv(node.env, old(node.View()), e);
    } else {
      Resubmission.DiskIsOrderly(node.env, old(node.View()));
      Resubmission.EventKeepsOrder(node.env, old(node.View()), e);
    }
  }

  /** A handler writes the store one record at a time. Cut off after any of its writes, it leaves
      a store that a restarted node takes over with the invariant intact. */
  lemma CutShort(env: Env, s: State, trail: seq<Disk>, k: nat)
    requires Inv(env, s) && Trail(env, s.clock, trail) && trail[0] == s.Stored() && k < |trail|
    ensures Moves(env, s, Crashed(trail[..k + 1]), Restarted(s, trail[k])) && Inv(env, Restarted(s, trail[k]))
  {
    var cut := trail[..k + 1];
    forall i | 0 <= i < |cut| - 1 ensures Wrote(env, s.clock, cut[i], cut[i + 1]) {
      assert Wrote(env, s.clock, trail[i], trail[i + 1]);
    }
    StepKeepsInv(env, s, Crashed(cut));
  }
}
