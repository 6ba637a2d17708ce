/** When jobs start: a retry waits out its backoff, a recurring job its next occurrence, a delayed
    job its time, through timers, crashes and recovery. */
module Timeliness {
  import opened Prelude
  import opened Jobs
  import opened Invariants
  import opened Progress
  import opened Runs
  import opened Guarantees

  /** A queued job stays as it is, or is canceled, until its time has come. */
  lemma NeverEarly(env: Env, ss: seq<State>, es: seq<Event>, i: nat, k: nat, id: Id)
    requires Run(env, ss, es) && i <= k < |ss| && id in ss[i].jobs && ss[i].jobs[id].status.Queued?
    ensures id in ss[k].jobs
    ensures ss[k].jobs[id] in {ss[i].jobs[id], ss[i].jobs[id].(status := Canceled)} || Due(ss[i].jobs[id], ss[k].clock)
  {
    RunAdvances(env, ss, es, i, k);
    assert JobAdvances(ss[i].jobs[id], ss[k].jobs[id], ss[k].clock);
  }

  lemma {:induction false} JobsOfAt(out: seq<Assignment>, k: nat)
    requires k < |out|
    ensures out[k].lease.jobID in JobsOf(out)
  {
    if k > 0 { JobsOfAt(out[1..], k - 1); }
  }

  /** What a poll hands out was queued and due. */
  lemma HandedOutWhenDue(env: Env, ss: seq<State>, es: seq<Event>, i: nat, k: nat)
    requires Run(env, ss, es) && i < |es| && es[i].PolledBy?
    requires k < |Poll(env, ss[i], es[i].worker, es[i].tasks).out|
    ensures var id := Poll(env, ss[i], es[i].worker, es[i].tasks).out[k].lease.jobID;
      id in ss[i].jobs && ss[i].jobs[id].status.Queued? && Due(ss[i].jobs[id], ss[i].clock)
  {
    var s, out := ss[i], Poll(env, ss[i], es[i].worker, es[i].tasks).out;
    RunKeepsInv(env, ss, es, i);
    assert Moves(env, ss[i], es[i], ss[i + 1]);
    PollTakesBest(env, s, es[i].worker, es[i].tasks);
    JobsOfAt(out, k);
    assert ReadyOk(s.jobs, s.clock, {}, out[k].lease.jobID, s.ready[out[k].lease.jobID]);
  }

  // ----- the time on the record -----

  /** Nothing in the queue carries a later time on its record. */
  ghost predicate OnRecord(s: State) {
    forall id :: id in s.ready && id in s.jobs ==> OnTime(s.jobs[id], s.clock)
  }

  /** The record of a job that waits or is submitted has a time to come that its schedule does not
      set. */
  ghost predicate Preset(env: Env, clock: int, job: Job) {
    FireTime(env, job.schedule, clock).None? && !OnTime(job, clock)
  }

  /** An immediate job with a time set by the client starts at once, ahead of that time. */
  lemma PresetIsIgnored(env: Env, s: State, id: Id)
    requires s.leader && s.jobs == map[] && s.ready == map[] && s.clock == 0
    ensures var job := Job(id, "run", 0, [], Immediate, None, Pending, 0, "", 0, Some(100), 0);
      var t := Submit(env, s, job);
      id in t.ready && t.jobs[id].scheduledAt == Some(100) && t.clock == 0
  {}

  /** A job submitted without a time of its own never starts ahead of the time on its record. */
  lemma UnsetIsOnRecord(env: Env, ss: seq<State>, es: seq<Event>, i: nat, k: nat)
    requires Run(env, ss, es) && i < k < |ss| && es[i].Submitted? && es[i].job.scheduledAt.None?
    requires es[i].job.id in ss[k].ready && Accepted(env, ss[i], es[i].job)
    ensures var id := es[i].job.id;
      id in ss[k].jobs && (ss[k].jobs[id].scheduledAt.None? || ss[k].jobs[id].scheduledAt.value <= ss[k].clock)
  {
    var id := es[i].job.id;
    assert Moves(env, ss[i], es[i], ss[i + 1]);
    assert Plain(ss[i + 1].jobs[id]);
    RunAdvances(env, ss, es, i + 1, k);
    assert JobAdvances(ss[i + 1].jobs[id], ss[k].jobs[id], ss[k].clock);
    RunKeepsInv(env, ss, es, k);
    assert ReadyOk(ss[k].jobs, ss[k].clock, {}, id, ss[k].ready[id]);
  }
}
