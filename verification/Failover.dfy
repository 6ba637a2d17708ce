/** Failover: a follower that is elected takes over its replica of the jobs bucket. If it has
    applied the snapshot and was only ever taken forward, that replica is a bucket the leader had
    after one of its writes, so a node that starts from it is as well off as one that restarts
    after a crash. */
module Failover {
  import opened Prelude
  import opened Jobs
  import opened Invariants
  import opened Runs
  import Consequences
  import Graph
  import R = Replication
  import Replicas

  /** The jobs bucket of `store` is `jobs`, marshaled by `enc`. */
  ghost predicate Holds(enc: Job -> R.Record, store: R.Store, jobs: map<Id, Job>) {
    && (forall id :: R.JobKey(id) in store <==> id in jobs)
    && (forall id :: id in jobs ==> R.JobKey(id) in store && store[R.JobKey(id)] == enc(jobs[id]))
  }

  /** `store` holds no job that `jobs` does not. */
  ghost predicate NoOthers(store: R.Store, jobs: map<Id, Job>) {
    forall id :: R.JobKey(id) in store ==> id in jobs
  }

  // ----- the leader's store beside its log -----

  /** Every job record the leader writes goes into the log; nothing else is put there under a
      job's key. Dead letters are not replicated. */
  ghost predicate Beside(env: Env, enc: Job -> R.Record, clock: int, d: Disk, e: R.Event, after: Disk) {
    if e.Put? && e.key.JobKey? then
      exists j ::
        LegalPut(env, clock, d, j) && e == R.Put(R.JobKey(j.id), enc(j)) && after.jobs == d.jobs[j.id := j]
    else
      after.jobs == d.jobs
  }

  ghost predicate BesideAt(env: Env, enc: Job -> R.Record, es: seq<R.Event>, ds: seq<Disk>, now: seq<int>, i: nat)
    requires |ds| == |now| == |es| + 1 && i < |es|
  {
    now[i] <= now[i + 1] && Beside(env, enc, now[i + 1], ds[i], es[i], ds[i + 1])
  }

  /** A session, the leader's store at each of its moments, and the leader's clock. */
  ghost predicate History(env: Env, enc: Job -> R.Record, ss: seq<R.Session>, es: seq<R.Event>, ds: seq<Disk>,
      now: seq<int>)
  {
    && R.Run(ss, es) && |ds| == |now| == |es| + 1
    && DiskInv(env, now[0], ds[0]) && Holds(enc, ss[0].leader.store, ds[0].jobs)
    && forall i :: 0 <= i < |es| ==> BesideAt(env, enc, es, ds, now, i)
  }

  lemma HistoryAppends(
    env: Env, enc: Job -> R.Record, ss: seq<R.Session>, es: seq<R.Event>, ds: seq<Disk>, now: seq<int>,
    e: R.Event, after: Disk, clock: int)
    requires History(env, enc, ss, es, ds, now) && R.Enabled(ss[|es|], e)
    requires now[|es|] <= clock && Beside(env, enc, clock, ds[|es|], e, after)
    ensures History(env, enc, ss + [R.Step(ss[|es|], e)], es + [e], ds + [after], now + [clock])
  {
    var ss', es', ds', now' := ss + [R.Step(ss[|es|], e)], es + [e], ds + [after], now + [clock];
    forall i | 0 <= i < |es'| ensures R.Moves(ss'[i], es'[i], ss'[i + 1]) && BesideAt(env, enc, es', ds', now', i) {
      if i < |es| { assert R.Moves(ss[i], es[i], ss[i + 1]) && BesideAt(env, enc, es, ds, now, i); }
    }
  }

  /** One write of a handler, if it is a job record, is the next write of the session. */
  lemma WriteShips(
    env: Env, enc: Job -> R.Record, ss: seq<R.Session>, es: seq<R.Event>, ds: seq<Disk>, now: seq<int>,
    clock: int, d: Disk, after: Disk)
    returns (ss': seq<R.Session>, es': seq<R.Event>, ds': seq<Disk>, now': seq<int>)
    requires History(env, enc, ss, es, ds, now) && now[|es|] <= clock
    requires Wrote(env, clock, d, after) && d.jobs == ds[|es|].jobs
    ensures History(env, enc, ss', es', ds', now') && now'[|es'|] <= clock
    ensures es <= es' && ds'[|es'|].jobs == after.jobs
  {
    ss', es', ds', now' := ss, es, ds, now;
    if after.jobs != d.jobs {
      var j :| LegalWrite(env, clock, d, j) && after == Disk(d.jobs[j.id := j], d.dead);
      var e := R.Put(R.JobKey(j.id), enc(j));
      assert LegalPut(env, clock, ds[|es|], j);
      HistoryAppends(env, enc, ss, es, ds, now, e, after, clock);
      ss', es', ds', now' := ss + [R.Step(ss[|es|], e)], es + [e], ds + [after], now + [clock];
    }
  }

  /** So the writes of a whole handler carry a session on, to the jobs the handler leaves. */
  lemma {:induction false} TrailShips(
    env: Env, enc: Job -> R.Record, ss: seq<R.Session>, es: seq<R.Event>, ds: seq<Disk>, now: seq<int>,
    clock: int, trail: seq<Disk>, i: nat)
    returns (ss': seq<R.Session>, es': seq<R.Event>, ds': seq<Disk>, now': seq<int>)
    requires History(env, enc, ss, es, ds, now) && now[|es|] <= clock
    requires Trail(env, clock, trail) && trail[0].jobs == ds[|es|].jobs && i < |trail|
    ensures History(env, enc, ss', es', ds', now') && now'[|es'|] <= clock
    ensures es <= es' && ds'[|es'|].jobs == trail[i].jobs
  {
    ss', es', ds', now' := ss, es, ds, now;
    if i > 0 {
      ss', es', ds', now' := TrailShips(env, enc, ss, es, ds, now, clock, trail, i - 1);
      assert Wrote(env, clock, trail[i - 1], trail[i - 1 + 1]);
      ss', es', ds', now' := WriteShips(env, enc, ss', es', ds', now', clock, trail[i - 1], trail[i]);
    }
  }

  lemma {:induction false} HistoryInOrder(
    env: Env, enc: Job -> R.Record, ss: seq<R.Session>, es: seq<R.Event>, ds: seq<Disk>, now: seq<int>, k: nat, i: nat)
    requires History(env, enc, ss, es, ds, now) && k <= i < |ss|
    ensures DiskInv(env, now[i], ds[k])
    decreases i
  {
    if k < i {
      HistoryInOrder(env, enc, ss, es, ds, now, k, i - 1);
      assert BesideAt(env, enc, es, ds, now, i - 1);
      DiskLater(env, now[i - 1], now[i], ds[k]);
    } else if i > 0 {
      HistoryInOrder(env, enc, ss, es, ds, now, i - 1, i - 1);
      assert BesideAt(env, enc, es, ds, now, i - 1);
      DiskLater(env, now[i - 1], now[i], ds[i - 1]);
      BesideKeepsDisk(env, enc, now[i], ds[i - 1], es[i - 1], ds[i]);
    }
  }

  lemma BesideKeepsDisk(env: Env, enc: Job -> R.Record, clock: int, d: Disk, e: R.Event, after: Disk)
    requires DiskInv(env, clock, d) && Beside(env, enc, clock, d, e, after)
    ensures DiskInv(env, clock, after)
  {
    if e.Put? && e.key.JobKey? {
      var j :| LegalPut(env, clock, d, j) && after.jobs == d.jobs[j.id := j];
      PutKeepsDisk(env, clock, d, j);
    }
  }

  /** `store` holds the jobs, and besides them what `base` held of others. */
  ghost predicate Overlays(enc: Job -> R.Record, store: R.Store, base: R.Store, jobs: map<Id, Job>) {
    && (forall id :: R.JobKey(id) in store <==> id in jobs || R.JobKey(id) in base)
    && (forall id :: id in jobs ==> R.JobKey(id) in store && store[R.JobKey(id)] == enc(jobs[id]))
  }

  lemma OverlayHoldsIff(enc: Job -> R.Record, store: R.Store, base: R.Store, jobs: map<Id, Job>)
    requires Overlays(enc, store, base, jobs)
    ensures Holds(enc, store, jobs) <==> NoOthers(base, jobs)
  {}

  /** A snapshot overwrites every job record of the leader. */
  lemma SnapshotTells(enc: Job -> R.Record, s: R.Session, base: R.Store, jobs: map<Id, Job>)
    requires R.Seeded(s) && Holds(enc, s.leader.store, jobs)
    ensures Overlays(enc, R.ApplyAll(base, s.leader.log), base, jobs)
  {
    var log, after := s.leader.log, R.ApplyAll(base, s.leader.log);
    forall id ensures R.JobKey(id) in after <==> id in jobs || R.JobKey(id) in base {
      var k := R.JobKey(id);
      R.ApplyAllAt(base, log, k);
      if id in jobs { assert R.Logged(log, k, s.leader.store[k]); }
      if R.LastWrite(log, k) > 0 { assert R.Target(log[R.LastWrite(log, k) - 1].mutation) in s.leader.store; }
    }
    forall id | id in jobs ensures after[R.JobKey(id)] == enc(jobs[id]) {
      var k := R.JobKey(id);
      R.ApplyAllAt(base, log, k);
      assert R.Logged(log, k, s.leader.store[k]);
    }
  }

  lemma PutTells(base: R.Store, l: R.Leader, key: R.Key, value: R.Record)
    ensures R.ApplyAll(base, R.Write(l, key, value).log) == R.ApplyAll(base, l.log)[key := value]
  {
    var log := R.Write(l, key, value).log;
    assert log[..|log| - 1] == l.log;
  }

  /** Whoever applies the whole log holds the leader's jobs. */
  lemma {:induction false} LogTells(
    env: Env, enc: Job -> R.Record, ss: seq<R.Session>, es: seq<R.Event>, ds: seq<Disk>, now: seq<int>,
    base: R.Store, i: nat)
    requires History(env, enc, ss, es, ds, now) && i < |ss|
    ensures Overlays(enc, R.ApplyAll(base, ss[i].leader.log), base, ds[i].jobs) && ds[0].jobs.Keys <= ds[i].jobs.Keys
  {
    if i == 0 {
      SnapshotTells(enc, ss[0], base, ds[0].jobs);
    } else {
      LogTells(env, enc, ss, es, ds, now, base, i - 1);
      assert BesideAt(env, enc, es, ds, now, i - 1) && R.Moves(ss[i - 1], es[i - 1], ss[i - 1 + 1]);
      BesideTells(env, enc, now[i], ss[i - 1], es[i - 1], ds[i - 1], ds[i], base);
    }
  }

  lemma BesideTells(
    env: Env, enc: Job -> R.Record, clock: int, s: R.Session, e: R.Event, d: Disk, after: Disk, base: R.Store)
    requires R.Enabled(s, e) && Beside(env, enc, clock, d, e, after)
    requires Overlays(enc, R.ApplyAll(base, s.leader.log), base, d.jobs)
    ensures Overlays(enc, R.ApplyAll(base, R.Step(s, e).leader.log), base, after.jobs) && d.jobs.Keys <= after.jobs.Keys
  {
    if e.Put? { PutTells(base, s.leader, e.key, e.value); }
  }

  /** Every prefix of the log that includes the snapshot was once the whole log. */
  lemma {:induction false} PrefixWasLog(ss: seq<R.Session>, es: seq<R.Event>, i: nat, c: nat) returns (k: nat)
    requires R.Run(ss, es) && i < |ss| && |ss[0].leader.log| <= c <= |ss[i].leader.log|
    ensures k <= i && ss[k].leader.log == ss[i].leader.log[..c]
  {
    k := i;
    if c < |ss[i].leader.log| {
      assert R.Moves(ss[i - 1], es[i - 1], ss[i - 1 + 1]);
      k := PrefixWasLog(ss, es, i - 1, c);
    }
  }

  // ----- the follower -----

  /** A follower past the snapshot and only ever taken forward holds the jobs the leader held after
      one of its writes, exactly when it had no job unknown to the leader by then; and those jobs
      are in order. */
  lemma ReplicaWasLeadersIff(
    env: Env, enc: Job -> R.Record, ss: seq<R.Session>, es: seq<R.Event>, ds: seq<Disk>, now: seq<int>, p: Id, i: nat)
    returns (k: nat)
    requires History(env, enc, ss, es, ds, now) && i < |ss| && p in ss[0].links
    requires Replicas.PlausibleBefore(ss, es, p, i) && Replicas.ForwardBefore(ss, es, p, i)
    requires |ss[0].leader.log| <= Replicas.Reached(ss, es, p, i)
    ensures k <= i && p in ss[i].links && DiskInv(env, now[i], ds[k]) && ds[0].jobs.Keys <= ds[k].jobs.Keys
    ensures Holds(enc, ss[i].links[p].store, ds[k].jobs) <==> NoOthers(ss[0].links[p].store, ds[k].jobs)
  {
    var base := ss[0].links[p].store;
    Replicas.FollowerStands(ss, es, p, i);
    k := PrefixWasLog(ss, es, i, Replicas.Reached(ss, es, p, i));
    LogTells(env, enc, ss, es, ds, now, base, k);
    OverlayHoldsIff(enc, ss[i].links[p].store, base, ds[k].jobs);
    HistoryInOrder(env, enc, ss, es, ds, now, k, i);
  }

  /** The jobs a node finds in a store. */
  ghost predicate Finds(dec: R.Record -> Job, store: R.Store, jobs: map<Id, Job>) {
    && (forall id :: R.JobKey(id) in store <==> id in jobs)
    && (forall id :: id in jobs ==> R.JobKey(id) in store && jobs[id] == dec(store[R.JobKey(id)]))
  }

  /** Marshaling loses nothing of these jobs. */
  ghost predicate Faithful(enc: Job -> R.Record, dec: R.Record -> Job, jobs: map<Id, Job>) {
    forall id :: id in jobs ==> dec(enc(jobs[id])) == jobs[id]
  }

  lemma FindsWhatIsHeld(enc: Job -> R.Record, dec: R.Record -> Job, store: R.Store, jobs: map<Id, Job>,
      found: map<Id, Job>)
    requires Faithful(enc, dec, jobs) && Holds(enc, store, jobs) && Finds(dec, store, found)
    ensures found == jobs
  {
    forall id ensures (id in found <==> id in jobs) && (id in found ==> found[id] == jobs[id]) {
      assert R.JobKey(id) in store <==> id in jobs;
      if id in jobs { assert found[id] == dec(store[R.JobKey(id)]) == dec(enc(jobs[id])); }
    }
  }

  /** Failover. A follower that handles requests to their end, and has no job unknown to the leader
      when that took office, holds from its first request on a store to start from: a node that
      finds its jobs there and has nothing in memory begins a run in order. Before that it holds
      the store it had. */
  lemma SuccessorStartsInOrder(
    env: Env, enc: Job -> R.Record, dec: R.Record -> Job,
    ss: seq<R.Session>, es: seq<R.Event>, ds: seq<Disk>, now: seq<int>, p: Id, i: nat, t: State)
    requires History(env, enc, ss, es, ds, now) && i < |ss|
    requires forall n :: 0 <= n <= i ==> Faithful(enc, dec, ds[n].jobs)
    requires p in ss[0].links && NoOthers(ss[0].links[p].store, ds[0].jobs)
    requires forall n :: 0 <= n < i ==> Replicas.Whole(ss[n], es[n], p)
    requires p in ss[i].links && Finds(dec, ss[i].links[p].store, t.jobs)
    requires !t.leader && Idle(t) && now[i] <= t.clock
    ensures ss[i].links[p].store == ss[0].links[p].store || Init(env, t)
  {
    Replicas.WholeRequests(ss, es, p, i);
    if Replicas.Reached(ss, es, p, i) == 0 {
      assert ss[i].leader.log[..0] == [];
    } else {
      var k := ReplicaWasLeadersIff(env, enc, ss, es, ds, now, p, i);
      FindsWhatIsHeld(enc, dec, ss[i].links[p].store, ds[k].jobs, t.jobs);
      DiskLater(env, now[i], t.clock, ds[k]);
    }
  }

  // ----- a job unknown to the leader -----

  /** `a` is queued. */
  function Alone(a: Id): Disk {
    Disk(map[a := Consequences.Bare(a, [], Queued)], map[])
  }

  lemma AloneIsStored(env: Env, a: Id)
    ensures DiskInv(env, 0, Alone(a))
  {
    Graph.NumberedIsAcyclic(DepGraph(Alone(a).jobs), map[a := 0]);
  }

  /** A follower has seen `a` succeed and `b` queued behind it; the new leader has neither. Its
      snapshot leaves the follower with `b` queued behind an `a` that has not succeeded. */
  lemma UnknownJobMayBreakGating(env: Env, enc: Job -> R.Record, a: Id, b: Id, base: R.Store)
    requires a != b && Holds(enc, base, Consequences.Behind(a, b).jobs)
    ensures var log := [R.Entry(1, R.Upsert(R.JobKey(a), enc(Alone(a).jobs[a])))];
      var after := Consequences.Behind(a, b).jobs + Alone(a).jobs;
      && DiskInv(env, 0, Consequences.Behind(a, b).Stored()) && DiskInv(env, 0, Alone(a))
      && Holds(enc, R.ApplyAll(base, log), after) && !Gated(after)
  {
    var log := [R.Entry(1, R.Upsert(R.JobKey(a), enc(Alone(a).jobs[a])))];
    var after := Consequences.Behind(a, b).jobs + Alone(a).jobs;
    Consequences.BehindIsStored(env, a, b);
    AloneIsStored(env, a);
    assert log[..0] == [];
    assert R.ApplyAll(base, log) == base[R.JobKey(a) := enc(Alone(a).jobs[a])];
    assert !Done(after, a) && a in after[b].deps;
  }
}
