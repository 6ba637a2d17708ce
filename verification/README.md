# A verified model of distsched

distsched is a distributed job scheduler: replicated scheduler nodes elect a leader, the leader
keeps jobs in a durable store and hands them to workers under leases, and a new leader rebuilds
its scheduling state from the store. This project models that core in Dafny and proves what it
promises, over every input and every run.

| file | what it holds |
|---|---|
| `Prelude`, `Ordering`, `Queue` | the queue order, and the indexed binary heap with its position index and ID map |
| `Graph` | the recursive cycle check against paths and cycles of the dependency graph |
| `Retry` | the backoff loop against the documented formula |
| `Election`, `ElectionSafety` | one replica's critical sections, and the cluster as a step system |
| `Replication`, `Shipping` | the leader's log, acknowledgement cursors and the followers' stores, as a step system, and the objects proved to take its steps |
| `Replicas`, `Failover` | what a follower's store is worth when the follower is elected |
| `Jobs` | the scheduler's state and what each handler does to it, as functions |
| `Invariants`, `Preservation`, `Handlers`, `Recovery`, `Progress` | the invariant and why every handler keeps it; what never goes back |
| `Runs`, `Guarantees`, `Consequences` | runs with crashes, and the theorems about them |
| `Timeliness`, `Presets`, `Spacing`, `Hope`, `Wakeups`, `RecoveryOrder`, `Resubmission` | when jobs start, what failures leave behind, what waiting jobs wait for, what order matters to, and runs that replace stored jobs |
| `Server`, `Service` | the node as a mutable object, method by method, proved to take exactly the steps of `Runs` |

`dafny verify dfyconfig.toml` checks the whole project.

## How the model is built

The scheduler appears twice. `Jobs` says what every handler makes of the state as a value: store,
dead letters, workers, ready queue, timers, leases and reverse dependency index. `Server.Node` is
the object the code updates in place, with the code's loops, early returns and order of writes;
each of its methods is proved to produce the value `Jobs` gives. `Service.Handle` closes the gap:
one call on the object is one enabled step of the transition system in `Runs`, so the theorems of
`Guarantees` are about the object too. `Node.queue` is the heap of `Queue`; the cycle check called
by `SubmitJob` is the search of `Graph`; the delays of `ScheduleRetry` come from `Retry.Backoff`.

Whatever the code does not decide is a choice the theorems quantify over: the order in which Go
yields a map or the store lists its jobs (`order`, `ids`, `orphans`, `overdue`), minted IDs
(`minted`, `tasks`), retry times within their backoff (`at`, `times`), the cron library (`Env.parses`,
`Env.next`) and the arrival of calls. Time is a number that does not decrease.

A run begins with a node that has nothing in memory and a store that is in order (`Runs.Init`): one
that has just been set up, one that restarts, or a follower that is elected. That a follower's
store is in order, and under which conditions, is what `Failover` proves: `Replication` gives the
session in which the leader ships its log, and `Failover.History` runs it beside the writes of the
leader's own store.

A crash can follow any single store write. `LegalWrite` says what one write may do to one record;
the event `Crashed` restarts the node on any store a chain of such writes leads to, and every
method of `Node` keeps a ghost `trail` of its writes and proves it is such a chain
(`Node.Durable`), which `Service.Handle` hands on and `Service.CutShort` turns into crashes.

### Assumptions

- Member IDs are distinct, non-empty and include the node itself (`internal/cluster/cluster.go:116`
  counts members, so a duplicate would vote twice).
- A handler, a timer callback and a sweep are one step each, except that a crash may cut them
  short between two writes. Store writes do not fail while the process is up. One handler reads
  the clock once.
- Taking leadership, rebuilding and seeding are one step. In the code they run in a goroutine
  after the role has changed (`internal/cluster/cluster.go:238-243`).
- Submissions in a run carry IDs that are new and not empty. The code overwrites a stored ID
  (`internal/scheduler/job.go:37-51`). Replacing a finished job that has left no lease and no timer
  keeps everything exactly when no other active job depends on it
  (`Resubmission.ResubmitKeepsInvIff`); replacing one whose task is still leased never does
  (`Resubmission.ResubmitLeasedBreaks`), and since `ReportTask` does not compare attempts
  (`internal/scheduler/dispatch.go:95-150`) a late report of the old task may then decide the new
  job. Dependency gating alone survives exactly under the condition of
  `Consequences.ResubmitKeepsGatingIff`, and the stored dependencies stay acyclic in every run
  (`Resubmission.AlwaysAcyclic`). What an unfinished old job leaves in the queue, the timers and the
  index when it is replaced is not stated beyond that.
- Expressions the cron library accepts at submission it accepts later.
- Dead letters are not replicated (`internal/scheduler/dispatch.go:187`), so a new leader may hold
  failed jobs without one; no other lifecycle theorem depends on them.
- For failover, the new leader's clock is not behind the old one's, and marshaling loses nothing of
  a job.
- A replication session begins with a seeded log and ends with its leadership. In the code the old
  log is not cleared on step-down (`internal/scheduler/server.go:310-323`), so until a new seeding
  it could still be shipped; that is not modelled. Acknowledgements carry no term
  (`internal/scheduler/cluster.go:225-234`), so one of an earlier session can move a cursor of this
  one, and a request whose call timed out may be handled later, out of order. Both are events of a
  session; which of them do harm is stated by `Replication.Harmless`, and a session is in order as
  long as none does, and no longer (`Replication.InOrderIff`).

### Where code and documentation differ, or a tempting claim is false

The model follows the code.

- `docs/DESIGN.md:123-124` says delayed and recurring jobs are held PENDING; the code makes them
  QUEUED with a timer (`internal/scheduler/deps.go:134-154`).
- The comment at `internal/scheduler/dispatch.go:90-92` has the lease removed once the outcome is
  persisted; on success the code removes it first (`internal/scheduler/dispatch.go:119-131`), and
  so does `internal/scheduler/recovery.go:112`.
- The documented backoff formula (`docs/DESIGN.md:116-117`) fails for the first attempt when the
  initial delay exceeds the maximum: `Retry.FirstWaitUncapped`; exactly when it holds:
  `Retry.LoopedIsDocumentedIff`.
- A lost dependency may go unreported behind an earlier missing one:
  `Invariants.LaterLossUnreported`; what decides: `Invariants.JudgeByFirstUnmet`.
- A waiting job can be left waiting for a canceled one, because a job canceled on arrival does not
  cascade (`internal/scheduler/deps.go:162-169`): `Consequences.SubmitMayBreakHope`; exactly when,
  for one event and from taking the lead to the next crash: `Hope.StepKeepsHopeIff` and
  `Hope.HopeFromLead`.
- A job can start ahead of the time on its record, because a submission may set that field itself
  and an immediate job is queued at once (`internal/scheduler/job.go:44-49`,
  `internal/scheduler/deps.go:134-154`): `Timeliness.PresetIsIgnored`; exactly which events let one
  do so, and over which runs none does: `Presets.StepOnRecordIff` and `Presets.OnRecordIff`. Times
  the scheduler sets itself are always kept: `Timeliness.NeverEarly`.
- The comment at `internal/scheduler/dispatch.go:184-186` promises that whoever sees a failed job
  also sees its dead letter; that holds of the node that failed it (`Spacing.FailedIsLettered`), not
  of a follower elected later, which has the record and not the letter.
- A follower's store need not be one the leader ever had (`docs/DESIGN.md:107-110` has it resume
  from its replicated store): a request handled again in part takes one job back and leaves another
  ahead, and a job only the follower has stays beside the snapshot (`Replicas.ReplayMayRewind`,
  `Failover.UnknownJobMayBreakGating`); exactly when: `Replicas.FollowerStandsIff` and
  `Failover.ReplicaWasLeadersIff`.
- Which jobs a recovery cancels can depend on the order the store lists them in, which is that of
  their IDs (`internal/scheduler/server.go:273-304`): `RecoveryOrder.OrderMayMatter`; exactly when:
  `RecoveryOrder.OrderIrrelevantIff`.
- Workers marked dead may still poll (`internal/scheduler/dispatch.go:28`); only the lease deadline
  bounds what they hold, which is what `Consequences.SweepBoundsRunning` states.

## Model

| member | source | states |
|---|---|---|
| `ElectionSafety.AtMostOneLeaderPerTerm` | internal/cluster/cluster.go:187-263 | over every run with lost, delayed, repeated and reordered messages, forged vote requests and heartbeats, and crashes at every save, two replicas that lead in one term, at the same or different moments, are the same replica |
| `ElectionSafety.MajorityFenced` | internal/cluster/cluster.go:247-298 | once a term has had a leader, fewer than a majority of the members ever again accept a heartbeat of a lower term |
| `ElectionSafety.AcceptedTermsNeverFall` | internal/cluster/cluster.go:269-287 | the terms of the heartbeats one replica accepts never decrease along a run, restarts included |
| `ElectionSafety.TermsNeverFall` | internal/cluster/cluster.go:332-362 | a replica's term, in memory and saved, never decreases along a run |
| `ElectionSafety.StepKeepsInv` | internal/cluster/cluster.go:187-298 | every event keeps: memory equals what is saved, every grant sent is the saved vote of its term, votes counted are at most the distinct members that granted, every leadership is backed by a majority of grants |
| `ElectionSafety.RunKeepsInv` | internal/cluster/cluster.go:131-298 | that invariant holds after every event of every run |
| `ElectionSafety.GrantsKept` | internal/cluster/cluster.go:247-263 | after any event each grant ever sent is still the voter's saved vote of that term, or the saved term is higher, and no member granted two candidates in one term |
| `ElectionSafety.NodeProgress` | internal/cluster/cluster.go:332-362 | every critical section saves what it changes, never lowers the saved term and never changes a vote within a term |
| `ElectionSafety.StepperOk` | internal/cluster/cluster.go:187-235 | the integer vote counter never exceeds the number of distinct members whose grants for that term and candidate were sent |
| `ElectionSafety.WinnerOk` | internal/cluster/cluster.go:209-234 | whoever becomes leader is backed by grants from a majority of distinct members |
| `ElectionSafety.OneWinnerPerTerm` | internal/cluster/cluster.go:116 | two leaderships of one term are the same, because majorities meet in a member that votes once |
| `Election.Replica.Start` | internal/cluster/cluster.go:131-159 | restart loads the saved term and vote; a single member elects itself in the next term, saved first |
| `Election.Replica.StartElection` | internal/cluster/cluster.go:187-196 | a campaign raises the term, votes for itself and saves both before it counts |
| `Election.Replica.TakeReply` | internal/cluster/cluster.go:209-234 | one reply of the counting loop: abandoned when no longer candidate of that term, stepped down on a higher term, leader exactly when the count reaches a majority |
| `Election.Replica.HandleVote` | internal/cluster/cluster.go:247-263 | grants exactly a higher term, or the same term with no vote or the same vote; the vote is saved |
| `Election.Replica.ObserveLeader` | internal/cluster/cluster.go:269-287 | accepts exactly terms not lower; a higher term or a candidate steps down |
| `Election.Replica.MaybeStepDown` | internal/cluster/cluster.go:292-298 | steps down exactly on a higher term |
| `Election.Replica.BecomeFollowerLocked` | internal/cluster/cluster.go:348-362 | a higher term clears the vote and is saved; the role becomes follower |
| `Election.Replica.PersistLocked` | internal/cluster/cluster.go:332-336 | term and vote are saved together |
| `Replication.SettledKeysAgree` | internal/scheduler/server.go:366-428 | at every moment of a leadership session, with lost requests, lost replies, half-applied batches and harmless late requests and stale answers, a follower agrees with the leader on every leader key not written past the follower's cursor |
| `Replication.CleanRoundConverges` | internal/scheduler/cluster.go:191-234 | whatever was lost before, in a session that is in order, one request sent and applied to its end brings agreement on all keys of the leader |
| `Replication.StepKeepsInvIff` | internal/scheduler/cluster.go:191-234 | any event of a session leaves cursor agreement and the log's last-write property in order if and only if it is not a late request or a stale answer that does harm; writes, sends, partial handling, answers and losses never do |
| `Replication.RunKeepsInv` | internal/scheduler/cluster.go:191-234 | that invariant holds throughout every session that starts from a seeded log and arbitrary follower stores and has no harmful event |
| `Replication.InOrderIff` | internal/scheduler/cluster.go:191-234 | and through a session up to some moment if and only if no event before it did harm |
| `Replication.PartialBatch` | internal/scheduler/cluster.go:120-146 | a segment of the log that starts where agreement ends extends agreement to its own end |
| `Replication.LastWriteIsLast` | internal/scheduler/cluster.go:120-146 | no entry after the last write of a key touches that key |
| `Replication.SegmentAt` | internal/scheduler/cluster.go:120-146 | applying a segment leaves a key at its last write in the segment, or as it was if there is none |
| `Replication.WriteKeepsLog` | internal/scheduler/server.go:366-402 | a write keeps sequence numbers equal to positions and the last entry of every key equal to its stored value |
| `Replication.LateKeepsLinkIff` | internal/scheduler/cluster.go:120-146 | a request given up on and handled late, wholly or in part, keeps a follower's link in order, its cursor, the request under way and the answer about to arrive included, if and only if every key it writes that is settled, or will be once that answer is in, ends at its current value |
| `Replication.LateRequestMayDiverge` | internal/scheduler/cluster.go:191-208 | an input on which a late request leaves a follower on an old value although the answer under way then moves its cursor past the new one |
| `Replication.StaleAckKeepsLinkIff` | internal/scheduler/cluster.go:225-234 | an answer of an earlier session keeps the link in order if and only if the cursor stays within the log, applying what it skips would change nothing settled, and the request under way, which starts further back, undoes nothing before the new cursor |
| `Replication.StaleAckMayDiverge` | internal/scheduler/cluster.go:225-234 | an input on which it does not, and the first entry is never sent |
| `Replication.StaleAckMaySkip` | internal/scheduler/cluster.go:212-234 | an input on which a cursor moved past the end of the log does no harm at once, but the next write is never sent |
| `Replication.BatchAnswered` | internal/scheduler/cluster.go:120-146 | a whole batch of the leader's log is answered with the position it ends at, a bare heartbeat with zero |
| `Replication.LeaderNode.PutRecord` | internal/scheduler/server.go:366-402 | stores the record; on the leader also appends the next entry |
| `Replication.LeaderNode.SeedReplication` | internal/scheduler/server.go:406-428 | the log becomes a snapshot with one entry per stored key carrying its value, and every cursor returns to zero |
| `Replication.LeaderNode.EntriesForPeer` | internal/scheduler/cluster.go:212-223 | the filter by sequence number yields exactly the log from the cursor on, and nothing when the cursor is past its end |
| `Replication.LeaderNode.AckPeer` | internal/scheduler/cluster.go:225-234 | a cursor only moves forward, and only that peer's |
| `Replication.FollowerNode.ApplyEntries` | internal/scheduler/cluster.go:120-146 | the store becomes the fold of the entries, later ones winning, and the answer is the highest sequence number among them |
| `Shipping.TakeOffice` | internal/scheduler/server.go:406-428 | seeding begins a session whose log is the snapshot, whatever the followers hold |
| `Shipping.Store` | internal/scheduler/server.go:366-402 | a write of the leader object is the write of the session |
| `Shipping.Request` | internal/scheduler/cluster.go:191-223 | the entries the leader object sends are the segment of the log the session says is sent |
| `Shipping.Deliver` | internal/scheduler/cluster.go:108-146 | a follower object that applies the first entries of a request takes the step of the session, and its answer to a whole request is the one the session expects |
| `Shipping.Acknowledge` | internal/scheduler/cluster.go:191-234 | the leader object's cursor moves as the session says |
| `Shipping.DeliverLate` | internal/scheduler/cluster.go:120-146 | the same for a request handled late, wholly or in part |
| `Shipping.AcknowledgeStale` | internal/scheduler/cluster.go:225-234 | and for an answer of an earlier session, even one past the end of the log |
| `Replicas.SegmentLandsIff` | internal/scheduler/cluster.go:120-146 | a follower that has applied the first c entries of the log, on top of any store, and then handles a segment that begins no later stands where the longer of the two ends if and only if the segment reaches as far as c or writes only what is there already |
| `Replicas.StepStandsIff` | internal/scheduler/cluster.go:191-234 | any event of a session, requests handled in part, again or late included, leaves a follower standing at what it has applied if and only if it takes nothing back in that sense |
| `Replicas.FollowerStandsIff` | internal/scheduler/cluster.go:191-234 | over a session, a follower's store is at every moment the store it began with and the applied entries on top, if and only if no event took it back |
| `Replicas.WholeRequests` | internal/scheduler/cluster.go:120-146 | a follower that handles every request to its end is never taken back, and after its first request it has the whole snapshot |
| `Replicas.ReplayMayRewind` | internal/scheduler/cluster.go:120-146 | a request handled again in part leaves a store the leader never had |
| `Failover.ReplicaWasLeadersIff` | docs/DESIGN.md:107-110 | a follower past the snapshot that was never taken back holds exactly the jobs the leader held after one of its writes, a store that is in order, if and only if it began with no job unknown to the leader by then |
| `Failover.SuccessorStartsInOrder` | internal/scheduler/server.go:249-306 | failover: a follower that handles requests to their end and began with no job unknown to the leader holds, from its first request on, a store from which a node begins a run, so every theorem about runs, recovery, gating, leases and attempts among them, holds of it as the next leader |
| `Failover.LogTells` | internal/scheduler/server.go:366-428 | at every moment whoever applies the whole log, on top of any store, holds the leader's jobs, and besides them only what it began with |
| `Failover.TrailShips` | internal/scheduler/server.go:366-402 | the writes a handler of the leader makes, as `Service.Handle` gives them, carry the session on write by write, dead letters apart, to the jobs the handler leaves |
| `Failover.HistoryInOrder` | internal/scheduler/server.go:366-375 | every store the leader had during its session is in order, then and later |
| `Failover.UnknownJobMayBreakGating` | internal/scheduler/server.go:406-428 | a follower with a job the new leader does not know, and a snapshot that leaves that job queued behind one that has not succeeded |
| `Queue.PriorityQueue.Push` | internal/queue/queue.go:76-86 | adds exactly the new ID with its key, refuses an ID already queued, keeps heap order, positions and ID map in agreement |
| `Queue.PriorityQueue.Pop` | internal/queue/queue.go:89-98 | removes and returns the first ID by priority, creation time and ID, and nothing else; fails exactly on an empty queue |
| `Queue.PriorityQueue.Remove` | internal/queue/queue.go:102-112 | removes exactly that ID from wherever it sits in the heap and keeps heap order, positions and ID map; says whether it was there |
| `Queue.PriorityQueue.Clear` | internal/queue/queue.go:131-136 | empties heap and ID map |
| `Queue.PriorityQueue.Contains` | internal/queue/queue.go:115-120 | membership in the contents |
| `Queue.PriorityQueue.Len` | internal/queue/queue.go:123-127 | the number of distinct IDs queued |
| `Queue.PriorityQueue.Swap` | internal/queue/queue.go:39-43 | exchanges two slots and keeps both items' stored positions right |
| `Queue.PriorityQueue.Up` | internal/queue/queue.go:45-49 | sifting up restores heap order from one slot out of place, as a permutation of the items |
| `Queue.PriorityQueue.Down` | internal/queue/queue.go:51-59 | sifting down restores heap order below one slot out of place, and says whether it moved |
| `Queue.PriorityQueue.HeapRemove` | internal/queue/queue.go:102-112 | removal from the middle: the last item fills the hole and is sifted whichever way it needs |
| `Queue.PriorityQueue.RootIsFirst` | internal/queue/queue.go:28-37 | the root of a heap is before every other item in queue order |
| `Queue.SiftUpStep` | internal/queue/queue.go:28-43 | one exchange with the parent moves the only place out of order to the parent |
| `Queue.SiftDownStep` | internal/queue/queue.go:28-43 | one exchange with the smaller child moves the only place out of order to that child |
| `Ordering.BeforeTransitive` | internal/queue/queue.go:28-37 | queue order is transitive |
| `Ordering.BeforeTotal` | internal/queue/queue.go:28-37 | of two different IDs one is before the other |
| `Ordering.FirstExists` | internal/queue/queue.go:28-37 | every non-empty queue has a first ID |
| `Ordering.FirstUnique` | internal/queue/queue.go:28-37 | and only one |
| `Retry.LoopedIsDocumentedIff` | internal/retry/retry.go:53-60 | the early-exit loop equals min(max, initial * multiplier^(attempt-1)) if and only if initial is at most max, or from the second attempt on the first product is below max or the formula itself reaches it |
| `Retry.FirstWaitUncapped` | internal/retry/retry.go:53-60 | an input on which the first wait exceeds the cap |
| `Retry.Grown` | internal/retry/retry.go:53-60 | the loop returns the cap once a product reaches it and the power otherwise |
| `Retry.Backoff` | internal/retry/retry.go:33-69 | with defaults for absent and non-positive fields, the delay is never negative and lies within (1 - jitter) and (1 + jitter) times the looped wait, up to truncation |
| `Retry.JitterBounds` | internal/retry/retry.go:62-68 | every draw keeps the perturbed wait within those two factors |
| `Graph.WouldCreateCycle` | internal/scheduler/deps.go:101-130 | the search with visited and stack sets answers yes exactly when the new node runs into a cycle, and, when the stored graph is acyclic, exactly when the new graph is not |
| `Graph.Search.Dfs` | internal/scheduler/deps.go:107-129 | yes only with a cycle at hand; no only when everything reachable is numbered so that numbers fall along every edge; terminates on every graph |
| `Graph.NewCyclesPassThrough` | internal/scheduler/deps.go:97-130 | replacing one node's edges in an acyclic graph makes a cycle exactly when that node runs into one |
| `Graph.NumberedRunsIntoNoCycle` | internal/scheduler/deps.go:107-129 | a node numbered by such a search runs into no cycle |
| `Consequences.RejectsExactlyCycles` | internal/scheduler/job.go:40-42 | a leader accepts a well-formed submission, also one that replaces an ID, exactly when the dependency graph stays acyclic |
| `Consequences.SubmitStaysAcyclic` | internal/scheduler/job.go:40-51 | after any submission the stored graph is acyclic |
| `Resubmission.AlwaysAcyclic` | internal/scheduler/job.go:37-51 | in every state of every run whose submissions may replace stored IDs, crashes included, the stored graph is acyclic |
| `Resubmission.EventKeepsOrder` | internal/scheduler/deps.go:97-130 | every event keeps it so: a submission by the cycle check, any other by leaving all dependencies alone |
| `Runs.StepKeepsInv` | internal/scheduler/server.go:247-362 | every event, crashes after any write and recovery included, keeps the whole invariant of store, queue, timers, leases and index |
| `Runs.RunKeepsInv` | internal/scheduler/server.go:247-362 | the invariant holds in every state of every run |
| `Runs.RunAdvances` | internal/scheduler/dispatch.go:24-200 | along a run no job disappears or changes identity, finished jobs stay as they are, queued jobs stay as they are or are canceled until due, attempts of one-shot jobs only grow, and a task ID once handed out and gone never returns to the lease table |
| `Runs.TrailKeeps` | internal/scheduler/server.go:366-375 | the store invariant holds after every single write of a chain of legal writes |
| `Guarantees.DependencyGating` | internal/scheduler/deps.go:79-199 | in every state of every run a queued, running or leased job has all its dependencies succeeded |
| `Guarantees.TerminalIsFinal` | internal/scheduler/deps.go:13-22 | a finished job's record never changes again in any run |
| `Guarantees.NoLostWakeup` | internal/scheduler/deps.go:35-61 | on the leader every waiting job is indexed under each dependency and still has one that has not succeeded; no finished job is indexed |
| `Guarantees.NoDeadlock` | internal/scheduler/deps.go:182-206 | on a leader with nothing queued or running, from every waiting job a chain of waiting jobs leads to one that was never submitted, failed or was canceled |
| `Guarantees.LeaseExactness` | internal/scheduler/dispatch.go:57-75 | on the leader every running job has exactly one lease, matching its attempt and worker, and any other lease is of a canceled job |
| `Guarantees.DecidedOnce` | internal/scheduler/dispatch.go:95-150 | after a report with a result every later report of the same task, anywhere in the run, changes nothing |
| `Guarantees.LateReportIgnored` | internal/scheduler/recovery.go:107-128 | the same for a task whose lease was reclaimed or lost in a crash |
| `Guarantees.ReportRetires` | internal/scheduler/dispatch.go:95-150 | a report with a result leaves no lease for its task, in every branch |
| `Guarantees.QueuedWorkKept` | internal/scheduler/server.go:327-362 | on the leader a queued job is in exactly one of ready queue and timers; what is in the queue is queued, under its stored key, past its run_at and, if it is a retry or recurs, past the time set for it; no timer of a job goes off before that |
| `Timeliness.NeverEarly` | internal/scheduler/server.go:327-362 | over every run, timers, crashes and recovery included, a queued job's record stays as it is, or is canceled, until its run_at, the end of its backoff and its next occurrence, whichever apply, have passed |
| `Timeliness.HandedOutWhenDue` | internal/scheduler/dispatch.go:41-75 | every job a poll hands out was queued and due in that sense |
| `Spacing.RetryWaits` | internal/scheduler/dispatch.go:159-173 | over every run, a job queued for another attempt does not run before the time on its record, and that time, unless the run began with it, was set, when it was queued, within the jittered backoff of its policy and attempt, whether the attempt failed by report, lost its worker, outlived its lease or was orphaned, crashes included |
| `Spacing.StepCareful` | internal/scheduler/dispatch.go:152-200 | every event, crashes included, leaves each record as it was or, if it queues a retry, spaced from the present time, and leaves no failed job without its dead letter that was not so before |
| `Presets.SubmitOnRecordIff` | internal/scheduler/job.go:44-51 | a submission leaves nothing in the queue ahead of the time on its record if and only if it is not ready at once with a later time of its own that its schedule does not set |
| `Presets.SucceedOnRecordIff` | internal/scheduler/dispatch.go:118-136 | so does a success if and only if it leaves no waiting job with nothing left to wait for and such a time of its own |
| `Presets.LeadOnRecordIff` | internal/scheduler/server.go:264-306 | so does taking the lead if and only if the store holds no such waiting job, whatever the listing |
| `Presets.StepOnRecordIff` | internal/scheduler/deps.go:134-206 | so does any event if and only if it is none of these three |
| `Presets.OnRecordIff` | internal/scheduler/deps.go:134-206 | over every run: no job has been in the queue ahead of the time on its record up to now if and only if there was no such event |
| `Timeliness.PresetIsIgnored` | internal/scheduler/job.go:44-51 | an input on which it does |
| `Timeliness.UnsetIsOnRecord` | internal/scheduler/deps.go:134-154 | a job submitted without a time of its own is never in the queue ahead of the time on its record, in any later state of the run |
| `Guarantees.PollTakesBest` | internal/scheduler/dispatch.go:32-87 | a poll leases exactly min(n, queue length) jobs, the first in queue order and in that order, and leaves the rest |
| `Guarantees.PollCounts` | internal/scheduler/dispatch.go:57-66 | every hand-out of a job in a poll is one attempt on its record |
| `Guarantees.HandedOutIsAttempt` | internal/scheduler/dispatch.go:57-66 | over a run a one-shot job's hand-outs never exceed the attempts on record |
| `Guarantees.AttemptsBounded` | internal/scheduler/dispatch.go:154-200 | over any run a one-shot job is handed out at most MaxAttempts times; attempts fit an int32 |
| `Guarantees.FailedMeansExhausted` | internal/scheduler/dispatch.go:176-199 | failed implies attempts used up; recurring jobs never fail or succeed for good |
| `Spacing.FailedIsLettered` | internal/scheduler/dispatch.go:176-199 | over every run, also after a crash between the two writes, a failed job has a dead letter equal to its record, unless it had failed without one before the run began |
| `Guarantees.RecoveryComplete` | internal/scheduler/server.go:264-306 | after whatever run, taking leadership ends with no lease, no running job, every queued job in queue or timer, every waiting job indexed under all dependencies and held, first, by one that can still succeed |
| `Recovery.LeadRecovers` | internal/scheduler/server.go:264-306 | the same from any store satisfying the store invariant, whatever order the jobs are listed in |
| `Recovery.RecoverStep` | internal/scheduler/server.go:276-298 | recovering one job establishes the invariant for it and touches no job still to be recovered |
| `Recovery.PromoteAllSettles` | internal/scheduler/server.go:299-305 | the second loop leaves no waiting job whose first unmet dependency is lost |
| `Consequences.SweepReclaims` | internal/scheduler/recovery.go:34-86 | a sweep leaves exactly the leases of workers not newly dead whose deadline has not passed |
| `Consequences.SweepBoundsRunning` | internal/scheduler/recovery.go:34-86 | after a sweep every running job was started within the last lease time |
| `Consequences.SweepChargesOnce` | internal/scheduler/recovery.go:72-128 | a sweep charges a running job one lost attempt exactly when it takes its lease, also if the worker died and the lease expired |
| `Consequences.CancelIsExact` | internal/scheduler/deps.go:208-239 | canceling a job cancels exactly the unfinished jobs that wait for it through unfinished jobs, all of them waiting, and leaves every other record alone |
| `Consequences.DownstreamIsWaiting` | internal/scheduler/deps.go:208-239 | in reachable states the reverse index leads from a job to exactly the unfinished jobs that wait for it |
| `Wakeups.PromoteAllIsWoken` | internal/scheduler/deps.go:184-206 | re-evaluating jobs one by one, each seeing what the ones before did, equals a function of the jobs before and the set re-evaluated: those with nothing left to wait for are queued, those held up by a lost job are canceled with all that waits for them |
| `Wakeups.OrderIrrelevant` | internal/scheduler/deps.go:202-206 | so the order in which a Go map yields the dependents does not matter to the records |
| `Wakeups.SuccessIsExact` | internal/scheduler/dispatch.go:118-136 | a reported success changes exactly: the job, the jobs that waited for nothing else, and the jobs now held up by a lost one with everything that waits for them |
| `Wakeups.SecondLoopIsExact` | internal/scheduler/server.go:299-305 | the second recovery loop equals re-evaluating all waiting jobs at once, whatever order the store lists them in |
| `RecoveryOrder.OrderIrrelevantIff` | internal/scheduler/server.go:273-305 | all listings of the store lead a recovery to the same records if and only if every job that waits for an exhausted orphan has, first among its unmet dependencies, one that is lost or waits for such an orphan itself, or depends on a job that falls without any orphan |
| `RecoveryOrder.OrderMayMatter` | internal/scheduler/server.go:273-305 | a store and two listings that lead to different records |
| `RecoveryOrder.FirstLoopBetween` | internal/scheduler/server.go:276-298 | whatever the listing, the first loop charges every orphan and cancels only jobs that wait for an exhausted one |
| `RecoveryOrder.CanceledWhenFirst` | internal/scheduler/server.go:276-298 | with waiting jobs listed first every job that waits for an exhausted orphan is canceled |
| `RecoveryOrder.WaitsWhenLast` | internal/scheduler/server.go:276-305 | listed last, such a job goes on waiting unless the condition holds of it |
| `Consequences.LastFailureIsExact` | internal/scheduler/dispatch.go:175-199 | a reported failure with no attempt left changes exactly: the job, failed and dead-lettered, and the jobs that wait for it through unfinished jobs, canceled |
| `Consequences.ResubmitKeepsGatingIff` | internal/scheduler/job.go:37-51 | submitting under a stored ID keeps the dependencies of every queued, running or leased job succeeded if and only if no other such job depends on that ID and, if a task of the old job is still leased, the new dependencies have succeeded |
| `Resubmission.ResubmitKeepsInvIff` | internal/scheduler/job.go:37-51 | replacing a finished job that has left no lease and no timer keeps the whole invariant if and only if no other queued, running or leased job depends on it |
| `Resubmission.ResubmitLeasedBreaks` | internal/scheduler/job.go:37-51 | replacing a job whose task is leased never does |
| `Consequences.ResubmitMayBreakGating` | internal/scheduler/job.go:37-51 | inputs on which it does not |
| `Consequences.SubmitKeepsHopeIff` | internal/scheduler/deps.go:159-180 | a submission leaves every waiting job held by a dependency that can still succeed if and only if it is not canceled on arrival while being some waiting job's first unmet dependency |
| `Consequences.SubmitMayBreakHope` | internal/scheduler/deps.go:162-169 | inputs on which it does not |
| `Hope.StepKeepsHopeIff` | internal/scheduler/deps.go:159-239 | from an orderly state in which every waiting job is held, first, by a job that can still succeed, any event but a crash leaves it so if and only if it is not a submission canceled on arrival while some waiting job has it as its first unmet dependency |
| `Hope.HopeFromLead` | internal/scheduler/server.go:264-306 | over every run, from taking the lead until a crash: it is so at every moment up to now if and only if there was no such submission |
| `Hope.LossKeepsHope` | internal/scheduler/deps.go:208-239 | losing a job and canceling what waits for it leaves every other waiting job held as before |
| `Hope.SucceedKeepsHope` | internal/scheduler/dispatch.go:118-136 | a success re-evaluates every waiting job it leaves in doubt |
| `Invariants.JudgeByFirstUnmet` | internal/scheduler/deps.go:79-95 | the verdict on dependencies is decided by the first that has not succeeded: ready if there is none, doomed if it is lost, waiting otherwise |
| `Invariants.LaterLossUnreported` | internal/scheduler/deps.go:79-95 | an input with a lost dependency that goes unreported |
| `Invariants.PutKeepsDisk` | internal/scheduler/server.go:366-375 | one legal write keeps the store invariant |
| `Invariants.VictimsWait` | internal/scheduler/deps.go:208-239 | all jobs downstream of a cascade's root, but the root, were waiting |
| `Preservation.CascadeKeeps` | internal/scheduler/deps.go:208-239 | canceling everything downstream of a lost job restores the full invariant |
| `Preservation.FailKeeps` | internal/scheduler/dispatch.go:154-200 | a lost attempt, retried, rescheduled or dead-lettered with its cascade, restores the invariant |
| `Preservation.TryPromoteKeeps` | internal/scheduler/deps.go:184-199 | re-evaluating a waiting job keeps the invariant and settles that job |
| `Preservation.PromoteAllKeeps` | internal/scheduler/deps.go:202-206 | re-evaluating jobs in any order keeps the invariant and settles them all |
| `Preservation.SucceedKeeps` | internal/scheduler/dispatch.go:119-140 | recording a success and waking its dependents, in any order, keeps the invariant |
| `Preservation.ReportKeeps` | internal/scheduler/dispatch.go:95-150 | a report keeps the invariant in every branch |
| `Preservation.RequeueAllKeeps` | internal/scheduler/recovery.go:89-128 | requeuing any list of tasks keeps the invariant |
| `Handlers.SubmitKeeps` | internal/scheduler/job.go:21-61 | an accepted submission of a new ID keeps the invariant, whichever of its three states it starts in |
| `Handlers.CancelKeeps` | internal/scheduler/job.go:96-124 | cancellation keeps the invariant |
| `Handlers.PollLoopKeeps` | internal/scheduler/dispatch.go:41-86 | a poll keeps the invariant |
| `Handlers.FireKeeps` | internal/scheduler/server.go:327-362 | a timer callback keeps the invariant |
| `Handlers.ReapKeeps` | internal/scheduler/recovery.go:34-86 | a sweep keeps the invariant |
| `Service.Handle` | internal/scheduler/server.go:249-362 | one call on the mutable node, of any kind, is one enabled step of the transition system, keeps the whole invariant, and its writes are a chain of legal ones from the store it found to the store it left; a submission under a stored ID is a step of the wider system that allows it, and keeps the stored dependencies acyclic |
| `Service.CutShort` | internal/scheduler/server.go:366-375 | cut off after any of its writes, a handler leaves a store a restarted node takes over with the invariant intact |
| `Server.Node.CancelCascade` | internal/scheduler/deps.go:210-239 | the work list, which deletes index edges as it goes, terminates and cancels exactly the unfinished jobs downstream of the root at the call, and drops their index entries |
| `Server.Node.TryPromote` | internal/scheduler/deps.go:184-199 | a job no longer waiting is left alone; otherwise cascaded, left or made ready by its verdict |
| `Server.Node.PromoteDependents` | internal/scheduler/deps.go:202-206 | exactly the dependents indexed at the call are re-evaluated, each once |
| `Server.Node.PlaceNewJob` | internal/scheduler/deps.go:159-180 | a new job is stored canceled, waiting and indexed, or ready, by its verdict |
| `Server.Node.MakeReady` | internal/scheduler/deps.go:134-154 | a ready job is stored queued and enters the queue now or a timer for its fire time |
| `Server.Node.DepsSatisfied` | internal/scheduler/deps.go:79-95 | the scan that stops at the first dependency not succeeded gives the verdict |
| `Server.Node.AddDeps` | internal/scheduler/deps.go:35-49 | the loop indexes the job under each dependency and changes nothing else |
| `Server.Node.RemoveFromIndex` | internal/scheduler/deps.go:52-61 | the loop removes the job from every entry and drops empty entries |
| `Server.Node.DependentsOf` | internal/scheduler/deps.go:64-73 | lists exactly the indexed dependents, each once |
| `Server.Node.MaybeRescheduleCron` | internal/scheduler/deps.go:243-267 | a recurring job goes back to the queue with its attempts reset; any other job is left alone |
| `Server.Node.HandleFailure` | internal/scheduler/dispatch.go:154-200 | retry within the backoff range while attempts are left, else the next occurrence, else dead-letter, failed and cascade, dead letter written first |
| `Server.Node.ScheduleRetry` | internal/scheduler/dispatch.go:156-174 | the retry is queued with a delay in the range of its policy and attempt |
| `Server.Node.DeadLetter` | internal/scheduler/dispatch.go:176-199 | dead letter, then failed record, then index and cascade |
| `Server.Node.SubmitJob` | internal/scheduler/job.go:21-61 | stored exactly when leading, with a command, a parsable schedule and no cycle; otherwise the answer is the first check that fails |
| `Server.Node.CancelJob` | internal/scheduler/job.go:96-124 | each answer (not leader, no ID, unknown, already canceled, already finished, canceled) in exactly its case, with the state canceled accordingly |
| `Server.Node.PollTask` | internal/scheduler/dispatch.go:24-88 | followers redirect and unknown workers are told to register again, both without a lease; otherwise stale entries are dropped and up to the clamped number leased, each written before it is leased |
| `Server.Node.ReportTask` | internal/scheduler/dispatch.go:95-150 | what is acknowledged and what state follows, for every combination of lease, job state and outcome, in the code's order of writes |
| `Server.Node.RequeueLease` | internal/scheduler/recovery.go:107-128 | the lease goes first; only a running job is charged |
| `Server.Node.RequeueLeasesForWorker` | internal/scheduler/recovery.go:89-101 | exactly the tasks leased to that worker are requeued, each once |
| `Server.Node.MarkWorkers` | internal/scheduler/recovery.go:34-66 | workers become suspect past half the timeout and dead past it; the list is exactly the newly dead |
| `Server.Node.ReapOnce` | internal/scheduler/recovery.go:34-86 | both phases: the newly dead workers' tasks, then the leases expired among what is left |
| `Server.Node.RebuildSchedulingState` | internal/scheduler/server.go:264-306 | clears memory, recovers every stored job as listed, then re-evaluates the listed waiting jobs |
| `Server.Node.RecoverEach` | internal/scheduler/server.go:276-298 | the first loop over the snapshot, although a failure in it may cancel jobs listed later |
| `Server.Node.OnBecomeLeader` | internal/scheduler/server.go:249-253 | from any orderly store the node leads with the rebuilt state, and all its writes form a chain of legal ones |
| `Server.Node.OnStepDown` | internal/scheduler/server.go:257-260 | memory is cleared, the store kept |
| `Server.Node.ClearSchedulingState` | internal/scheduler/server.go:310-323 | queue, timers, leases and index are emptied |
| `Server.Node.ArmEnqueue` | internal/scheduler/server.go:327-343 | a time not in the future enqueues now, any other arms the job's timer |
| `Server.Node.EnqueueJob` | internal/scheduler/server.go:347-362 | only a leader enqueues, and only a stored job still queued |
| `Server.Node.TimerFires` | internal/scheduler/server.go:332-343 | the timer is gone and the job enqueued if still queued |
| `Server.Node.PutJob` | internal/scheduler/server.go:366-375 | one record changes; a legal write keeps the trail legal and the store in order |
| `Server.Node.RegisterWorker` | internal/scheduler/worker.go:17-46 | followers redirect, a request without a worker is refused, and a worker is recorded alive as of now under its own or a minted ID, which is answered |
| `Server.Node.Heartbeat` | internal/scheduler/worker.go:51-73 | followers redirect, an unknown worker is told to register again, a known one is alive as of now |

## Left out

- gRPC transport, dialing, protobuf encoding: calls and messages are datatypes.
- BoltDB: buckets are maps, and term and vote are saved in one transaction.
- Election timers and liveness: a timeout is an event that may come at any time.
- Cron parsing: the library is a pair of functions of the environment.
- Floating-point rounding and 64-bit overflow of durations and terms: delays are reals truncated at the end, terms and times are unbounded integers.
- Goroutine interleavings inside a handler, and the callbacks of a leadership that run after the role changed: see the assumptions.
- Failing store writes: the branches that log an error and carry on, such as requeueing a job whose dispatch could not be stored.
- Record fields nothing depends on: names, error texts, update and finish times, worker address, capacity and running count.
- Read-only calls: GetJob, ListJobs, cluster status, metrics, and the leader hint they report.
- The worker agent, the executor, the command line tools and logging.
- Deletion entries of the replication log in sessions: the leader writes none; `FollowerNode.ApplyEntries` handles them.
- Failover.SuccessorStartsInOrder: does not cover a follower that has a job unknown to the leader, or that a request handled in part took back, since the store may then be out of order; and it does not count one job's hand-outs across leaders, since a lost write loses the attempts on it.
- The worker table of an elected follower: the scheduling theorems hold whatever is in it.
- Server.Node.OnBecomeLeader: the seeding of replication that follows is `Replication.LeaderNode.SeedReplication`, in a separate model of the log.
- Crashes between the worker writes of a sweep: a restarted node keeps the worker table from before the handler that was cut short; the next sweep marks the workers again.
- Guarantees.NoDeadlock: states it for a leading node; a follower keeps no index and re-evaluates waiting jobs when it takes the lead.
- Election.Replica.StartElection: the counting loop is split at its channel receive into StartElection and TakeReply, since other sections run in between.
