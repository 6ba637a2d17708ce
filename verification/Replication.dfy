/** Best-effort metadata replication: the leader's mutation log with one ack cursor per
    follower, seeded with a snapshot, and last-writer-wins apply on the follower
    (internal/scheduler/server.go and internal/scheduler/cluster.go). */
module Replication {
  import opened Prelude

  /** A record of the jobs bucket or of the workers bucket. */
  datatype Key = JobKey(id: Id) | WorkerKey(id: Id)

  /** A marshaled record. */
  type Record = string

  datatype Mutation = Upsert(key: Key, value: Record) | DeleteJob(id: Id)

  datatype Entry = Entry(seqno: int, mutation: Mutation)

  type Store = map<Key, Record>

  function Target(m: Mutation): Key {
    match m case Upsert(k, _) => k case DeleteJob(id) => JobKey(id)
  }

  function Apply(store: Store, m: Mutation): Store {
    match m case Upsert(k, v) => store[k := v] case DeleteJob(id) => store - {JobKey(id)}
  }

  function ApplyAll(store: Store, es: seq<Entry>): Store {
    if es == [] then store else Apply(ApplyAll(store, es[..|es| - 1]), es[|es| - 1].mutation)
  }

  /** The position, counted from one, of the last entry for `k`; zero when there is none. */
  function LastWrite(es: seq<Entry>, k: Key): (n: int)
    ensures 0 <= n <= |es|
    ensures n > 0 ==> Target(es[n - 1].mutation) == k
  {
    if es == [] then 0
    else if Target(es[|es| - 1].mutation) == k then |es|
    else LastWrite(es[..|es| - 1], k)
  }

  lemma {:induction false} LastWriteIsLast(es: seq<Entry>, k: Key, i: nat)
    requires LastWrite(es, k) <= i < |es|
    ensures Target(es[i].mutation) != k
    decreases |es|
  {
    if i < |es| - 1 { LastWriteIsLast(es[..|es| - 1], k, i); }
  }

  /** The leader's half: its store, its log, the last sequence number. */
  datatype Leader = Leader(store: Store, log: seq<Entry>, seqno: int)

  /** Sequence numbers are the positions, and the last entry for every key of the leader's
      store carries the stored value. */
  ghost predicate LogOk(l: Leader) {
    && l.seqno == |l.log|
    && (forall i :: 0 <= i < |l.log| ==> l.log[i].seqno == i + 1 && l.log[i].mutation.Upsert?)
    && (forall k :: k in l.store ==> Logged(l.log, k, l.store[k]))
  }

  ghost predicate Logged(log: seq<Entry>, k: Key, v: Record) {
    var n := LastWrite(log, k);
    n > 0 && log[n - 1].mutation == Upsert(k, v)
  }

  function Write(l: Leader, k: Key, v: Record): Leader {
    Leader(l.store[k := v], l.log + [Entry(l.seqno + 1, Upsert(k, v))], l.seqno + 1)
  }

  lemma WriteKeepsLog(l: Leader, k: Key, v: Record)
    requires LogOk(l)
    ensures LogOk(Write(l, k, v))
    ensures LastWrite(Write(l, k, v).log, k) == |l.log| + 1
    ensures forall k' :: k' != k ==> LastWrite(Write(l, k, v).log, k') == LastWrite(l.log, k')
  {
    var log := Write(l, k, v).log;
    assert log[..|log| - 1] == l.log;
  }

  /** What a batch leaves in the follower's store: for each key the last value in the batch. */
  lemma {:induction false} ApplyAllAt(store: Store, es: seq<Entry>, k: Key)
    requires forall i :: 0 <= i < |es| ==> es[i].mutation.Upsert?
    ensures var n := LastWrite(es, k);
      if n > 0 then k in ApplyAll(store, es) && ApplyAll(store, es)[k] == es[n - 1].mutation.value
      else (k in ApplyAll(store, es) <==> k in store) && (k in store ==> ApplyAll(store, es)[k] == store[k])
  {
    if es != [] { ApplyAllAt(store, es[..|es| - 1], k); }
  }

  lemma LastWriteStep(log: seq<Entry>, a: nat, b: nat, k: Key)
    requires a < b <= |log|
    ensures LastWrite(log[a..b], k) == if Target(log[b - 1].mutation) == k then b - a else LastWrite(log[a..b - 1], k)
  {
    var es := log[a..b];
    assert es[..b - a - 1] == log[a..b - 1] && es[b - a - 1] == log[b - 1];
  }

  /** The last write of a key within a segment of the log. */
  lemma {:induction false} LastWriteInSegment(log: seq<Entry>, a: nat, b: nat, k: Key)
    requires a <= b <= |log|
    ensures LastWrite(log[a..b], k) == if LastWrite(log[..b], k) > a then LastWrite(log[..b], k) - a else 0
    decreases b
  {
    if a < b {
      LastWriteInSegment(log, a, b - 1, k);
      LastWriteStep(log, a, b, k);
      LastWriteStep(log, 0, b, k);
      assert log[0..b] == log[..b] && log[0..b - 1] == log[..b - 1];
    }
  }

  /** What a segment of the log leaves in a store at `k`. */
  lemma SegmentAt(log: seq<Entry>, store: Store, a: nat, b: nat, k: Key)
    requires a <= b <= |log| && forall i :: 0 <= i < |log| ==> log[i].mutation.Upsert?
    ensures var n := LastWrite(log[..b], k);
      var after := ApplyAll(store, log[a..b]);
      if n > a then k in after && after[k] == log[n - 1].mutation.value
      else (k in after <==> k in store) && (k in store ==> after[k] == store[k])
  {
    LastWriteInSegment(log, a, b, k);
    var es := log[a..b];
    assert forall i :: 0 <= i < |es| ==> es[i] == log[a + i];
    ApplyAllAt(store, es, k);
  }

  /** A key not written past `b` was last written within the first `b` entries. */
  lemma {:induction false} LastWriteInPrefix(log: seq<Entry>, b: nat, k: Key)
    requires LastWrite(log, k) <= b <= |log|
    ensures LastWrite(log[..b], k) == LastWrite(log, k)
    decreases |log|
  {
    if b < |log| {
      LastWriteInPrefix(log[..|log| - 1], b, k);
      assert log[..|log| - 1][..b] == log[..b];
    } else {
      assert log[..b] == log;
    }
  }

  // ----- one leadership session -----

  /** The request a follower is being sent: the log segment it carries, or the highest
      sequence number its reply reports once it is handled. */
  datatype Flight = Nothing | Sent(from: nat, upTo: nat) | Handled(applied: int)

  /** One follower: its store, the leader's cursor for it, and the outstanding request. */
  datatype Link = Link(store: Store, acked: int, flight: Flight)

  datatype Session = Session(leader: Leader, links: map<Id, Link>)

  datatype Event =
    | Put(key: Key, value: Record)
    | Send(peer: Id)
    | Handle(peer: Id, count: nat)
    | Ack(peer: Id)
    | Lose(peer: Id)
    /** A request given up on, or a part of it, is handled after all; nobody reads the answer. */
    | Late(peer: Id, from: nat, upTo: nat)
    /** The answer to a request of an earlier session arrives. */
    | StaleAck(peer: Id, applied: int)

  /** The follower and the leader agree on every leader key not written past `upTo`. */
  ghost predicate AgreeThrough(l: Leader, store: Store, upTo: int) {
    forall k :: k in l.store && LastWrite(l.log, k) <= upTo ==> k in store && store[k] == l.store[k]
  }

  /** If the segment from `a` to `b` writes `k` at all, it leaves it at its current value. */
  ghost predicate HarmlessAt(l: Leader, a: nat, b: nat, k: Key)
    requires a <= b <= |l.log| && k in l.store
  {
    var n := LastWrite(l.log[..b], k);
    n > a ==> l.log[n - 1].mutation == Upsert(k, l.store[k])
  }

  /** The same for every key not written past `upTo`. */
  ghost predicate StaleHarmless(l: Leader, a: nat, b: nat, upTo: int)
    requires a <= b <= |l.log|
  {
    forall k :: k in l.store && LastWrite(l.log, k) <= upTo ==> HarmlessAt(l, a, b, k)
  }

  /** However much of the segment is handled. */
  ghost predicate Replayable(l: Leader, a: nat, b: nat, upTo: int)
    requires a <= b <= |l.log|
  {
    forall c: nat :: a <= c <= b ==> StaleHarmless(l, a, c, upTo)
  }

  ghost predicate SentOk(l: Leader, f: Link)
    requires f.flight.Sent?
  {
    f.flight.from <= f.acked && f.flight.from <= f.flight.upTo <= |l.log|
    && Replayable(l, f.flight.from, f.flight.upTo, f.acked)
  }

  ghost predicate LinkOk(l: Leader, f: Link) {
    && 0 <= f.acked <= |l.log|
    && AgreeThrough(l, f.store, f.acked)
    && (f.flight.Sent? ==> SentOk(l, f))
    && (f.flight.Handled? ==> f.flight.applied <= |l.log| && AgreeThrough(l, f.store, f.flight.applied))
  }

  ghost predicate Inv(s: Session) {
    LogOk(s.leader) && forall p :: p in s.links ==> LinkOk(s.leader, s.links[p])
  }

  /** Taking office: the log holds a snapshot of the leader's store, every cursor is zero and
      the followers' stores are arbitrary. */
  ghost predicate Seeded(s: Session) {
    && LogOk(s.leader)
    && (forall i :: 0 <= i < |s.leader.log| ==> Target(s.leader.log[i].mutation) in s.leader.store)
    && (forall p :: p in s.links ==> s.links[p].acked == 0 && s.links[p].flight == Nothing)
  }

  ghost predicate Enabled(s: Session, e: Event) {
    match e
    case Put(_, _) => true
    case Send(p) => p in s.links && s.links[p].flight == Nothing
    case Handle(p, n) => p in s.links && s.links[p].flight.Sent? && s.links[p].flight.from + n <= s.links[p].flight.upTo
                         && s.links[p].flight.upTo <= |s.leader.log|
    case Ack(p) => p in s.links && s.links[p].flight.Handled?
    case Lose(p) => p in s.links
    case Late(p, a, b) => p in s.links && a <= b <= |s.leader.log|
    case StaleAck(p, _) => p in s.links
  }

  /** The cursor after a reply (ackPeer). */
  function Acked(acked: int, applied: int): int {
    if applied <= 0 || applied <= acked then acked else applied
  }

  /** The position the entries past a cursor start at. */
  function Start(l: Leader, acked: int): nat {
    if acked < 0 then 0 else if acked > |l.log| then |l.log| else acked
  }

  /** Handling applies a prefix of the batch; only a batch applied to its end is answered. */
  ghost function LinkAfter(l: Leader, f: Link, e: Event): Link
    requires e.Handle? ==> f.flight.Sent? && f.flight.from + e.count <= f.flight.upTo <= |l.log|
    requires e.Ack? ==> f.flight.Handled?
    requires e.Late? ==> e.from <= e.upTo <= |l.log|
  {
    match e
    case Send(_) => f.(flight := Sent(Start(l, f.acked), |l.log|))
    case Handle(_, n) =>
      var from, upTo := f.flight.from, f.flight.upTo;
      Link(ApplyAll(f.store, l.log[from..from + n]), f.acked,
           if from + n < upTo then Nothing else Handled(if from < upTo then upTo else 0))
    case Ack(_) => Link(f.store, Acked(f.acked, f.flight.applied), Nothing)
    case Late(_, a, b) => f.(store := ApplyAll(f.store, l.log[a..b]))
    case StaleAck(_, applied) => f.(acked := Acked(f.acked, applied))
    case _ => f.(flight := Nothing)
  }

  ghost function Step(s: Session, e: Event): Session
    requires Enabled(s, e)
  {
    if e.Put? then s.(leader := Write(s.leader, e.key, e.value))
    else s.(links := s.links[e.peer := LinkAfter(s.leader, s.links[e.peer], e)])
  }

  lemma PartialBatchAt(l: Leader, store: Store, a: nat, b: nat, k: Key)
    requires LogOk(l) && a <= b <= |l.log| && AgreeThrough(l, store, a)
    requires k in l.store && LastWrite(l.log, k) <= b
    ensures var after := ApplyAll(store, l.log[a..b]); k in after && after[k] == l.store[k]
  {
    assert Logged(l.log, k, l.store[k]);
    LastWriteInPrefix(l.log, b, k);
    SegmentAt(l.log, store, a, b, k);
  }

  /** A segment that starts where agreement ends, applied in full, extends it. */
  lemma PartialBatch(l: Leader, store: Store, a: nat, b: nat)
    requires LogOk(l) && a <= b <= |l.log| && AgreeThrough(l, store, a)
    ensures AgreeThrough(l, ApplyAll(store, l.log[a..b]), b)
  {
    var after := ApplyAll(store, l.log[a..b]);
    forall k | k in l.store && LastWrite(l.log, k) <= b ensures k in after && after[k] == l.store[k] {
      PartialBatchAt(l, store, a, b, k);
    }
  }

  lemma AgreeBelow(l: Leader, store: Store, a: int, b: int)
    requires AgreeThrough(l, store, b) && a <= b
    ensures AgreeThrough(l, store, a)
  {}

  /** A key that agrees with the leader survives a segment exactly when that is harmless to it. */
  lemma LateRequestAt(l: Leader, store: Store, a: nat, b: nat, k: Key)
    requires LogOk(l) && a <= b <= |l.log| && k in l.store && k in store && store[k] == l.store[k]
    ensures var after := ApplyAll(store, l.log[a..b]);
      (k in after && after[k] == l.store[k]) <==> HarmlessAt(l, a, b, k)
  {
    SegmentAt(l.log, store, a, b, k);
  }

  lemma SegmentKeepsAgreementIff(l: Leader, store: Store, a: nat, b: nat, upTo: int)
    requires LogOk(l) && AgreeThrough(l, store, upTo) && a <= b <= |l.log|
    ensures AgreeThrough(l, ApplyAll(store, l.log[a..b]), upTo) <==> StaleHarmless(l, a, b, upTo)
  {
    var after := ApplyAll(store, l.log[a..b]);
    forall k | k in l.store && LastWrite(l.log, k) <= upTo
      ensures (k in after && after[k] == l.store[k]) <==> HarmlessAt(l, a, b, k)
    {
      LateRequestAt(l, store, a, b, k);
    }
  }

  // ----- what each event does to a link -----

  lemma PutKeepsHarmless(l: Leader, key: Key, value: Record, a: nat, c: nat, upTo: int)
    requires LogOk(l) && a <= c <= |l.log| && upTo <= |l.log| && StaleHarmless(l, a, c, upTo)
    ensures StaleHarmless(Write(l, key, value), a, c, upTo)
  {
    var l' := Write(l, key, value);
    WriteKeepsLog(l, key, value);
    assert l'.log[..c] == l.log[..c];
    forall k | k in l'.store && LastWrite(l'.log, k) <= upTo ensures HarmlessAt(l', a, c, k) {
      assert HarmlessAt(l, a, c, k);
    }
  }

  lemma PutKeepsReplayable(l: Leader, key: Key, value: Record, a: nat, b: nat, upTo: int)
    requires LogOk(l) && a <= b <= |l.log| && upTo <= |l.log| && Replayable(l, a, b, upTo)
    ensures Replayable(Write(l, key, value), a, b, upTo)
  {
    forall c: nat | a <= c <= b ensures StaleHarmless(Write(l, key, value), a, c, upTo) {
      PutKeepsHarmless(l, key, value, a, c, upTo);
    }
  }

  lemma PutKeepsLink(l: Leader, f: Link, key: Key, value: Record)
    requires LogOk(l) && LinkOk(l, f)
    ensures LinkOk(Write(l, key, value), f)
  {
    WriteKeepsLog(l, key, value);
    if f.flight.Sent? { PutKeepsReplayable(l, key, value, f.flight.from, f.flight.upTo, f.acked); }
  }

  /** A request sent from the cursor on is replayable. */
  lemma SendKeepsLink(l: Leader, f: Link, p: Id)
    requires LogOk(l) && LinkOk(l, f)
    ensures LinkOk(l, LinkAfter(l, f, Send(p)))
  {
    var a := f.acked;
    forall c: nat | a <= c <= |l.log| ensures StaleHarmless(l, a, c, a) {
      forall k | k in l.store && LastWrite(l.log, k) <= a ensures HarmlessAt(l, a, c, k) {
        LastWriteInPrefix(l.log, c, k);
      }
    }
  }

  lemma HandleKeepsLink(l: Leader, f: Link, p: Id, n: nat)
    requires LogOk(l) && LinkOk(l, f) && f.flight.Sent? && f.flight.from + n <= f.flight.upTo
    ensures LinkOk(l, LinkAfter(l, f, Handle(p, n)))
  {
    var a, b := f.flight.from, f.flight.from + n;
    var g := LinkAfter(l, f, Handle(p, n));
    assert StaleHarmless(l, a, b, f.acked);
    SegmentKeepsAgreementIff(l, f.store, a, b, f.acked);
    AgreeBelow(l, f.store, a, f.acked);
    PartialBatch(l, f.store, a, b);
    assert g.store == ApplyAll(f.store, l.log[a..b]);
    if g.flight.Handled? {
      assert g.flight.applied == if a < b then b else 0;
      AgreeBelow(l, g.store, g.flight.applied, b);
    }
  }

  /** How far the follower agrees, or will once its answer is in. */
  function Settled(f: Link): int {
    if f.flight.Handled? && f.flight.applied > f.acked then f.flight.applied else f.acked
  }

  /** A request that was given up on (its call timed out) but is handled later, out of order, keeps
      the link in order exactly when it is harmless to every key that is or will be settled. */
  lemma LateKeepsLinkIff(l: Leader, f: Link, p: Id, a: nat, b: nat)
    requires LogOk(l) && LinkOk(l, f) && a <= b <= |l.log|
    ensures LinkOk(l, LinkAfter(l, f, Late(p, a, b))) <==> StaleHarmless(l, a, b, Settled(f))
  {
    SegmentKeepsAgreementIff(l, f.store, a, b, Settled(f));
    AgreeBelowAll(l, ApplyAll(f.store, l.log[a..b]), Settled(f));
  }

  lemma AgreeBelowAll(l: Leader, store: Store, b: int)
    ensures AgreeThrough(l, store, b) ==> forall a :: a <= b ==> AgreeThrough(l, store, a)
  {}

  /** Applying the entries between two positions would leave `store` as it is on every key not
      written past the second. */
  ghost predicate NothingNew(l: Leader, store: Store, a: nat, b: nat)
    requires a <= b <= |l.log|
  {
    var after := ApplyAll(store, l.log[a..b]);
    forall k :: k in l.store && LastWrite(l.log, k) <= b ==> k in store && k in after && after[k] == store[k]
  }

  lemma SkipKeepsAgreementIff(l: Leader, store: Store, a: nat, b: nat)
    requires LogOk(l) && AgreeThrough(l, store, a) && a <= b <= |l.log|
    ensures AgreeThrough(l, store, b) <==> NothingNew(l, store, a, b)
  {
    PartialBatch(l, store, a, b);
  }

  /** What moving the cursor to `c` unasked must meet: it stays within the log, what it skips is
      nothing new to the follower, and the request under way, which starts further back, undoes
      nothing before the new cursor. */
  ghost predicate Skippable(l: Leader, f: Link, c: int)
    requires 0 <= f.acked <= c && (f.flight.Sent? ==> f.flight.from <= f.flight.upTo <= |l.log|)
  {
    && c <= |l.log|
    && NothingNew(l, f.store, f.acked, c)
    && (f.flight.Sent? ==> Replayable(l, f.flight.from, f.flight.upTo, c))
  }

  /** An answer to an earlier session's request carries no term, so it moves the cursor of this
      session. The link stays in order exactly when the cursor may skip that far. */
  lemma StaleAckKeepsLinkIff(l: Leader, f: Link, p: Id, applied: int)
    requires LogOk(l) && LinkOk(l, f)
    ensures LinkOk(l, LinkAfter(l, f, StaleAck(p, applied))) <==> Skippable(l, f, Acked(f.acked, applied))
  {
    var c := Acked(f.acked, applied);
    if c <= |l.log| { SkipKeepsAgreementIff(l, f.store, f.acked, c); }
  }

  /** Only the last two kinds of event can do harm. */
  ghost predicate Harmless(s: Session, e: Event)
    requires Inv(s) && Enabled(s, e)
  {
    match e
    case Late(p, a, b) => StaleHarmless(s.leader, a, b, Settled(s.links[p]))
    case StaleAck(p, applied) =>
      assert LinkOk(s.leader, s.links[p]);
      Skippable(s.leader, s.links[p], Acked(s.links[p].acked, applied))
    case _ => true
  }

  lemma LinkEventKeepsIff(s: Session, e: Event)
    requires Inv(s) && Enabled(s, e) && !e.Put?
    ensures LinkOk(s.leader, LinkAfter(s.leader, s.links[e.peer], e)) <==> Harmless(s, e)
  {
    var l, f := s.leader, s.links[e.peer];
    assert LinkOk(l, f);
    match e
    case Send(p) => SendKeepsLink(l, f, p);
    case Handle(p, n) => HandleKeepsLink(l, f, p, n);
    case Ack(p) =>
    case Lose(p) =>
    case Late(p, a, b) => LateKeepsLinkIff(l, f, p, a, b);
    case StaleAck(p, applied) => StaleAckKeepsLinkIff(l, f, p, applied);
  }

  /** Every event keeps the session in order, unless it is a late request or a stale answer that
      does harm. */
  lemma StepKeepsInvIff(s: Session, e: Event)
    requires Inv(s) && Enabled(s, e)
    ensures Inv(Step(s, e)) <==> Harmless(s, e)
  {
    var s' := Step(s, e);
    if e.Put? {
      WriteKeepsLog(s.leader, e.key, e.value);
      forall p | p in s'.links ensures LinkOk(s'.leader, s'.links[p]) {
        PutKeepsLink(s.leader, s.links[p], e.key, e.value);
      }
    } else {
      LinkEventKeepsIff(s, e);
      assert s'.links[e.peer] == LinkAfter(s.leader, s.links[e.peer], e);
      assert e.peer in s'.links;
    }
  }

  // ----- runs -----

  ghost predicate Moves(s: Session, e: Event, s': Session) {
    Enabled(s, e) && s' == Step(s, e)
  }

  ghost predicate Run(ss: seq<Session>, es: seq<Event>) {
    && |ss| == |es| + 1 && Seeded(ss[0])
    && forall i :: 0 <= i < |es| ==> Moves(ss[i], es[i], ss[i + 1])
  }

  /** The event at `i` finds the session in order and does no harm. */
  ghost predicate HarmlessAtStep(ss: seq<Session>, es: seq<Event>, i: nat)
    requires i < |es| <= |ss|
  {
    Inv(ss[i]) && Enabled(ss[i], es[i]) ==> Harmless(ss[i], es[i])
  }

  ghost predicate HarmlessBefore(ss: seq<Session>, es: seq<Event>, k: nat)
    requires k <= |es| <= |ss|
  {
    forall i :: 0 <= i < k ==> HarmlessAtStep(ss, es, i)
  }

  lemma RunStepKeepsInvIff(ss: seq<Session>, es: seq<Event>, i: nat)
    requires Run(ss, es) && i < |es| && Inv(ss[i])
    ensures Inv(ss[i + 1]) <==> HarmlessAtStep(ss, es, i)
  {
    assert Moves(ss[i], es[i], ss[i + 1]);
    StepKeepsInvIff(ss[i], es[i]);
  }

  lemma SeededIsInOrder(s: Session)
    requires Seeded(s)
    ensures Inv(s)
  {
    forall p | p in s.links ensures LinkOk(s.leader, s.links[p]) {
      forall k | k in s.leader.store ensures LastWrite(s.leader.log, k) > 0 {
        assert Logged(s.leader.log, k, s.leader.store[k]);
      }
    }
  }

  /** A session without harmful events is in order throughout. */
  lemma {:induction false} RunKeepsInv(ss: seq<Session>, es: seq<Event>, i: nat)
    requires Run(ss, es) && i < |ss| && HarmlessBefore(ss, es, i)
    ensures Inv(ss[i])
  {
    if i == 0 {
      SeededIsInOrder(ss[0]);
    } else {
      RunKeepsInv(ss, es, i - 1);
      assert HarmlessAtStep(ss, es, i - 1);
      RunStepKeepsInvIff(ss, es, i - 1);
    }
  }

  ghost predicate InOrderThrough(ss: seq<Session>, k: nat)
    requires k < |ss|
  {
    forall i :: 0 <= i <= k ==> Inv(ss[i])
  }

  /** And only such a session is. */
  lemma {:induction false} InOrderIff(ss: seq<Session>, es: seq<Event>, k: nat)
    requires Run(ss, es) && k < |ss|
    ensures InOrderThrough(ss, k) <==> HarmlessBefore(ss, es, k)
  {
    if HarmlessBefore(ss, es, k) {
      forall i | 0 <= i <= k ensures Inv(ss[i]) { RunKeepsInv(ss, es, i); }
    }
    if InOrderThrough(ss, k) {
      forall i | 0 <= i < k ensures HarmlessAtStep(ss, es, i) { RunStepKeepsInvIff(ss, es, i); }
    }
  }

  /** At every moment of such a session a follower agrees with the leader on every leader key that
      was not written past the follower's cursor. */
  lemma SettledKeysAgree(ss: seq<Session>, es: seq<Event>, i: nat, p: Id, k: Key)
    requires Run(ss, es) && i < |ss| && p in ss[i].links && HarmlessBefore(ss, es, i)
    requires k in ss[i].leader.store && LastWrite(ss[i].leader.log, k) <= ss[i].links[p].acked
    ensures k in ss[i].links[p].store && ss[i].links[p].store[k] == ss[i].leader.store[k]
  {
    RunKeepsInv(ss, es, i);
    assert LinkOk(ss[i].leader, ss[i].links[p]);
  }

  /** Whatever was lost or half applied before: one request that is sent and applied to its
      end brings the follower to agreement on all keys of the leader. */
  lemma CleanRoundConverges(ss: seq<Session>, es: seq<Event>, i: nat, p: Id)
    requires Run(ss, es) && i < |ss| && p in ss[i].links && ss[i].links[p].flight == Nothing
    requires HarmlessBefore(ss, es, i)
    ensures var sent := Step(ss[i], Send(p));
      && sent.links[p].flight.Sent?
      && var batch := Handle(p, sent.links[p].flight.upTo - sent.links[p].flight.from);
      && Enabled(sent, batch)
      && var store := Step(sent, batch).links[p].store;
      forall k :: k in ss[i].leader.store ==> k in store && store[k] == ss[i].leader.store[k]
  {
    RunKeepsInv(ss, es, i);
    var s := ss[i];
    assert LinkOk(s.leader, s.links[p]);
    var sent := Step(s, Send(p));
    var f := sent.links[p];
    var a, b := f.flight.from, f.flight.upTo;
    PartialBatch(s.leader, f.store, a, b);
    assert Step(sent, Handle(p, b - a)).links[p].store == ApplyAll(f.store, s.leader.log[a..b]);
  }

  // ----- harm -----

  /** The first request timed out, the second was handled and is about to be acknowledged, and then
      the first is handled: the follower is left on the old value with the cursor past both. */
  lemma LateRequestMayDiverge()
    ensures var k := JobKey("a");
      var l := Leader(map[k := "new"], [Entry(1, Upsert(k, "old")), Entry(2, Upsert(k, "new"))], 2);
      var f := Link(map[k := "new"], 0, Handled(2));
      && LogOk(l) && LinkOk(l, f)
      && var g := LinkAfter(l, LinkAfter(l, f, Late("p", 0, 1)), Ack("p"));
      g.acked == 2 && !AgreeThrough(l, g.store, 2)
  {
    var k := JobKey("a");
    var l := Leader(map[k := "new"], [Entry(1, Upsert(k, "old")), Entry(2, Upsert(k, "new"))], 2);
    assert l.log[0..1] == [l.log[0]] && l.log[0..1][..0] == [];
    assert ApplyAll(map[k := "new"], l.log[0..1]) == map[k := "old"];
    assert LastWrite(l.log, k) == 2;
  }

  /** A leader whose log has one entry. */
  function Sole(k: Key, v: Record): Leader {
    Leader(map[k := v], [Entry(1, Upsert(k, v))], 1)
  }

  lemma SoleIsLogged(k: Key, v: Record)
    ensures LogOk(Sole(k, v)) && LastWrite(Sole(k, v).log, k) == 1
  {
    var log := Sole(k, v).log;
    assert log[..0] == [];
    assert LastWrite(log, k) == 1;
  }

  /** A follower with an empty store acknowledges one entry of an earlier session; the new
      session's first entry is then never sent to it. */
  lemma StaleAckMayDiverge()
    ensures var l := Sole(JobKey("a"), "new");
      var f := Link(map[], 0, Nothing);
      && LogOk(l) && LinkOk(l, f)
      && var g := LinkAfter(l, f, StaleAck("p", 1));
      g.acked == 1 && !AgreeThrough(l, g.store, 1)
  {
    SoleIsLogged(JobKey("a"), "new");
    assert JobKey("a") in Sole(JobKey("a"), "new").store;
  }

  /** After the next write a follower that holds the first value agrees no longer. */
  lemma SoleOverwritten(k: Key, v: Record, w: Record, upTo: int)
    requires v != w && 2 <= upTo
    ensures !AgreeThrough(Write(Sole(k, v), k, w), map[k := v], upTo)
  {
    SoleIsLogged(k, v);
    WriteKeepsLog(Sole(k, v), k, w);
    assert k in Write(Sole(k, v), k, w).store;
  }

  lemma SoleAgrees(k: Key, v: Record, upTo: int)
    ensures AgreeThrough(Sole(k, v), map[k := v], upTo)
  {}

  /** An acknowledgement past the end of a shorter log does no harm at once, but what is written
      next is never sent: the next request is empty. */
  lemma StaleAckMaySkip(p: Id, k: Key, v: Record, w: Record)
    requires v != w
    ensures var l, f := Sole(k, v), Link(map[k := v], 1, Nothing);
      && LogOk(l) && LinkOk(l, f)
      && var g := LinkAfter(l, f, StaleAck(p, 5));
      && AgreeThrough(l, g.store, g.acked)
      && var l' := Write(l, k, w);
      !AgreeThrough(l', g.store, g.acked) && LinkAfter(l', g, Send(p)).flight == Sent(2, 2)
  {
    var l, f := Sole(k, v), Link(map[k := v], 1, Nothing);
    SoleIsLogged(k, v);
    SoleAgrees(k, v, 1);
    assert LinkAfter(l, f, StaleAck(p, 5)) == Link(map[k := v], 5, Nothing);
    SoleAgrees(k, v, 5);
    SoleOverwritten(k, v, w, 5);
  }

  // ----- answers -----

  /** The answer to a batch: its highest sequence number, zero for a bare heartbeat. */
  ghost predicate Highest(es: seq<Entry>, last: int) {
    && 0 <= last
    && (last == 0 || exists i :: 0 <= i < |es| && es[i].seqno == last)
    && forall i :: 0 <= i < |es| ==> es[i].seqno <= last
  }

  lemma HighestMore(es: seq<Entry>, i: nat, last: int)
    requires i < |es| && Highest(es[..i], last)
    ensures Highest(es[..i + 1], if es[i].seqno > last then es[i].seqno else last)
  {
    var pre, more := es[..i], es[..i + 1];
    assert more == pre + [es[i]];
    if last != 0 {
      var k :| 0 <= k < |pre| && pre[k].seqno == last;
      assert more[k].seqno == last;
    }
    assert more[i] == es[i];
  }

  /** A whole batch of the leader's log is answered with the position it ends at, which is what
      a handled request reports. */
  lemma BatchAnswered(l: Leader, a: nat, b: nat, last: int)
    requires LogOk(l) && a <= b <= |l.log| && Highest(l.log[a..b], last)
    ensures last == if a < b then b else 0
  {
    var es := l.log[a..b];
    if last != 0 {
      var i :| 0 <= i < |es| && es[i].seqno == last;
      assert es[i] == l.log[a + i];
    }
    if a < b { assert es[b - a - 1] == l.log[b - 1]; }
  }

  // ----- the mutable objects -----

  /** A snapshot of the store under way, with `todo` still to be logged. */
  ghost predicate Seeding(store: Store, todo: set<Key>, log: seq<Entry>, seqno: int) {
    && todo <= store.Keys
    && LogOk(Leader(store - todo, log, seqno))
    && (forall i :: 0 <= i < |log| ==> Target(log[i].mutation) in store)
    && |log| + |todo| == |store.Keys|
  }

  lemma SeedStep(store: Store, todo: set<Key>, k: Key, log: seq<Entry>, seqno: int)
    requires k in todo && Seeding(store, todo, log, seqno)
    ensures Seeding(store, todo - {k}, log + [Entry(seqno + 1, Upsert(k, store[k]))], seqno + 1)
  {
    WriteKeepsLog(Leader(store - todo, log, seqno), k, store[k]);
    assert store - (todo - {k}) == (store - todo)[k := store[k]];
  }

  class LeaderNode {
    var store: Store
    var replLog: seq<Entry>
    var replSeq: int
    var peerAcked: map<Id, int>

    constructor (store: Store)
      ensures this.store == store && replLog == [] && replSeq == 0 && peerAcked == map[]
    {
      this.store, replLog, replSeq, peerAcked := store, [], 0, map[];
    }

    function View(): Leader
      reads this
    {
      Leader(store, replLog, replSeq)
    }

    function Cursor(peer: Id): int
      reads this
    {
      if peer in peerAcked then peerAcked[peer] else 0
    }

    /** putJob and putWorker. */
    method PutRecord(k: Key, v: Record, isLeader: bool)
      modifies this
      ensures peerAcked == old(peerAcked)
      ensures isLeader ==> View() == Write(old(View()), k, v)
      ensures !isLeader ==> View() == old(View()).(store := old(store)[k := v])
    {
      store := store[k := v];
      if isLeader {
        replSeq := replSeq + 1;
        replLog := replLog + [Entry(replSeq, Upsert(k, v))];
      }
    }

    /** Resets the log to a snapshot of the store and forgets every cursor. */
    method SeedReplication()
      modifies this
      ensures store == old(store) && LogOk(View())
      ensures forall i :: 0 <= i < |replLog| ==> Target(replLog[i].mutation) in store
      ensures |replLog| == |store.Keys|
      ensures forall peer :: Cursor(peer) == 0
    {
      replLog, replSeq, peerAcked := [], 0, map[];
      var todo := store.Keys;
      assert store - todo == map[];
      while todo != {}
        invariant store == old(store) && peerAcked == map[] && Seeding(store, todo, replLog, replSeq)
        decreases todo
      {
        var k :| k in todo;
        SeedStep(store, todo, k, replLog, replSeq);
        replSeq := replSeq + 1;
        replLog := replLog + [Entry(replSeq, Upsert(k, store[k]))];
        todo := todo - {k};
      }
      assert store - todo == store;
    }

    /** The entries past the peer's cursor: since sequence numbers are positions, the rest of
        the log from the cursor on, and nothing for a cursor past its end. */
    method EntriesForPeer(peer: Id) returns (out: seq<Entry>)
      requires LogOk(View())
      ensures out == replLog[Start(View(), Cursor(peer))..]
    {
      var acked := if peer in peerAcked then peerAcked[peer] else 0;
      out := [];
      for i := 0 to |replLog|
        invariant out == if i <= acked then [] else replLog[Start(View(), acked)..i]
      {
        if replLog[i].seqno > acked { out := out + [replLog[i]]; }
      }
    }

    method AckPeer(peer: Id, applied: int)
      modifies this`peerAcked
      ensures Cursor(peer) == Acked(old(Cursor(peer)), applied)
      ensures forall q :: q != peer ==> Cursor(q) == old(Cursor(q))
    {
      if applied <= 0 { return; }
      if applied > (if peer in peerAcked then peerAcked[peer] else 0) {
        peerAcked := peerAcked[peer := applied];
      }
    }
  }

  class FollowerNode {
    var store: Store

    constructor (store: Store)
      ensures this.store == store
    {
      this.store := store;
    }

    /** Applies a batch in order and reports the highest sequence number in it, zero for a
        bare heartbeat. */
    method ApplyEntries(entries: seq<Entry>) returns (last: int)
      modifies this
      ensures store == ApplyAll(old(store), entries)
      ensures Highest(entries, last)
    {
      last := 0;
      for i := 0 to |entries|
        invariant store == ApplyAll(old(store), entries[..i])
        invariant Highest(entries[..i], last)
      {
        assert entries[..i + 1][..i] == entries[..i];
        match entries[i].mutation {
          case Upsert(k, v) => store := store[k := v];
          case DeleteJob(id) => store := store - {JobKey(id)};
        }
        HighestMore(entries, i, last);
        if entries[i].seqno > last { last := entries[i].seqno; }
      }
      assert entries[..|entries|] == entries;
    }
  }
}
