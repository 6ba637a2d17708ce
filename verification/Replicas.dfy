/** Where a follower stands: its store is, at every moment, what the entries it has applied leave
    of the store it had when the leader took office, as long as no request handled late or in part
    takes it back. */
module Replicas {
  import opened Prelude
  import opened Replication

  /** How far the log has been applied once a segment that ends at `b` is. */
  function Reach(c: nat, b: nat): nat {
    if b > c then b else c
  }

  /** Applying the segment from `a` to `b` again leaves what is in it as it is after `c` entries. */
  ghost predicate Unrewound(log: seq<Entry>, a: nat, b: nat, c: nat)
    requires b <= |log| && c <= |log|
  {
    forall k :: LastWrite(log[..b], k) > a ==> SameWrite(log, LastWrite(log[..b], k), LastWrite(log[..c], k))
  }

  ghost predicate SameWrite(log: seq<Entry>, n: int, m: int)
    requires 0 < n <= |log| && 0 <= m <= |log|
  {
    m > 0 && log[n - 1].mutation == log[m - 1].mutation
  }

  ghost predicate SameAt(x: Store, y: Store, k: Key) {
    (k in x <==> k in y) && (k in x ==> x[k] == y[k])
  }

  lemma {:induction false} LastWriteGrows(log: seq<Entry>, b: nat, c: nat, k: Key)
    requires b <= c <= |log|
    ensures LastWrite(log[..b], k) <= LastWrite(log[..c], k)
    decreases c
  {
    if b < c {
      LastWriteGrows(log, b, c - 1, k);
      assert log[..c][..c - 1] == log[..c - 1];
    }
  }

  /** Past where the follower stands, a segment that begins no later takes it on. */
  lemma ForwardAtKey(log: seq<Entry>, base: Store, a: nat, b: nat, c: nat, k: Key)
    requires a <= c <= b <= |log| && forall i :: 0 <= i < |log| ==> log[i].mutation.Upsert?
    ensures SameAt(ApplyAll(ApplyAll(base, log[..c]), log[a..b]), ApplyAll(base, log[..b]), k)
  {
    assert log[0..c] == log[..c] && log[0..b] == log[..b];
    SegmentAt(log, base, 0, c, k);
    SegmentAt(log, base, 0, b, k);
    SegmentAt(log, ApplyAll(base, log[..c]), a, b, k);
    if LastWrite(log[..b], k) <= a {
      LastWriteInPrefix(log[..b], c, k);
      assert log[..b][..c] == log[..c];
    }
  }

  /** Short of it, the segment changes nothing exactly when it rewrites what is there. */
  lemma BackwardAtKeyIff(log: seq<Entry>, base: Store, a: nat, b: nat, c: nat, k: Key)
    requires a <= b <= c <= |log| && forall i :: 0 <= i < |log| ==> log[i].mutation.Upsert?
    ensures SameAt(ApplyAll(ApplyAll(base, log[..c]), log[a..b]), ApplyAll(base, log[..c]), k) <==>
      (LastWrite(log[..b], k) > a ==> SameWrite(log, LastWrite(log[..b], k), LastWrite(log[..c], k)))
  {
    assert log[0..c] == log[..c];
    SegmentAt(log, base, 0, c, k);
    SegmentAt(log, ApplyAll(base, log[..c]), a, b, k);
    LastWriteGrows(log, b, c, k);
  }

  lemma SameEverywhere(x: Store, y: Store)
    ensures x == y <==> forall k :: SameAt(x, y, k)
  {
    if forall k :: SameAt(x, y, k) {
      forall k ensures (k in x <==> k in y) && (k in x ==> x[k] == y[k]) { assert SameAt(x, y, k); }
    }
  }

  /** A follower that has applied `c` entries and then handles a segment that begins no later
      stands where the longer of the two ends exactly when the segment reaches as far as the
      follower was, or takes nothing back. */
  lemma SegmentLandsIff(log: seq<Entry>, base: Store, a: nat, b: nat, c: nat)
    requires a <= b <= |log| && a <= c <= |log| && forall i :: 0 <= i < |log| ==> log[i].mutation.Upsert?
    ensures ApplyAll(ApplyAll(base, log[..c]), log[a..b]) == ApplyAll(base, log[..Reach(c, b)]) <==>
      (c <= b || Unrewound(log, a, b, c))
  {
    var x, y := ApplyAll(ApplyAll(base, log[..c]), log[a..b]), ApplyAll(base, log[..Reach(c, b)]);
    SameEverywhere(x, y);
    if c <= b {
      forall k ensures SameAt(x, y, k) { ForwardAtKey(log, base, a, b, c, k); }
    } else {
      forall k
        ensures SameAt(x, y, k) <==>
          (LastWrite(log[..b], k) > a ==> SameWrite(log, LastWrite(log[..b], k), LastWrite(log[..c], k)))
      {
        BackwardAtKeyIff(log, base, a, b, c, k);
      }
    }
  }

  // ----- one follower through a session -----

  datatype Segment = Segment(from: nat, upTo: nat)

  /** The part of the log that an event makes the follower apply. */
  ghost function Applied(s: Session, e: Event, p: Id): Segment
    requires Enabled(s, e)
  {
    match e
    case Handle(q, n) =>
      if q == p then Segment(s.links[p].flight.from, s.links[p].flight.from + n) else Segment(0, 0)
    case Late(q, a, b) => if q == p then Segment(a, b) else Segment(0, 0)
    case _ => Segment(0, 0)
  }

  /** The follower has applied `c` entries, on top of `base`, and the leader counts on no more. */
  ghost predicate Stands(l: Leader, f: Link, base: Store, c: nat) {
    && c <= |l.log| && f.store == ApplyAll(base, l.log[..c])
    && 0 <= f.acked <= c
    && (f.flight.Sent? ==> f.flight.from <= c && f.flight.from <= f.flight.upTo <= |l.log|)
    && (f.flight.Handled? ==> f.flight.applied <= c)
  }

  /** A request handled late was sent from where the follower stood or before, and no answer speaks
      of more than the follower has applied. */
  ghost predicate Plausible(s: Session, e: Event, p: Id, c: nat)
    requires Enabled(s, e)
  {
    (e.Late? ==> Applied(s, e, p).from <= c) && (e.StaleAck? && e.peer == p ==> e.applied <= c)
  }

  ghost predicate Forward(s: Session, e: Event, p: Id, c: nat)
    requires Enabled(s, e)
  {
    var part := Applied(s, e, p);
    c <= part.upTo || (part.upTo <= c <= |s.leader.log| && Unrewound(s.leader.log, part.from, part.upTo, c))
  }

  lemma LinkStandsIff(s: Session, e: Event, p: Id, base: Store, c: nat)
    requires LogOk(s.leader) && Enabled(s, e) && !e.Put? && e.peer == p && Plausible(s, e, p, c)
    requires Stands(s.leader, s.links[p], base, c)
    ensures Stands(s.leader, LinkAfter(s.leader, s.links[p], e), base, Reach(c, Applied(s, e, p).upTo)) <==>
      Forward(s, e, p, c)
  {
    var part := Applied(s, e, p);
    if e.Handle? || e.Late? {
      SegmentLandsIff(s.leader.log, base, part.from, part.upTo, c);
    }
  }

  /** An event leaves the follower where the log it has applied says, exactly when the event goes
      forward. */
  lemma StepStandsIff(s: Session, e: Event, p: Id, base: Store, c: nat)
    requires LogOk(s.leader) && Enabled(s, e) && Plausible(s, e, p, c)
    requires p in s.links && Stands(s.leader, s.links[p], base, c)
    ensures p in Step(s, e).links && LogOk(Step(s, e).leader)
    ensures Stands(Step(s, e).leader, Step(s, e).links[p], base, Reach(c, Applied(s, e, p).upTo)) <==>
      Forward(s, e, p, c)
  {
    if e.Put? {
      WriteKeepsLog(s.leader, e.key, e.value);
      assert Step(s, e).leader.log[..c] == s.leader.log[..c];
    } else if e.peer == p {
      LinkStandsIff(s, e, p, base, c);
    }
  }

  // ----- runs -----

  /** How many entries of the log the follower has applied so far. */
  ghost function Reached(ss: seq<Session>, es: seq<Event>, p: Id, i: nat): nat
    requires Run(ss, es) && i < |ss|
  {
    if i == 0 then 0
    else
      assert Moves(ss[i - 1], es[i - 1], ss[i - 1 + 1]);
      Reach(Reached(ss, es, p, i - 1), Applied(ss[i - 1], es[i - 1], p).upTo)
  }

  ghost predicate StandsAt(ss: seq<Session>, es: seq<Event>, p: Id, i: nat)
    requires Run(ss, es) && i < |ss| && p in ss[0].links
  {
    && LogOk(ss[i].leader) && p in ss[i].links
    && Stands(ss[i].leader, ss[i].links[p], ss[0].links[p].store, Reached(ss, es, p, i))
  }

  ghost predicate PlausibleAt(ss: seq<Session>, es: seq<Event>, p: Id, i: nat)
    requires Run(ss, es) && i < |es|
  {
    Moves(ss[i], es[i], ss[i + 1]) && Plausible(ss[i], es[i], p, Reached(ss, es, p, i))
  }

  ghost predicate PlausibleBefore(ss: seq<Session>, es: seq<Event>, p: Id, k: nat)
    requires Run(ss, es) && k <= |es|
  {
    forall i :: 0 <= i < k ==> PlausibleAt(ss, es, p, i)
  }

  ghost predicate ForwardAt(ss: seq<Session>, es: seq<Event>, p: Id, i: nat)
    requires Run(ss, es) && i < |es|
  {
    Moves(ss[i], es[i], ss[i + 1]) && Forward(ss[i], es[i], p, Reached(ss, es, p, i))
  }

  ghost predicate ForwardBefore(ss: seq<Session>, es: seq<Event>, p: Id, k: nat)
    requires Run(ss, es) && k <= |es|
  {
    forall i :: 0 <= i < k ==> ForwardAt(ss, es, p, i)
  }

  lemma RunStepStandsIff(ss: seq<Session>, es: seq<Event>, p: Id, i: nat)
    requires Run(ss, es) && i < |es| && p in ss[0].links && PlausibleAt(ss, es, p, i) && StandsAt(ss, es, p, i)
    ensures StandsAt(ss, es, p, i + 1) <==> ForwardAt(ss, es, p, i)
  {
    assert Moves(ss[i], es[i], ss[i + 1]);
    StepStandsIff(ss[i], es[i], p, ss[0].links[p].store, Reached(ss, es, p, i));
  }

  lemma Earlier(ss: seq<Session>, es: seq<Event>, p: Id, k: nat)
    requires Run(ss, es) && k < |es|
    ensures PlausibleBefore(ss, es, p, k + 1) <==> PlausibleBefore(ss, es, p, k) && PlausibleAt(ss, es, p, k)
    ensures ForwardBefore(ss, es, p, k + 1) <==> ForwardBefore(ss, es, p, k) && ForwardAt(ss, es, p, k)
  {}

  /** A follower that is only taken forward stands at every moment where the entries it has applied
      say. */
  lemma {:induction false} FollowerStands(ss: seq<Session>, es: seq<Event>, p: Id, i: nat)
    requires Run(ss, es) && i < |ss| && p in ss[0].links
    requires PlausibleBefore(ss, es, p, i) && ForwardBefore(ss, es, p, i)
    ensures StandsAt(ss, es, p, i)
  {
    if i > 0 {
      var k := i - 1;
      Earlier(ss, es, p, k);
      FollowerStands(ss, es, p, k);
      RunStepStandsIff(ss, es, p, k);
    }
  }

  /** And one that is taken back at some moment does not, after it. */
  lemma FollowerStandsIff(ss: seq<Session>, es: seq<Event>, p: Id, k: nat)
    requires Run(ss, es) && k < |ss| && p in ss[0].links && PlausibleBefore(ss, es, p, k)
    ensures (forall i :: 0 <= i <= k ==> StandsAt(ss, es, p, i)) <==> ForwardBefore(ss, es, p, k)
  {
    if ForwardBefore(ss, es, p, k) {
      forall i | 0 <= i <= k ensures StandsAt(ss, es, p, i) { FollowerStands(ss, es, p, i); }
    }
    if forall i :: 0 <= i <= k ==> StandsAt(ss, es, p, i) {
      forall i | 0 <= i < k ensures ForwardAt(ss, es, p, i) {
        assert StandsAt(ss, es, p, i) && StandsAt(ss, es, p, i + 1) && PlausibleAt(ss, es, p, i);
        RunStepStandsIff(ss, es, p, i);
      }
    }
  }

  // ----- requests handled whole -----

  /** The follower handles requests to their end and in time, and no old answer comes in. */
  ghost predicate Whole(s: Session, e: Event, p: Id) {
    && Enabled(s, e)
    && (!e.Put? && e.peer == p ==> !e.Late? && !e.StaleAck?)
    && (e.Handle? && e.peer == p ==> s.links[p].flight.from + e.count == s.links[p].flight.upTo)
  }

  /** The request under way ends no earlier than the snapshot, nor than where the follower is. */
  ghost predicate Ample(f: Link, c: nat, snapshot: nat) {
    && (f.flight.Sent? ==> c <= f.flight.upTo && snapshot <= f.flight.upTo)
    && (c == 0 || snapshot <= c)
  }

  lemma WholeStep(s: Session, e: Event, p: Id, base: Store, c: nat, snapshot: nat)
    requires LogOk(s.leader) && p in s.links && Stands(s.leader, s.links[p], base, c)
    requires Ample(s.links[p], c, snapshot) && snapshot <= |s.leader.log| && Whole(s, e, p)
    ensures Plausible(s, e, p, c) && Forward(s, e, p, c)
    ensures p in Step(s, e).links && Ample(Step(s, e).links[p], Reach(c, Applied(s, e, p).upTo), snapshot)
    ensures snapshot <= |Step(s, e).leader.log|
  {}

  lemma WholeRunStep(ss: seq<Session>, es: seq<Event>, p: Id, n: nat)
    requires Run(ss, es) && n < |es| && p in ss[0].links && StandsAt(ss, es, p, n)
    requires |ss[0].leader.log| <= |ss[n].leader.log| && Whole(ss[n], es[n], p)
    requires Ample(ss[n].links[p], Reached(ss, es, p, n), |ss[0].leader.log|)
    ensures PlausibleAt(ss, es, p, n) && ForwardAt(ss, es, p, n) && StandsAt(ss, es, p, n + 1)
    ensures |ss[0].leader.log| <= |ss[n + 1].leader.log|
    ensures Ample(ss[n + 1].links[p], Reached(ss, es, p, n + 1), |ss[0].leader.log|)
  {
    assert Moves(ss[n], es[n], ss[n + 1]);
    WholeStep(ss[n], es[n], p, ss[0].links[p].store, Reached(ss, es, p, n), |ss[0].leader.log|);
    RunStepStandsIff(ss, es, p, n);
  }

  /** A follower that handles every request to its end is only taken forward, and after its first
      request it has the whole snapshot. */
  lemma {:induction false} WholeRequests(ss: seq<Session>, es: seq<Event>, p: Id, k: nat)
    requires Run(ss, es) && k <= |es| && p in ss[0].links
    requires forall i :: 0 <= i < k ==> Whole(ss[i], es[i], p)
    ensures PlausibleBefore(ss, es, p, k) && ForwardBefore(ss, es, p, k) && StandsAt(ss, es, p, k)
    ensures |ss[0].leader.log| <= |ss[k].leader.log|
    ensures Ample(ss[k].links[p], Reached(ss, es, p, k), |ss[0].leader.log|)
  {
    if k > 0 {
      var n := k - 1;
      WholeRequests(ss, es, p, n);
      WholeRunStep(ss, es, p, n);
      Earlier(ss, es, p, n);
    }
  }

  /** The reply to a request is lost and the request sent again; a crash cuts its second handling
      short. The follower then holds an old record of one job beside a later record of another: a
      store the leader never had. */
  lemma ReplayMayRewind()
    ensures var a, b := JobKey("a"), JobKey("b");
      var log := [Entry(1, Upsert(a, "old")), Entry(2, Upsert(a, "new")), Entry(3, Upsert(b, "new"))];
      var after := ApplyAll(ApplyAll(map[], log), log[0..1]);
      after == map[a := "old", b := "new"] && forall c :: 0 <= c <= 3 ==> after != ApplyAll(map[], log[..c])
  {
    var a, b := JobKey("a"), JobKey("b");
    var log := [Entry(1, Upsert(a, "old")), Entry(2, Upsert(a, "new")), Entry(3, Upsert(b, "new"))];
    assert log[..0] == [] && log[..1] == [log[0]] && log[..2] == [log[0], log[1]] && log[..3] == log;
    assert log[..1][..0] == [] && log[..2][..1] == log[..1] && log[..3][..2] == log[..2] && log[0..1] == log[..1];
    assert ApplyAll(map[], log[..0]) == map[];
    assert ApplyAll(map[], log[..1]) == map[a := "old"];
    assert ApplyAll(map[], log[..2]) == map[a := "new"];
    assert ApplyAll(map[], log[..3]) == map[a := "new", b := "new"];
    var full := map[a := "new", b := "new"];
    assert ApplyAll(full, log[..1][..0]) == full;
    var after := ApplyAll(full, log[..1]);
    assert after == full[a := "old"] == map[a := "old", b := "new"];
    assert b in after && after[a] == "old" && "old"[0] != "new"[0];
    forall c | 0 <= c <= 3 ensures after != ApplyAll(map[], log[..c]) {
      assert c == 0 || c == 1 || c == 2 || c == 3;
    }
  }
}
