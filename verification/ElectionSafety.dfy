/** The cluster as a step system: replicas exchange vote requests, replies and heartbeats that
    may be lost, delayed, reordered or duplicated; vote requests and heartbeats may be forged;
    a replica may crash at every persist boundary. Proved over every run: at most one leader
    per term, and fencing of lower terms by a majority. */
module ElectionSafety {
  import opened Prelude
  import opened Election

  /** A granted vote that some reply carries. Replies are never forgotten, so a delayed or
      repeated one can still arrive at any later time. */
  datatype Grant = Grant(voter: Id, term: int, candidate: Id)

  datatype Win = Win(node: Id, term: int)

  /** `grants` and `wins` are history: every grant ever sent, every leadership ever assumed. */
  datatype Cluster = Cluster(nodes: map<Id, Node>, grants: set<Grant>, wins: set<Win>)

  datatype Event =
    | Timeout(node: Id)
    | VoteRequest(node: Id, term: int, candidate: Id)
    | VoteReply(node: Id, peer: Id, reply: Reply)
    | Heartbeat(node: Id, term: int)
    | HigherTermSeen(node: Id, term: int)
    | Restart(node: Id)
    /** Crash and restart inside HandleVote, after the new term is saved and before the vote is. */
    | RestartInVote(node: Id, term: int)

  ghost predicate Members(members: set<Id>) {
    members != {} && "" !in members
  }

  ghost function Init(members: set<Id>): Cluster {
    Cluster(map n | n in members :: Node(Follower, 0, "", 0, "", Idle), {}, {})
  }

  /** A granted reply was really sent by that peer to this candidate in this term, and each
      peer's result is taken once per election. Everything else is unconstrained. */
  ghost predicate Enabled(members: set<Id>, c: Cluster, e: Event)
    requires c.nodes.Keys == members
  {
    && e.node in members
    && match e
       case Timeout(n) => c.nodes[n].role != Leader
       case VoteReply(n, p, r) =>
         && c.nodes[n].tally.Counting?
         && p in members && p != n && p !in c.nodes[n].tally.heard
         && (r.Answer? && r.granted ==> Grant(p, c.nodes[n].tally.term, n) in c.grants)
       case RestartInVote(n, term) => term > c.nodes[n].term
       case _ => true
  }

  /** The replica an event is delivered to, after it. */
  ghost function NodeAfter(members: set<Id>, v: Node, e: Event): Node
    requires e.VoteReply? ==> v.tally.Counting?
  {
    match e
    case Timeout(n) => Campaigning(v, n)
    case VoteRequest(n, term, candidate) => Voted(v, term, candidate)
    case VoteReply(n, p, r) => Counted(v, |members|, p, r)
    case Heartbeat(n, term) => Observed(v, term)
    case HigherTermSeen(n, term) => SteppedDown(v, term)
    case Restart(n) => Started(v, n, |members|)
    case RestartInVote(n, term) => Started(BecomeFollower(v, term), n, |members|)
  }

  /** Votes cast by an event: an answered request, or a candidate's vote for itself. */
  ghost function GrantsBy(v: Node, w: Node, e: Event): set<Grant> {
    match e
    case VoteRequest(n, term, candidate) => if Grants(v, term, candidate) then {Grant(n, term, candidate)} else {}
    case Timeout(n) => {Grant(n, w.term, n)}
    case Restart(n) => if w.role == Leader then {Grant(n, w.term, n)} else {}
    case RestartInVote(n, _) => if w.role == Leader then {Grant(n, w.term, n)} else {}
    case _ => {}
  }

  ghost function Step(members: set<Id>, c: Cluster, e: Event): Cluster
    requires c.nodes.Keys == members && Enabled(members, c, e)
  {
    var v := c.nodes[e.node];
    var w := NodeAfter(members, v, e);
    Cluster(c.nodes[e.node := w],
            c.grants + GrantsBy(v, w, e),
            if w.role == Leader then c.wins + {Win(e.node, w.term)} else c.wins)
  }

  /** The members among `vs` that granted their vote of `term` to `candidate`. */
  ghost function Backers(c: Cluster, vs: set<Id>, term: int, candidate: Id): set<Id> {
    set v | v in vs && Grant(v, term, candidate) in c.grants
  }

  ghost predicate NodeOk(members: set<Id>, c: Cluster, n: Id)
    requires n in c.nodes
  {
    var v := c.nodes[n];
    && v.term == v.savedTerm && v.votedFor == v.savedVote
    && (v.role == Leader ==> Win(n, v.term) in c.wins)
    && (v.tally.Counting? ==>
          && v.tally.term <= v.term
          && v.tally.heard <= members - {n}
          && v.tally.votes <= |Backers(c, v.tally.heard + {n}, v.tally.term, n)|)
  }

  /** A vote is on disk before its grant is sent, and no later write of that term changes it. */
  ghost predicate GrantOk(members: set<Id>, c: Cluster, g: Grant)
    requires c.nodes.Keys == members
  {
    && g.voter in members
    && g.term <= c.nodes[g.voter].savedTerm
    && (g.term == c.nodes[g.voter].savedTerm && g.candidate != "" ==> c.nodes[g.voter].savedVote == g.candidate)
  }

  ghost predicate OneVotePerTerm(c: Cluster) {
    forall g, g' | g in c.grants && g' in c.grants && g.voter == g'.voter && g.term == g'.term ::
      g.candidate == "" || g'.candidate == "" || g.candidate == g'.candidate
  }

  ghost predicate WinOk(members: set<Id>, c: Cluster, w: Win) {
    w.node in members && Majority(|members|) <= |Backers(c, members, w.term, w.node)|
  }

  ghost predicate Inv(members: set<Id>, c: Cluster) {
    && c.nodes.Keys == members
    && (forall n :: n in members ==> NodeOk(members, c, n))
    && (forall g :: g in c.grants ==> GrantOk(members, c, g))
    && OneVotePerTerm(c)
    && (forall w :: w in c.wins ==> WinOk(members, c, w))
  }

  // ----- every step keeps the invariant -----

  /** Saved terms never fall, and a vote once saved in a term stays. */
  lemma NodeProgress(members: set<Id>, v: Node, e: Event)
    requires v.term == v.savedTerm && v.votedFor == v.savedVote
    requires e.VoteReply? ==> v.tally.Counting?
    ensures var w := NodeAfter(members, v, e);
      && w.term == w.savedTerm && w.votedFor == w.savedVote
      && v.savedTerm <= w.savedTerm
      && (v.savedTerm == w.savedTerm && v.savedVote != "" ==> w.savedVote == v.savedVote)
  {}

  /** A grant is for the term and the vote that are on disk once it is sent. */
  lemma GrantIsSaved(members: set<Id>, v: Node, e: Event, g: Grant)
    requires v.term == v.savedTerm && v.votedFor == v.savedVote
    requires e.VoteReply? ==> v.tally.Counting?
    requires g in GrantsBy(v, NodeAfter(members, v, e), e)
    ensures var w := NodeAfter(members, v, e);
      && g.voter == e.node && g.term == w.savedTerm && g.candidate == w.savedVote
      && (v.savedTerm == g.term ==> v.savedVote == "" || v.savedVote == g.candidate)
  {}

  lemma GrantsKept(members: set<Id>, c: Cluster, e: Event)
    requires Inv(members, c) && Enabled(members, c, e)
    ensures var d := Step(members, c, e);
      (forall g :: g in d.grants ==> GrantOk(members, d, g)) && OneVotePerTerm(d)
  {
    var d := Step(members, c, e);
    var v, w := c.nodes[e.node], d.nodes[e.node];
    assert NodeOk(members, c, e.node);
    NodeProgress(members, v, e);
    forall g | g in GrantsBy(v, w, e)
      ensures g.voter == e.node && g.term == w.savedTerm && g.candidate == w.savedVote
      ensures v.savedTerm == g.term ==> v.savedVote == "" || v.savedVote == g.candidate
    {
      GrantIsSaved(members, v, e, g);
    }
    assert forall g :: g in c.grants ==> GrantOk(members, c, g);
  }

  lemma BackersGrow(c: Cluster, d: Cluster, us: set<Id>, vs: set<Id>, term: int, candidate: Id)
    requires c.grants <= d.grants && us <= vs
    ensures |Backers(c, us, term, candidate)| <= |Backers(d, vs, term, candidate)|
  {
    Subset(Backers(c, us, term, candidate), Backers(d, vs, term, candidate));
  }

  lemma {:induction false} Subset(a: set<Id>, b: set<Id>)
    requires a <= b
    ensures |a| <= |b|
  {
    assert b == a + (b - a);
  }

  /** Counting a granted reply: the peer is a backer not counted before. */
  lemma OneMoreBacker(c: Cluster, n: Id, p: Id, heard: set<Id>, term: int)
    requires p != n && p !in heard && Grant(p, term, n) in c.grants
    ensures |Backers(c, heard + {p} + {n}, term, n)| >= |Backers(c, heard + {n}, term, n)| + 1
  {
    var old' := Backers(c, heard + {n}, term, n);
    assert p !in old';
    Subset(old' + {p}, Backers(c, heard + {p} + {n}, term, n));
  }

  /** What a tally still counting can have become in one step. */
  lemma TallyAfter(members: set<Id>, c: Cluster, e: Event)
    requires c.nodes.Keys == members && Enabled(members, c, e)
    ensures var v := c.nodes[e.node]; var w := NodeAfter(members, v, e);
      w.tally.Counting? ==>
        || (e.Timeout? && w.tally == Counting(w.term, 1, {}))
        || (v.tally.Counting? && v.tally.term == w.tally.term && v.term <= w.term &&
            if e.VoteReply?
            then w.tally.heard == v.tally.heard + {e.peer} &&
                 w.tally.votes == v.tally.votes + (if e.reply.Answer? && e.reply.granted then 1 else 0)
            else w.tally == v.tally)
  {}

  /** The stepping replica's tally and leadership stay backed by grants. */
  lemma StepperOk(members: set<Id>, c: Cluster, e: Event)
    requires c.nodes.Keys == members && Enabled(members, c, e) && NodeOk(members, c, e.node)
    ensures NodeOk(members, Step(members, c, e), e.node)
  {
    var d := Step(members, c, e);
    var n := e.node;
    var v, w := c.nodes[n], d.nodes[n];
    NodeProgress(members, v, e);
    TallyAfter(members, c, e);
    if w.tally.Counting? {
      if e.Timeout? {
        assert Backers(d, {} + {n}, w.tally.term, n) == {n};
      } else {
        if w.tally.votes != v.tally.votes { OneMoreBacker(c, n, e.peer, v.tally.heard, v.tally.term); }
        BackersGrow(c, c, v.tally.heard + {n}, w.tally.heard + {n}, v.tally.term, n);
        BackersGrow(c, d, w.tally.heard + {n}, w.tally.heard + {n}, v.tally.term, n);
      }
    }
  }

  /** A new leader is backed by a majority. */
  lemma WinnerOk(members: set<Id>, c: Cluster, e: Event)
    requires Members(members) && Inv(members, c) && Enabled(members, c, e)
    requires var w := NodeAfter(members, c.nodes[e.node], e);
      w.role == Leader && Win(e.node, w.term) !in c.wins
    ensures WinOk(members, Step(members, c, e), Win(e.node, NodeAfter(members, c.nodes[e.node], e).term))
  {
    var d := Step(members, c, e);
    var n := e.node;
    var v, w := c.nodes[n], d.nodes[n];
    assert NodeOk(members, c, n);
    if e.VoteReply? {
      var t := v.tally;
      OneMoreBacker(c, n, e.peer, t.heard, t.term);
      BackersGrow(c, d, t.heard + {e.peer} + {n}, members, t.term, n);
    } else {
      assert Majority(|members|) <= 1;
      assert n in Backers(d, members, w.term, n);
      Subset({n}, Backers(d, members, w.term, n));
    }
  }

  lemma StepKeepsInv(members: set<Id>, c: Cluster, e: Event)
    requires Members(members) && Inv(members, c) && Enabled(members, c, e)
    ensures Inv(members, Step(members, c, e))
  {
    var d := Step(members, c, e);
    GrantsKept(members, c, e);
    assert NodeOk(members, c, e.node);
    StepperOk(members, c, e);
    forall n | n in members && n != e.node ensures NodeOk(members, d, n) {
      assert NodeOk(members, c, n);
      var t := c.nodes[n].tally;
      if t.Counting? { BackersGrow(c, d, t.heard + {n}, t.heard + {n}, t.term, n); }
    }
    forall w | w in d.wins ensures WinOk(members, d, w) {
      if w in c.wins {
        assert WinOk(members, c, w);
        BackersGrow(c, d, members, members, w.term, w.node);
      } else {
        WinnerOk(members, c, e);
      }
    }
  }

  // ----- runs -----

  /** A run: the states it goes through and the events between them. */
  ghost predicate Run(members: set<Id>, cs: seq<Cluster>, es: seq<Event>) {
    && |cs| == |es| + 1
    && cs[0] == Init(members)
    && forall i :: 0 <= i < |es| ==> Moves(members, cs[i], es[i], cs[i + 1])
  }

  ghost predicate Moves(members: set<Id>, c: Cluster, e: Event, d: Cluster) {
    c.nodes.Keys == members && Enabled(members, c, e) && d == Step(members, c, e)
  }

  lemma {:induction false} RunKeepsInv(members: set<Id>, cs: seq<Cluster>, es: seq<Event>, i: nat)
    requires Members(members) && Run(members, cs, es) && i < |cs|
    ensures Inv(members, cs[i])
  {
    if i > 0 {
      RunKeepsInv(members, cs, es, i - 1);
      assert Moves(members, cs[i - 1], es[i - 1], cs[i - 1 + 1]);
      StepKeepsInv(members, cs[i - 1], es[i - 1]);
    }
  }

  lemma MajoritiesMeet(members: set<Id>, a: set<Id>, b: set<Id>)
    requires a <= members && b <= members
    requires Majority(|members|) <= |a| && Majority(|members|) <= |b|
    ensures a * b != {}
  {
    Subset(a + b, members);
    assert |a + b| == |a| + |b| - |a * b|;
  }

  lemma OneWinnerPerTerm(members: set<Id>, c: Cluster, w: Win, w': Win)
    requires Members(members) && Inv(members, c)
    requires w in c.wins && w' in c.wins && w.term == w'.term
    ensures w == w'
  {
    assert WinOk(members, c, w) && WinOk(members, c, w');
    var a, b := Backers(c, members, w.term, w.node), Backers(c, members, w'.term, w'.node);
    MajoritiesMeet(members, a, b);
    var v :| v in a * b;
    assert Grant(v, w.term, w.node) in c.grants && Grant(v, w.term, w'.node) in c.grants;
  }

  lemma {:induction false} WinsKept(members: set<Id>, cs: seq<Cluster>, es: seq<Event>, i: nat, j: nat)
    requires Run(members, cs, es) && i <= j < |cs|
    ensures cs[i].wins <= cs[j].wins
    decreases j
  {
    if i < j {
      WinsKept(members, cs, es, i, j - 1);
      assert Moves(members, cs[j - 1], es[j - 1], cs[j - 1 + 1]);
    }
  }

  lemma LeaderHasWon(members: set<Id>, cs: seq<Cluster>, es: seq<Event>, i: nat, n: Id)
    requires Members(members) && Run(members, cs, es) && i < |cs| && n in members
    requires n in cs[i].nodes && cs[i].nodes[n].role == Leader
    ensures Win(n, cs[i].nodes[n].term) in cs[|cs| - 1].wins
  {
    RunKeepsInv(members, cs, es, i);
    assert NodeOk(members, cs[i], n);
    WinsKept(members, cs, es, i, |cs| - 1);
  }

  /** Election safety: over every run, whenever two replicas lead, at the same moment or at
      different ones, in the same term, they are the same replica. */
  lemma AtMostOneLeaderPerTerm(members: set<Id>, cs: seq<Cluster>, es: seq<Event>, i: nat, j: nat, m: Id, n: Id)
    requires Members(members) && Run(members, cs, es) && i < |cs| && j < |cs| && m in members && n in members
    requires m in cs[i].nodes && cs[i].nodes[m].role == Leader
    requires n in cs[j].nodes && cs[j].nodes[n].role == Leader
    requires cs[i].nodes[m].term == cs[j].nodes[n].term
    ensures m == n
  {
    var last := |cs| - 1;
    RunKeepsInv(members, cs, es, last);
    LeaderHasWon(members, cs, es, i, m);
    LeaderHasWon(members, cs, es, j, n);
    OneWinnerPerTerm(members, cs[last], Win(m, cs[i].nodes[m].term), Win(n, cs[j].nodes[n].term));
  }

  // ----- fencing -----

  lemma TermStep(members: set<Id>, c: Cluster, e: Event, d: Cluster, n: Id)
    requires Inv(members, c) && Moves(members, c, e, d) && n in members
    ensures n in d.nodes && c.nodes[n].term <= d.nodes[n].term
  {
    assert NodeOk(members, c, n);
    if n == e.node { NodeProgress(members, c.nodes[n], e); }
  }

  lemma RunStep(members: set<Id>, cs: seq<Cluster>, es: seq<Event>, i: nat)
    requires Members(members) && Run(members, cs, es) && i < |es|
    ensures Inv(members, cs[i]) && Moves(members, cs[i], es[i], cs[i + 1])
  {
    RunKeepsInv(members, cs, es, i);
  }

  /** A replica's term, which is always the persisted one, never decreases along a run. */
  lemma {:induction false} TermsNeverFall(members: set<Id>, cs: seq<Cluster>, es: seq<Event>, i: nat, j: nat, n: Id)
    requires Members(members) && Run(members, cs, es) && i <= j < |cs| && n in members
    ensures n in cs[i].nodes && n in cs[j].nodes && cs[i].nodes[n].term <= cs[j].nodes[n].term
    decreases j
  {
    if i < j {
      TermsNeverFall(members, cs, es, i, j - 1, n);
      RunStep(members, cs, es, j - 1);
      TermStep(members, cs[j - 1], es[j - 1], cs[j], n);
    } else {
      RunKeepsInv(members, cs, es, i);
    }
  }

  /** Event `j` of the run is a heartbeat of term `term` that replica `n` accepts. */
  ghost predicate AcceptsAt(cs: seq<Cluster>, es: seq<Event>, j: nat, n: Id, term: int) {
    j < |es| && j < |cs| && es[j] == Heartbeat(n, term) && n in cs[j].nodes && Accepts(cs[j].nodes[n], term)
  }

  /** The terms whose heartbeats one replica accepts never decrease, across restarts. */
  lemma AcceptedTermsNeverFall(members: set<Id>, cs: seq<Cluster>, es: seq<Event>, i: nat, j: nat, n: Id, s: int,
      t: int)
    requires Members(members) && Run(members, cs, es) && i < j
    requires AcceptsAt(cs, es, i, n, s) && AcceptsAt(cs, es, j, n, t)
    ensures s <= t
  {
    assert Moves(members, cs[i], es[i], cs[i + 1]);
    TermsNeverFall(members, cs, es, i + 1, j, n);
  }

  /** The members that accept, from event `k` of the run on, some heartbeat below `term`. */
  ghost function LateAcceptors(members: set<Id>, cs: seq<Cluster>, es: seq<Event>, k: nat, term: int): set<Id> {
    set n | n in members && exists j: nat, t :: k <= j && t < term && AcceptsAt(cs, es, j, n, t)
  }

  /** Majority fencing: once a term has had a leader, only a minority of the members ever
      again accepts heartbeats of lower terms. */
  lemma MajorityFenced(members: set<Id>, cs: seq<Cluster>, es: seq<Event>, k: nat, w: Win)
    requires Members(members) && Run(members, cs, es) && k < |cs| && w in cs[k].wins
    ensures |LateAcceptors(members, cs, es, k, w.term)| < Majority(|members|)
  {
    RunKeepsInv(members, cs, es, k);
    assert WinOk(members, cs[k], w);
    var fenced, late := Backers(cs[k], members, w.term, w.node), LateAcceptors(members, cs, es, k, w.term);
    forall n | n in fenced ensures w.term <= cs[k].nodes[n].term {
      assert NodeOk(members, cs[k], n) && GrantOk(members, cs[k], Grant(n, w.term, w.node));
    }
    forall n | n in late ensures n !in fenced {
      var j: nat, t :| k <= j && t < w.term && AcceptsAt(cs, es, j, n, t);
      TermsNeverFall(members, cs, es, k, j, n);
    }
    assert |fenced + late| == |fenced| + |late| by { assert fenced * late == {}; }
    Subset(fenced + late, members);
  }
}
