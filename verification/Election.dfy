/** One replica's election state and its critical sections (internal/cluster/cluster.go).
    `Node` is the value of a replica; the functions say what each locked section does to it;
    `Replica` is the mutable object that the source updates in place. */
module Election {
  import opened Prelude

  datatype Role = Follower | Candidate | Leader

  /** The locals of a running startElection call: its term, its vote counter, and the peers
      whose reply (or failure to reply) it has taken from the channel. */
  datatype Tally = Idle | Counting(term: int, votes: int, heard: set<Id>)

  datatype Node = Node(role: Role, term: int, votedFor: Id,
                       savedTerm: int, savedVote: Id, tally: Tally)

  /** What a peer's SendVote call came back with. */
  datatype Reply = Unreachable | Answer(granted: bool, peerTerm: int)

  function Majority(size: nat): nat {
    size / 2 + 1
  }

  function Persist(n: Node): Node {
    n.(savedTerm := n.term, savedVote := n.votedFor)
  }

  function BecomeFollower(n: Node, term: int): Node {
    var m := if term > n.term then Persist(n.(term := term, votedFor := "")) else n;
    m.(role := Follower)
  }

  /** Start: load the persisted state; a single-member cluster elects itself at once. */
  function Started(n: Node, self: Id, size: nat): Node {
    var m := Node(Follower, n.savedTerm, n.savedVote, n.savedTerm, n.savedVote, Idle);
    if Majority(size) <= 1 then
      Persist(m.(term := m.term + 1, votedFor := self)).(role := Leader)
    else m
  }

  /** The first locked section of startElection. */
  function Campaigning(n: Node, self: Id): Node {
    Persist(n.(role := Candidate, term := n.term + 1, votedFor := self)).(tally := Counting(n.term + 1, 1, {}))
  }

  /** One iteration of startElection's counting loop. */
  function Counted(n: Node, size: nat, peer: Id, r: Reply): Node
    requires n.tally.Counting?
  {
    var t := n.tally.(heard := n.tally.heard + {peer});
    if r.Unreachable? then n.(tally := t)
    else if n.role != Candidate || n.term != t.term then n.(tally := Idle)
    else if r.peerTerm > n.term then BecomeFollower(n, r.peerTerm).(tally := Idle)
    else if !r.granted then n.(tally := t)
    else if t.votes + 1 >= Majority(size) then n.(role := Leader, tally := Idle)
    else n.(tally := t.(votes := t.votes + 1))
  }

  predicate Grants(n: Node, term: int, candidate: Id) {
    term > n.term || (term == n.term && (n.votedFor == "" || n.votedFor == candidate))
  }

  function Voted(n: Node, term: int, candidate: Id): Node {
    if term < n.term then n
    else
      var m := if term > n.term then BecomeFollower(n, term) else n;
      if m.votedFor == "" || m.votedFor == candidate then Persist(m.(votedFor := candidate)) else m
  }

  predicate Accepts(n: Node, term: int) {
    term >= n.term
  }

  function Observed(n: Node, term: int): Node {
    if term > n.term then BecomeFollower(n, term)
    else if term == n.term && n.role == Candidate then n.(role := Follower)
    else n
  }

  function SteppedDown(n: Node, peerTerm: int): Node {
    if peerTerm > n.term then BecomeFollower(n, peerTerm) else n
  }

  class Replica {
    const self: Id
    const members: seq<Id>
    var role: Role
    var currentTerm: int
    var votedFor: Id
    var leaderID: Id
    // the meta bucket of the store
    var savedTerm: int
    var savedVote: Id
    // locals of the running startElection call
    var tally: Tally

    constructor (self: Id, members: seq<Id>, savedTerm: int, savedVote: Id)
      ensures this.self == self && this.savedTerm == savedTerm && this.savedVote == savedVote
      ensures this.members == if members == [] then [self] else members
      ensures role == Follower && tally == Idle
    {
      this.self, this.members := self, if members == [] then [self] else members;
      role, currentTerm, votedFor, leaderID := Follower, 0, "", "";
      this.savedTerm, this.savedVote, tally := savedTerm, savedVote, Idle;
    }

    function View(): Node
      reads this
    {
      Node(role, currentTerm, votedFor, savedTerm, savedVote, tally)
    }

    method PersistLocked()
      modifies this`savedTerm, this`savedVote
      ensures View() == Persist(old(View()))
    {
      savedTerm, savedVote := currentTerm, votedFor;
    }

    method BecomeFollowerLocked(term: int)
      modifies this
      ensures View() == BecomeFollower(old(View()), term)
      ensures leaderID == old(leaderID)
    {
      if term > currentTerm {
        currentTerm, votedFor := term, "";
        PersistLocked();
      }
      role := Follower;
    }

    method Start()
      modifies this
      ensures View() == Started(old(View()), self, |members|)
    {
      role, tally := Follower, Idle;
      currentTerm, votedFor := savedTerm, savedVote;
      if Majority(|members|) <= 1 {
        currentTerm, votedFor := currentTerm + 1, self;
        PersistLocked();
        role, leaderID := Leader, self;
      }
    }

    method StartElection()
      modifies this
      ensures View() == Campaigning(old(View()), self)
    {
      role := Candidate;
      currentTerm, votedFor := currentTerm + 1, self;
      PersistLocked();
      tally := Counting(currentTerm, 1, {});
    }

    /** One result taken from the reply channel; `leading` when it won the election. */
    method TakeReply(peer: Id, r: Reply) returns (leading: bool)
      requires tally.Counting?
      modifies this
      ensures View() == Counted(old(View()), |members|, peer, r)
      ensures leading <==> old(role) == Candidate && role == Leader
    {
      leading := false;
      var t := tally.(heard := tally.heard + {peer});
      if r.Unreachable? { tally := t; return; }
      if role != Candidate || currentTerm != t.term { tally := Idle; return; }
      if r.peerTerm > currentTerm {
        BecomeFollowerLocked(r.peerTerm);
        tally := Idle;
        return;
      }
      if r.granted {
        t := t.(votes := t.votes + 1);
        if t.votes >= Majority(|members|) {
          role, leaderID, tally := Leader, self, Idle;
          return true;
        }
      }
      tally := t;
    }

    method HandleVote(term: int, candidate: Id) returns (granted: bool, current: int)
      modifies this
      ensures View() == Voted(old(View()), term, candidate)
      ensures granted <==> Grants(old(View()), term, candidate)
      ensures current == currentTerm
    {
      if term < currentTerm { return false, currentTerm; }
      if term > currentTerm { BecomeFollowerLocked(term); }
      if votedFor == "" || votedFor == candidate {
        votedFor := candidate;
        PersistLocked();
        return true, currentTerm;
      }
      return false, currentTerm;
    }

    method ObserveLeader(term: int, leader: Id) returns (accepted: bool, current: int)
      modifies this
      ensures View() == Observed(old(View()), term)
      ensures accepted <==> Accepts(old(View()), term)
      ensures current == currentTerm
      ensures accepted && role != Leader ==> leaderID == leader
    {
      if term < currentTerm { return false, currentTerm; }
      if term > currentTerm {
        BecomeFollowerLocked(term);
      } else if role == Candidate {
        role := Follower;
      } else if role == Leader {
        return true, currentTerm;
      }
      leaderID := leader;
      return true, currentTerm;
    }

    method MaybeStepDown(peerTerm: int)
      modifies this
      ensures View() == SteppedDown(old(View()), peerTerm)
    {
      if peerTerm > currentTerm { BecomeFollowerLocked(peerTerm); }
    }
  }
}
