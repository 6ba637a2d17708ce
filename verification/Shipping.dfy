/** The leader's and the followers' replication objects take the steps of a session: every call
    does to them what the event of the same name does to the session. */
module Shipping {
  import opened Prelude
  import opened Replication

  /** The objects are where the session says. */
  ghost predicate Mirrors(node: LeaderNode, followers: map<Id, FollowerNode>, s: Session)
    reads node, followers.Values
  {
    && node.View() == s.leader
    && followers.Keys == s.links.Keys
    && (forall p :: p in followers ==> node.Cursor(p) == s.links[p].acked && followers[p].store == s.links[p].store)
    && (forall p, q :: p in followers && q in followers && p != q ==> followers[p] != followers[q])
  }

  /** Taking office begins a session, whatever the followers hold. */
  method TakeOffice(node: LeaderNode, followers: map<Id, FollowerNode>) returns (ghost s: Session)
    requires forall p, q :: p in followers && q in followers && p != q ==> followers[p] != followers[q]
    modifies node
    ensures Seeded(s) && Mirrors(node, followers, s) && s.leader.store == old(node.store)
  {
    node.SeedReplication();
    s := Session(node.View(), map p | p in followers :: Link(followers[p].store, 0, Nothing));
  }

  method Store(node: LeaderNode, followers: map<Id, FollowerNode>, ghost s: Session, k: Key, v: Record)
    requires Mirrors(node, followers, s)
    modifies node
    ensures Mirrors(node, followers, Step(s, Put(k, v)))
  {
    node.PutRecord(k, v, true);
  }

  /** The request carries the segment of the log that the session says is sent. */
  method Request(node: LeaderNode, followers: map<Id, FollowerNode>, ghost s: Session, p: Id)
    returns (entries: seq<Entry>)
    requires Mirrors(node, followers, s) && LogOk(s.leader) && Enabled(s, Send(p))
    ensures Mirrors(node, followers, Step(s, Send(p)))
    ensures var sent := Step(s, Send(p)).links[p].flight; entries == s.leader.log[sent.from..sent.upTo]
  {
    entries := node.EntriesForPeer(p);
  }

  /** The follower handles the first `n` entries of the request under way; its answer, once it has
      handled all of them, is the one the session says is given. */
  method Deliver(node: LeaderNode, followers: map<Id, FollowerNode>, ghost s: Session, p: Id, entries: seq<Entry>,
      n: nat)
    returns (last: int)
    requires Mirrors(node, followers, s) && LogOk(s.leader) && n <= |entries| && Enabled(s, Handle(p, n))
    requires entries == s.leader.log[s.links[p].flight.from..s.links[p].flight.upTo]
    modifies followers[p]
    ensures Mirrors(node, followers, Step(s, Handle(p, n)))
    ensures n == |entries| ==> Step(s, Handle(p, n)).links[p].flight == Handled(last)
  {
    ghost var from, upTo := s.links[p].flight.from, s.links[p].flight.upTo;
    assert entries[..n] == s.leader.log[from..from + n];
    last := followers[p].ApplyEntries(entries[..n]);
    BatchAnswered(s.leader, from, from + n, last);
  }

  method Acknowledge(node: LeaderNode, followers: map<Id, FollowerNode>, ghost s: Session, p: Id, last: int)
    requires Mirrors(node, followers, s) && Enabled(s, Ack(p)) && last == s.links[p].flight.applied
    modifies node
    ensures Mirrors(node, followers, Step(s, Ack(p)))
  {
    node.AckPeer(p, last);
  }

  /** A request given up on is handled after all. */
  method DeliverLate(node: LeaderNode, followers: map<Id, FollowerNode>, ghost s: Session, p: Id, entries: seq<Entry>,
                     ghost a: nat, ghost b: nat)
    requires Mirrors(node, followers, s) && Enabled(s, Late(p, a, b)) && entries == s.leader.log[a..b]
    modifies followers[p]
    ensures Mirrors(node, followers, Step(s, Late(p, a, b)))
  {
    var _ := followers[p].ApplyEntries(entries);
  }

  /** An answer from an earlier session arrives. */
  method AcknowledgeStale(node: LeaderNode, followers: map<Id, FollowerNode>, ghost s: Session, p: Id, applied: int)
    requires Mirrors(node, followers, s) && Enabled(s, StaleAck(p, applied))
    modifies node
    ensures Mirrors(node, followers, Step(s, StaleAck(p, applied)))
  {
    node.AckPeer(p, applied);
  }
}
