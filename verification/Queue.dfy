/** The in-memory ready queue: a binary heap of items that know their own position, plus a
    map from job ID to item (internal/queue/queue.go). The sift loops are those of Go's
    container/heap. `PriorityQueue.Contents` is the abstract value: which jobs are queued,
    and under which key. */
module Queue {
  import opened Prelude
  import opened Ordering

  /** One queued job. Only the position changes after construction. */
  class Item {
    const jobID: Id
    const key: Key
    var index: int

    constructor (jobID: Id, key: Key)
      ensures this.jobID == jobID && this.key == key && index == 0
    {
      this.jobID, this.key, index := jobID, key, 0;
    }
  }

  predicate Less(a: Item, b: Item) {
    Before(a.jobID, a.key, b.jobID, b.key)
  }

  function Parent(k: int): int
    requires k > 0
  {
    (k - 1) / 2
  }

  /** Every item among the first `n` has its parent at or before it in the order. */
  ghost predicate HeapOrdered(h: seq<Item>, n: nat)
    requires n <= |h|
  {
    forall k :: 0 < k < n ==> !Less(h[k], h[Parent(k)])
  }

  /** Heap order among the first `n`, except that the item at `j` may belong higher up. */
  ghost predicate OrderedBut(h: seq<Item>, j: nat, n: nat)
    requires n <= |h|
  {
    && (forall k :: 0 < k < n && k != j ==> !Less(h[k], h[Parent(k)]))
    && (forall k :: 0 < k < n && Parent(k) == j > 0 ==> !Less(h[k], h[Parent(j)]))
  }

  /** Heap order among the first `n`, except that the item at `i` may belong lower down or,
      while it is still at `start`, higher up. */
  ghost predicate OrderedAround(h: seq<Item>, start: nat, i: nat, n: nat)
    requires n <= |h|
  {
    && (forall k :: 0 < k < n && Parent(k) != i && !(k == i == start) ==> !Less(h[k], h[Parent(k)]))
    && (forall k :: 0 < k < n && Parent(k) == i > 0 ==> !Less(h[k], h[Parent(i)]))
  }

  function Swapped(h: seq<Item>, i: nat, j: nat): (r: seq<Item>)
    requires i < |h| && j < |h|
    ensures |r| == |h|
  {
    h[i := h[j]][j := h[i]]
  }

  /** "Not after" is transitive. */
  lemma NotAfterTransitive(a: Item, b: Item, c: Item)
    requires !Less(b, a) && !Less(c, b)
    ensures !Less(c, a)
  {
    if Less(c, a) {
      if a.jobID == b.jobID && a.key == b.key {
      } else {
        if a.jobID != b.jobID { BeforeTotal(a.jobID, a.key, b.jobID, b.key); }
        BeforeTransitive(c.jobID, c.key, a.jobID, a.key, b.jobID, b.key);
      }
    }
  }

  lemma LessIsNotAfter(a: Item, b: Item)
    requires Less(a, b)
    ensures !Less(b, a)
  {
    BeforeAsymmetric(a.jobID, a.key, b.jobID, b.key);
  }

  /** One step of the upward sift. */
  lemma SiftUpStep(h: seq<Item>, j: nat, n: nat)
    requires 0 < j < n <= |h| && OrderedBut(h, j, n) && Less(h[j], h[Parent(j)])
    ensures OrderedBut(Swapped(h, Parent(j), j), Parent(j), n)
  {
    var p := Parent(j);
    var r := Swapped(h, p, j);
    LessIsNotAfter(h[j], h[p]);
    forall k | 0 < k < n && k != p ensures !Less(r[k], r[Parent(k)]) {
      if k != j && Parent(k) == p {
        NotAfterTransitive(h[j], h[p], h[k]);
      }
    }
    forall k | 0 < k < n && Parent(k) == p > 0 ensures !Less(r[k], r[Parent(p)]) {
      if k != j {
        NotAfterTransitive(h[Parent(p)], h[p], h[k]);
      }
    }
  }

  /** One step of the downward sift; `j` is the child that comes first. */
  lemma SiftDownStep(h: seq<Item>, start: nat, i: nat, j: nat, n: nat)
    requires start <= i < j < n <= |h| && Parent(j) == i
    requires OrderedAround(h, start, i, n) && Less(h[j], h[i])
    requires forall k :: 0 < k < n && Parent(k) == i ==> !Less(h[k], h[j])
    ensures OrderedAround(Swapped(h, i, j), start, j, n)
  {
    var r := Swapped(h, i, j);
    LessIsNotAfter(h[j], h[i]);
  }

  lemma SiftDownDone(h: seq<Item>, start: nat, i: nat, n: nat)
    requires start <= i < n <= |h| && OrderedAround(h, start, i, n)
    requires forall k :: 0 < k < n && Parent(k) == i ==> !Less(h[k], h[i])
    ensures i > start || start == 0 ==> HeapOrdered(h, n)
    ensures i == start ==> OrderedBut(h, i, n)
  {}

  /** Moving the last item into slot `i` leaves heap order around `i` only in doubt. */
  lemma HoleAt(h: seq<Item>, i: nat, n: nat)
    requires i < n == |h| - 1 && HeapOrdered(h, |h|)
    ensures OrderedAround(Swapped(h, i, n), i, i, n)
  {
    forall k | 0 < k < n && Parent(k) == i > 0 ensures !Less(h[k], h[Parent(i)]) {
      NotAfterTransitive(h[Parent(i)], h[i], h[k]);
    }
  }

  /** Nothing in a heap comes before its root. */
  lemma {:induction false} RootFirst(h: seq<Item>, n: nat, k: nat)
    requires k < n <= |h| && HeapOrdered(h, n)
    ensures !Less(h[k], h[0])
    decreases k
  {
    if k == 0 {
      IdLessIrreflexive(h[0].jobID);
    } else {
      RootFirst(h, n, Parent(k));
      NotAfterTransitive(h[0], h[Parent(k)], h[k]);
    }
  }

  ghost function Ids(h: seq<Item>): set<Id> {
    set x | x in h :: x.jobID
  }

  lemma {:induction false} IdsCount(h: seq<Item>)
    requires forall i, j :: 0 <= i < j < |h| ==> h[i].jobID != h[j].jobID
    ensures |Ids(h)| == |h|
  {
    if h != [] {
      var last := |h| - 1;
      IdsCount(h[..last]);
      assert Ids(h) == Ids(h[..last]) + {h[last].jobID};
    }
  }

  class PriorityQueue {
    var h: seq<Item>
    var byID: map<Id, Item>

    ghost function Items(): set<Item>
      reads this
    {
      set x | x in h
    }

    /** Every item stores its own position. */
    ghost predicate Linked()
      reads this, h
    {
      forall i :: 0 <= i < |h| ==> h[i].index == i
    }

    /** The ID map holds exactly the items of the heap, each under its own ID. */
    ghost predicate Indexed()
      reads this
    {
      && (forall x :: x in Items() ==> x.jobID in byID && byID[x.jobID] == x)
      && (forall id :: id in byID ==> byID[id].jobID == id && byID[id] in Items())
    }

    ghost predicate Valid()
      reads this, h
    {
      Heap() && Indexed()
    }

    /** The queued jobs and their keys. */
    ghost function Contents(): (m: map<Id, Key>)
      reads this
    {
      map id | id in byID :: byID[id].key
    }

    constructor ()
      ensures Valid() && Contents() == map[] && h == []
    {
      h, byID := [], map[];
    }

    method Swap(i: nat, j: nat)
      requires i < |h| && j < |h| && Linked()
      modifies this`h, Items()
      ensures h == Swapped(old(h), i, j) && Linked()
      ensures Items() == old(Items())
    {
      h := Swapped(h, i, j);
      h[i].index := i;
      h[j].index := j;
      assert forall k :: 0 <= k < |h| ==> h[k] in old(h);
      assert forall k :: 0 <= k < |h| ==> old(h)[k] == h[if k == i then j else if k == j then i else k];
    }

    method Up(j0: nat, ghost n: nat)
      requires j0 < n <= |h| && Linked() && OrderedBut(h, j0, n)
      modifies this`h, Items()
      ensures Linked() && |h| == |old(h)| && HeapOrdered(h, n) && h[n..] == old(h[n..])
      ensures Items() == old(Items())
    {
      var j: nat := j0;
      while true
        invariant j < n <= |h| && Linked() && OrderedBut(h, j, n)
        invariant |h| == |old(h)| && h[n..] == old(h[n..])
        invariant Items() == old(Items())
        decreases j
      {
        if j == 0 { break; }
        var i := Parent(j);
        if !Less(h[j], h[i]) { break; }
        SiftUpStep(h, j, n);
        Swap(i, j);
        j := i;
      }
    }

    method Down(i0: nat, n: nat) returns (moved: bool)
      requires i0 < n <= |h| && Linked() && OrderedAround(h, i0, i0, n)
      modifies this`h, Items()
      ensures Linked() && |h| == |old(h)| && h[n..] == old(h[n..])
      ensures Items() == old(Items())
      ensures moved || i0 == 0 ==> HeapOrdered(h, n)
      ensures !moved ==> h == old(h) && OrderedBut(h, i0, n)
    {
      var i := i0;
      while true
        invariant i0 <= i < n <= |h| && Linked() && OrderedAround(h, i0, i, n)
        invariant |h| == |old(h)| && h[n..] == old(h[n..])
        invariant Items() == old(Items())
        invariant i == i0 ==> h == old(h)
        decreases n - i
      {
        var j := SmallerChild(i, n);
        if j == n { break; }
        SiftDownStep(h, i0, i, j, n);
        Swap(i, j);
        i := j;
      }
      SiftDownDone(h, i0, i, n);
      moved := i > i0;
    }

    /** The child of `i` to exchange it with: the smaller one, if it comes before `i`; else `n`. */
    method SmallerChild(i: nat, n: nat) returns (j: nat)
      requires i < n <= |h|
      ensures j == n || (i < j < n && Parent(j) == i && Less(h[j], h[i]))
      ensures j == n ==> forall k :: 0 < k < n && Parent(k) == i ==> !Less(h[k], h[i])
      ensures j < n ==> forall k :: 0 < k < n && Parent(k) == i ==> !Less(h[k], h[j])
    {
      var j1 := 2 * i + 1;
      if j1 >= n { return n; }
      j := j1;
      if j1 + 1 < n && Less(h[j1 + 1], h[j1]) {
        j := j1 + 1;
      }
      FirstChild(h, i, j, n);
      if !Less(h[j], h[i]) {
        forall k | 0 < k < n && Parent(k) == i ensures !Less(h[k], h[i]) {
          NotAfterTransitive(h[i], h[j], h[k]);
        }
        return n;
      }
    }

    /** The heap is ordered and every item stores its own position. */
    ghost predicate Heap()
      reads this, h
    {
      Linked() && HeapOrdered(h, |h|)
    }

    method HeapPush(it: Item)
      requires Heap() && it !in Items()
      modifies this`h, Items(), it
      ensures Heap() && Items() == old(Items()) + {it}
    {
      it.index := |h|;
      h := h + [it];
      Up(|h| - 1, |h|);
    }

    method HeapPop() returns (it: Item)
      requires Heap() && |h| > 0
      modifies this`h, Items()
      ensures Heap() && it == old(h)[0] && Items() == old(Items()) - {it}
    {
      var n := |h| - 1;
      ghost var root := h[0];
      if n > 0 { HoleAt(h, 0, n); }
      Swap(0, n);
      if n > 0 {
        var _ := Down(0, n);
      }
      assert h[n..][0] == root;
      it := Detach();
    }

    method HeapRemove(i: nat) returns (it: Item)
      requires Heap() && i < |h|
      modifies this`h, Items()
      ensures Heap() && it == old(h)[i] && Items() == old(Items()) - {it}
    {
      var n := |h| - 1;
      ghost var target := h[i];
      if n != i {
        HoleAt(h, i, n);
        Swap(i, n);
        var moved := Down(i, n);
        if !moved {
          Up(i, n);
        }
      }
      assert h[n..][0] == target;
      it := Detach();
    }

    /** Queues a job; a job already queued keeps its place and key. */
    method Push(jobID: Id, key: Key) returns (added: bool)
      requires Valid()
      modifies this, Items()
      ensures Valid() && fresh(Items() - old(Items()))
      ensures added <==> jobID !in old(Contents())
      ensures Contents() == if added then old(Contents())[jobID := key] else old(Contents())
    {
      if jobID in byID { return false; }
      var it := new Item(jobID, key);
      HeapPush(it);
      byID := byID[jobID := it];
      return true;
    }

    /** Removes and returns the first job in the order. */
    method Pop() returns (jobID: Id, ok: bool)
      requires Valid()
      modifies this, Items()
      ensures Valid() && Items() <= old(Items())
      ensures ok <==> old(Contents()) != map[]
      ensures ok ==> IsFirst(old(Contents()), jobID) && Contents() == old(Contents()) - {jobID}
      ensures !ok ==> jobID == "" && Contents() == old(Contents())
    {
      if |h| == 0 { return "", false; }
      RootIsFirst();
      var it := HeapPop();
      byID := byID - {it.jobID};
      return it.jobID, true;
    }

    /** Removes one job, wherever in the heap it is. */
    method Remove(jobID: Id) returns (present: bool)
      requires Valid()
      modifies this, Items()
      ensures Valid() && Items() <= old(Items())
      ensures present <==> jobID in old(Contents())
      ensures Contents() == old(Contents()) - {jobID}
    {
      if jobID !in byID { return false; }
      assert byID[jobID] in Items();
      var it := HeapRemove(byID[jobID].index);
      byID := byID - {jobID};
      return true;
    }

    /** The heap's own Pop: drops the last slot. */
    method Detach() returns (it: Item)
      requires |h| > 0 && Linked()
      modifies this`h, Items()
      ensures it == old(h)[|old(h)| - 1] && h == old(h)[..|old(h)| - 1] && Linked()
      ensures Items() == old(Items()) - {it}
    {
      var n := |h|;
      it := h[n - 1];
      it.index := -1;
      h := h[..n - 1];
      assert forall x :: x in old(h) && x != it ==> x in h;
    }

    method Clear()
      modifies this
      ensures Valid() && Contents() == map[] && Items() == {}
    {
      h, byID := [], map[];
    }

    method Contains(jobID: Id) returns (b: bool)
      ensures b <==> jobID in Contents()
    {
      b := jobID in byID;
    }

    method Len() returns (n: nat)
      requires Valid()
      ensures n == |Contents()|
    {
      n := |h|;
      IdsCount(h);
      assert Ids(h) == Contents().Keys;
    }

    lemma RootIsFirst()
      requires Valid() && |h| > 0
      ensures IsFirst(Contents(), h[0].jobID)
    {
      forall id | id in Contents() && id != h[0].jobID
        ensures Before(h[0].jobID, h[0].key, id, byID[id].key)
      {
        var k :| 0 <= k < |h| && h[k] == byID[id];
        RootFirst(h, |h|, k);
        BeforeTotal(h[0].jobID, h[0].key, id, byID[id].key);
      }
    }
  }

  /** Both children of `i` are at or after the one the sift picks. */
  lemma FirstChild(h: seq<Item>, i: nat, j: nat, n: nat)
    requires i < n <= |h| && 2 * i + 1 < n
    requires j == if 2 * i + 2 < n && Less(h[2 * i + 2], h[2 * i + 1]) then 2 * i + 2 else 2 * i + 1
    ensures forall k :: 0 < k < n && Parent(k) == i ==> !Less(h[k], h[j])
  {
    IdLessIrreflexive(h[j].jobID);
    if j == 2 * i + 2 { LessIsNotAfter(h[j], h[2 * i + 1]); }
    forall k | 0 < k < n && Parent(k) == i ensures k == 2 * i + 1 || k == 2 * i + 2 {}
  }
}
