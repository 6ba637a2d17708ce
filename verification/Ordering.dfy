/** The total order of the ready queue: priority descending, then created_at ascending,
    then ID ascending (internal/queue/queue.go, Less). */
module Ordering {
  import opened Prelude

  /** A queued job's place in the order, apart from its ID. */
  datatype Key = Key(priority: int, createdAt: int)

  /** Lexicographic order of IDs. */
  predicate IdLess(a: Id, b: Id)
    decreases |a|
  {
    if b == [] then false
    else if a == [] then true
    else a[0] < b[0] || (a[0] == b[0] && IdLess(a[1..], b[1..]))
  }

  predicate Before(a: Id, ka: Key, b: Id, kb: Key) {
    if ka.priority != kb.priority then ka.priority > kb.priority
    else if ka.createdAt != kb.createdAt then ka.createdAt < kb.createdAt
    else IdLess(a, b)
  }

  lemma {:induction false} IdLessIrreflexive(a: Id)
    ensures !IdLess(a, a)
    decreases |a|
  {
    if a != [] { IdLessIrreflexive(a[1..]); }
  }

  lemma {:induction false} IdLessTransitive(a: Id, b: Id, c: Id)
    requires IdLess(a, b) && IdLess(b, c)
    ensures IdLess(a, c)
    decreases |a|
  {
    if a != [] && a[0] == b[0] == c[0] { IdLessTransitive(a[1..], b[1..], c[1..]); }
  }

  lemma {:induction false} IdLessTotal(a: Id, b: Id)
    requires a != b
    ensures IdLess(a, b) || IdLess(b, a)
    decreases |a|
  {
    if a != [] && b != [] && a[0] == b[0] {
      assert a == [a[0]] + a[1..] && b == [b[0]] + b[1..];
      IdLessTotal(a[1..], b[1..]);
    }
  }

  lemma BeforeTransitive(a: Id, ka: Key, b: Id, kb: Key, c: Id, kc: Key)
    requires Before(a, ka, b, kb) && Before(b, kb, c, kc)
    ensures Before(a, ka, c, kc)
  {
    if ka == kb == kc { IdLessTransitive(a, b, c); }
  }

  lemma BeforeAsymmetric(a: Id, ka: Key, b: Id, kb: Key)
    requires Before(a, ka, b, kb)
    ensures !Before(b, kb, a, ka)
  {
    if ka == kb && IdLess(b, a) {
      IdLessTransitive(a, b, a);
      IdLessIrreflexive(a);
    }
  }

  lemma BeforeTotal(a: Id, ka: Key, b: Id, kb: Key)
    requires a != b
    ensures Before(a, ka, b, kb) || Before(b, kb, a, ka)
  {
    IdLessTotal(a, b);
  }

  /** `id` comes before everything else in `m`. */
  predicate IsFirst(m: map<Id, Key>, id: Id) {
    id in m && forall x :: x in m && x != id ==> Before(id, m[id], x, m[x])
  }

  lemma FirstUnique(m: map<Id, Key>, a: Id, b: Id)
    requires IsFirst(m, a) && IsFirst(m, b)
    ensures a == b
  {
    if a != b { BeforeAsymmetric(a, m[a], b, m[b]); }
  }

  /** The job that a pop must return. */
  ghost function First(m: map<Id, Key>): (id: Id)
    requires m != map[]
    ensures IsFirst(m, id)
  {
    FirstExists(m);
    var id :| IsFirst(m, id);
    id
  }

  lemma {:induction false} FirstExists(m: map<Id, Key>)
    requires m != map[]
    ensures exists id :: IsFirst(m, id)
    decreases |m|
  {
    var x :| x in m;
    var rest := m - {x};
    if rest == map[] {
      assert forall y :: y in m && y != x ==> y in rest;
      assert IsFirst(m, x);
    } else {
      assert |rest| < |m| by { assert m.Keys == rest.Keys + {x}; }
      FirstExists(rest);
      var id :| IsFirst(rest, id);
      ExtendFirst(m, x, id);
    }
  }

  lemma ExtendFirst(m: map<Id, Key>, x: Id, id: Id)
    requires x in m && IsFirst(m - {x}, id)
    ensures IsFirst(m, id) || IsFirst(m, x)
  {
    var rest := m - {x};
    assert forall y :: y in m && y != x ==> y in rest && rest[y] == m[y];
    if !Before(id, m[id], x, m[x]) {
      BeforeTotal(id, m[id], x, m[x]);
      forall y | y in m && y != x ensures Before(x, m[x], y, m[y]) {
        assert y in rest;
        if y != id { BeforeTransitive(x, m[x], id, m[id], y, m[y]); }
      }
    }
  }
}
