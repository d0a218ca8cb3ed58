/** The task record of the reorderable list and its projections. */
module Tasks {
  import opened Sequences

  /** One row of the list: an opaque stable identifier, a display name and a
      priority, which a drag sets to the task's 1-based position in the list.
      The source stores the priority in a JavaScript number; here it is an
      unbounded integer. */
  datatype Task = Task(id: string, name: string, priority: int)

  /** The identifiers of `ts`, in order. */
  function Ids(ts: seq<Task>): (r: seq<string>)
    ensures |r| == |ts|
    ensures forall i :: 0 <= i < |ts| ==> r[i] == ts[i].id
  {
    seq(|ts|, i requires 0 <= i < |ts| => ts[i].id)
  }

  /** The display names of `ts`, in order. */
  function Names(ts: seq<Task>): (r: seq<string>)
    ensures |r| == |ts|
    ensures forall i :: 0 <= i < |ts| ==> r[i] == ts[i].name
  {
    seq(|ts|, i requires 0 <= i < |ts| => ts[i].name)
  }

  /** The priorities of `ts`, in order. */
  function Priorities(ts: seq<Task>): (r: seq<int>)
    ensures |r| == |ts|
    ensures forall i :: 0 <= i < |ts| ==> r[i] == ts[i].priority
  {
    seq(|ts|, i requires 0 <= i < |ts| => ts[i].priority)
  }

  /** No two tasks share an identifier. */
  predicate DistinctIds(ts: seq<Task>) {
    NoDuplicates(Ids(ts))
  }

  /** Every task's priority is its 1-based position. */
  predicate Ranked(ts: seq<Task>) {
    forall i :: 0 <= i < |ts| ==> ts[i].priority == i + 1
  }

  /** The ranks 1..n as a set. */
  function OneTo(n: nat): (r: set<int>)
    ensures forall k :: k in r <==> 1 <= k <= n
  {
    if n == 0 then {} else OneTo(n - 1) + {n}
  }

  /** The priorities are exactly 1..|ts|: each in range, none repeated, and
      every rank of the range taken. */
  predicate PrioritiesFormRange(ts: seq<Task>) {
    && (forall i :: 0 <= i < |ts| ==> 1 <= ts[i].priority <= |ts|)
    && NoDuplicates(Priorities(ts))
    && (set i | 0 <= i < |ts| :: ts[i].priority) == OneTo(|ts|)
  }

  lemma IdsAppend(a: seq<Task>, b: seq<Task>)
    ensures Ids(a + b) == Ids(a) + Ids(b)
  {
    assert forall i :: 0 <= i < |a + b| ==> (a + b)[i] == if i < |a| then a[i] else b[i - |a|];
  }

  /** Reordering tasks reorders their identifiers: a permutation of tasks has
      the same multiset of identifiers. */
  lemma {:induction false} PermutationKeepsIds(a: seq<Task>, b: seq<Task>)
    requires IsPermutation(a, b)
    ensures multiset(Ids(a)) == multiset(Ids(b))
    decreases |a|
  {
    if a == [] {
      assert |multiset(b)| == 0;
    } else {
      var x := a[0];
      assert x in multiset(b);
      var j :| 0 <= j < |b| && b[j] == x;
      var rest := b[..j] + b[j + 1..];
      assert b == b[..j] + [x] + b[j + 1..];
      assert a == [x] + a[1..];
      assert multiset(b) == multiset(b[..j]) + multiset{x} + multiset(b[j + 1..]);
      assert multiset(rest) == multiset(b[..j]) + multiset(b[j + 1..]);
      calc {
        multiset(a[1..]);
        multiset(a) - multiset{x};
        multiset(b) - multiset{x};
        multiset(rest);
      }
      PermutationKeepsIds(a[1..], rest);
      IdsAppend([x], a[1..]);
      IdsAppend(b[..j], [x]);
      IdsAppend(b[..j] + [x], b[j + 1..]);
      IdsAppend(b[..j], b[j + 1..]);
    }
  }
}
