/** The re-index pass run when a drag ends: every task of the new order gets
    its 1-based position as priority. */
module Reindexing {
  import opened Sequences
  import opened Tasks

  /** Copies each task of `data` with `priority := index + 1`, keeping its
      identifier and name. */
  function Reindex(data: seq<Task>): (r: seq<Task>)
    ensures |r| == |data|
    ensures Ids(r) == Ids(data) && Names(r) == Names(data)
    ensures Ranked(r)
  {
    seq(|data|, i requires 0 <= i < |data| => data[i].(priority := i + 1))
  }

  /** Reference definition: a left-to-right scan handing out ranks k, k+1, ... */
  function RankFrom(data: seq<Task>, k: int): (r: seq<Task>)
    decreases |data|
  {
    if data == [] then [] else [data[0].(priority := k)] + RankFrom(data[1..], k + 1)
  }

  /** The scan gives the task at position i the rank k + i and keeps the rest. */
  lemma {:induction false} RankFromAt(data: seq<Task>, k: int)
    ensures |RankFrom(data, k)| == |data|
    ensures forall i :: 0 <= i < |data| ==> RankFrom(data, k)[i] == data[i].(priority := k + i)
    decreases |data|
  {
    if data != [] {
      RankFromAt(data[1..], k + 1);
      var r := RankFrom(data, k);
      assert r == [data[0].(priority := k)] + RankFrom(data[1..], k + 1);
      forall i | 0 <= i < |data|
        ensures r[i] == data[i].(priority := k + i)
      {
        if i > 0 {
          assert r[i] == RankFrom(data[1..], k + 1)[i - 1];
          assert data[1..][i - 1] == data[i];
        }
      }
    }
  }

  /** The indexed map and the scan starting at rank 1 agree on every input. */
  lemma ReindexIsScan(data: seq<Task>)
    ensures Reindex(data) == RankFrom(data, 1)
  {
    RankFromAt(data, 1);
  }

  /** The contract of Reindex pins it down: a list with the identifiers and
      names of `data`, in order, whose priorities are positions, is Reindex(data). */
  lemma ReindexUnique(data: seq<Task>, ts: seq<Task>)
    requires Ids(ts) == Ids(data) && Names(ts) == Names(data) && Ranked(ts)
    ensures ts == Reindex(data)
  {
    var r := Reindex(data);
    forall i | 0 <= i < |ts|
      ensures ts[i] == r[i]
    {
      assert Ids(ts)[i] == Ids(r)[i] && Names(ts)[i] == Names(r)[i];
    }
  }

  /** A list is ranked exactly when re-indexing leaves it unchanged. */
  lemma RankedIffFixpoint(ts: seq<Task>)
    ensures Ranked(ts) <==> Reindex(ts) == ts
  {
    if Ranked(ts) {
      ReindexUnique(ts, ts);
    }
  }

  /** Re-indexing twice is the same as re-indexing once. */
  lemma ReindexIdempotent(data: seq<Task>)
    ensures Reindex(Reindex(data)) == Reindex(data)
  {
    RankedIffFixpoint(Reindex(data));
  }

  /** The result depends only on the order of identifiers and names, never on
      the priorities the payload carries. */
  lemma ReindexIgnoresPriorities(a: seq<Task>, b: seq<Task>)
    requires Ids(a) == Ids(b) && Names(a) == Names(b)
    ensures Reindex(a) == Reindex(b)
  {
    ReindexUnique(b, Reindex(a));
  }

  /** The priorities of a ranked list are exactly 1..N. */
  lemma RankedPrioritiesFormRange(ts: seq<Task>)
    requires Ranked(ts)
    ensures PrioritiesFormRange(ts)
  {
    var ps := set i | 0 <= i < |ts| :: ts[i].priority;
    forall k | k in OneTo(|ts|)
      ensures k in ps
    {
      assert ts[k - 1].priority == k;
    }
    assert ps == OneTo(|ts|);
  }

  /** After re-indexing, the priorities are all distinct, each in [1, N], and
      together exactly {1, ..., N}. */
  lemma ReindexPrioritiesFormRange(data: seq<Task>)
    ensures PrioritiesFormRange(Reindex(data))
  {
    RankedPrioritiesFormRange(Reindex(data));
  }
}
