/** Tables keyed by id, and a pass that rewrites the rows of a batch one by one. */
module Batches {
  /** Any list of distinct selected rows: the order and limit of the query are not assumed. */
  predicate IsBatch<T>(rows: map<string, T>, batch: seq<string>, selects: T -> bool) {
    && (forall i, j :: 0 <= i < j < |batch| ==> batch[i] != batch[j])
    && (forall i :: 0 <= i < |batch| ==> batch[i] in rows && selects(rows[batch[i]]))
  }

  function OnBatch<T>(rows: map<string, T>, batch: seq<string>, after: T -> T): (r: map<string, T>)
    ensures r.Keys == rows.Keys
  {
    map id | id in rows :: if id in batch then after(rows[id]) else rows[id]
  }

  lemma NotInBatch<T>(rows: map<string, T>, batch: seq<string>, selects: T -> bool, id: string)
    requires IsBatch(rows, batch, selects) && id in rows && !selects(rows[id])
    ensures id !in batch
  {
  }

  lemma OnBatchNone<T>(rows: map<string, T>, after: T -> T)
    ensures OnBatch(rows, [], after) == rows
  {
  }

  lemma OnBatchNext<T>(rows: map<string, T>, batch: seq<string>, i: nat, after: T -> T)
    requires i < |batch| && batch[i] in rows
    requires forall j, k :: 0 <= j < k < |batch| ==> batch[j] != batch[k]
    ensures OnBatch(rows, batch[..i], after)[batch[i]] == rows[batch[i]]
    ensures OnBatch(rows, batch[..i + 1], after) ==
            OnBatch(rows, batch[..i], after)[batch[i] := after(rows[batch[i]])]
  {
    assert batch[..i + 1] == batch[..i] + [batch[i]];
    assert batch[i] !in batch[..i];
  }
}
