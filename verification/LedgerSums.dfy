/** How sums over payment rows move when one row is written or appended. */
module LedgerSums {
  import opened Ledger
  import opened Wrappers

  lemma SumAppend(rows: seq<Row>, r: Row, weight: Row -> int)
    ensures Sum(rows + [r], weight) == Sum(rows, weight) + weight(r)
  {
    assert (rows + [r])[..|rows|] == rows;
  }

  lemma {:induction false} SumUpdate(rows: seq<Row>, i: nat, r: Row, weight: Row -> int)
    requires i < |rows|
    ensures Sum(rows[i := r], weight) == Sum(rows, weight) - weight(rows[i]) + weight(r)
  {
    var last := |rows| - 1;
    if i < last {
      SumUpdate(rows[..last], i, r, weight);
      assert rows[i := r][..last] == rows[..last][i := r];
    } else {
      assert rows[i := r][..last] == rows[..last];
    }
  }

  ghost predicate NonNegative(rows: seq<Row>, weight: Row -> int) {
    forall i :: 0 <= i < |rows| ==> weight(rows[i]) >= 0
  }

  /** With no negative weight, the sum is at least any one row's. */
  lemma {:induction false} SumAtLeast(rows: seq<Row>, i: nat, weight: Row -> int)
    requires NonNegative(rows, weight) && i <= |rows|
    ensures Sum(rows, weight) >= 0
    ensures i < |rows| ==> Sum(rows, weight) >= weight(rows[i])
  {
    if rows != [] {
      var last := |rows| - 1;
      assert forall k :: 0 <= k < last ==> rows[..last][k] == rows[k];
      SumAtLeast(rows[..last], if i < last then i else 0, weight);
    }
  }

  lemma {:induction false} NoWeight(rows: seq<Row>, weight: Row -> int)
    requires forall i :: 0 <= i < |rows| ==> weight(rows[i]) == 0
    ensures Sum(rows, weight) == 0
  {
    if rows != [] {
      var earlier := rows[..|rows| - 1];
      assert forall i :: 0 <= i < |earlier| ==> earlier[i] == rows[i];
      NoWeight(earlier, weight);
    }
  }

  /** A weight that ignores idempotency keys is blind to a key's release. */
  lemma ReleaseKeepsSum(p: Plan, key: Option<nat>, weight: Row -> int)
    requires forall r: Row :: weight(r.(idempotencyKey := None)) == weight(r)
    ensures Sum(ReleaseKey(p, key).rows, weight) == Sum(p.rows, weight)
  {
    var id := KeyRow(p.rows, key);
    if id < |p.rows| {
      SumUpdate(p.rows, id, p.rows[id].(idempotencyKey := None), weight);
    }
  }
}
