/** SELECT ... ORDER BY created_at FOR UPDATE SKIP LOCKED LIMIT n, on a table whose rows are
    kept in creation order. */
module Selection {

  /** The oldest matching rows of rows[..n], at most limit of them. */
  function FirstMatching<T>(rows: seq<T>, p: T -> bool, limit: nat, n: nat): seq<nat>
    requires n <= |rows|
  {
    if n == 0 then []
    else
      var ids := FirstMatching(rows, p, limit, n - 1);
      if |ids| < limit && p(rows[n - 1]) then ids + [n - 1] else ids
  }

  ghost predicate Increasing(ids: seq<nat>) {
    forall i, k :: 0 <= i < k < |ids| ==> ids[i] < ids[k]
  }

  /** Every chosen row matches, in order, and a matching row is left out only when the batch
      is full of older ones. */
  lemma {:induction false} FirstMatchingMeaning<T>(rows: seq<T>, p: T -> bool, limit: nat, n: nat)
    requires n <= |rows|
    ensures var ids := FirstMatching(rows, p, limit, n);
            && |ids| <= limit && Increasing(ids)
            && (forall k :: 0 <= k < |ids| ==> ids[k] < n && p(rows[ids[k]]))
            && (forall id :: 0 <= id < n && p(rows[id]) && id !in ids ==>
                  |ids| == limit && forall k :: 0 <= k < |ids| ==> ids[k] < id)
  {
    if n > 0 {
      FirstMatchingMeaning(rows, p, limit, n - 1);
    }
  }

  lemma {:induction false} IncreasingBelow(ids: seq<nat>, bound: nat)
    requires Increasing(ids) && forall k :: 0 <= k < |ids| ==> ids[k] < bound
    ensures |ids| <= bound
    decreases |ids|
  {
    if ids != [] {
      IncreasingBelow(ids[..|ids| - 1], ids[|ids| - 1]);
    }
  }

  /** With room for all, every matching row is chosen. */
  lemma AllMatchingChosen<T>(rows: seq<T>, p: T -> bool, limit: nat, id: nat)
    requires |rows| <= limit && id < |rows| && p(rows[id])
    ensures id in FirstMatching(rows, p, limit, |rows|)
  {
    FirstMatchingMeaning(rows, p, limit, |rows|);
    var ids := FirstMatching(rows, p, limit, |rows|);
    if id !in ids {
      IncreasingBelow(ids, id);
    }
  }
}
