/**
 * Row order of table scans. Ids are auto-increment keys below a bound; a query
 * without ORDER BY yields rows in ascending id order.
 */
module Tables {

  /** The keys of `m` below `n`, ascending. */
  function Ascending<V>(m: map<nat, V>, n: nat): (ids: seq<nat>)
    ensures forall i :: 0 <= i < |ids| ==> ids[i] in m && ids[i] < n
    ensures forall k :: k in m && k < n ==> k in ids
    ensures forall i, j :: 0 <= i < j < |ids| ==> ids[i] < ids[j]
  {
    if n == 0 then []
    else if n - 1 in m then Ascending(m, n - 1) + [n - 1]
    else Ascending(m, n - 1)
  }

  /** The keys of `m` below `n`, descending. */
  function Descending<V>(m: map<nat, V>, n: nat): (ids: seq<nat>)
    ensures forall i :: 0 <= i < |ids| ==> ids[i] in m && ids[i] < n
    ensures forall k :: k in m && k < n ==> k in ids
    ensures forall i, j :: 0 <= i < j < |ids| ==> ids[i] > ids[j]
  {
    if n == 0 then []
    else if n - 1 in m then [n - 1] + Descending(m, n - 1)
    else Descending(m, n - 1)
  }

  /** The keys of `m` below `n`. */
  function KeysBelow<V>(m: map<nat, V>, n: nat): set<nat> {
    set k | k in m && k < n
  }

  /** The ascending scan lists each key below the bound exactly once. */
  lemma {:induction false} AscendingCard<V>(m: map<nat, V>, n: nat)
    ensures |Ascending(m, n)| == |KeysBelow(m, n)|
  {
    if n > 0 {
      AscendingCard(m, n - 1);
      KeysBelowStep(m, n);
    } else {
      assert KeysBelow(m, n) == {};
    }
  }

  /** Raising the bound by one adds the key just below it, if present. */
  lemma KeysBelowStep<V>(m: map<nat, V>, n: nat)
    requires n > 0
    ensures KeysBelow(m, n) == KeysBelow(m, n - 1) + (if n - 1 in m then {n - 1} else {})
    ensures n - 1 !in KeysBelow(m, n - 1)
  {
  }
}
