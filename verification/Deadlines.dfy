// Orders of deadlines, shared by the linked queue and by the kernel.
module Deadlines {
  import opened Seqs

  ghost predicate Ascending(ds: seq<nat>) {
    forall i, j :: 0 <= i < j < |ds| ==> ds[i] <= ds[j]
  }

  /** The first position whose deadline is not earlier than `d`: where `push_tail` stops walking. */
  function Position(ds: seq<nat>, d: nat): (p: nat)
    ensures p <= |ds|
    ensures forall i :: 0 <= i < p ==> ds[i] < d
    ensures p < |ds| ==> d <= ds[p]
  {
    if ds == [] || d <= ds[0] then 0
    else
      var p := Position(ds[1..], d);
      assert forall i :: 0 < i < 1 + p ==> ds[i] == ds[1..][i - 1];
      1 + p
  }

  /** Inserting there keeps an ascending sequence ascending. */
  lemma InsertAscending(ds: seq<nat>, d: nat)
    requires Ascending(ds)
    ensures Ascending(InsertAt(ds, Position(ds, d), d))
  {
    var p := Position(ds, d);
    var r := InsertAt(ds, p, d);
    forall i, j | 0 <= i < j < |r|
      ensures r[i] <= r[j]
    {
      assert i > p ==> r[i] == ds[i - 1];
      assert j > p ==> r[j] == ds[j - 1];
    }
  }

  lemma PositionUnique(ds: seq<nat>, d: nat, p: nat)
    requires p <= |ds|
    requires forall i :: 0 <= i < p ==> ds[i] < d
    requires p < |ds| ==> d <= ds[p]
    ensures p == Position(ds, d)
  {
  }
}
