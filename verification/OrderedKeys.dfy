/** `std::map` iterates its keys in increasing order.  Dafny maps have no order, so
    this module gives the key sequence such an iteration visits. */
module OrderedKeys {

  predicate Increasing(ids: seq<nat>) {
    forall i, j :: 0 <= i < j < |ids| ==> ids[i] < ids[j]
  }

  function Least(keys: set<nat>): (k: nat)
    requires keys != {}
    ensures k in keys && forall q :: q in keys ==> k <= q
  {
    LeastExists(keys);
    var k :| k in keys && forall q :: q in keys ==> k <= q;
    k
  }

  lemma LeastExists(keys: set<nat>)
    requires keys != {}
    ensures exists k :: k in keys && forall q :: q in keys ==> k <= q
  {
    var k :| k in keys;
    var rest := keys - {k};
    if rest == {} {
      assert forall q :: q in keys ==> q == k || q in rest;
    } else {
      LeastExists(rest);
      var m :| m in rest && forall q :: q in rest ==> m <= q;
      AddOne(keys, rest, k, m);
    }
  }

  lemma AddOne(keys: set<nat>, rest: set<nat>, k: nat, m: nat)
    requires k in keys && rest == keys - {k} && m in rest && forall q :: q in rest ==> m <= q
    ensures exists l :: l in keys && forall q :: q in keys ==> l <= q
  {
    var l := if k <= m then k else m;
    forall q | q in keys ensures l <= q { assert q == k || q in rest; }
  }

  /** The keys in iteration order. */
  function Ordered(keys: set<nat>): (ids: seq<nat>)
    ensures Increasing(ids)
    ensures forall k :: k in ids <==> k in keys
    ensures |ids| == |keys|
  {
    if keys == {} then []
    else
      var k := Least(keys);
      [k] + Ordered(keys - {k})
  }

  /** `map::upper_bound` as an index into the iteration order. */
  method UpperBound(ids: seq<nat>, bound: nat) returns (i: nat)
    requires Increasing(ids)
    ensures i <= |ids|
    ensures forall k :: 0 <= k < i ==> ids[k] <= bound
    ensures forall k :: i <= k < |ids| ==> ids[k] > bound
  {
    i := 0;
    while i < |ids| && ids[i] <= bound
      invariant i <= |ids|
      invariant forall k :: 0 <= k < i ==> ids[k] <= bound
    {
      i := i + 1;
    }
  }
}
