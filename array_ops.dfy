/**
  The JavaScript array operations the controllers use on their in-memory
  record lists: `find`, `findIndex` and `splice(index, 1)`.
 */
module ArrayOps {
  import opened Wrappers

  /** The position of the first element satisfying `p`, as `Array.prototype.find`
      locates it. */
  function Find<R>(rs: seq<R>, p: R -> bool): (r: Option<nat>)
    ensures r.None? <==> forall i :: 0 <= i < |rs| ==> !p(rs[i])
    ensures r.Some? ==> r.value < |rs| && p(rs[r.value])
    ensures r.Some? ==> forall i :: 0 <= i < r.value ==> !p(rs[i])
  {
    if rs == [] then None
    else if p(rs[0]) then Some(0)
    else match Find(rs[1..], p)
      case None => None
      case Some(i) => Some(i + 1)
  }

  /** `Array.prototype.findIndex`: the first position satisfying `p`, or -1. */
  method FindIndex<R>(rs: seq<R>, p: R -> bool) returns (index: int)
    ensures index == -1 <==> forall i :: 0 <= i < |rs| ==> !p(rs[i])
    ensures index != -1 ==> 0 <= index < |rs| && p(rs[index])
    ensures forall i :: 0 <= i < index ==> !p(rs[i])
  {
    var k := 0;
    while k < |rs|
      invariant 0 <= k <= |rs|
      invariant forall i :: 0 <= i < k ==> !p(rs[i])
    {
      if p(rs[k]) {
        return k;
      }
      k := k + 1;
    }
    return -1;
  }

  /** `splice(index, 1)` on an index inside the array: removes that one
      element and keeps the others in order. */
  function RemoveAt<R>(rs: seq<R>, index: nat): (r: seq<R>)
    requires index < |rs|
    ensures |r| == |rs| - 1
    ensures forall i :: 0 <= i < index ==> r[i] == rs[i]
    ensures forall i :: index <= i < |r| ==> r[i] == rs[i + 1]
  {
    rs[..index] + rs[index + 1..]
  }
}
