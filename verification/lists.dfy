/** The two list operations the repository relies on: the first match of a stream's
    `filter(...).findFirst()`, and `List.remove(Object)`, which drops the first equal element. */
module Lists {

  datatype Option<+T> = None | Some(value: T)

  /** The index of the first element that satisfies `p`, in list order; None when no element does. */
  function FirstIndex<T>(s: seq<T>, p: T -> bool): (r: Option<nat>)
    ensures r.Some? ==> r.value < |s| && p(s[r.value])
    ensures r.Some? ==> forall j :: 0 <= j < r.value ==> !p(s[j])
    ensures r.None? <==> forall j :: 0 <= j < |s| ==> !p(s[j])
  {
    if |s| == 0 then None
    else if p(s[0]) then Some(0)
    else match FirstIndex(s[1..], p)
      case None => None
      case Some(k) => Some(k + 1)
  }

  /** `List.remove(x)`: the list without its first element equal to `x`, or the list itself when
      no element is. */
  function RemoveFirst<T(==)>(s: seq<T>, x: T): (r: seq<T>)
    ensures x !in s ==> r == s
    ensures x in s ==> |r| == |s| - 1
    ensures multiset(r) == multiset(s) - multiset{x}
    ensures forall y :: y in r ==> y in s
  {
    match FirstIndex(s, y => y == x)
    case None => s
    case Some(k) =>
      assert s == s[..k] + [s[k]] + s[k + 1..];
      s[..k] + s[k + 1..]
  }

  /** Where the removal happens: at the first index `k` holding `x`; the elements before `k`
      stay in place and the ones after it move one step to the front. */
  lemma RemoveFirstAt<T>(s: seq<T>, x: T) returns (k: nat)
    requires x in s
    ensures k < |s| && s[k] == x
    ensures forall j :: 0 <= j < k ==> s[j] != x
    ensures |RemoveFirst(s, x)| == |s| - 1
    ensures forall i :: 0 <= i < k ==> RemoveFirst(s, x)[i] == s[i]
    ensures forall i :: k <= i < |s| - 1 ==> RemoveFirst(s, x)[i] == s[i + 1]
  {
    var found := FirstIndex(s, y => y == x);
    k := found.value;
  }
}
