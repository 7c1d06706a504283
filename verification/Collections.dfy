/** Facts and loops about sets and lists, shared by several parts. */
module Collections {

  lemma {:induction false} SubsetSize<T>(a: set<T>, b: set<T>)
    requires a <= b
    ensures |a| <= |b|
    decreases b
  {
    if x :| x in b { SubsetSize(a - {x}, b - {x}); }
  }

  ghost predicate Distinct<T(!new)>(xs: seq<T>) { forall i, j :: 0 <= i < j < |xs| ==> xs[i] != xs[j] }

  function Joined<T(==)>(values: seq<T>, value: T): seq<T> {
    if value in values then values else values + [value]
  }

  /** The value is added at the end unless it is there; nothing else comes or goes. */
  method AppendUnique<T(==, !new)>(values: seq<T>, value: T) returns (r: seq<T>)
    ensures r == Joined(values, value)
    ensures forall v :: v in r <==> v in values || v == value
    ensures Distinct(values) ==> Distinct(r)
  {
    for k := 0 to |values|
      invariant forall i :: 0 <= i < k ==> values[i] != value
    {
      if values[k] == value { return values; }
    }
    return values + [value];
  }
}
