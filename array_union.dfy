/**
 * The array transform `FieldValue.arrayUnion(x)` of the document store, as the share handler uses
 * it on a `sharedWith` field: the element is added at the end unless an equal one is already there.
 */
module ArrayUnion {
  import opened Wrappers

  predicate NoDuplicates<T(==)>(s: seq<T>) {
    forall i, j :: 0 <= i < j < |s| ==> s[i] != s[j]
  }

  /** `arrayUnion(x)` applied to an array field holding `s`. */
  function Union<T(==, !new)>(s: seq<T>, x: T): (r: seq<T>)
    ensures x in r
    ensures forall y :: y in r <==> y in s || y == x
    ensures |s| <= |r| <= |s| + 1 && r[..|s|] == s
    ensures x in s <==> r == s
    ensures NoDuplicates(s) ==> NoDuplicates(r)
  {
    if x in s then s else s + [x]
  }

  /**
   * `arrayUnion(x)` applied to a field that may be absent: a missing field reads as the empty
   * array, so it becomes the one-element array.
   */
  function UnionField<T(==, !new)>(field: Option<seq<T>>, x: T): (r: seq<T>)
    ensures x in r
    ensures forall y :: y in r <==> (field.Some? && y in field.value) || y == x
    ensures field.Some? ==> |field.value| <= |r| && r[..|field.value|] == field.value
    ensures field.Some? && x in field.value ==> r == field.value
    ensures field.Some? && NoDuplicates(field.value) ==> NoDuplicates(r)
    ensures |r| <= 1 + (if field.Some? then |field.value| else 0)
  {
    match field
    case None => [x]
    case Some(s) => Union(s, x)
  }

  /** Applying the transform a second time changes nothing. */
  lemma UnionIdempotent<T(!new)>(s: seq<T>, x: T)
    ensures Union(Union(s, x), x) == Union(s, x)
    ensures UnionField(Some(UnionField(Some(s), x)), x) == UnionField(Some(s), x)
  {
  }

  /** Two grants commute up to order: either way the array holds the same elements,
   * each as often. */
  lemma {:induction false} UnionCommutesAsMultiset<T(!new)>(s: seq<T>, x: T, y: T)
    ensures multiset(Union(Union(s, x), y)) == multiset(Union(Union(s, y), x))
  {
    if x != y && x !in s && y !in s {
      assert Union(Union(s, x), y) == s + [x, y];
      assert Union(Union(s, y), x) == s + [y, x];
    }
  }
}
