/**
 * The two array operations the pages apply to their cached lists, keyed by
 * a record's `id`: `filter((x) => x.id !== id)` after a delete succeeds, and
 * `find((x) => x.id === id)` when an event is selected. They are generic in
 * the record type; `idOf` reads a record's id.
 */
module Lists {

  import opened Api

  /** `s` with every record whose id is `id` dropped; the others stay, in their order. */
  function RemoveId<T(==,!new)>(s: seq<T>, idOf: T -> string, id: string): (r: seq<T>)
    ensures |r| <= |s|
    ensures forall x :: x in r <==> x in s && idOf(x) != id
  {
    if s == [] then []
    else if idOf(s[0]) != id then [s[0]] + RemoveId(s[1..], idOf, id)
    else RemoveId(s[1..], idOf, id)
  }

  /** `a` can be obtained from `b` by deleting elements, without reordering the rest. */
  predicate IsSubsequence<T(==)>(a: seq<T>, b: seq<T>)
    decreases |a| + |b|
  {
    || a == []
    || (b != [] && ((a[0] == b[0] && IsSubsequence(a[1..], b[1..])) || IsSubsequence(a, b[1..])))
  }

  /** Filtering by id keeps the remaining records in their original order. */
  lemma {:induction false} RemoveIdKeepsOrder<T(!new)>(s: seq<T>, idOf: T -> string, id: string)
    ensures IsSubsequence(RemoveId(s, idOf, id), s)
  {
    if s != [] {
      RemoveIdKeepsOrder(s[1..], idOf, id);
      var r := RemoveId(s, idOf, id);
      if idOf(s[0]) != id {
        assert r[0] == s[0] && r[1..] == RemoveId(s[1..], idOf, id);
      }
    }
  }

  /**
   * Filtering by id keeps every occurrence of a record with another id and no
   * occurrence of a record with this id. With RemoveIdKeepsOrder this fixes
   * the result completely.
   */
  lemma {:induction false} RemoveIdCounts<T(!new)>(s: seq<T>, idOf: T -> string, id: string)
    ensures forall x :: multiset(RemoveId(s, idOf, id))[x] == if idOf(x) != id then multiset(s)[x] else 0
  {
    if s != [] {
      RemoveIdCounts(s[1..], idOf, id);
      assert s == [s[0]] + s[1..];
      assert multiset(s) == multiset([s[0]]) + multiset(s[1..]);
      if idOf(s[0]) != id {
        assert multiset(RemoveId(s, idOf, id))
            == multiset([s[0]]) + multiset(RemoveId(s[1..], idOf, id));
      }
    }
  }

  /** Deleting an id that no record carries leaves the list as it was. */
  lemma {:induction false} RemoveIdAbsent<T(!new)>(s: seq<T>, idOf: T -> string, id: string)
    requires forall i :: 0 <= i < |s| ==> idOf(s[i]) != id
    ensures RemoveId(s, idOf, id) == s
  {
    if s != [] {
      RemoveIdAbsent(s[1..], idOf, id);
      assert [s[0]] + s[1..] == s;
    }
  }

  /** Deleting an id that some record carries makes the list strictly shorter. */
  lemma {:induction false} RemoveIdShrinks<T(!new)>(s: seq<T>, idOf: T -> string, id: string, k: nat)
    requires k < |s| && idOf(s[k]) == id
    ensures |RemoveId(s, idOf, id)| < |s|
  {
    if k > 0 {
      RemoveIdShrinks(s[1..], idOf, id, k - 1);
    }
  }

  /** A second delete of the same id (a repeated click) changes nothing more. */
  lemma {:induction false} RemoveIdIdempotent<T(!new)>(s: seq<T>, idOf: T -> string, id: string)
    ensures RemoveId(RemoveId(s, idOf, id), idOf, id) == RemoveId(s, idOf, id)
  {
    var r := RemoveId(s, idOf, id);
    assert forall i :: 0 <= i < |r| ==> r[i] in r;
    RemoveIdAbsent(r, idOf, id);
  }

  /** The index of the first record whose id is `id`, or `|s|` when there is none. */
  function IndexOfId<T>(s: seq<T>, idOf: T -> string, id: string): (k: nat)
    ensures k <= |s|
    ensures forall i :: 0 <= i < k ==> idOf(s[i]) != id
    ensures k < |s| ==> idOf(s[k]) == id
  {
    if s == [] || idOf(s[0]) == id then 0 else 1 + IndexOfId(s[1..], idOf, id)
  }

  /** `s.find((x) => x.id === id)`: the first record with that id, or nothing. */
  function FirstWithId<T>(s: seq<T>, idOf: T -> string, id: string): (r: Option<T>)
    ensures r.None? <==> forall i :: 0 <= i < |s| ==> idOf(s[i]) != id
    ensures r.Some? ==> exists k :: 0 <= k < |s| && s[k] == r.value && idOf(s[k]) == id
                                     && forall i :: 0 <= i < k ==> idOf(s[i]) != id
  {
    var k := IndexOfId(s, idOf, id);
    if k < |s| then Some(s[k]) else None
  }
}
