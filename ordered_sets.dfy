/** A JavaScript `Set`: a collection without duplicates that iterates in insertion order. */
module OrderedSets {

  /** No element occurs twice: elements at different positions differ. */
  predicate NoDup<T(==)>(s: seq<T>)
  {
    forall i, j :: 0 <= i < j < |s| ==> s[i] != s[j]
  }

  /** The elements, forgetting order. */
  function Elems<T>(s: seq<T>): set<T>
  {
    set x | x in s
  }

  /** `set.add(x)`: a new element goes to the end; a present one changes nothing. */
  function Add<T(==)>(s: seq<T>, x: T): (r: seq<T>)
    ensures NoDup(s) ==> NoDup(r)
    ensures Elems(r) == Elems(s) + {x}
    ensures x in s ==> r == s
    ensures x !in s ==> r == s + [x]
  {
    if x in s then s else s + [x]
  }

  /** `for (const x of xs) set.add(x)` on a copy of the set: the old elements stay a prefix. */
  function AddAll<T(==)>(s: seq<T>, xs: seq<T>): (r: seq<T>)
    ensures NoDup(s) ==> NoDup(r)
    ensures Elems(r) == Elems(s) + Elems(xs)
    ensures |s| <= |r| && r[..|s|] == s
    decreases |xs|
  {
    if xs == [] then s
    else
      var r := AddAll(Add(s, xs[0]), xs[1..]);
      assert Elems(xs) == {xs[0]} + Elems(xs[1..]) by {
        assert xs == [xs[0]] + xs[1..];
      }
      r
  }

  /** Adding the elements one list after another is adding the last element after the others. */
  lemma {:induction false} AddAllSnoc<T>(s: seq<T>, xs: seq<T>, x: T)
    ensures AddAll(s, xs + [x]) == Add(AddAll(s, xs), x)
    decreases |xs|
  {
    if xs == [] {
      assert AddAll(Add(s, x), []) == Add(s, x);
    } else {
      assert (xs + [x])[0] == xs[0] && (xs + [x])[1..] == xs[1..] + [x];
      AddAllSnoc(Add(s, xs[0]), xs[1..], x);
    }
  }

  /** `Array.from(new Set(xs))`: first occurrences, in order. */
  function Dedup<T(==)>(xs: seq<T>): (r: seq<T>)
    ensures NoDup(r) && Elems(r) == Elems(xs)
  {
    AddAll([], xs)
  }
}
