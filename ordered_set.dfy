/**
 * Insertion-ordered sets (Java's LinkedHashSet) as duplicate-free sequences.
 * `Add` appends an absent element and leaves a present one where it is;
 * `AddAll` adds a sequence element by element; `Remove` deletes one element
 * and keeps the order of the rest.
 */
module OrderedSet {
  predicate NoDup<T(==,!new)>(s: seq<T>) {
    forall i, j :: 0 <= i < j < |s| ==> s[i] != s[j]
  }

  function Elems<T(!new)>(s: seq<T>): set<T> {
    set x | x in s
  }

  function Add<T(==,!new)>(s: seq<T>, x: T): (r: seq<T>)
    ensures forall y :: y in r <==> y in s || y == x
    ensures NoDup(s) ==> NoDup(r)
    ensures |s| <= |r| <= |s| + 1 && r[..|s|] == s
    ensures x in s ==> r == s
  {
    if x in s then s else s + [x]
  }

  function AddAll<T(==,!new)>(s: seq<T>, xs: seq<T>): (r: seq<T>)
    ensures forall y :: y in r <==> y in s || y in xs
    ensures NoDup(s) ==> NoDup(r)
    ensures |s| <= |r| && r[..|s|] == s
    decreases |xs|
  {
    if xs == [] then s
    else
      var init := xs[..|xs| - 1];
      assert xs == init + [xs[|xs| - 1]];
      Add(AddAll(s, init), xs[|xs| - 1])
  }

  function Remove<T(==,!new)>(s: seq<T>, x: T): (r: seq<T>)
    ensures forall y :: y in r <==> y in s && y != x
    ensures NoDup(s) ==> NoDup(r)
    ensures x !in s ==> r == s
    ensures |r| <= |s|
  {
    if s == [] then []
    else
      var rest := Remove(s[1..], x);
      assert NoDup(s) ==> NoDup(s[1..]) && s[0] !in s[1..];
      (if s[0] == x then [] else [s[0]]) + rest
  }

  /** The elements of `s` that lie in `keep`, in their order in `s`. */
  function Filter<T(==,!new)>(s: seq<T>, keep: set<T>): (r: seq<T>)
    ensures forall y :: y in r <==> y in s && y in keep
    ensures NoDup(s) ==> NoDup(r)
    ensures |r| <= |s|
  {
    if s == [] then []
    else
      var init := Filter(s[..|s| - 1], keep);
      assert s == s[..|s| - 1] + [s[|s| - 1]];
      init + (if s[|s| - 1] in keep then [s[|s| - 1]] else [])
  }

  /** The elements of `s` that lie outside `drop`, in their order in `s`. */
  function Without<T(==,!new)>(s: seq<T>, drop: set<T>): (r: seq<T>)
    ensures forall y :: y in r <==> y in s && y !in drop
    ensures NoDup(s) ==> NoDup(r)
    ensures |r| <= |s|
  {
    if s == [] then []
    else
      var init := Without(s[..|s| - 1], drop);
      assert s == s[..|s| - 1] + [s[|s| - 1]];
      init + (if s[|s| - 1] in drop then [] else [s[|s| - 1]])
  }

  /** A duplicate-free sequence is as long as the set of its elements is large. */
  lemma {:induction false} NoDupCard<T(!new)>(s: seq<T>)
    requires NoDup(s)
    ensures |Elems(s)| == |s|
  {
    if s != [] {
      var init := s[..|s| - 1];
      assert s == init + [s[|s| - 1]];
      assert NoDup(init);
      NoDupCard(init);
      assert Elems(s) == Elems(init) + {s[|s| - 1]};
      assert s[|s| - 1] !in Elems(init);
    }
  }

  /** Adding a duplicate-free sequence to the empty set reproduces it. */
  lemma {:induction false} AddAllOfNoDupIsIdentityFromEmpty<T(!new)>(xs: seq<T>)
    requires NoDup(xs)
    ensures AddAll([], xs) == xs
  {
    if xs != [] {
      var init := xs[..|xs| - 1];
      assert NoDup(init);
      AddAllOfNoDupIsIdentityFromEmpty(init);
      assert AddAll([], xs) == Add(init, xs[|xs| - 1]);
      assert xs[|xs| - 1] !in init;
      assert xs == init + [xs[|xs| - 1]];
    }
  }

  /** Growing a sequence by one element grows each fold by that element. */
  lemma AddAllSnoc<T(!new)>(s: seq<T>, xs: seq<T>, x: T)
    ensures AddAll(s, xs + [x]) == Add(AddAll(s, xs), x)
  {
    assert (xs + [x])[..|xs|] == xs;
  }

  lemma FilterSnoc<T(!new)>(xs: seq<T>, x: T, keep: set<T>)
    ensures x in keep ==> Filter(xs + [x], keep) == Filter(xs, keep) + [x]
    ensures x !in keep ==> Filter(xs + [x], keep) == Filter(xs, keep)
  {
    assert (xs + [x])[..|xs|] == xs;
    assert Filter(xs, keep) + [] == Filter(xs, keep);
  }

  lemma WithoutSnoc<T(!new)>(xs: seq<T>, x: T, drop: set<T>)
    ensures x !in drop ==> Without(xs + [x], drop) == Without(xs, drop) + [x]
    ensures x in drop ==> Without(xs + [x], drop) == Without(xs, drop)
  {
    assert (xs + [x])[..|xs|] == xs;
    assert Without(xs, drop) + [] == Without(xs, drop);
  }

  lemma ElemsEmpty<T(!new)>(s: seq<T>)
    ensures Elems(s) == {} <==> s == []
  {
    if s != [] {
      assert s[0] in Elems(s);
    }
  }

  /** A member of a non-empty sequence is in its prefix or is its last element. */
  lemma InPrefixOrLast<T>(s: seq<T>, x: T)
    requires s != []
    ensures x in s <==> x in s[..|s| - 1] || x == s[|s| - 1]
  {
    assert s == s[..|s| - 1] + [s[|s| - 1]];
  }
}
