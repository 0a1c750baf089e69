/** Result and option types, and a few facts about sequences, shared by every module. */
module Prelude {

  datatype Option<+T> = None | Some(value: T)

  datatype Result<+T, +E> = Ok(value: T) | Err(error: E)

  function Min(a: int, b: int): int { if a <= b then a else b }

  function Max(a: int, b: int): int { if a <= b then b else a }

  /** Python's `a or b` on an optional enumeration value. */
  function OrElse<T>(a: Option<T>, b: T): T { if a.Some? then a.value else b }

  predicate EndsWith(s: string, t: string) { |t| <= |s| && s[|s| - |t|..] == t }

  ghost predicate Distinct<T>(s: seq<T>) {
    forall i, j :: 0 <= i < j < |s| ==> s[i] != s[j]
  }

  ghost function Elements<T>(s: seq<T>): set<T> { set x | x in s }

  lemma {:induction false} DistinctCardinality<T>(s: seq<T>)
    requires Distinct(s)
    ensures |Elements(s)| == |s|
  {
    if s == [] {
      assert Elements(s) == {};
    } else {
      var front, last := s[..|s| - 1], s[|s| - 1];
      DistinctCardinality(front);
      assert last !in front;
      assert Elements(s) == Elements(front) + {last};
    }
  }

  /** A subset with as many elements as its superset is the whole superset. */
  lemma SubsetSameSize<T>(a: set<T>, b: set<T>)
    requires a <= b && |a| >= |b|
    ensures a == b
  {
    if x :| x in b && x !in a {
      SubsetSize(a, b - {x});
    }
  }

  lemma {:induction false} SubsetSize<T>(a: set<T>, b: set<T>)
    requires a <= b
    ensures |a| <= |b|
  {
    if a != {} {
      var x :| x in a;
      SubsetSize(a - {x}, b - {x});
    }
  }

  // --- Python's stable sort -----------------------------------------------------------------------

  /** `before` compares keys: it is irreflexive and transitive, and so is "not before". */
  ghost predicate KeyOrder<T(!new)>(before: (T, T) -> bool) {
    && (forall a, b :: before(a, b) ==> !before(b, a))
    && (forall a, b, c :: !before(a, b) && !before(b, c) ==> !before(a, c))
  }

  ghost predicate InOrder<T>(before: (T, T) -> bool, xs: seq<T>) {
    forall i, j :: 0 <= i < j < |xs| ==> !before(xs[j], xs[i])
  }

  /** Put `x` behind every item that does not sort strictly after it. */
  function Place<T>(before: (T, T) -> bool, xs: seq<T>, x: T): (out: seq<T>)
    ensures multiset(out) == multiset(xs) + multiset{x}
  {
    if xs == [] then [x]
    else
      var front, last := xs[..|xs| - 1], xs[|xs| - 1];
      assert xs == front + [last];
      if before(x, last) then Place(before, front, x) + [last] else xs + [x]
  }

  function StableSort<T>(before: (T, T) -> bool, xs: seq<T>): (out: seq<T>)
    ensures multiset(out) == multiset(xs)
  {
    if xs == [] then []
    else
      assert xs == xs[..|xs| - 1] + [xs[|xs| - 1]];
      Place(before, StableSort(before, xs[..|xs| - 1]), xs[|xs| - 1])
  }

  lemma {:induction false} PlaceKeepsOrder<T(!new)>(before: (T, T) -> bool, xs: seq<T>, x: T)
    requires KeyOrder(before) && InOrder(before, xs)
    ensures InOrder(before, Place(before, xs, x))
  {
    if xs != [] {
      var front, last := xs[..|xs| - 1], xs[|xs| - 1];
      if before(x, last) {
        PlaceKeepsOrder(before, front, x);
        var placed := Place(before, front, x);
        forall i | 0 <= i < |placed| ensures !before(last, placed[i]) {
          assert placed[i] in multiset(placed);
          assert placed[i] in front || placed[i] == x;
        }
      } else {
        forall i | 0 <= i < |xs| ensures !before(x, xs[i]) {
          assert i < |xs| - 1 ==> !before(last, xs[i]);
        }
      }
    }
  }

  lemma {:induction false} StableSortSorts<T(!new)>(before: (T, T) -> bool, xs: seq<T>)
    requires KeyOrder(before)
    ensures InOrder(before, StableSort(before, xs))
  {
    if xs != [] {
      StableSortSorts(before, xs[..|xs| - 1]);
      PlaceKeepsOrder(before, StableSort(before, xs[..|xs| - 1]), xs[|xs| - 1]);
    }
  }

  lemma StableSortMembers<T>(before: (T, T) -> bool, xs: seq<T>)
    ensures forall x :: x in StableSort(before, xs) <==> x in xs
  {
    forall x ensures x in StableSort(before, xs) <==> x in xs {
      assert x in multiset(StableSort(before, xs)) <==> x in multiset(xs);
    }
  }
}
