/**
 * LinqExtensions.Except and Intersect with a caller-supplied comparer: an
 * element of `first` is kept by the number of elements of `second` it matches.
 */
module Linq {
  import opened Classifier

  /** second.Count(y => comparer(x, y)) */
  function Matches<T(==)>(x: T, second: seq<T>, comparer: (T, T) -> bool): (n: nat)
    ensures n <= |second|
    ensures n == 0 <==> forall i | 0 <= i < |second| :: !comparer(x, second[i])
  {
    if |second| == 0 then 0
    else (if comparer(x, second[0]) then 1 else 0) + Matches(x, second[1..], comparer)
  }

  /** first.Where(x => Matches(x) == count): order and duplicates kept. */
  function KeepWithMatches<T(==)>(first: seq<T>, second: seq<T>, comparer: (T, T) -> bool, count: nat): (r: seq<T>)
    ensures |r| <= |first|
    ensures forall x | x in r :: x in first && Matches(x, second, comparer) == count
    ensures forall x | x in first && Matches(x, second, comparer) == count :: x in r
    ensures SubsequenceOf(r, first)
    ensures forall x | x in first :: multiset(r)[x] == if Matches(x, second, comparer) == count then multiset(first)[x] else 0
  {
    if |first| == 0 then []
    else
      assert first == [first[0]] + first[1..];
      if Matches(first[0], second, comparer) == count then [first[0]] + KeepWithMatches(first[1..], second, comparer, count)
      else KeepWithMatches(first[1..], second, comparer, count)
  }

  /** Except: the elements of `first` that match nothing in `second`, in order and with their duplicates. */
  function Except<T(==)>(first: seq<T>, second: seq<T>, comparer: (T, T) -> bool): (r: seq<T>)
    ensures forall x | x in r :: x in first && forall i | 0 <= i < |second| :: !comparer(x, second[i])
    ensures forall x | x in first && (forall i | 0 <= i < |second| :: !comparer(x, second[i])) :: x in r
    ensures SubsequenceOf(r, first)
    ensures forall x | x in first :: multiset(r)[x] == if Matches(x, second, comparer) == 0 then multiset(first)[x] else 0
  {
    KeepWithMatches(first, second, comparer, 0)
  }

  /** Intersect: the elements of `first` that match exactly one element of `second`, in order and with their duplicates. */
  function Intersect<T(==)>(first: seq<T>, second: seq<T>, comparer: (T, T) -> bool): (r: seq<T>)
    ensures forall x | x in r :: x in first && Matches(x, second, comparer) == 1
    ensures forall x | x in first && Matches(x, second, comparer) == 1 :: x in r
    ensures SubsequenceOf(r, first)
    ensures forall x | x in first :: multiset(r)[x] == if Matches(x, second, comparer) == 1 then multiset(first)[x] else 0
  {
    KeepWithMatches(first, second, comparer, 1)
  }

  /** An element matching one element of `second` exactly: there is one index it matches and no other. */
  lemma {:induction false} MatchesOne<T>(x: T, second: seq<T>, comparer: (T, T) -> bool)
    requires Matches(x, second, comparer) == 1
    ensures exists i | 0 <= i < |second| :: comparer(x, second[i]) && forall j | 0 <= j < |second| && j != i :: !comparer(x, second[j])
    decreases |second|
  {
    if comparer(x, second[0]) {
      assert Matches(x, second[1..], comparer) == 0;
      forall j | 0 <= j < |second| && j != 0 ensures !comparer(x, second[j]) {
        assert second[j] == second[1..][j - 1];
      }
      assert comparer(x, second[0]);
    } else {
      MatchesOne(x, second[1..], comparer);
      var i :| 0 <= i < |second[1..]| && comparer(x, second[1..][i])
        && forall j | 0 <= j < |second[1..]| && j != i :: !comparer(x, second[1..][j]);
      assert second[1..][i] == second[i + 1];
      forall j | 0 <= j < |second| && j != i + 1 ensures !comparer(x, second[j]) {
        if j > 0 { assert second[j] == second[1..][j - 1]; }
      }
    }
  }

  /** No element is both excepted and intersected, and together they never exceed `first`. */
  lemma {:induction false} ExceptIntersectDisjoint<T>(first: seq<T>, second: seq<T>, comparer: (T, T) -> bool)
    ensures forall x | x in Except(first, second, comparer) :: x !in Intersect(first, second, comparer)
    ensures |Except(first, second, comparer)| + |Intersect(first, second, comparer)| <= |first|
    decreases |first|
  {
    if |first| > 0 {
      ExceptIntersectDisjoint(first[1..], second, comparer);
    }
  }
}
