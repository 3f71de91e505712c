/** Kotlin collection operations the core relies on: `filter`, `singleOrNull { }` and `last()`. */
module Seqs {
  import opened Wrappers

  /** Kotlin's `filter`: the elements satisfying `p`, in their original order. */
  function Filter<T>(s: seq<T>, p: T -> bool): (r: seq<T>)
    ensures |r| <= |s|
    ensures forall x :: x in r ==> x in s && p(x)
    ensures forall x :: x in s && p(x) ==> x in r
    decreases |s|
  {
    if s == [] then [] else (if p(s[0]) then [s[0]] else []) + Filter(s[1..], p)
  }

  /** `i` is the one and only position of `s` whose element satisfies `p`. */
  ghost predicate UniqueMatchAt<T>(s: seq<T>, p: T -> bool, i: int) {
    && 0 <= i < |s|
    && p(s[i])
    && forall j :: 0 <= j < |s| && p(s[j]) ==> j == i
  }

  /** Kotlin's `singleOrNull(predicate)`: the matching element if exactly one element
      matches, null when none or more than one does. */
  function SingleOrNone<T>(s: seq<T>, p: T -> bool): (r: Option<T>)
    ensures r.Some? ==> r.value in s && p(r.value)
  {
    var m := Filter(s, p);
    if |m| == 1 then Some(m[0]) else None
  }

  /** Kotlin's `map`. */
  function MapSeq<T, U>(s: seq<T>, f: T -> U): (r: seq<U>)
    ensures |r| == |s|
    ensures forall i :: 0 <= i < |s| ==> r[i] == f(s[i])
    decreases |s|
  {
    if s == [] then [] else [f(s[0])] + MapSeq(s[1..], f)
  }
  /** Mapping a sequence with a head maps the head, then the rest. */
  lemma MapSeqCons<T, U>(x: T, s: seq<T>, f: T -> U)
    ensures MapSeq([x] + s, f) == [f(x)] + MapSeq(s, f)
  {
    assert ([x] + s)[1..] == s;
  }



  /** Kotlin's `last()` on a non-empty list. */
  function Last<T>(s: seq<T>): T
    requires |s| > 0
  {
    s[|s| - 1]
  }

  lemma {:induction false} FilterEmpty<T>(s: seq<T>, p: T -> bool)
    requires forall j :: 0 <= j < |s| ==> !p(s[j])
    ensures Filter(s, p) == []
  {
    if s != [] {
      FilterEmpty(s[1..], p);
    }
  }

  lemma {:induction false} FilterOfUnique<T>(s: seq<T>, p: T -> bool, i: int)
    requires UniqueMatchAt(s, p, i)
    ensures Filter(s, p) == [s[i]]
  {
    if i == 0 {
      FilterEmpty(s[1..], p);
    } else {
      assert !p(s[0]);
      assert UniqueMatchAt(s[1..], p, i - 1) by {
        forall j | 0 <= j < |s[1..]| && p(s[1..][j]) ensures j == i - 1 {
          assert s[1..][j] == s[j + 1];
        }
      }
      FilterOfUnique(s[1..], p, i - 1);
    }
  }

  lemma {:induction false} UniqueOfFilter<T>(s: seq<T>, p: T -> bool)
    requires |Filter(s, p)| == 1
    ensures exists i :: UniqueMatchAt(s, p, i) && s[i] == Filter(s, p)[0]
  {
    if p(s[0]) {
      var rest := Filter(s[1..], p);
      assert |rest| == 0;
      forall j | 0 < j < |s| ensures !p(s[j]) {
        assert s[j] == s[1..][j - 1];
        assert s[j] in s[1..];
      }
      assert UniqueMatchAt(s, p, 0);
    } else {
      assert Filter(s, p) == Filter(s[1..], p);
      UniqueOfFilter(s[1..], p);
      var k :| UniqueMatchAt(s[1..], p, k) && s[1..][k] == Filter(s[1..], p)[0];
      forall j | 0 <= j < |s| && p(s[j]) ensures j == k + 1 {
        assert j != 0;
        assert s[1..][j - 1] == s[j];
      }
      assert UniqueMatchAt(s, p, k + 1);
    }
  }

  /** `singleOrNull` returns `x` exactly when `x` sits at the unique matching position. */
  lemma SingleOrNoneIsUniqueMatch<T>(s: seq<T>, p: T -> bool, x: T)
    ensures SingleOrNone(s, p) == Some(x) <==> exists i :: UniqueMatchAt(s, p, i) && s[i] == x
  {
    if SingleOrNone(s, p) == Some(x) {
      UniqueOfFilter(s, p);
    }
    if exists i :: UniqueMatchAt(s, p, i) && s[i] == x {
      var i :| UniqueMatchAt(s, p, i) && s[i] == x;
      FilterOfUnique(s, p, i);
    }
  }

  /** `singleOrNull` is null exactly when no position is the unique match. */
  lemma SingleOrNoneIsNone<T>(s: seq<T>, p: T -> bool)
    ensures SingleOrNone(s, p).None? <==> forall i :: !UniqueMatchAt(s, p, i)
  {
    if SingleOrNone(s, p).Some? {
      SingleOrNoneIsUniqueMatch(s, p, SingleOrNone(s, p).value);
    }
    if exists i :: UniqueMatchAt(s, p, i) {
      var i :| UniqueMatchAt(s, p, i);
      SingleOrNoneIsUniqueMatch(s, p, s[i]);
    }
  }
}
