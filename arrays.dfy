/** The JavaScript array operations the dashboard relies on (`reverse`, `filter`,
    duplicate-freedom of a list), stated as functions on sequences; `includes`
    is Dafny's `in`. */
module Arrays {

  /** The result of a search that may find nothing (`undefined` in JavaScript). */
  datatype Option<T> = None | Some(value: T)

  /** No element occurs twice. */
  predicate NoDuplicates<T(==)>(xs: seq<T>)
  {
    forall i, j :: 0 <= i < j < |xs| ==> xs[i] != xs[j]
  }

  /** `Array.prototype.reverse`: the same elements, last first. */
  function Reversed<T>(s: seq<T>): (r: seq<T>)
    ensures |r| == |s|
    ensures forall k :: 0 <= k < |s| ==> r[k] == s[|s| - 1 - k]
  {
    if s == [] then [] else Reversed(s[1..]) + [s[0]]
  }

  /** `xs.filter(s => s !== x)`: every element other than x, in their order. */
  function RemoveAll<T(==, !new)>(xs: seq<T>, x: T): (r: seq<T>)
    ensures forall y :: y in r <==> y in xs && y != x
    ensures |r| <= |xs|
  {
    if xs == [] then [] else (if xs[0] == x then [] else [xs[0]]) + RemoveAll(xs[1..], x)
  }

  /** Filtering a concatenation filters each part. */
  lemma {:induction false} RemoveAllDistributes<T(!new)>(xs: seq<T>, ys: seq<T>, x: T)
    ensures RemoveAll(xs + ys, x) == RemoveAll(xs, x) + RemoveAll(ys, x)
  {
    if xs == [] {
      assert xs + ys == ys;
    } else {
      assert (xs + ys)[0] == xs[0];
      assert (xs + ys)[1..] == xs[1..] + ys;
      RemoveAllDistributes(xs[1..], ys, x);
    }
  }

  /** Filtering out a value that does not occur changes nothing. */
  lemma {:induction false} RemoveAllAbsent<T(!new)>(xs: seq<T>, x: T)
    requires x !in xs
    ensures RemoveAll(xs, x) == xs
  {
    if xs != [] {
      assert xs[1..] + [] == xs[1..];
      RemoveAllAbsent(xs[1..], x);
      assert [xs[0]] + xs[1..] == xs;
    }
  }

  /** Removing the one occurrence of x leaves the elements before and after it,
      in their original order. */
  lemma RemoveAllKeepsOrder<T(!new)>(before: seq<T>, x: T, after: seq<T>)
    requires x !in before && x !in after
    ensures RemoveAll(before + [x] + after, x) == before + after
  {
    assert RemoveAll([x], x) == [] by { assert [x][0] == x && [x][1..] == []; }
    assert RemoveAll(before + [x], x) == before by {
      RemoveAllDistributes(before, [x], x);
      RemoveAllAbsent(before, x);
      assert before + [] == before;
    }
    RemoveAllDistributes(before + [x], after, x);
    RemoveAllAbsent(after, x);
  }

  /** A list with a distinct head is duplicate-free exactly when its tail is. */
  lemma NoDuplicatesCons<T>(x: T, xs: seq<T>)
    ensures NoDuplicates([x] + xs) <==> x !in xs && NoDuplicates(xs)
  {
    var s := [x] + xs;
    if NoDuplicates(s) {
      forall i, j | 0 <= i < j < |xs| ensures xs[i] != xs[j] {
        assert s[i + 1] == xs[i] && s[j + 1] == xs[j];
      }
      forall k | 0 <= k < |xs| ensures xs[k] != x {
        assert s[0] == x && s[k + 1] == xs[k];
      }
    }
  }

  /** Filtering never introduces a duplicate. */
  lemma {:induction false} RemoveAllKeepsNoDuplicates<T(!new)>(xs: seq<T>, x: T)
    requires NoDuplicates(xs)
    ensures NoDuplicates(RemoveAll(xs, x))
  {
    if xs != [] {
      assert xs == [xs[0]] + xs[1..];
      NoDuplicatesCons(xs[0], xs[1..]);
      RemoveAllKeepsNoDuplicates(xs[1..], x);
      if xs[0] != x {
        NoDuplicatesCons(xs[0], RemoveAll(xs[1..], x));
      } else {
        assert RemoveAll(xs, x) == RemoveAll(xs[1..], x);
      }
    }
  }

  /** Appending a new value keeps a list duplicate-free. */
  lemma AppendKeepsNoDuplicates<T>(xs: seq<T>, x: T)
    requires NoDuplicates(xs) && x !in xs
    ensures NoDuplicates(xs + [x])
  {
    var s := xs + [x];
    forall i, j | 0 <= i < j < |s| ensures s[i] != s[j] {
      if j == |xs| {
        assert s[i] == xs[i];
      }
    }
  }
}
