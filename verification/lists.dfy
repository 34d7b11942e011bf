/**
 * The two list operations the views and the profile store apply to server
 * lists: `Array.prototype.reverse` and `Array.prototype.filter`, with the
 * order facts the rest of the model relies on.
 */
module Lists {

  /** `s.reverse()`, as a value (the source's in-place mutation is not modelled). */
  function Reverse<T>(s: seq<T>): (r: seq<T>)
    ensures |r| == |s|
    ensures forall i :: 0 <= i < |s| ==> r[i] == s[|s| - 1 - i]
  {
    if s == [] then [] else Reverse(s[1..]) + [s[0]]
  }

  /** Reversing twice gives the list back. */
  lemma ReverseInvolutive<T>(s: seq<T>)
    ensures Reverse(Reverse(s)) == s
  {
  }

  /** Reversal keeps the elements. */
  lemma {:induction false} ReverseSameElements<T>(s: seq<T>)
    ensures forall x :: x in Reverse(s) <==> x in s
  {
    var r := Reverse(s);
    forall x | x in s ensures x in r {
      var i :| 0 <= i < |s| && s[i] == x;
      assert r[|s| - 1 - i] == x;
    }
  }

  /**
   * `a` is a subsequence of `b`: `a` is obtained from `b` by dropping
   * elements, the survivors keeping their relative order (greedy matching).
   */
  predicate Subsequence<T(==)>(a: seq<T>, b: seq<T>)
    decreases |b|
  {
    if a == [] then true
    else if b == [] then false
    else if a[0] == b[0] then Subsequence(a[1..], b[1..])
    else Subsequence(a, b[1..])
  }

  /**
   * `s.filter(keep)`: the elements that pass, each as many times as it
   * occurs in `s`, in their original order.
   */
  function Filter<T(==,!new)>(keep: T -> bool, s: seq<T>): (r: seq<T>)
    ensures |r| <= |s|
    ensures forall x :: x in r <==> x in s && keep(x)
    ensures forall x {:trigger multiset(r)[x]} :: multiset(r)[x] == if keep(x) then multiset(s)[x] else 0
    ensures Subsequence(r, s)
  {
    if s == [] then []
    else
      var rest := Filter(keep, s[1..]);
      assert s == [s[0]] + s[1..];
      if keep(s[0]) then
        assert ([s[0]] + rest)[1..] == rest;
        [s[0]] + rest
      else
        assert rest != [] ==> rest[0] in rest;
        rest
  }

  /** A filter that drops nothing returns the list itself. */
  lemma {:induction false} FilterKeepsAll<T(!new)>(keep: T -> bool, s: seq<T>)
    requires forall x :: x in s ==> keep(x)
    ensures Filter(keep, s) == s
  {
    if s != [] {
      assert forall x :: x in s[1..] ==> x in s;
      FilterKeepsAll(keep, s[1..]);
      assert s == [s[0]] + s[1..];
    }
  }

  /** A filter that keeps nothing returns the empty list. */
  lemma {:induction false} FilterDropsAll<T(!new)>(keep: T -> bool, s: seq<T>)
    requires forall x :: x in s ==> !keep(x)
    ensures Filter(keep, s) == []
  {
    if s != [] {
      assert forall x :: x in s[1..] ==> x in s;
      FilterDropsAll(keep, s[1..]);
    }
  }

  /** Filtering a concatenation filters each part. */
  lemma {:induction false} FilterAppend<T(!new)>(keep: T -> bool, a: seq<T>, b: seq<T>)
    ensures Filter(keep, a + b) == Filter(keep, a) + Filter(keep, b)
  {
    if a == [] {
      assert a + b == b;
    } else {
      assert (a + b)[1..] == a[1..] + b;
      assert (a + b)[0] == a[0];
      FilterAppend(keep, a[1..], b);
      if keep(a[0]) {
        assert [a[0]] + (Filter(keep, a[1..]) + Filter(keep, b)) == ([a[0]] + Filter(keep, a[1..])) + Filter(keep, b);
      }
    }
  }

  /** Filtering then reversing is reversing then filtering. */
  lemma {:induction false} FilterReverse<T(!new)>(keep: T -> bool, s: seq<T>)
    ensures Filter(keep, Reverse(s)) == Reverse(Filter(keep, s))
  {
    if s != [] {
      FilterReverse(keep, s[1..]);
      FilterAppend(keep, Reverse(s[1..]), [s[0]]);
      assert Filter(keep, [s[0]]) == if keep(s[0]) then [s[0]] else [] by {
        assert [s[0]][1..] == [];
      }
      var rest := Filter(keep, s[1..]);
      if keep(s[0]) {
        assert Filter(keep, s) == [s[0]] + rest;
        assert Reverse([s[0]] + rest) == Reverse(rest) + [s[0]] by {
          assert ([s[0]] + rest)[1..] == rest;
        }
      } else {
        assert Reverse(rest) + [] == Reverse(rest);
      }
    }
  }

  /** Filtering twice with the same test is filtering once. */
  lemma {:induction false} FilterIdempotent<T(!new)>(keep: T -> bool, s: seq<T>)
    ensures Filter(keep, Filter(keep, s)) == Filter(keep, s)
  {
    FilterKeepsAll(keep, Filter(keep, s));
  }
}
