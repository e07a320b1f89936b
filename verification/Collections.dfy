/** Small vocabulary shared by the other modules. */
module Collections {

  datatype Option<+T> = None | Some(value: T)

  /** Adding a new element to a set, or taking a member out, moves the cardinality by one. */
  lemma CardinalityStep<T>(small: set<T>, x: T, big: set<T>)
    requires x !in small && big == small + {x}
    ensures |big| == |small| + 1
  {
  }

  lemma CardinalityMonotone<T>(small: set<T>, big: set<T>)
    requires small <= big
    ensures |small| <= |big|
  {
    var rest := big - small;
    assert big == small + rest;
  }

  lemma AtMostOne<T>(s: set<T>, x: T, y: T)
    requires |s| <= 1 && x in s && y in s
    ensures x == y
  {
    CardinalityStep(s - {x}, x, s);
    assert y in s - {x} <==> x != y;
  }

  lemma NonemptyHasSize<T>(s: set<T>, x: T)
    requires x in s
    ensures |s| > 0
  {
    CardinalityStep(s - {x}, x, s);
  }

  /** The order-preserving filter that the in-place loops of the program compute. */
  function Filter<T>(s: seq<T>, keep: T -> bool): (r: seq<T>)
    ensures |r| <= |s|
  {
    if s == [] then []
    else if keep(s[|s| - 1]) then Filter(s[..|s| - 1], keep) + [s[|s| - 1]]
    else Filter(s[..|s| - 1], keep)
  }

  lemma FilterSnoc<T>(s: seq<T>, x: T, keep: T -> bool)
    ensures Filter(s + [x], keep) == Filter(s, keep) + (if keep(x) then [x] else [])
  {
    assert (s + [x])[..|s|] == s;
  }

  /** Filtering keeps exactly the members that satisfy the predicate. */
  lemma {:induction false} FilterMembers<T>(s: seq<T>, keep: T -> bool)
    ensures forall x :: x in Filter(s, keep) <==> x in s && keep(x)
  {
    if s != [] {
      FilterMembers(s[..|s| - 1], keep);
      assert s == s[..|s| - 1] + [s[|s| - 1]];
    }
  }

  lemma {:induction false} FilterSame<T>(s: seq<T>, f: T -> bool, g: T -> bool)
    requires forall x :: x in s ==> f(x) == g(x)
    ensures Filter(s, f) == Filter(s, g)
  {
    if s != [] {
      FilterSame(s[..|s| - 1], f, g);
    }
  }

  /**
   Go's in-place filter `filtered := s[:0]; for x in s { if keep(x) { filtered = append(filtered, x) } }`
   on the first `len` cells of an array.  The kept elements move to the front; the cells behind them keep
   what they held, which is what any other slice over the same array then sees.
   */
  method FilterInPlace<T>(a: array<T>, len: nat, keep: T -> bool) returns (n: nat)
    requires len <= a.Length
    modifies a
    ensures n <= len && a[..n] == Filter(old(a[..len]), keep)
    ensures forall k | n <= k < a.Length :: a[k] == old(a[k])
  {
    n := 0;
    for i := 0 to len
      invariant n <= i
      invariant a[..n] == Filter(old(a[..i]), keep)
      invariant forall k | n <= k < a.Length :: a[k] == old(a[k])
    {
      assert old(a[..i + 1]) == old(a[..i]) + [old(a[i])];
      FilterSnoc(old(a[..i]), old(a[i]), keep);
      if keep(a[i]) {
        a[n] := a[i];
        n := n + 1;
      }
    }
  }
}
