/** Lexicographic order on strings and sorting by it, as slices.Sort does. */
module SortedStrings {

  predicate Leq(a: string, b: string)
  {
    a == [] || (b != [] && (a[0] < b[0] || (a[0] == b[0] && Leq(a[1..], b[1..]))))
  }

  /** The order of Go's strings: a prefix comes first, else the first difference decides. */
  lemma {:induction false} LeqIsLexicographic(a: string, b: string)
    ensures Leq(a, b)
      <==> a <= b || exists i :: 0 <= i < |a| && i < |b| && a[..i] == b[..i] && a[i] < b[i]
  {
    forall i | 0 < i <= |a| && i <= |b| && a[..i] == b[..i]
      ensures a[0] == b[0]
    {
      assert a[0] == a[..i][0];
    }
    if a != [] && b != [] && a[0] == b[0] {
      LeqIsLexicographic(a[1..], b[1..]);
      assert a == [a[0]] + a[1..] && b == [b[0]] + b[1..];
      if i :| 0 <= i < |a[1..]| && i < |b[1..]| && a[1..][..i] == b[1..][..i] && a[1..][i] < b[1..][i] {
        assert a[..i + 1] == [a[0]] + a[1..][..i] && b[..i + 1] == [b[0]] + b[1..][..i];
        assert a[i + 1] < b[i + 1];
      }
      if i :| 0 <= i < |a| && i < |b| && a[..i] == b[..i] && a[i] < b[i] {
        assert a[1..][..i - 1] == a[..i][1..] && b[1..][..i - 1] == b[..i][1..];
        assert a[1..][i - 1] < b[1..][i - 1];
      }
    } else if a != [] && b != [] {
      assert a[..0] == b[..0];
    }
  }

  lemma {:induction false} LeqTotal(a: string, b: string)
    ensures Leq(a, b) || Leq(b, a)
  {
    if a != [] && b != [] && a[0] == b[0] {
      LeqTotal(a[1..], b[1..]);
    }
  }

  lemma {:induction false} LeqAntisymmetric(a: string, b: string)
    requires Leq(a, b) && Leq(b, a)
    ensures a == b
  {
    if a != [] {
      LeqAntisymmetric(a[1..], b[1..]);
      assert a == [a[0]] + a[1..] && b == [b[0]] + b[1..];
    }
  }

  lemma {:induction false} LeqTransitive(a: string, b: string, c: string)
    requires Leq(a, b) && Leq(b, c)
    ensures Leq(a, c)
  {
    if a != [] && a[0] == b[0] == c[0] {
      LeqTransitive(a[1..], b[1..], c[1..]);
    }
  }

  ghost predicate Sorted(s: seq<string>)
  {
    forall i, j | 0 <= i < j < |s| :: Leq(s[i], s[j])
  }

  ghost predicate Distinct(s: seq<string>)
  {
    forall i, j | 0 <= i < j < |s| :: s[i] != s[j]
  }

  lemma HeadIsLeast(s: seq<string>, y: string)
    requires Sorted(s) && y in s
    ensures Leq(s[0], y)
  {
    LeqTotal(y, y);
  }

  function Insert(x: string, s: seq<string>): seq<string>
  {
    if s == [] then [x]
    else if Leq(x, s[0]) then [x] + s
    else [s[0]] + Insert(x, s[1..])
  }

  function Sort(s: seq<string>): seq<string>
  {
    if s == [] then [] else Insert(s[0], Sort(s[1..]))
  }

  lemma {:induction false} InsertMembers(x: string, s: seq<string>)
    ensures forall y :: y in Insert(x, s) <==> y == x || y in s
  {
    if s != [] && !Leq(x, s[0]) {
      InsertMembers(x, s[1..]);
      assert s == [s[0]] + s[1..];
    }
  }

  lemma {:induction false} InsertSorted(x: string, s: seq<string>)
    requires Sorted(s)
    ensures Sorted(Insert(x, s))
  {
    if s != [] {
      if Leq(x, s[0]) {
        forall i | 0 <= i < |s|
          ensures Leq(x, s[i])
        {
          HeadIsLeast(s, s[i]);
          LeqTransitive(x, s[0], s[i]);
        }
      } else {
        LeqTotal(x, s[0]);
        InsertSorted(x, s[1..]);
        InsertMembers(x, s[1..]);
        var tail := Insert(x, s[1..]);
        forall i | 0 <= i < |tail|
          ensures Leq(s[0], tail[i])
        {
          assert tail[i] in tail;
        }
      }
    }
  }

  lemma {:induction false} InsertDistinct(x: string, s: seq<string>)
    requires Distinct(s) && x !in s
    ensures Distinct(Insert(x, s))
  {
    if s != [] && !Leq(x, s[0]) {
      InsertDistinct(x, s[1..]);
      InsertMembers(x, s[1..]);
      var tail := Insert(x, s[1..]);
      forall i | 0 <= i < |tail|
        ensures tail[i] != s[0]
      {
        assert tail[i] in tail;
      }
    }
  }

  /** Sorting keeps the members, orders them, and keeps them distinct. */
  lemma {:induction false} SortSorts(s: seq<string>)
    ensures Sorted(Sort(s))
    ensures forall y :: y in Sort(s) <==> y in s
    ensures Distinct(s) ==> Distinct(Sort(s))
  {
    if s != [] {
      SortSorts(s[1..]);
      InsertSorted(s[0], Sort(s[1..]));
      InsertMembers(s[0], Sort(s[1..]));
      if Distinct(s) {
        assert s[0] !in s[1..];
        InsertDistinct(s[0], Sort(s[1..]));
      }
    }
  }

  lemma SameMembersSameEmptiness(s: seq<string>, t: seq<string>)
    requires forall y :: y in s <==> y in t
    ensures s == [] <==> t == []
  {
    if s != [] {
      assert s[0] in s;
    }
    if t != [] {
      assert t[0] in t;
    }
  }

  /**
   A sorted list without repeats is determined by its members, so the order in which a map is walked
   does not matter.
   */
  lemma {:induction false} SortedIsUnique(s: seq<string>, t: seq<string>)
    requires Sorted(s) && Distinct(s) && Sorted(t) && Distinct(t)
    requires forall y :: y in s <==> y in t
    ensures s == t
  {
    SameMembersSameEmptiness(s, t);
    if s != [] {
      assert s[0] in t && t[0] in s;
      HeadIsLeast(s, t[0]);
      HeadIsLeast(t, s[0]);
      LeqAntisymmetric(s[0], t[0]);
      TailMembers(s);
      TailMembers(t);
      SortedIsUnique(s[1..], t[1..]);
      assert s == [s[0]] + s[1..] && t == [t[0]] + t[1..];
    }
  }

  lemma TailMembers(s: seq<string>)
    requires s != [] && Distinct(s)
    ensures forall y :: y in s[1..] <==> y in s && y != s[0]
  {
    assert s == [s[0]] + s[1..];
  }

  /** The keys of a set in sorted order; the walk over the set is in any order. */
  method SortedList(keys: set<string>) returns (r: seq<string>)
    ensures Sorted(r) && Distinct(r)
    ensures forall k :: k in r <==> k in keys
  {
    var list: seq<string> := [];
    var todo := keys;
    while todo != {}
      invariant todo <= keys && Distinct(list)
      invariant forall k :: k in list <==> k in keys - todo
      decreases todo
    {
      var k :| k in todo;
      assert k !in list;
      list := list + [k];
      todo := todo - {k};
    }
    SortSorts(list);
    r := Sort(list);
  }
}
