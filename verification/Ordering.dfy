/** The ascending sequence of a finite set of integers. */
module Ordering {

  ghost predicate StrictlyAscending(r: seq<int>) {
    forall i, j :: 0 <= i < j < |r| ==> r[i] < r[j]
  }

  /** Some element of a non-empty set. */
  ghost function Any<T>(s: set<T>): (x: T)
    requires s != {}
    ensures x in s
  {
    var x :| x in s;
    x
  }

  method Choose<T(==)>(s: set<T>) returns (x: T)
    requires s != {}
    ensures x in s
  {
    x :| x in s;
  }

  ghost function Maximum(s: set<int>): (m: int)
    requires s != {}
    ensures m in s && forall x :: x in s ==> x <= m
    decreases |s|
  {
    var a := Any(s);
    assert s == (s - {a}) + {a};
    if s == {a} then a
    else
      var m := Maximum(s - {a});
      if m < a then a else m
  }

  ghost function Sorted(s: set<int>): (r: seq<int>)
    ensures StrictlyAscending(r)
    ensures forall x :: x in r <==> x in s
    decreases |s|
  {
    if s == {} then []
    else
      var m := Maximum(s);
      var r := Sorted(s - {m});
      assert forall x :: x in s <==> x == m || x in s - {m};
      assert forall i :: 0 <= i < |r| ==> r[i] in s - {m};
      r + [m]
  }

  lemma {:induction false} SortedIsUnique(r: seq<int>, r': seq<int>)
    requires StrictlyAscending(r) && StrictlyAscending(r') && forall x :: x in r <==> x in r'
    ensures r == r'
    decreases |r|
  {
    assert r != [] ==> r[0] in r;
    assert r' != [] ==> r'[0] in r';
    if r != [] && r' != [] {
      var n, n' := |r| - 1, |r'| - 1;
      assert r[n] in r && r'[n'] in r';
      assert r[n] in r' && r'[n'] in r;
      assert r[n] == r'[n'];
      forall x ensures x in r[..n] <==> x in r'[..n'] {
        WithoutLast(r, x);
        WithoutLast(r', x);
      }
      SortedIsUnique(r[..n], r'[..n']);
    }
  }

  lemma {:induction false} WithoutLast(r: seq<int>, x: int)
    requires r != [] && StrictlyAscending(r)
    ensures x in r[..|r| - 1] <==> x in r && x != r[|r| - 1]
  {
    assert r == r[..|r| - 1] + [r[|r| - 1]];
  }

  lemma {:induction false} Inserted(r: seq<int>, i: nat, x: int)
    requires StrictlyAscending(r) && i <= |r|
    requires (forall j :: 0 <= j < i ==> r[j] < x) && (forall j :: i <= j < |r| ==> x < r[j])
    ensures var r' := r[..i] + [x] + r[i..];
            StrictlyAscending(r') && forall y :: y in r' <==> y == x || y in r
  {
    var r' := r[..i] + [x] + r[i..];
    assert forall k :: 0 <= k < |r'| ==> r'[k] == if k < i then r[k] else if k == i then x else r[k - 1];
    forall y ensures y in r' <==> y == x || y in r {
      assert r == r[..i] + r[i..];
    }
  }

  method Insert(r: seq<int>, x: int) returns (r': seq<int>)
    requires StrictlyAscending(r) && x !in r
    ensures StrictlyAscending(r') && forall y :: y in r' <==> y == x || y in r
  {
    var i := 0;
    while i < |r| && r[i] < x
      invariant 0 <= i <= |r|
      invariant forall j :: 0 <= j < i ==> r[j] < x
    {
      i := i + 1;
    }
    assert forall j :: i <= j < |r| ==> x < r[j] by {
      assert i < |r| ==> r[i] in r;
    }
    r' := r[..i] + [x] + r[i..];
    Inserted(r, i, x);
  }

  /** The elements, collected in any order and sorted. */
  method SortSet(s: set<int>) returns (r: seq<int>)
    ensures r == Sorted(s)
  {
    r := [];
    var rest := s;
    while rest != {}
      invariant rest <= s && StrictlyAscending(r)
      invariant forall x :: x in r <==> x in s - rest
      decreases rest
    {
      var x := Choose(rest);
      ghost var before := r;
      r := Insert(r, x);
      rest := rest - {x};
      assert forall y :: y in r <==> y == x || y in before;
    }
    SortedIsUnique(r, Sorted(s));
  }
}
