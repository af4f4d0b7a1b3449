/** Byte-wise string order and sorting by a string key, as Go's strings.Compare and slices.SortFunc. */
module Ordering {

  predicate Leq(a: string, b: string) {
    if a == "" then true
    else if b == "" then false
    else a[0] < b[0] || (a[0] == b[0] && Leq(a[1..], b[1..]))
  }

  // The order of the first difference, or a prefix first.
  lemma {:induction false} LeqIsLexicographic(a: string, b: string)
    ensures Leq(a, b) <==>
            a <= b || exists k :: 0 <= k < |a| && k < |b| && a[..k] == b[..k] && a[k] < b[k]
  {
    if a != "" && b != "" {
      if a[0] == b[0] {
        LeqIsLexicographic(a[1..], b[1..]);
        if a[1..] <= b[1..] {
          assert a == [a[0]] + a[1..] && b == [b[0]] + b[1..];
        }
        if k :| 0 <= k < |a[1..]| && k < |b[1..]| && a[1..][..k] == b[1..][..k] && a[1..][k] < b[1..][k] {
          assert a[..k + 1] == [a[0]] + a[1..][..k] && b[..k + 1] == [b[0]] + b[1..][..k];
          assert a[k + 1] < b[k + 1];
        }
        if k :| 0 <= k < |a| && k < |b| && a[..k] == b[..k] && a[k] < b[k] {
          assert k > 0 && a[1..][..k - 1] == a[..k][1..] && b[1..][..k - 1] == b[..k][1..];
          assert a[1..][k - 1] < b[1..][k - 1];
        }
      } else if a[0] < b[0] {
        assert a[..0] == b[..0];
      }
    }
  }

  lemma {:induction false} LeqTotal(a: string, b: string)
    ensures Leq(a, b) || Leq(b, a)
  {
    if a != "" && b != "" && a[0] == b[0] {
      LeqTotal(a[1..], b[1..]);
    }
  }

  lemma {:induction false} LeqTransitive(a: string, b: string, c: string)
    requires Leq(a, b) && Leq(b, c)
    ensures Leq(a, c)
  {
    if a != "" && a[0] == b[0] && b[0] == c[0] {
      LeqTransitive(a[1..], b[1..], c[1..]);
    }
  }

  lemma {:induction false} LeqAntisymmetric(a: string, b: string)
    requires Leq(a, b) && Leq(b, a)
    ensures a == b
  {
    if a != "" {
      LeqAntisymmetric(a[1..], b[1..]);
      assert a == [a[0]] + a[1..] && b == [b[0]] + b[1..];
    }
  }

  predicate Sorted<T>(key: T -> string, s: seq<T>) {
    forall i, j | 0 <= i < j < |s| :: Leq(key(s[i]), key(s[j]))
  }

  function Insert<T>(key: T -> string, x: T, s: seq<T>): (r: seq<T>)
    ensures multiset(r) == multiset(s) + multiset{x}
  {
    if s == [] then [x]
    else if Leq(key(x), key(s[0])) then [x] + s
    else
      assert s == [s[0]] + s[1..];
      [s[0]] + Insert(key, x, s[1..])
  }

  // The sorted rearrangement of s.
  function Sort<T>(key: T -> string, s: seq<T>): (r: seq<T>)
    ensures multiset(r) == multiset(s)
  {
    if s == [] then []
    else
      assert s == [s[0]] + s[1..];
      Insert(key, s[0], Sort(key, s[1..]))
  }

  lemma SamePresence<T>(s: seq<T>, r: seq<T>)
    requires multiset(s) == multiset(r)
    ensures |s| == |r| && forall x :: x in s <==> x in r
  {
    assert |s| == |multiset(s)| && |r| == |multiset(r)|;
    forall x
      ensures x in s <==> x in r
    {
      assert x in s <==> x in multiset(s);
      assert x in r <==> x in multiset(r);
    }
  }

  lemma SortKeepsElements<T>(key: T -> string, s: seq<T>)
    ensures |Sort(key, s)| == |s| && forall x :: x in Sort(key, s) <==> x in s
  {
    SamePresence(Sort(key, s), s);
  }

  lemma HeadIsLeast<T>(key: T -> string, x: T, s: seq<T>)
    requires Sorted(key, s) && forall y | y in s :: Leq(key(x), key(y))
    ensures Sorted(key, [x] + s)
  {
    var r := [x] + s;
    forall i, j | 0 <= i < j < |r|
      ensures Leq(key(r[i]), key(r[j]))
    {
      assert i == 0 ==> r[j] == s[j - 1] && r[j] in s;
      assert i > 0 ==> r[i] == s[i - 1] && r[j] == s[j - 1];
    }
  }

  lemma {:induction false} InsertSorts<T>(key: T -> string, x: T, s: seq<T>)
    requires Sorted(key, s)
    ensures Sorted(key, Insert(key, x, s))
  {
    if s == [] {
    } else if Leq(key(x), key(s[0])) {
      forall y | y in s
        ensures Leq(key(x), key(y))
      {
        if y != s[0] {
          LeqTransitive(key(x), key(s[0]), key(y));
        }
      }
      HeadIsLeast(key, x, s);
    } else {
      LeqTotal(key(x), key(s[0]));
      var rest := Insert(key, x, s[1..]);
      InsertSorts(key, x, s[1..]);
      forall y | y in rest
        ensures Leq(key(s[0]), key(y))
      {
        assert y in multiset(rest);
        if y != x {
          assert y in multiset(s[1..]);
          assert y in s[1..];
        }
      }
      HeadIsLeast(key, s[0], rest);
    }
  }

  lemma {:induction false} SortSorts<T>(key: T -> string, s: seq<T>)
    ensures Sorted(key, Sort(key, s))
  {
    if s != [] {
      SortSorts(key, s[1..]);
      InsertSorts(key, s[0], Sort(key, s[1..]));
    }
  }

  ghost predicate Identifying<T(!new)>(key: T -> string, s: seq<T>) {
    forall x, y | x in s && y in s && key(x) == key(y) :: x == y
  }

  lemma HeadBelow<T>(key: T -> string, s: seq<T>, x: T)
    requires Sorted(key, s) && x in s
    ensures Leq(key(s[0]), key(x))
  {
    LeqTotal(key(x), key(x));
  }

  lemma SameHead<T(!new)>(key: T -> string, r: seq<T>, s: seq<T>)
    requires Identifying(key, s) && s != []
    requires Sorted(key, r) && Sorted(key, s) && multiset(r) == multiset(s)
    ensures r != [] && r[0] == s[0]
  {
    SamePresence(r, s);
    HeadBelow(key, s, r[0]);
    HeadBelow(key, r, s[0]);
    LeqAntisymmetric(key(r[0]), key(s[0]));
  }

  lemma TailMultiset<T>(s: seq<T>)
    requires s != []
    ensures multiset(s[1..]) == multiset(s) - multiset{s[0]}
  {
    assert s == [s[0]] + s[1..];
  }

  // Whatever (possibly unstable) algorithm sorts s, the result is Sort(key, s).
  lemma {:induction false} SortUnique<T(!new)>(key: T -> string, r: seq<T>, s: seq<T>)
    requires Identifying(key, s)
    requires Sorted(key, r) && Sorted(key, s) && multiset(r) == multiset(s)
    ensures r == s
  {
    SamePresence(r, s);
    if s != [] {
      SameHead(key, r, s);
      TailMultiset(r);
      TailMultiset(s);
      SortUnique(key, r[1..], s[1..]);
      assert r == [r[0]] + r[1..] && s == [s[0]] + s[1..];
    }
  }

  predicate NoDup<T(==)>(s: seq<T>) {
    forall i, j | 0 <= i < j < |s| :: s[i] != s[j]
  }

  lemma {:induction false} NoDupMultiset<T>(s: seq<T>)
    ensures NoDup(s) <==> forall x :: multiset(s)[x] <= 1
  {
    if s != [] {
      var rest := s[1..];
      assert s == [s[0]] + rest;
      assert multiset(s) == multiset{s[0]} + multiset(rest);
      NoDupMultiset(rest);
      if NoDup(s) {
        assert NoDup(rest);
        assert s[0] !in rest;
        assert s[0] !in multiset(rest);
      } else if NoDup(rest) {
        assert s[0] in rest;
        assert multiset(s)[s[0]] >= 2;
      } else {
        var x :| multiset(rest)[x] > 1;
        assert multiset(s)[x] > 1;
      }
    }
  }

  lemma SortKeepsNoDup<T>(key: T -> string, s: seq<T>)
    ensures NoDup(Sort(key, s)) <==> NoDup(s)
  {
    NoDupMultiset(s);
    NoDupMultiset(Sort(key, s));
  }
}
