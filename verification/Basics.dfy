/** The few general notions the other modules share. */
module Basics {

  datatype Option<+T> = None | Some(value: T)

  ghost predicate IsMax(m: int, s: set<int>) {
    m in s && forall x :: x in s ==> x <= m
  }

  lemma PickOne<T>(s: set<T>) returns (x: T)
    requires s != {}
    ensures x in s
  {
    x :| x in s;
  }

  lemma {:induction false} MaxExists(s: set<int>)
    requires s != {}
    ensures exists m :: IsMax(m, s)
  {
    var x := PickOne(s);
    var rest := s - {x};
    if rest == {} {
      assert s == {x};
      assert IsMax(x, s);
    } else {
      MaxExists(rest);
      var m :| IsMax(m, rest);
      assert s == rest + {x};
      assert IsMax(if x > m then x else m, s);
    }
  }

  /** The largest member of a non-empty finite set of integers: SQL's `max`. */
  ghost function MaxOf(s: set<int>): (m: int)
    requires s != {}
    ensures IsMax(m, s)
  {
    MaxExists(s);
    var m :| IsMax(m, s);
    m
  }

  /** No two positions hold the same value. */
  ghost predicate NoDup<T>(s: seq<T>) {
    forall i, j :: 0 <= i < j < |s| ==> s[i] != s[j]
  }

  lemma {:induction false} SubsetSize<T>(a: set<T>, b: set<T>)
    requires a <= b
    ensures |a| <= |b|
  {
    if a != {} {
      var x :| x in a;
      SubsetSize(a - {x}, b - {x});
    }
  }

  lemma CountTwice<T>(s: seq<T>, i: nat, j: nat)
    requires i < j < |s| && s[i] == s[j]
    ensures multiset(s)[s[i]] >= 2
  {
    assert s == s[..j] + [s[j]] + s[j + 1..];
    assert s[i] in s[..j];
  }

  lemma CountOnce<T>(s: seq<T>, i: nat)
    requires NoDup(s) && i < |s|
    ensures multiset(s)[s[i]] == 1
  {
    assert s == s[..i] + [s[i]] + s[i + 1..];
    assert s[i] !in s[..i] && s[i] !in s[i + 1..];
  }

  lemma NoDupPermuted<T>(a: seq<T>, b: seq<T>)
    requires multiset(a) == multiset(b) && NoDup(a)
    ensures NoDup(b) && forall x :: x in a <==> x in b
  {
    forall x ensures x in a <==> x in b {
      assert x in a <==> x in multiset(a);
      assert x in b <==> x in multiset(b);
    }
    forall i, j | 0 <= i < j < |b| ensures b[i] != b[j] {
      if b[i] == b[j] {
        CountTwice(b, i, j);
        var k :| 0 <= k < |a| && a[k] == b[i];
        CountOnce(a, k);
      }
    }
  }
}
