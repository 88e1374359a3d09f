/** Go's order on strings, as a strict total order on code points. */
module Orders {
  predicate Less(a: string, b: string) {
    if b == "" then false
    else if a == "" then true
    else if a[0] != b[0] then a[0] < b[0]
    else Less(a[1..], b[1..])
  }

  /** They agree on the first k characters, and then a ends or has the smaller one. */
  predicate DivergesAt(a: string, b: string, k: nat) {
    && k <= |a| && k < |b| && a[..k] == b[..k]
    && (k < |a| ==> a[k] < b[k])
  }

  /** Go's order on strings of valid UTF-8: by the first difference, a prefix before the longer. */
  ghost predicate Precedes(a: string, b: string) {
    exists k: nat :: DivergesAt(a, b, k)
  }

  lemma {:induction false} LessIs(a: string, b: string)
    ensures Less(a, b) <==> Precedes(a, b)
  {
    if a == "" && b != "" {
      assert DivergesAt(a, b, 0);
    } else if a != "" && b != "" && a[0] != b[0] {
      if a[0] < b[0] {
        assert DivergesAt(a, b, 0);
      }
      if k: nat :| DivergesAt(a, b, k) {
        SharedStart(a, b, k);
      }
    } else if a != "" && b != "" {
      LessIs(a[1..], b[1..]);
      SameHead(a, b);
    }
  }

  lemma SharedStart(a: string, b: string, k: nat)
    requires k <= |a| && k <= |b| && a[..k] == b[..k]
    ensures k > 0 ==> a[0] == b[0]
  {
    if k > 0 {
      assert a[..k][0] == b[..k][0];
    }
  }

  lemma SameHead(a: string, b: string)
    requires a != "" && b != "" && a[0] == b[0]
    ensures Precedes(a, b) <==> Precedes(a[1..], b[1..])
  {
    if k: nat :| DivergesAt(a[1..], b[1..], k) {
      assert a[..k + 1] == [a[0]] + a[1..][..k] && b[..k + 1] == [b[0]] + b[1..][..k];
      assert DivergesAt(a, b, k + 1);
    }
    if k: nat :| DivergesAt(a, b, k) {
      assert k > 0;
      assert a[1..][..k - 1] == a[..k][1..] && b[1..][..k - 1] == b[..k][1..];
      assert DivergesAt(a[1..], b[1..], k - 1);
    }
  }

  lemma {:induction false} LessIsTotal(a: string, b: string)
    ensures a == b || Less(a, b) || Less(b, a)
  {
    if a != "" && b != "" && a[0] == b[0] {
      LessIsTotal(a[1..], b[1..]);
      assert a == [a[0]] + a[1..] && b == [b[0]] + b[1..];
    }
  }

  lemma {:induction false} LessIsIrreflexive(a: string)
    ensures !Less(a, a)
  {
    if a != "" {
      LessIsIrreflexive(a[1..]);
    }
  }

  lemma {:induction false} LessIsTransitive(a: string, b: string, c: string)
    requires Less(a, b) && Less(b, c)
    ensures Less(a, c)
  {
    if a != "" && a[0] == b[0] == c[0] {
      LessIsTransitive(a[1..], b[1..], c[1..]);
    }
  }
}

/** The library's sort as an insertion sort: under a strict total order every sort has the
    same result. */
module Sorting {
  type Compare<!T> = (T, T) -> bool

  ghost predicate Transitive<T>(before: Compare<T>, s: seq<T>) {
    forall a, b, c :: a in s && b in s && c in s && before(a, b) && before(b, c) ==> before(a, c)
  }

  /** Of any two elements exactly one comes before the other. */
  predicate Comparable<T>(before: Compare<T>, s: seq<T>) {
    forall i, j :: 0 <= i < j < |s| ==> before(s[i], s[j]) != before(s[j], s[i])
  }

  predicate Ascending<T>(before: Compare<T>, s: seq<T>) {
    forall i, j :: 0 <= i < j < |s| ==> before(s[i], s[j])
  }

  method Sort<T>(before: Compare<T>, s: seq<T>) returns (r: seq<T>)
    requires Transitive(before, s) && Comparable(before, s)
    ensures Ascending(before, r) && multiset(r) == multiset(s)
  {
    r := [];
    for i := 0 to |s|
      invariant Ascending(before, r) && multiset(r) == multiset(s[..i])
    {
      var k := 0;
      while k < |r| && before(r[k], s[i])
        invariant 0 <= k <= |r| && forall j :: 0 <= j < k ==> before(r[j], s[i])
      {
        k := k + 1;
      }
      FromFront(r, s, i);
      if k < |r| {
        ComesFirst(before, s, i, r[k]);
      }
      Inserted(before, s, r, k, s[i]);
      assert s[..i + 1] == s[..i] + [s[i]];
      r := r[..k] + [s[i]] + r[k..];
    }
    assert s[..|s|] == s;
  }

  lemma FromFront<T>(r: seq<T>, s: seq<T>, i: nat)
    requires i <= |s| && multiset(r) == multiset(s[..i])
    ensures forall x :: x in r ==> x in s[..i] && x in s
  {
    forall x | x in r ensures x in s[..i] {
      assert x in multiset(r);
    }
  }

  lemma ComesFirst<T>(before: Compare<T>, s: seq<T>, i: nat, x: T)
    requires Comparable(before, s) && i < |s| && x in s[..i] && !before(x, s[i])
    ensures before(s[i], x)
  {
    var j :| 0 <= j < i && s[..i][j] == x;
    assert s[j] == x;
  }

  lemma Inserted<T>(before: Compare<T>, s: seq<T>, r: seq<T>, k: nat, x: T)
    requires Transitive(before, s) && k <= |r| && Ascending(before, r)
    requires x in s && forall y :: y in r ==> y in s
    requires (forall j :: 0 <= j < k ==> before(r[j], x)) && (k < |r| ==> before(x, r[k]))
    ensures Ascending(before, r[..k] + [x] + r[k..]) && multiset(r[..k] + [x] + r[k..]) == multiset(r) + multiset{x}
  {
    assert r == r[..k] + r[k..];
    forall j | k <= j < |r| ensures before(x, r[j]) {
      if j > k {
        assert before(x, r[k]) && before(r[k], r[j]);
      }
    }
    AscendsWith(before, r, k, x);
  }

  lemma AscendsWith<T>(before: Compare<T>, r: seq<T>, k: nat, x: T)
    requires k <= |r| && Ascending(before, r)
    requires (forall j :: 0 <= j < k ==> before(r[j], x)) && (forall j :: k <= j < |r| ==> before(x, r[j]))
    ensures Ascending(before, r[..k] + [x] + r[k..])
  {
  }

  /** Two ascending lists with the same elements are equal. */
  lemma {:induction false} AscendingIsUnique<T>(before: Compare<T>, a: seq<T>, b: seq<T>)
    requires Ascending(before, a) && Ascending(before, b)
    requires forall x :: x in a ==> x in b
    requires forall x :: x in b ==> x in a
    requires forall x, y :: x in a && y in a ==> !(before(x, y) && before(y, x))
    ensures a == b
  {
    if a == [] {
      if b != [] {
        HasElement(b);
      }
    } else {
      assert a[0] in b && b != [] && b[0] in a;
      assert a[0] == b[0];
      FirstOnce(before, a);
      FirstOnce(before, b);
      assert forall x :: x in a <==> x == a[0] || x in a[1..];
      assert forall x :: x in b <==> x == b[0] || x in b[1..];
      AscendingIsUnique(before, a[1..], b[1..]);
    }
  }

  lemma HasElement<T>(s: seq<T>)
    requires s != []
    ensures exists x :: x in s
  {
    assert s[0] in s;
  }

  lemma FirstOnce<T>(before: Compare<T>, a: seq<T>)
    requires Ascending(before, a) && a != []
    requires forall x, y :: x in a && y in a ==> !(before(x, y) && before(y, x))
    ensures a[0] !in a[1..]
  {
    assert a[0] in a;
  }
}
