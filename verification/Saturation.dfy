/** Exactly when the order in which a map is ranged over can show in a saturating sum
    (state/dashboard.go): the sums of Aggregate, for every 64-bit input. */
module Saturation {
  import opened Options
  import opened Torrents
  import opened JsonSize
  import opened Dashboards
  import Encoders

  /** One summed field. */
  type Term = Torrent -> int

  ghost predicate Terms64(m: map<Hash, Torrent>, f: Term) {
    forall h :: h in m ==> Int64(f(m[h]))
  }

  /** What the remaining-bytes sum adds per torrent, by the code's own arithmetic. */
  function LeftTerm(t: Torrent): int {
    if InRange(t) && t.size > t.completed then SatAdd(t.size, Negated(t.completed)) else 0
  }

  /** It is the clamped difference, except when completed is the least integer: there Go's
      negation wraps and a huge remainder counts as a negative one. */
  lemma LeftTermIsTheDifference(t: Torrent)
    requires InRange(t)
    ensures LeftTerm(t) == Clamp(Left(t)) <==> !(t.completed == MIN_INT64 && t.size > t.completed)
    ensures t.completed == MIN_INT64 && t.size > t.completed ==> LeftTerm(t) < 0 < Left(t)
  {
  }

  /** A pass over `order`, starting from `from`. */
  function Pass64(m: map<Hash, Torrent>, order: seq<Hash>, f: Term, from: int): (r: int)
    requires Int64(from) && forall i :: 0 <= i < |order| ==> order[i] in m && Int64(f(m[order[i]]))
    ensures Int64(r)
  {
    if order == [] then from
    else SatAdd(Pass64(m, order[..|order| - 1], f, from), f(m[order[|order| - 1]]))
  }

  function Up(f: Term): Term {
    t => if f(t) > 0 then f(t) else 0
  }

  function Down(f: Term): Term {
    t => if f(t) < 0 then f(t) else 0
  }

  ghost predicate NonePositive(m: map<Hash, Torrent>, keys: set<Hash>, f: Term)
    requires keys <= m.Keys
  {
    forall h :: h in keys ==> f(m[h]) <= 0
  }

  ghost predicate NoneNegative(m: map<Hash, Torrent>, keys: set<Hash>, f: Term)
    requires keys <= m.Keys
  {
    forall h :: h in keys ==> f(m[h]) >= 0
  }

  /** The order never shows when there is only one sign, or neither side alone overflows. */
  ghost predicate Harmless(m: map<Hash, Torrent>, keys: set<Hash>, f: Term)
    requires keys <= m.Keys
  {
    || NonePositive(m, keys, f)
    || NoneNegative(m, keys, f)
    || (Sum(m, keys, Up(f)) <= MAX_INT64 && Sum(m, keys, Down(f)) >= MIN_INT64)
  }

  // ---- sums by sign ----

  lemma {:induction false} SumSplits(m: map<Hash, Torrent>, keys: set<Hash>, f: Term)
    requires keys <= m.Keys
    ensures Sum(m, keys, f) == Sum(m, keys, Up(f)) + Sum(m, keys, Down(f))
    decreases |keys|
  {
    if keys != {} {
      var h :| h in keys;
      var rest := keys - {h};
      SumSplits(m, rest, f);
      SumAdded(m, rest, h, f);
      SumAdded(m, rest, h, Up(f));
      SumAdded(m, rest, h, Down(f));
      assert keys == rest + {h};
    }
  }

  lemma SumWith(m: map<Hash, Torrent>, keys: set<Hash>, h: Hash, f: Term)
    requires keys <= m.Keys && h in keys
    ensures Sum(m, keys, f) == Sum(m, keys - {h}, f) + f(m[h])
  {
    SumAdded(m, keys - {h}, h, f);
    assert keys == keys - {h} + {h};
  }

  lemma SignsWith(m: map<Hash, Torrent>, keys: set<Hash>, h: Hash, f: Term)
    requires keys <= m.Keys && h in keys
    ensures NonePositive(m, keys, f) <==> NonePositive(m, keys - {h}, f) && f(m[h]) <= 0
    ensures NoneNegative(m, keys, f) <==> NoneNegative(m, keys - {h}, f) && f(m[h]) >= 0
  {
  }

  lemma {:induction false} SumSigns(m: map<Hash, Torrent>, keys: set<Hash>, f: Term)
    requires keys <= m.Keys
    ensures Sum(m, keys, Up(f)) >= 0 >= Sum(m, keys, Down(f))
    ensures NonePositive(m, keys, f) <==> Sum(m, keys, Up(f)) == 0
    ensures NoneNegative(m, keys, f) <==> Sum(m, keys, Down(f)) == 0
    decreases |keys|
  {
    if keys != {} {
      var h :| h in keys;
      SumSigns(m, keys - {h}, f);
      SignsWith(m, keys, h, f);
      SumWith(m, keys, h, Up(f));
      SumWith(m, keys, h, Down(f));
    }
  }

  lemma HarmlessLess(m: map<Hash, Torrent>, keys: set<Hash>, h: Hash, f: Term)
    requires keys <= m.Keys && h in keys && Harmless(m, keys, f)
    ensures Harmless(m, keys - {h}, f)
  {
    var rest := keys - {h};
    assert keys == rest + {h};
    SumAdded(m, rest, h, Up(f));
    SumAdded(m, rest, h, Down(f));
  }

  lemma ClampOnce(m: map<Hash, Torrent>, keys: set<Hash>, h: Hash, f: Term)
    requires keys <= m.Keys && h in keys && Harmless(m, keys, f) && Int64(f(m[h]))
    ensures SatAdd(Clamp(Sum(m, keys - {h}, f)), f(m[h])) == Clamp(Sum(m, keys, f))
  {
    var rest := keys - {h};
    assert keys == rest + {h};
    SumAdded(m, rest, h, f);
    SumAdded(m, rest, h, Up(f));
    SumAdded(m, rest, h, Down(f));
    SumSplits(m, rest, f);
    SumSplits(m, keys, f);
    SumSigns(m, rest, f);
    SumSigns(m, keys, f);
  }

  /** A harmless pass gives the true sum, clamped once. */
  lemma {:induction false} HarmlessPass(m: map<Hash, Torrent>, order: seq<Hash>, keys: set<Hash>, f: Term)
    requires keys <= m.Keys && Terms64(m, f) && Enumerates(order, keys) && Harmless(m, keys, f)
    ensures Pass64(m, order, f, 0) == Clamp(Sum(m, keys, f))
  {
    if order == [] {
      assert keys == {};
    } else {
      var last := order[|order| - 1];
      Front(order, keys);
      HarmlessLess(m, keys, last, f);
      HarmlessPass(m, order[..|order| - 1], keys - {last}, f);
      ClampOnce(m, keys, last, f);
    }
  }

  // ---- two orders that differ ----

  lemma {:induction false} Rising(m: map<Hash, Torrent>, order: seq<Hash>, keys: set<Hash>, f: Term, from: int)
    requires keys <= m.Keys && Terms64(m, f) && Enumerates(order, keys) && NoneNegative(m, keys, f) && Int64(from)
    ensures Pass64(m, order, f, from) == if from + Sum(m, keys, f) > MAX_INT64 then MAX_INT64 else from + Sum(m, keys, f)
  {
    if order == [] {
      assert keys == {};
    } else {
      var last := order[|order| - 1];
      Front(order, keys);
      Rising(m, order[..|order| - 1], keys - {last}, f, from);
      SumAdded(m, keys - {last}, last, f);
      SumSplits(m, keys - {last}, f);
      SumSigns(m, keys - {last}, f);
    }
  }

  lemma {:induction false} Falling(m: map<Hash, Torrent>, order: seq<Hash>, keys: set<Hash>, f: Term, from: int)
    requires keys <= m.Keys && Terms64(m, f) && Enumerates(order, keys) && NonePositive(m, keys, f) && Int64(from)
    ensures Pass64(m, order, f, from) == if from + Sum(m, keys, f) < MIN_INT64 then MIN_INT64 else from + Sum(m, keys, f)
  {
    if order == [] {
      assert keys == {};
    } else {
      var last := order[|order| - 1];
      Front(order, keys);
      Falling(m, order[..|order| - 1], keys - {last}, f, from);
      SumAdded(m, keys - {last}, last, f);
      SumSplits(m, keys - {last}, f);
      SumSigns(m, keys - {last}, f);
    }
  }

  lemma {:induction false} PassJoins(m: map<Hash, Torrent>, xs: seq<Hash>, ys: seq<Hash>, f: Term, from: int)
    requires Int64(from) && (forall i :: 0 <= i < |xs| ==> xs[i] in m && Int64(f(m[xs[i]])))
    requires forall i :: 0 <= i < |ys| ==> ys[i] in m && Int64(f(m[ys[i]]))
    ensures Pass64(m, xs + ys, f, from) == Pass64(m, ys, f, Pass64(m, xs, f, from))
  {
    if ys == [] {
      assert xs + ys == xs;
    } else {
      assert (xs + ys)[..|xs + ys| - 1] == xs + ys[..|ys| - 1];
      PassJoins(m, xs, ys[..|ys| - 1], f, from);
    }
  }

  lemma {:induction false} SomeOrder(keys: set<Hash>) returns (order: seq<Hash>)
    ensures Enumerates(order, keys)
    decreases |keys|
  {
    if keys == {} {
      order := [];
    } else {
      var h :| h in keys;
      var front := SomeOrder(keys - {h});
      EnumeratesMore(front, keys - {h}, h);
      assert keys - {h} + {h} == keys;
      order := front + [h];
    }
  }

  lemma JoinedOrder(xs: seq<Hash>, a: set<Hash>, ys: seq<Hash>, b: set<Hash>)
    requires Enumerates(xs, a) && Enumerates(ys, b) && a !! b
    ensures Enumerates(xs + ys, a + b)
  {
    forall h | h in a + b ensures h in xs + ys {
      assert h in a ==> h in xs;
      assert h in b ==> h in ys;
    }
    forall i, j | 0 <= i < j < |xs + ys| ensures (xs + ys)[i] != (xs + ys)[j] {
      assert i < |xs| <= j ==> xs[i] in a && ys[j - |xs|] in b;
    }
  }

  lemma {:induction false} SumOver(m: map<Hash, Torrent>, keys: set<Hash>, part: set<Hash>, f: Term, g: Term)
    requires keys <= m.Keys && part <= keys
    requires forall h :: h in keys ==> g(m[h]) == if h in part then f(m[h]) else 0
    ensures Sum(m, keys, g) == Sum(m, part, f)
    decreases |keys|
  {
    if keys != {} {
      var h :| h in keys;
      SumOver(m, keys - {h}, part - {h}, f, g);
      SumWith(m, keys, h, g);
      if h in part {
        SumWith(m, part, h, f);
      } else {
        assert part - {h} == part;
      }
    } else {
      assert part == {};
    }
  }

  /** Positive terms first and negative terms first give different sums whenever both occur
      and either side alone overflows. */
  lemma TwoOrders(m: map<Hash, Torrent>, keys: set<Hash>, f: Term) returns (a: seq<Hash>, b: seq<Hash>)
    requires keys <= m.Keys && Terms64(m, f) && !Harmless(m, keys, f)
    ensures Enumerates(a, keys) && Enumerates(b, keys) && Pass64(m, a, f, 0) != Pass64(m, b, f, 0)
  {
    var ups := set h | h in keys && f(m[h]) > 0;
    var downs := keys - ups;
    var xs := SomeOrder(ups);
    var ys := SomeOrder(downs);
    a, b := xs + ys, ys + xs;
    JoinedOrder(xs, ups, ys, downs);
    JoinedOrder(ys, downs, xs, ups);
    assert ups + downs == keys == downs + ups;
    var p, n := Sum(m, ups, f), Sum(m, downs, f);
    SumOver(m, keys, ups, f, Up(f));
    SumOver(m, keys, downs, f, Down(f));
    SumSplits(m, keys, f);
    SumSigns(m, keys, f);
    assert p > 0 > n && (p > MAX_INT64 || n < MIN_INT64);
    SignsFirst(m, xs, ups, ys, downs, f);
  }

  lemma SignsFirst(m: map<Hash, Torrent>, xs: seq<Hash>, ups: set<Hash>, ys: seq<Hash>, downs: set<Hash>, f: Term)
    requires ups <= m.Keys && downs <= m.Keys && Terms64(m, f) && Enumerates(xs, ups) && Enumerates(ys, downs)
    requires NoneNegative(m, ups, f) && NonePositive(m, downs, f)
    requires Sum(m, ups, f) > 0 > Sum(m, downs, f) && (Sum(m, ups, f) > MAX_INT64 || Sum(m, downs, f) < MIN_INT64)
    ensures Pass64(m, xs + ys, f, 0) != Pass64(m, ys + xs, f, 0)
  {
    PassJoins(m, xs, ys, f, 0);
    PassJoins(m, ys, xs, f, 0);
    var high, low := Pass64(m, xs, f, 0), Pass64(m, ys, f, 0);
    Rising(m, xs, ups, f, 0);
    Falling(m, ys, downs, f, 0);
    Falling(m, ys, downs, f, high);
    Rising(m, xs, ups, f, low);
  }

  // ---- the equivalence ----

  ghost predicate OrderNeverShows(m: map<Hash, Torrent>, keys: set<Hash>, f: Term)
    requires keys <= m.Keys && Terms64(m, f)
  {
    forall a, b :: Enumerates(a, keys) && Enumerates(b, keys) ==> Pass64(m, a, f, 0) == Pass64(m, b, f, 0)
  }

  /** The order of the pass never shows in a saturating sum if and only if all terms have one
      sign or neither the positive nor the negative terms alone overflow. */
  lemma OrderNeverShowsExactly(m: map<Hash, Torrent>, keys: set<Hash>, f: Term)
    requires keys <= m.Keys && Terms64(m, f)
    ensures OrderNeverShows(m, keys, f) <==> Harmless(m, keys, f)
  {
    if Harmless(m, keys, f) {
      forall a, b | Enumerates(a, keys) && Enumerates(b, keys) ensures Pass64(m, a, f, 0) == Pass64(m, b, f, 0) {
        HarmlessPass(m, a, keys, f);
        HarmlessPass(m, b, keys, f);
      }
    } else {
      var a, b := TwoOrders(m, keys, f);
    }
  }

  lemma AllTerms64(m: map<Hash, Torrent>)
    requires AllInRange(m)
    ensures Terms64(m, Size) && Terms64(m, Done) && Terms64(m, LeftTerm)
  {
  }

  lemma {:induction false} FoldedIsThreePasses(m: map<Hash, Torrent>, order: seq<Hash>)
    requires AllInRange(m) && (forall i :: 0 <= i < |order| ==> order[i] in m)
    ensures Terms64(m, Size) && Terms64(m, Done) && Terms64(m, LeftTerm)
    ensures Folded(m, order) ==
              Encoders.Totals(Pass64(m, order, Size, 0), Pass64(m, order, Done, 0), Pass64(m, order, LeftTerm, 0))
  {
    AllTerms64(m);
    if order != [] {
      FoldedIsThreePasses(m, order[..|order| - 1]);
    }
  }

  lemma NonNegativeIsHarmless(m: map<Hash, Torrent>)
    requires AllInRange(m) && NonNegative(m)
    ensures Harmless(m, m.Keys, Size) && Harmless(m, m.Keys, Done) && Harmless(m, m.Keys, LeftTerm)
  {
    assert NoneNegative(m, m.Keys, LeftTerm);
  }

  ghost predicate TotalsNeverVary(m: map<Hash, Torrent>)
    requires AllInRange(m)
  {
    forall a, b :: Enumerates(a, m.Keys) && Enumerates(b, m.Keys) ==> Folded(m, a) == Folded(m, b)
  }

  /** Aggregate's three sums are the same for every iteration order of the map if and only
      if each of the three lists of terms is harmless. */
  lemma TotalsNeverVaryExactly(m: map<Hash, Torrent>)
    requires AllInRange(m)
    ensures TotalsNeverVary(m) <==> Harmless(m, m.Keys, Size) && Harmless(m, m.Keys, Done) && Harmless(m, m.Keys, LeftTerm)
  {
    AllTerms64(m);
    OrderNeverShowsExactly(m, m.Keys, Size);
    OrderNeverShowsExactly(m, m.Keys, Done);
    OrderNeverShowsExactly(m, m.Keys, LeftTerm);
    forall a | Enumerates(a, m.Keys)
      ensures Folded(m, a) == Encoders.Totals(Pass64(m, a, Size, 0), Pass64(m, a, Done, 0), Pass64(m, a, LeftTerm, 0))
    {
      FoldedIsThreePasses(m, a);
    }
  }
}
