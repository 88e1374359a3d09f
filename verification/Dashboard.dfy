/** The dashboard's numbers (state/dashboard.go): one pass over the torrent map in whatever
    order the map yields, saturating sums, and the five fastest torrents. */
module Dashboards {
  import opened Options
  import opened Torrents
  import opened JsonSize
  import Deltas
  import Encoders
  import Orders
  import Sorting

  const ACTIVE_LIST_CAP := 5

  type Item = Encoders.ActiveItem
  type Counts = Encoders.Counts
  type Totals = Encoders.Totals

  datatype Report = Report(counts: Counts, totals: Totals, active: seq<Item>, freeSpace: Option<int>)

  predicate InRange(t: Torrent) {
    Int64(t.size) && Int64(t.completed) && Int64(t.dlSpeed) && Int64(t.upSpeed)
  }

  predicate AllInRange(m: map<Hash, Torrent>) {
    forall h :: h in m ==> InRange(m[h])
  }

  predicate NonNegative(m: map<Hash, Torrent>) {
    forall h :: h in m ==> m[h].size >= 0 && m[h].completed >= 0
  }

  // ---- 64-bit arithmetic ----

  function Clamp(n: int): (r: int)
    ensures Int64(r) && (Int64(n) ==> r == n) && (n > MAX_INT64 ==> r == MAX_INT64) && (n < MIN_INT64 ==> r == MIN_INT64)
  {
    if n > MAX_INT64 then MAX_INT64 else if n < MIN_INT64 then MIN_INT64 else n
  }

  /** satAdd, by its own comparisons; none of them overflows. */
  function SatAdd(a: int, b: int): (r: int)
    requires Int64(a) && Int64(b)
    ensures r == Clamp(a + b)
  {
    if b > 0 && a > MAX_INT64 - b then MAX_INT64
    else if b < 0 && a < MIN_INT64 - b then MIN_INT64
    else a + b
  }

  /** Go's unary minus: the least integer is its own negation. */
  function Negated(n: int): (r: int)
    requires Int64(n)
    ensures Int64(r)
  {
    if n == MIN_INT64 then MIN_INT64 else -n
  }

  // ---- what is counted ----

  datatype Class = IsDownloading | IsSeeding | IsPaused | IsComplete | IsTransferring

  predicate Within(t: Torrent, c: Class) {
    match c
    case IsDownloading => t.state.Downloading?
    case IsSeeding => t.state.Seeding?
    case IsPaused => t.state.Paused?
    case IsComplete => t.progress >= 1.0
    case IsTransferring => t.dlSpeed > 0 || t.upSpeed > 0
  }

  function Members(m: map<Hash, Torrent>, keys: set<Hash>, c: Class): set<Hash> {
    set h | h in keys && h in m && Within(m[h], c)
  }

  function CountsOf(m: map<Hash, Torrent>, keys: set<Hash>): Counts {
    Encoders.Counts(|keys|, |Members(m, keys, IsTransferring)|, |Members(m, keys, IsDownloading)|,
                    |Members(m, keys, IsSeeding)|, |Members(m, keys, IsPaused)|, |Members(m, keys, IsComplete)|)
  }

  lemma MemberAdded(m: map<Hash, Torrent>, keys: set<Hash>, h: Hash, c: Class)
    requires h in m && h !in keys
    ensures |Members(m, keys + {h}, c)| == |Members(m, keys, c)| + if Within(m[h], c) then 1 else 0
  {
    if Within(m[h], c) {
      assert Members(m, keys + {h}, c) == Members(m, keys, c) + {h};
    } else {
      assert Members(m, keys + {h}, c) == Members(m, keys, c);
    }
  }

  // ---- what is summed ----

  function Size(t: Torrent): int { t.size }
  function Done(t: Torrent): int { t.completed }
  function Left(t: Torrent): int { if t.size > t.completed then t.size - t.completed else 0 }

  /** The true sum over a set of torrents. */
  ghost function Sum(m: map<Hash, Torrent>, keys: set<Hash>, f: Torrent -> int): int
    requires keys <= m.Keys
  {
    if keys == {} then 0
    else
      var h :| h in keys;
      f(m[h]) + Sum(m, keys - {h}, f)
  }

  lemma {:induction false} SumAdded(m: map<Hash, Torrent>, keys: set<Hash>, h: Hash, f: Torrent -> int)
    requires keys <= m.Keys && h in m && h !in keys
    ensures Sum(m, keys + {h}, f) == Sum(m, keys, f) + f(m[h])
    decreases |keys|
  {
    var all := keys + {h};
    var g :| g in all && Sum(m, all, f) == f(m[g]) + Sum(m, all - {g}, f);
    if g == h {
      assert all - {g} == keys;
    } else {
      SumAdded(m, keys - {g}, h, f);
      SumAdded(m, keys - {g}, g, f);
      assert all - {g} == keys - {g} + {h};
      assert keys == keys - {g} + {g};
    }
  }

  /** The sums in the order of one pass. */
  function Folded(m: map<Hash, Torrent>, order: seq<Hash>): (t: Totals)
    requires AllInRange(m) && forall i :: 0 <= i < |order| ==> order[i] in m
    ensures Int64(t.size) && Int64(t.completed) && Int64(t.remaining)
  {
    if order == [] then Encoders.Totals(0, 0, 0)
    else Added(Folded(m, order[..|order| - 1]), m[order[|order| - 1]])
  }

  function Added(t: Totals, x: Torrent): (r: Totals)
    requires Int64(t.size) && Int64(t.completed) && Int64(t.remaining) && InRange(x)
    ensures Int64(r.size) && Int64(r.completed) && Int64(r.remaining)
  {
    Encoders.Totals(
      SatAdd(t.size, x.size), SatAdd(t.completed, x.completed),
      if x.size > x.completed then SatAdd(t.remaining, SatAdd(x.size, Negated(x.completed))) else t.remaining)
  }

  predicate Enumerates(order: seq<Hash>, keys: set<Hash>) {
    && (forall i :: 0 <= i < |order| ==> order[i] in keys)
    && (forall h :: h in keys ==> h in order)
    && forall i, j :: 0 <= i < j < |order| ==> order[i] != order[j]
  }

  ghost function TrueTotals(m: map<Hash, Torrent>, keys: set<Hash>): Totals
    requires keys <= m.Keys
  {
    Encoders.Totals(Clamp(Sum(m, keys, Size)), Clamp(Sum(m, keys, Done)), Clamp(Sum(m, keys, Left)))
  }

  lemma {:induction false} SumIsNonNegative(m: map<Hash, Torrent>, keys: set<Hash>, f: Torrent -> int)
    requires keys <= m.Keys && forall h :: h in keys ==> f(m[h]) >= 0
    ensures Sum(m, keys, f) >= 0
    decreases |keys|
  {
    if keys != {} {
      var h :| h in keys && Sum(m, keys, f) == f(m[h]) + Sum(m, keys - {h}, f);
      SumIsNonNegative(m, keys - {h}, f);
    }
  }

  lemma Front(order: seq<Hash>, keys: set<Hash>)
    requires Enumerates(order, keys) && order != []
    ensures var last := order[|order| - 1];
            last in keys && Enumerates(order[..|order| - 1], keys - {last}) && keys == keys - {last} + {last}
  {
    var last, front := order[|order| - 1], order[..|order| - 1];
    forall h | h in keys - {last} ensures h in front {
      var i :| 0 <= i < |order| && order[i] == h;
      assert front[i] == h;
    }
  }

  /** For non-negative sizes every saturating sum is the true sum, clamped once, whatever
      the order of the pass. */
  lemma {:induction false} FoldedIsTrue(m: map<Hash, Torrent>, order: seq<Hash>, keys: set<Hash>)
    requires AllInRange(m) && NonNegative(m) && keys <= m.Keys && Enumerates(order, keys)
    ensures Folded(m, order) == TrueTotals(m, keys)
  {
    if order == [] {
      assert keys == {};
    } else {
      var last, front := order[|order| - 1], order[..|order| - 1];
      var rest := keys - {last};
      Front(order, keys);
      FoldedIsTrue(m, front, rest);
      SumAdded(m, rest, last, Size);
      SumAdded(m, rest, last, Done);
      SumAdded(m, rest, last, Left);
      SumIsNonNegative(m, rest, Size);
      SumIsNonNegative(m, rest, Done);
      SumIsNonNegative(m, rest, Left);
    }
  }

  /** With a negative size the order of the pass shows in the sum. */
  lemma NegativeSizesDependOnOrder() returns (m: map<Hash, Torrent>, a: seq<Hash>, b: seq<Hash>)
    ensures AllInRange(m) && !NonNegative(m) && Enumerates(a, m.Keys) && Enumerates(b, m.Keys)
    ensures Folded(m, a) != Folded(m, b)
  {
    var full, one, minus := ZERO.(size := MAX_INT64), ZERO.(size := 1), ZERO.(size := -1);
    m := map["x" := full, "y" := one, "z" := minus];
    a, b := ["x", "y", "z"], ["x", "z", "y"];
    assert m["z"].size < 0;
    assert a[..2] == ["x", "y"] && b[..2] == ["x", "z"] && a[..2][..1] == b[..2][..1] == ["x"] && ["x"][..0] == [];
    assert Folded(m, ["x"]).size == MAX_INT64;
    assert Folded(m, a[..2]).size == MAX_INT64 && Folded(m, b[..2]).size == MAX_INT64 - 1;
    assert Folded(m, a).size == MAX_INT64 - 1 && Folded(m, b).size == MAX_INT64;
  }

  lemma {:induction false} LeftCovers(m: map<Hash, Torrent>, keys: set<Hash>)
    requires keys <= m.Keys
    ensures Sum(m, keys, Done) + Sum(m, keys, Left) >= Sum(m, keys, Size)
    decreases |keys|
  {
    if keys != {} {
      var h :| h in keys;
      LeftCovers(m, keys - {h});
      SumAdded(m, keys - {h}, h, Size);
      SumAdded(m, keys - {h}, h, Done);
      SumAdded(m, keys - {h}, h, Left);
      assert keys == keys - {h} + {h};
    }
  }

  /** What is done and what remains never add up to less than the total. */
  lemma NothingUnaccounted(m: map<Hash, Torrent>, order: seq<Hash>)
    requires AllInRange(m) && NonNegative(m) && Enumerates(order, m.Keys)
    ensures var t := Folded(m, order); SatAdd(t.completed, t.remaining) >= t.size && t.remaining >= 0
  {
    FoldedIsTrue(m, order, m.Keys);
    LeftCovers(m, m.Keys);
    SumIsNonNegative(m, m.Keys, Done);
    SumIsNonNegative(m, m.Keys, Left);
  }

  // ---- the fastest ----

  datatype Cand = Cand(item: Item, hash: Hash, speed: int)

  predicate Before(a: Cand, b: Cand) {
    if a.speed != b.speed then a.speed > b.speed
    else if a.item.name != b.item.name then Orders.Less(a.item.name, b.item.name)
    else Orders.Less(a.hash, b.hash)
  }

  lemma BeforeIsTransitive(a: Cand, b: Cand, c: Cand)
    requires Before(a, b) && Before(b, c)
    ensures Before(a, c)
  {
    if a.speed == c.speed {
      if a.item.name == c.item.name {
        if a.item.name == b.item.name {
          Orders.LessIsTransitive(a.hash, b.hash, c.hash);
        } else {
          Orders.LessIsTransitive(a.item.name, b.item.name, c.item.name);
          Orders.LessIsIrreflexive(a.item.name);
        }
      } else if a.item.name != b.item.name && b.item.name != c.item.name {
        Orders.LessIsTransitive(a.item.name, b.item.name, c.item.name);
      }
    }
  }

  lemma BeforeIsTotal(a: Cand, b: Cand)
    ensures a.hash != b.hash ==> Before(a, b) || Before(b, a)
    ensures !(Before(a, b) && Before(b, a))
  {
    Orders.LessIsTotal(a.item.name, b.item.name);
    Orders.LessIsTotal(a.hash, b.hash);
    if Before(a, b) && Before(b, a) {
      BeforeIsTransitive(a, b, a);
      Orders.LessIsIrreflexive(a.hash);
    }
  }

  predicate Ascending(cs: seq<Cand>) {
    Sorting.Ascending(Before, cs)
  }

  function CandOf(h: Hash, t: Torrent): Cand
    requires InRange(t)
  {
    Cand(Encoders.ActiveItem(t.name, Deltas.PhaseText(t.state), t.progress, t.dlSpeed, t.upSpeed), h, SatAdd(t.dlSpeed, t.upSpeed))
  }

  /** The transferring torrents among `keys`, one entry each. */
  predicate Collects(m: map<Hash, Torrent>, keys: set<Hash>, cs: seq<Cand>)
    requires AllInRange(m)
  {
    && (forall i :: 0 <= i < |cs| ==> cs[i].hash in Members(m, keys, IsTransferring) && cs[i] == CandOf(cs[i].hash, m[cs[i].hash]))
    && (forall h :: h in Members(m, keys, IsTransferring) ==> CandOf(h, m[h]) in cs)
    && (forall i, j :: 0 <= i < j < |cs| ==> cs[i].hash != cs[j].hash)
  }

  /** All of them, fastest first, ties by name, then by hash. */
  predicate Ranked(m: map<Hash, Torrent>, cs: seq<Cand>)
    requires AllInRange(m)
  {
    Collects(m, m.Keys, cs) && Ascending(cs)
  }

  /** There is exactly one ranking of a map: the strict total order leaves no choice. */
  lemma OneRanking(m: map<Hash, Torrent>, a: seq<Cand>, b: seq<Cand>)
    requires AllInRange(m) && Ranked(m, a) && Ranked(m, b)
    ensures a == b
  {
    forall c | c in a ensures c in b {
      assert c == CandOf(c.hash, m[c.hash]);
    }
    forall c | c in b ensures c in a {
      assert c == CandOf(c.hash, m[c.hash]);
    }
    forall c, e | c in a && e in a ensures !(Before(c, e) && Before(e, c)) {
      BeforeIsTotal(c, e);
    }
    Sorting.AscendingIsUnique(Before, a, b);
  }

  /** sort.SliceStable with the code's comparison. */
  method SortCands(cs: seq<Cand>) returns (r: seq<Cand>)
    requires forall i, j :: 0 <= i < j < |cs| ==> cs[i].hash != cs[j].hash
    ensures Ascending(r) && multiset(r) == multiset(cs)
  {
    forall a, b, c | Before(a, b) && Before(b, c) ensures Before(a, c) {
      BeforeIsTransitive(a, b, c);
    }
    forall i, j | 0 <= i < j < |cs| ensures Before(cs[i], cs[j]) != Before(cs[j], cs[i]) {
      BeforeIsTotal(cs[i], cs[j]);
    }
    r := Sorting.Sort(Before, cs);
  }

  // ---- the pass ----

  function Items(cs: seq<Cand>): (r: seq<Item>)
    ensures |r| == |cs|
  {
    seq(|cs|, i requires 0 <= i < |cs| => cs[i].item)
  }

  function FirstFive(cs: seq<Cand>): seq<Cand> {
    if |cs| > ACTIVE_LIST_CAP then cs[..ACTIVE_LIST_CAP] else cs
  }

  /** What the dashboard must say about a map of non-negative sizes. */
  ghost predicate Reports(m: map<Hash, Torrent>, freeSpace: Option<int>, d: Report)
    requires AllInRange(m)
  {
    && d.counts == CountsOf(m, m.Keys) && d.totals == TrueTotals(m, m.Keys) && d.freeSpace == freeSpace
    && exists ranking :: Ranked(m, ranking) && d.active == Items(FirstFive(ranking))
  }

  function WithCand(cs: seq<Cand>, h: Hash, t: Torrent): seq<Cand>
    requires InRange(t)
  {
    if t.dlSpeed > 0 || t.upSpeed > 0 then cs + [CandOf(h, t)] else cs
  }

  lemma CollectedOne(m: map<Hash, Torrent>, keys: set<Hash>, h: Hash, cs: seq<Cand>)
    requires AllInRange(m) && h in m && h !in keys && Collects(m, keys, cs) && Within(m[h], IsTransferring)
    ensures Collects(m, keys + {h}, cs + [CandOf(h, m[h])])
  {
    var c := CandOf(h, m[h]);
    assert Members(m, keys + {h}, IsTransferring) == Members(m, keys, IsTransferring) + {h};
    forall g | g in Members(m, keys + {h}, IsTransferring) ensures CandOf(g, m[g]) in cs + [c] {
      if g != h {
        assert g in Members(m, keys, IsTransferring);
      }
    }
  }

  lemma Collected(m: map<Hash, Torrent>, keys: set<Hash>, h: Hash, cs: seq<Cand>)
    requires AllInRange(m) && h in m && h !in keys && Collects(m, keys, cs)
    ensures Collects(m, keys + {h}, WithCand(cs, h, m[h]))
  {
    if Within(m[h], IsTransferring) {
      CollectedOne(m, keys, h, cs);
    } else {
      assert Members(m, keys + {h}, IsTransferring) == Members(m, keys, IsTransferring);
    }
  }

  lemma SortedRanks(m: map<Hash, Torrent>, cs: seq<Cand>, sorted: seq<Cand>)
    requires AllInRange(m) && Collects(m, m.Keys, cs) && Ascending(sorted) && multiset(sorted) == multiset(cs)
    ensures Ranked(m, sorted)
  {
    forall i | 0 <= i < |sorted|
      ensures sorted[i].hash in Members(m, m.Keys, IsTransferring) && sorted[i] == CandOf(sorted[i].hash, m[sorted[i].hash])
    {
      assert sorted[i] in multiset(cs);
      var j :| 0 <= j < |cs| && cs[j] == sorted[i];
    }
    forall h | h in Members(m, m.Keys, IsTransferring) ensures CandOf(h, m[h]) in sorted {
      assert CandOf(h, m[h]) in multiset(cs);
    }
    forall i, j | 0 <= i < j < |sorted| ensures sorted[i].hash != sorted[j].hash {
      assert Before(sorted[i], sorted[j]);
      assert sorted[i] in multiset(cs) && sorted[j] in multiset(cs);
      BeforeIsTotal(sorted[i], sorted[i]);
    }
  }

  datatype Tally = Tally(counts: Counts, totals: Totals, cands: seq<Cand>)

  const NO_TALLY := Tally(Encoders.Counts(0, 0, 0, 0, 0, 0), Encoders.Totals(0, 0, 0), [])

  function CountedOne(c: Counts, t: Torrent): Counts {
    Encoders.Counts(
      c.total + 1, if Within(t, IsTransferring) then c.active + 1 else c.active,
      if Within(t, IsDownloading) then c.downloading + 1 else c.downloading,
      if Within(t, IsSeeding) then c.seeding + 1 else c.seeding,
      if Within(t, IsPaused) then c.paused + 1 else c.paused,
      if Within(t, IsComplete) then c.completed + 1 else c.completed)
  }

  /** What a pass holds after ranging over `order`. */
  function Along(m: map<Hash, Torrent>, order: seq<Hash>): (t: Tally)
    requires AllInRange(m) && forall i :: 0 <= i < |order| ==> order[i] in m
    ensures t.totals == Folded(m, order)
  {
    if order == [] then NO_TALLY
    else
      Taken(Along(m, order[..|order| - 1]), order[|order| - 1], m[order[|order| - 1]])
  }

  lemma CountedMore(m: map<Hash, Torrent>, keys: set<Hash>, h: Hash)
    requires h in m && h !in keys
    ensures CountsOf(m, keys + {h}) == CountedOne(CountsOf(m, keys), m[h])
  {
    MemberAdded(m, keys, h, IsTransferring);
    MemberAdded(m, keys, h, IsDownloading);
    MemberAdded(m, keys, h, IsSeeding);
    MemberAdded(m, keys, h, IsPaused);
    MemberAdded(m, keys, h, IsComplete);
  }

  /** Counters and candidates come out the same for every order of the pass. */
  lemma {:induction false} AlongIs(m: map<Hash, Torrent>, order: seq<Hash>, keys: set<Hash>)
    requires AllInRange(m) && keys <= m.Keys && Enumerates(order, keys)
    ensures var t := Along(m, order); t.counts == CountsOf(m, keys) && Collects(m, keys, t.cands)
  {
    if order == [] {
      assert keys == {} && forall c :: Members(m, {}, c) == {};
    } else {
      var h, front := order[|order| - 1], order[..|order| - 1];
      Front(order, keys);
      AlongIs(m, front, keys - {h});
      CountedMore(m, keys - {h}, h);
      Collected(m, keys - {h}, h, Along(m, front).cands);
    }
  }

  function Taken(t: Tally, h: Hash, x: Torrent): Tally
    requires InRange(x) && Int64(t.totals.size) && Int64(t.totals.completed) && Int64(t.totals.remaining)
  {
    Tally(CountedOne(t.counts, x), Added(t.totals, x), WithCand(t.cands, h, x))
  }

  /** The loop body. */
  method TakeOne(t: Tally, h: Hash, x: Torrent) returns (r: Tally)
    requires InRange(x) && Int64(t.totals.size) && Int64(t.totals.completed) && Int64(t.totals.remaining)
    ensures r == Taken(t, h, x)
  {
    var counts, cands := t.counts.(total := t.counts.total + 1), t.cands;
    match x.state {
      case Downloading => counts := counts.(downloading := counts.downloading + 1);
      case Seeding => counts := counts.(seeding := counts.seeding + 1);
      case Paused => counts := counts.(paused := counts.paused + 1);
      case _ =>
    }
    if x.progress >= 1.0 {
      counts := counts.(completed := counts.completed + 1);
    }
    var size := SatAdd(t.totals.size, x.size);
    var completed := SatAdd(t.totals.completed, x.completed);
    var remaining := t.totals.remaining;
    if x.size > x.completed {
      remaining := SatAdd(remaining, SatAdd(x.size, Negated(x.completed)));
    }
    if x.dlSpeed > 0 || x.upSpeed > 0 {
      counts := counts.(active := counts.active + 1);
      cands := cands + [CandOf(h, x)];
    }
    r := Tally(counts, Encoders.Totals(size, completed, remaining), cands);
  }

  lemma AlongMore(m: map<Hash, Torrent>, order: seq<Hash>, h: Hash)
    requires AllInRange(m) && h in m && forall i :: 0 <= i < |order| ==> order[i] in m
    ensures Along(m, order + [h]) == Taken(Along(m, order), h, m[h])
  {
    assert (order + [h])[..|order|] == order;
  }

  lemma EnumeratesMore(order: seq<Hash>, keys: set<Hash>, h: Hash)
    requires Enumerates(order, keys) && h !in keys
    ensures Enumerates(order + [h], keys + {h})
  {
  }

  /** The pass over the map, in the order the map happened to be ranged over. */
  method Pass(m: map<Hash, Torrent>) returns (t: Tally, ghost order: seq<Hash>)
    requires AllInRange(m)
    ensures Enumerates(order, m.Keys) && t.totals == Folded(m, order)
    ensures t.counts == CountsOf(m, m.Keys) && Collects(m, m.Keys, t.cands)
  {
    t := NO_TALLY;
    var rest := m.Keys;
    order := [];
    while rest != {}
      invariant rest <= m.Keys && Enumerates(order, m.Keys - rest) && t == Along(m, order)
      decreases |rest|
    {
      var h :| h in rest;
      AlongMore(m, order, h);
      EnumeratesMore(order, m.Keys - rest, h);
      t := TakeOne(t, h, m[h]);
      order := order + [h];
      assert m.Keys - rest + {h} == m.Keys - (rest - {h});
      rest := rest - {h};
    }
    assert m.Keys - rest == m.Keys;
    AlongIs(m, order, m.Keys);
  }

  method Aggregate(m: map<Hash, Torrent>, freeSpace: Option<int>) returns (d: Report, ghost order: seq<Hash>)
    requires AllInRange(m)
    ensures Enumerates(order, m.Keys) && d.totals == Folded(m, order) && d.counts == CountsOf(m, m.Keys)
    ensures exists ranking :: Ranked(m, ranking) && d.active == Items(FirstFive(ranking))
    ensures NonNegative(m) ==> Reports(m, freeSpace, d)
    ensures d.freeSpace == freeSpace && Counted(m, d.counts) && exists ranking :: Fastest(m, ranking, d.active)
  {
    var t;
    t, order := Pass(m);
    var sorted := SortCands(t.cands);
    SortedRanks(m, t.cands, sorted);
    d := Report(t.counts, t.totals, Items(FirstFive(sorted)), freeSpace);
    CountsAre(m);
    RankedIsFastest(m, sorted);
    if NonNegative(m) {
      FoldedIsTrue(m, order, m.Keys);
    }
  }

  // ---- the report, read on the torrents ----

  predicate Counted(m: map<Hash, Torrent>, c: Counts) {
    && c.total == |m|
    && c.active == |set h | h in m && (m[h].dlSpeed > 0 || m[h].upSpeed > 0)|
    && c.downloading == |set h | h in m && m[h].state == Downloading|
    && c.seeding == |set h | h in m && m[h].state == Seeding|
    && c.paused == |set h | h in m && m[h].state == Paused|
    && c.completed == |set h | h in m && m[h].progress >= 1.0|
  }

  lemma CountsAre(m: map<Hash, Torrent>)
    ensures Counted(m, CountsOf(m, m.Keys))
  {
    assert Members(m, m.Keys, IsTransferring) == set h | h in m && (m[h].dlSpeed > 0 || m[h].upSpeed > 0);
    assert Members(m, m.Keys, IsDownloading) == set h | h in m && m[h].state == Downloading;
    assert Members(m, m.Keys, IsSeeding) == set h | h in m && m[h].state == Seeding;
    assert Members(m, m.Keys, IsPaused) == set h | h in m && m[h].state == Paused;
    assert Members(m, m.Keys, IsComplete) == set h | h in m && m[h].progress >= 1.0;
  }

  /** Its speed is the true sum of both directions unless that overflows. */
  predicate SpeedIs(t: Torrent, speed: int) {
    var sum := t.dlSpeed + t.upSpeed;
    if sum > MAX_INT64 then speed == MAX_INT64 else if sum < MIN_INT64 then speed == MIN_INT64 else speed == sum
  }

  predicate ItemIs(t: Torrent, x: Item) {
    x.name == t.name && x.state == Deltas.PhaseText(t.state) && x.progress == t.progress && x.dlSpeed == t.dlSpeed && x.upSpeed == t.upSpeed
  }

  /** Each transferring torrent once, by falling speed, among equals by name and then by hash;
      shown are the first five. */
  ghost predicate Fastest(m: map<Hash, Torrent>, ranking: seq<Cand>, shown: seq<Item>) {
    && (forall h :: h in m && (m[h].dlSpeed > 0 || m[h].upSpeed > 0) ==> exists i :: 0 <= i < |ranking| && ranking[i].hash == h)
    && (forall i :: 0 <= i < |ranking| ==>
          ranking[i].hash in m && (m[ranking[i].hash].dlSpeed > 0 || m[ranking[i].hash].upSpeed > 0)
          && SpeedIs(m[ranking[i].hash], ranking[i].speed) && ItemIs(m[ranking[i].hash], ranking[i].item))
    && (forall i, j :: 0 <= i < j < |ranking| ==> ranking[i].hash != ranking[j].hash && Faster(ranking[i], ranking[j]))
    && |shown| == (if |ranking| < 5 then |ranking| else 5)
    && (forall i :: 0 <= i < |shown| ==> shown[i] == ranking[i].item)
  }

  ghost predicate Faster(a: Cand, b: Cand) {
    || a.speed > b.speed
    || (a.speed == b.speed && Orders.Precedes(a.item.name, b.item.name))
    || (a.speed == b.speed && a.item.name == b.item.name && Orders.Precedes(a.hash, b.hash))
  }

  lemma BeforeIsFaster(a: Cand, b: Cand)
    ensures Before(a, b) ==> Faster(a, b)
  {
    Orders.LessIs(a.item.name, b.item.name);
    Orders.LessIs(a.hash, b.hash);
  }

  lemma RankedIsFastest(m: map<Hash, Torrent>, ranking: seq<Cand>)
    requires AllInRange(m) && Ranked(m, ranking)
    ensures Fastest(m, ranking, Items(FirstFive(ranking)))
  {
    forall h | h in m && (m[h].dlSpeed > 0 || m[h].upSpeed > 0) ensures exists i :: 0 <= i < |ranking| && ranking[i].hash == h {
      assert h in Members(m, m.Keys, IsTransferring);
      var i :| 0 <= i < |ranking| && ranking[i] == CandOf(h, m[h]);
    }
    forall i | 0 <= i < |ranking|
      ensures ranking[i].hash in m && (m[ranking[i].hash].dlSpeed > 0 || m[ranking[i].hash].upSpeed > 0)
      ensures SpeedIs(m[ranking[i].hash], ranking[i].speed) && ItemIs(m[ranking[i].hash], ranking[i].item)
    {
      assert ranking[i].hash in Members(m, m.Keys, IsTransferring);
    }
    forall i, j | 0 <= i < j < |ranking| ensures Faster(ranking[i], ranking[j]) {
      BeforeIsFaster(ranking[i], ranking[j]);
    }
  }

  /** Two reports on one map are equal: map iteration order never shows. */
  lemma ReportIsUnique(m: map<Hash, Torrent>, freeSpace: Option<int>, d: Report, e: Report)
    requires AllInRange(m) && Reports(m, freeSpace, d) && Reports(m, freeSpace, e)
    ensures d == e
  {
    var a :| Ranked(m, a) && d.active == Items(FirstFive(a));
    var b :| Ranked(m, b) && e.active == Items(FirstFive(b));
    OneRanking(m, a, b);
  }
}
