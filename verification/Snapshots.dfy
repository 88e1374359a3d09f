/** The list a new subscriber is sent (main.go and ipc/server.go): every committed torrent
    once, by name and then by hash. */
module Snapshots {
  import opened Torrents
  import Orders
  import Sorting

  predicate Before(a: Torrent, b: Torrent) {
    if a.name != b.name then Orders.Less(a.name, b.name) else Orders.Less(a.hash, b.hash)
  }

  predicate Distinct(items: seq<Torrent>) {
    forall i, j :: 0 <= i < j < |items| ==> items[i].hash != items[j].hash
  }

  /** Each value of a torrent map once. */
  predicate Lists(items: seq<Torrent>, m: map<Hash, Torrent>) {
    && (forall i :: 0 <= i < |items| ==> items[i].hash in m && m[items[i].hash] == items[i])
    && (forall h :: h in m ==> m[h] in items)
    && Distinct(items)
  }

  /** The values in the order the snapshot sends them. */
  predicate Listing(items: seq<Torrent>, m: map<Hash, Torrent>) {
    Lists(items, m) && forall i, j :: 0 <= i < j < |items| ==> !Before(items[j], items[i])
  }

  lemma BeforeIsTransitive(a: Torrent, b: Torrent, c: Torrent)
    requires Before(a, b) && Before(b, c)
    ensures Before(a, c)
  {
    if a.name == b.name == c.name {
      Orders.LessIsTransitive(a.hash, b.hash, c.hash);
    } else if a.name != b.name && b.name != c.name {
      Orders.LessIsTransitive(a.name, b.name, c.name);
      if a.name == c.name {
        Orders.LessIsIrreflexive(a.name);
      }
    }
  }

  lemma LessIsStrict(a: string, b: string)
    requires a != b
    ensures Orders.Less(a, b) != Orders.Less(b, a)
  {
    Orders.LessIsTotal(a, b);
    if Orders.Less(a, b) && Orders.Less(b, a) {
      Orders.LessIsTransitive(a, b, a);
      Orders.LessIsIrreflexive(a);
    }
  }

  lemma BeforeIsStrict(a: Torrent, b: Torrent)
    requires a.hash != b.hash
    ensures Before(a, b) != Before(b, a)
  {
    if a.name != b.name {
      LessIsStrict(a.name, b.name);
    } else {
      LessIsStrict(a.hash, b.hash);
    }
  }

  /** The list handed to a new subscriber: the map's values in whatever order it is ranged
      over, then sorted by name and hash. */
  method SnapshotItems(m: map<Hash, Torrent>) returns (items: seq<Torrent>)
    requires forall h :: h in m ==> m[h].hash == h
    ensures Listing(items, m) && ByName(items)
  {
    items := [];
    var todo := m.Keys;
    while todo != {}
      invariant todo <= m.Keys
      invariant forall i :: 0 <= i < |items| ==> items[i].hash in m.Keys - todo && m[items[i].hash] == items[i]
      invariant forall h :: h in m.Keys - todo ==> m[h] in items
      invariant Distinct(items)
      decreases todo
    {
      var h :| h in todo;
      items := items + [m[h]];
      todo := todo - {h};
    }
    var sorted := SortItems(items);
    SortedLists(items, sorted, m);
    items := sorted;
    SortedByName(items);
  }

  /** By name; among equal names by hash. */
  ghost predicate ByName(items: seq<Torrent>) {
    forall i, j :: 0 <= i < j < |items| ==>
      Orders.Precedes(items[i].name, items[j].name) || (items[i].name == items[j].name && Orders.Precedes(items[i].hash, items[j].hash))
  }

  lemma SortedByName(items: seq<Torrent>)
    requires Distinct(items) && forall i, j :: 0 <= i < j < |items| ==> !Before(items[j], items[i])
    ensures ByName(items)
  {
    forall i, j | 0 <= i < j < |items|
      ensures Orders.Precedes(items[i].name, items[j].name) || (items[i].name == items[j].name && Orders.Precedes(items[i].hash, items[j].hash))
    {
      BeforeIsStrict(items[i], items[j]);
      Orders.LessIs(items[i].name, items[j].name);
      Orders.LessIs(items[i].hash, items[j].hash);
    }
  }

  /** sortItems: by name, then by hash. */
  method SortItems(items: seq<Torrent>) returns (sorted: seq<Torrent>)
    requires Distinct(items)
    ensures Sorting.Ascending(Before, sorted) && multiset(sorted) == multiset(items)
  {
    forall a, b, c | Before(a, b) && Before(b, c) ensures Before(a, c) {
      BeforeIsTransitive(a, b, c);
    }
    forall i, j | 0 <= i < j < |items| ensures Before(items[i], items[j]) != Before(items[j], items[i]) {
      BeforeIsStrict(items[i], items[j]);
    }
    sorted := Sorting.Sort(Before, items);
  }

  lemma NotBeforeItself(a: Torrent)
    ensures !Before(a, a)
  {
    Orders.LessIsIrreflexive(a.hash);
  }

  lemma SortedLists(items: seq<Torrent>, sorted: seq<Torrent>, m: map<Hash, Torrent>)
    requires Lists(items, m) && Sorting.Ascending(Before, sorted) && multiset(sorted) == multiset(items)
    ensures Listing(sorted, m)
  {
    forall i | 0 <= i < |sorted| ensures sorted[i] in items {
      assert sorted[i] in multiset(items);
    }
    forall h | h in m ensures m[h] in sorted {
      assert m[h] in multiset(items);
    }
    forall i, j | 0 <= i < j < |sorted| ensures sorted[i].hash != sorted[j].hash && !Before(sorted[j], sorted[i]) {
      assert Before(sorted[i], sorted[j]);
      assert sorted[i] in items && sorted[j] in items;
      NotBeforeItself(sorted[i]);
      BeforeIsStrict(sorted[i], sorted[j]);
    }
  }
}
