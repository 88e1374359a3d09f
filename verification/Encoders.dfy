/** The two encoders that shrink their payload until it fits (ipc/protocol.go,
    EncodeSnapshotItem and EncodeDashboardStatus). */
module Encoders {
  import opened Options
  import opened Torrents
  import opened JsonSize
  import opened Deltas
  import opened SyncSpec

  /** Cut to a proper prefix and marked with an ellipsis, or left whole. */
  predicate Truncates(cut: string, s: string) {
    cut == s || (0 < |cut| <= |s| && cut == s[..|cut| - 1] + "\U{2026}")
  }

  lemma CapTruncates(name: string, s: string, max: nat)
    requires max > 0 && Truncates(name, s)
    ensures Truncates(CapRunes(name, max), s)
    ensures |CapRunes(name, max)| == if |name| <= max then |name| else max
  {
    var cut := CapRunes(name, max);
    if |name| > max {
      assert cut[..max - 1] == name[..max - 1];
      assert name[..max - 1] == s[..max - 1];
      assert cut == cut[..max - 1] + "\U{2026}";
    }
  }

  // ---- snapshot items ----

  const SNAPSHOT_KEYS := 71
  const SNAPSHOT_MIN_NAME := 32

  function SnapshotLen(size: Measure, id: int, index: int, t: Torrent): nat {
    SNAPSHOT_KEYS + IntLen(id) + IntLen(index) + size(t)
  }

  /** Even with this cut of the name, of at most 32 runes, the frame does not fit. */
  predicate TooLongAt(size: Measure, id: int, index: int, t: Torrent, name: string) {
    && Truncates(name, t.name) && |name| <= SNAPSHOT_MIN_NAME
    && SnapshotLen(size, id, index, t.(name := name, category := CapRunes(t.category, CATEGORY_CAP))) + 1 > MAX_FRAME
  }

  /** Halves the name while the frame is too long and the name longer than 32 runes; gives
      up only if that does not help. */
  method EncodeSnapshotItem(size: Measure, id: int, index: int, t: Torrent) returns (r: Option<Torrent>)
    ensures r.Some? ==>
              && SnapshotLen(size, id, index, r.value) + 1 <= MAX_FRAME
              && Truncates(r.value.name, t.name)
              && r.value == t.(name := r.value.name, category := CapRunes(t.category, CATEGORY_CAP))
    ensures var whole := t.(name := CapName(t.name), category := CapRunes(t.category, CATEGORY_CAP));
            SnapshotLen(size, id, index, whole) + 1 <= MAX_FRAME ==> r == Some(whole)
    ensures r.None? ==> exists name :: TooLongAt(size, id, index, t, name)
  {
    CapTruncates(t.name, t.name, NAME_CAP);
    var item := t.(name := CapName(t.name), category := CapRunes(t.category, CATEGORY_CAP));
    while SnapshotLen(size, id, index, item) + 1 > MAX_FRAME && |item.name| > SNAPSHOT_MIN_NAME
      invariant Truncates(item.name, t.name)
      invariant item == t.(name := item.name, category := CapRunes(t.category, CATEGORY_CAP))
      invariant item.name == CapName(t.name) ||
                SnapshotLen(size, id, index, t.(name := CapName(t.name), category := CapRunes(t.category, CATEGORY_CAP))) + 1 > MAX_FRAME
      decreases |item.name|
    {
      CapTruncates(item.name, t.name, |item.name| / 2);
      item := item.(name := CapRunes(item.name, |item.name| / 2));
    }
    if SnapshotLen(size, id, index, item) + 1 > MAX_FRAME {
      assert TooLongAt(size, id, index, t, item.name);
      return None;
    }
    r := Some(item);
  }

  predicate SmallInts(t: Torrent) {
    Int64(t.dlSpeed) && Int64(t.upSpeed) && Int64(t.eta) && Int64(t.size) && Int64(t.completed)
  }

  /** An item the syncer normalised always fits once its name is down to 32 runes, so its
      snapshot frame is never refused. */
  lemma ShortItemFits(fw: Widths, id: int, index: int, t: Torrent)
    requires FloatWidths(fw) && Int64(id) && Int64(index) && SmallInts(t)
    requires ValidHash(t.hash) && |t.name| <= SNAPSHOT_MIN_NAME && |t.category| <= CATEGORY_CAP
    ensures SnapshotLen(JsonItem(fw), id, index, t) + 1 <= MAX_FRAME
  {
    ItemBound(fw, t);
    IntBound(id);
    IntBound(index);
  }

  lemma ItemBound(fw: Widths, t: Torrent)
    requires FloatWidths(fw) && SmallInts(t)
    ensures ItemLen(fw, t) <= 300 + StringLen(t.hash) + StringLen(t.name) + StringLen(t.category)
  {
    IntBound(t.dlSpeed);
    IntBound(t.upSpeed);
    IntBound(t.eta);
    IntBound(t.size);
    IntBound(t.completed);
    assert fw(t.progress) <= MAX_FLOAT_WIDTH && fw(t.ratio) <= MAX_FLOAT_WIDTH;
    assert |PhaseText(t.state)| <= 11;
  }

  method EncodeNormalItem(fw: Widths, id: int, index: int, t: Torrent) returns (r: Option<Torrent>)
    requires FloatWidths(fw) && Int64(id) && Int64(index) && SmallInts(t) && ValidHash(t.hash)
    ensures r.Some?
    ensures SnapshotLen(JsonItem(fw), id, index, r.value) + 1 <= MAX_FRAME && Truncates(r.value.name, t.name)
  {
    r := EncodeSnapshotItem(JsonItem(fw), id, index, t);
    if r.None? {
      var category := CapRunes(t.category, CATEGORY_CAP);
      ghost var name :| TooLongAt(JsonItem(fw), id, index, t, name);
      ShortItemFits(fw, id, index, t.(name := name, category := category));
    }
  }

  // ---- the delta encoder has no such fallback ----

  lemma {:induction false} EscapedLen(s: string)
    requires forall i :: 0 <= i < |s| ==> s[i] == '<'
    ensures CharsLen(s) == 6 * |s|
  {
    if s != "" {
      EscapedLen(s[..|s| - 1]);
    }
  }

  /** A normalised torrent whose capped name and category are all '<' has no delta frame, so
      any event that changes it ends the subscription, although with its name cut to 32
      runes, the shortest cut the snapshot loop may come to, it fits a snapshot frame. */
  lemma DeltaCanFailWhereSnapshotFits(fw: Widths, id: int, index: int) returns (t: Torrent, cut: string)
    requires FloatWidths(fw) && Int64(id) && Int64(index)
    ensures ValidHash(t.hash) && SmallInts(t) && |t.category| <= CATEGORY_CAP
    ensures !Frameable(JsonItem(fw), Change(1, [t], []))
    ensures Truncates(cut, t.name) && |cut| == SNAPSHOT_MIN_NAME
    ensures SnapshotLen(JsonItem(fw), id, index, t.(name := cut)) + 1 <= MAX_FRAME
  {
    var hash := seq(40, _ => 'a');
    var name := seq(NAME_CAP, _ => '<');
    var category := seq(CATEGORY_CAP, _ => '<');
    EscapedLen(name);
    EscapedLen(category);
    t := ZERO.(hash := hash, name := name, category := category);
    assert CapItem(t) == t;
    var ev := Change(1, [t], []);
    assert ev.changed[0] == t;
    assert ItemLen(fw, t) > BUDGET;
    cut := CapRunes(name, SNAPSHOT_MIN_NAME);
    CapTruncates(name, name, SNAPSHOT_MIN_NAME);
    ShortItemFits(fw, id, index, t.(name := cut));
  }

  /** The halving of snapshot names is not mere defence: a normalised torrent exists whose
      capped item does not fit whole. */
  lemma HalvingIsNeeded(fw: Widths, id: nat, index: nat) returns (t: Torrent)
    requires FloatWidths(fw)
    ensures ValidHash(t.hash) && SmallInts(t) && CapName(t.name) == t.name && |t.category| <= CATEGORY_CAP
    ensures SnapshotLen(JsonItem(fw), id, index, t) + 1 > MAX_FRAME
  {
    var hash := seq(64, _ => 'a');
    var name := seq(NAME_CAP, _ => '<');
    var category := seq(CATEGORY_CAP, _ => '<');
    EscapedLen(name);
    EscapedLen(category);
    t := ZERO.(hash := hash, name := name, category := category);
  }

  // ---- dashboard ----

  datatype Counts = Counts(total: int, active: int, downloading: int, seeding: int, paused: int, completed: int)

  datatype Totals = Totals(size: int, completed: int, remaining: int)

  datatype ActiveItem = ActiveItem(name: string, state: string, progress: real, dlSpeed: int, upSpeed: int)

  datatype LastKnown = LastKnown(appVersion: string, webApi: string, counts: Counts, totals: Totals)

  datatype Dashboard = Dashboard(
    appVersion: string, webApi: string, dlSpeed: int, upSpeed: int, freeSpace: Option<int>,
    counts: Counts, totals: Totals, active: seq<ActiveItem>, lastKnown: Option<LastKnown>)

  datatype DashboardFrame = Degraded(lastKnown: Option<LastKnown>) | Live(data: Dashboard)

  const NAME_CAPS_FROM := 48
  const NAME_CAPS_TO := 12
  const VERSION_CAP := 64
  const ACTIVE_CAP := 5

  const LIVE_KEYS := 157
  const FREE_KEYS := 14
  const COUNTS_KEYS := 69
  const TOTALS_KEYS := 53
  const ACTIVE_KEYS := 54
  const DEGRADED_KEYS := 74
  const LAST_KNOWN_KEYS := 71

  function CountsLen(c: Counts): nat {
    COUNTS_KEYS + IntLen(c.total) + IntLen(c.active) + IntLen(c.downloading) + IntLen(c.seeding) + IntLen(c.paused) + IntLen(c.completed)
  }

  function TotalsLen(t: Totals): nat {
    TOTALS_KEYS + IntLen(t.size) + IntLen(t.completed) + IntLen(t.remaining)
  }

  function ActiveItemLen(fw: Widths, a: ActiveItem): nat {
    ACTIVE_KEYS + StringLen(a.name) + CharsLen(a.state) + fw(a.progress) + IntLen(a.dlSpeed) + IntLen(a.upSpeed)
  }

  function ActiveLen(fw: Widths, items: seq<ActiveItem>): nat {
    if items == [] then 0 else ActiveLen(fw, items[..|items| - 1]) + ActiveItemLen(fw, items[|items| - 1])
  }

  function BaseLen(id: int, d: Dashboard): nat {
    LIVE_KEYS + IntLen(id) + StringLen(d.appVersion) + StringLen(d.webApi) + IntLen(d.dlSpeed) + IntLen(d.upSpeed)
    + (if d.freeSpace.Some? then FREE_KEYS + IntLen(d.freeSpace.value) else 0) + CountsLen(d.counts) + TotalsLen(d.totals)
  }

  function DashboardLen(fw: Widths, id: int, f: DashboardFrame): nat {
    match f
    case Live(d) => BaseLen(id, d) + ActiveLen(fw, d.active) + Commas(|d.active|)
    case Degraded(None) => DEGRADED_KEYS + IntLen(id)
    case Degraded(Some(k)) =>
      DEGRADED_KEYS + IntLen(id) + LAST_KNOWN_KEYS + StringLen(k.appVersion) + StringLen(k.webApi) + CountsLen(k.counts) + TotalsLen(k.totals)
  }

  function CapVersion(s: string): string {
    CapRunes(s, VERSION_CAP)
  }

  /** The first n active entries with their names capped. */
  function Shown(active: seq<ActiveItem>, n: nat, nameCap: nat): (r: seq<ActiveItem>)
    requires n <= |active| && nameCap > 0
    ensures |r| == n
  {
    seq(n, i requires 0 <= i < n => active[i].(name := CapRunes(active[i].name, nameCap)))
  }

  function LiveFrame(d: Dashboard, n: nat, nameCap: nat): DashboardFrame
    requires n <= |d.active| && nameCap > 0
  {
    Live(d.(appVersion := CapVersion(d.appVersion), webApi := CapVersion(d.webApi),
            active := Shown(d.active, n, nameCap), lastKnown := None))
  }

  type FrameMeasure = DashboardFrame -> nat

  predicate Fits(size: FrameMeasure, f: DashboardFrame) {
    size(f) + 1 <= MAX_FRAME
  }

  function JsonFrame(fw: Widths, id: int): FrameMeasure {
    f => DashboardLen(fw, id, f)
  }

  predicate CountInts(c: Counts) {
    Int64(c.total) && Int64(c.active) && Int64(c.downloading) && Int64(c.seeding) && Int64(c.paused) && Int64(c.completed)
  }

  predicate TotalInts(t: Totals) {
    Int64(t.size) && Int64(t.completed) && Int64(t.remaining)
  }

  predicate DashboardInts(id: int, d: Dashboard) {
    && Int64(id) && Int64(d.dlSpeed) && Int64(d.upSpeed) && (d.freeSpace.Some? ==> Int64(d.freeSpace.value))
    && CountInts(d.counts) && TotalInts(d.totals)
    && (d.lastKnown.Some? ==> CountInts(d.lastKnown.value.counts) && TotalInts(d.lastKnown.value.totals))
  }

  lemma CountsBound(c: Counts)
    requires CountInts(c)
    ensures CountsLen(c) <= COUNTS_KEYS + 120
  {
    IntBound(c.total);
    IntBound(c.active);
    IntBound(c.downloading);
    IntBound(c.seeding);
    IntBound(c.paused);
    IntBound(c.completed);
  }

  lemma TotalsBound(t: Totals)
    requires TotalInts(t)
    ensures TotalsLen(t) <= TOTALS_KEYS + 60
  {
    IntBound(t.size);
    IntBound(t.completed);
    IntBound(t.remaining);
  }

  /** With nothing in the active list the live frame always fits. */
  lemma BaseFits(fw: Widths, id: int, d: Dashboard)
    requires DashboardInts(id, d)
    ensures Fits(JsonFrame(fw, id), LiveFrame(d, 0, NAME_CAPS_TO))
  {
    IntBound(id);
    IntBound(d.dlSpeed);
    IntBound(d.upSpeed);
    if d.freeSpace.Some? {
      IntBound(d.freeSpace.value);
    }
    CountsBound(d.counts);
    TotalsBound(d.totals);
    assert |CapVersion(d.appVersion)| <= VERSION_CAP && |CapVersion(d.webApi)| <= VERSION_CAP;
  }

  lemma DegradedFits(fw: Widths, id: int, d: Dashboard)
    requires DashboardInts(id, d)
    ensures Fits(JsonFrame(fw, id), DegradedFrame(d))
  {
    IntBound(id);
    if d.lastKnown.Some? {
      var k := d.lastKnown.value;
      CountsBound(k.counts);
      TotalsBound(k.totals);
      assert |CapVersion(k.appVersion)| <= VERSION_CAP && |CapVersion(k.webApi)| <= VERSION_CAP;
    }
  }

  function Most(d: Dashboard): nat {
    if |d.active| <= ACTIVE_CAP then |d.active| else ACTIVE_CAP
  }

  /** The first attempt that fits, in the order the loop tries: all of the first five
      entries with names capped at 48, 24 and 12 runes, then fewer and fewer entries. */
  ghost predicate FirstFit(size: FrameMeasure, d: Dashboard, n: nat, nameCap: nat) {
    && n <= Most(d)
    && (nameCap == 48 || nameCap == 24 || nameCap == 12)
    && Fits(size, LiveFrame(d, n, nameCap))
    && (nameCap < 48 ==> !Fits(size, LiveFrame(d, Most(d), 48)))
    && (nameCap < 24 ==> !Fits(size, LiveFrame(d, Most(d), 24)))
    && (n < Most(d) ==> nameCap == 12 && forall k: nat :: n < k <= Most(d) ==> !Fits(size, LiveFrame(d, k, 12)))
  }

  /** The loop of the live shape, under any measure by which the empty list fits: it ends
      at the first attempt that fits, never indexes past the shortened list, and the
      branch that gives up with nothing left to drop is dead. */
  method Shrink(size: FrameMeasure, d: Dashboard) returns (frame: DashboardFrame)
    requires Fits(size, LiveFrame(d, 0, NAME_CAPS_TO))
    ensures exists n, nameCap :: FirstFit(size, d, n, nameCap) && frame == LiveFrame(d, n, nameCap)
  {
    var nameCap := NAME_CAPS_FROM;
    var n := Most(d);
    while true
      invariant n <= Most(d)
      invariant nameCap == 48 || nameCap == 24 || nameCap == 12
      invariant nameCap < 48 ==> !Fits(size, LiveFrame(d, Most(d), 48))
      invariant nameCap < 24 ==> !Fits(size, LiveFrame(d, Most(d), 24))
      invariant n < Most(d) ==> nameCap == 12 && forall k: nat :: n < k <= Most(d) ==> !Fits(size, LiveFrame(d, k, 12))
      decreases nameCap, n
    {
      var items := Refill(d.active, n, nameCap);
      frame := Live(d.(appVersion := CapVersion(d.appVersion), webApi := CapVersion(d.webApi), active := items, lastKnown := None));
      assert frame == LiveFrame(d, n, nameCap);
      if size(frame) + 1 <= MAX_FRAME {
        assert FirstFit(size, d, n, nameCap);
        return;
      }
      if nameCap > NAME_CAPS_TO {
        nameCap := nameCap / 2;
      } else if n == 0 {
        assert false;
      } else {
        n := n - 1;
      }
    }
  }

  /** The refill loop, over the current length only. */
  method Refill(active: seq<ActiveItem>, n: nat, nameCap: nat) returns (items: seq<ActiveItem>)
    requires n <= |active| && nameCap > 0
    ensures items == Shown(active, n, nameCap)
  {
    items := [];
    for i := 0 to n
      invariant items == Shown(active, n, nameCap)[..i]
    {
      var name := CapRunes(active[i].name, nameCap);
      items := items + [active[i].(name := name)];
    }
  }

  function DegradedFrame(d: Dashboard): DashboardFrame {
    Degraded(if d.lastKnown.None? then None
             else Some(d.lastKnown.value.(appVersion := CapVersion(d.lastKnown.value.appVersion),
                                          webApi := CapVersion(d.lastKnown.value.webApi))))
  }

  /** A version is shown whole, or cut to 64 runes. */
  predicate ShowsVersion(s: string, shown: string) {
    Truncates(shown, s) && |shown| <= 64 && (|s| <= 64 ==> shown == s)
  }

  /** A live frame says every number as it is and nothing of last-known data; only versions,
      names and the tail of the active list may be cut. */
  predicate ShowsLive(d: Dashboard, shown: Dashboard) {
    && ShowsVersion(d.appVersion, shown.appVersion) && ShowsVersion(d.webApi, shown.webApi)
    && shown.dlSpeed == d.dlSpeed && shown.upSpeed == d.upSpeed && shown.freeSpace == d.freeSpace
    && shown.counts == d.counts && shown.totals == d.totals && shown.lastKnown.None?
    && |shown.active| <= |d.active| && |shown.active| <= 5
    && forall i :: 0 <= i < |shown.active| ==>
         Truncates(shown.active[i].name, d.active[i].name) && |shown.active[i].name| <= 48 && shown.active[i] == d.active[i].(name := shown.active[i].name)
  }

  /** A degraded frame says what was last known, if anything was, and nothing as current. */
  predicate ShowsLastKnown(known: Option<LastKnown>, shown: Option<LastKnown>) {
    if known.None? then shown.None?
    else
      && shown.Some? && shown.value.counts == known.value.counts && shown.value.totals == known.value.totals
      && ShowsVersion(known.value.appVersion, shown.value.appVersion) && ShowsVersion(known.value.webApi, shown.value.webApi)
  }

  lemma LiveShows(d: Dashboard, n: nat, nameCap: nat)
    requires n <= Most(d) && 0 < nameCap <= 48
    ensures ShowsLive(d, LiveFrame(d, n, nameCap).data)
  {
    CapTruncates(d.appVersion, d.appVersion, VERSION_CAP);
    CapTruncates(d.webApi, d.webApi, VERSION_CAP);
    forall i | 0 <= i < n
      ensures Truncates(CapRunes(d.active[i].name, nameCap), d.active[i].name) && |CapRunes(d.active[i].name, nameCap)| <= 48
    {
      CapTruncates(d.active[i].name, d.active[i].name, nameCap);
    }
  }

  lemma DegradedShows(d: Dashboard)
    ensures ShowsLastKnown(d.lastKnown, DegradedFrame(d).lastKnown)
  {
    if d.lastKnown.Some? {
      var k := d.lastKnown.value;
      CapTruncates(k.appVersion, k.appVersion, VERSION_CAP);
      CapTruncates(k.webApi, k.webApi, VERSION_CAP);
    }
  }

  /** Every response fits MaxFrame, LF included, whatever strings the backend reported. */
  method EncodeDashboardStatus(fw: Widths, id: int, ok: bool, d: Dashboard) returns (frame: DashboardFrame)
    requires DashboardInts(id, d)
    ensures Fits(JsonFrame(fw, id), frame)
    ensures if ok then exists n, nameCap :: FirstFit(JsonFrame(fw, id), d, n, nameCap) && frame == LiveFrame(d, n, nameCap)
            else frame == DegradedFrame(d)
    ensures if ok then frame.Live? && ShowsLive(d, frame.data) else frame.Degraded? && ShowsLastKnown(d.lastKnown, frame.lastKnown)
  {
    if ok {
      BaseFits(fw, id, d);
      frame := Shrink(JsonFrame(fw, id), d);
      ghost var n, nameCap :| FirstFit(JsonFrame(fw, id), d, n, nameCap) && frame == LiveFrame(d, n, nameCap);
      LiveShows(d, n, nameCap);
    } else {
      DegradedFits(fw, id, d);
      DegradedShows(d);
      frame := DegradedFrame(d);
    }
  }
}
