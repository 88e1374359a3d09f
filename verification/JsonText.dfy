/** The JSON texts that encoding/json writes for the daemon's larger frames, and that the
    length formulas of Deltas and Encoders are their lengths in bytes. */
module JsonText {
  import opened Options
  import opened Torrents
  import opened JsonSize
  import opened SyncSpec
  import opened Deltas
  import opened Encoders

  // ---- strings and numbers ----

  function HexChar(n: nat): char
    requires n < 16
  {
    "0123456789abcdef"[n]
  }

  /** Section 7 of RFC 8259, with Go's HTML-safe escapes and line separators. */
  function Escape(c: char): string {
    var u := c as int;
    if c == '"' then "\\\""
    else if c == '\\' then "\\\\"
    else if u == 8 then "\\b"
    else if u == 9 then "\\t"
    else if u == 10 then "\\n"
    else if u == 12 then "\\f"
    else if u == 13 then "\\r"
    else if u < 0x20 then "\\u00" + [HexChar(u / 16), HexChar(u % 16)]
    else if c == '<' then "\\u003c"
    else if c == '>' then "\\u003e"
    else if c == '&' then "\\u0026"
    else if u == 0x2028 then "\\u2028"
    else if u == 0x2029 then "\\u2029"
    else [c]
  }

  function Escaped(s: string): string {
    if s == "" then "" else Escaped(s[..|s| - 1]) + Escape(s[|s| - 1])
  }

  function Quoted(s: string): string {
    "\"" + Escaped(s) + "\""
  }

  function Decimal(n: nat): string {
    if n < 10 then [HexChar(n)] else Decimal(n / 10) + [HexChar(n % 10)]
  }

  function Integer(n: int): string {
    if n < 0 then "-" + Decimal(-n) else Decimal(n)
  }

  /** How floats are written; any way of the given widths. */
  type Floats = real -> string

  ghost predicate Wide(fl: Floats, fw: Widths) {
    forall r: real :: ByteLen(fl(r)) == fw(r)
  }

  lemma {:induction false} ByteLenJoin(a: string, b: string)
    ensures ByteLen(a + b) == ByteLen(a) + ByteLen(b)
  {
    if b == "" {
      assert a + b == a;
    } else {
      var front := b[..|b| - 1];
      assert (a + b)[..|a + b| - 1] == a + front;
      ByteLenJoin(a, front);
    }
  }

  predicate Ascii(s: string) {
    forall i :: 0 <= i < |s| ==> s[i] as int < 0x80
  }

  lemma {:induction false} AsciiLen(s: string)
    requires Ascii(s)
    ensures ByteLen(s) == |s|
  {
    if s != "" {
      AsciiLen(s[..|s| - 1]);
    }
  }

  lemma EscapeLen(c: char)
    ensures ByteLen(Escape(c)) == CharLen(c)
  {
    var e := Escape(c);
    if |e| == 1 {
      assert e[..0] == "";
      assert ByteLen(e) == ByteLen("") + Utf8Bytes(e[0]);
    }
    if Ascii(e) {
      AsciiLen(e);
    }
  }

  lemma {:induction false} EscapedLen(s: string)
    ensures ByteLen(Escaped(s)) == CharsLen(s)
  {
    if s != "" {
      EscapedLen(s[..|s| - 1]);
      EscapeLen(s[|s| - 1]);
      ByteLenJoin(Escaped(s[..|s| - 1]), Escape(s[|s| - 1]));
    }
  }

  /** A string's length in a frame is that of its quoted and escaped text. */
  lemma QuotedLen(s: string)
    ensures ByteLen(Quoted(s)) == StringLen(s)
  {
    EscapedLen(s);
    AsciiLen("\"");
    ByteLenJoin("\"", Escaped(s));
    ByteLenJoin("\"" + Escaped(s), "\"");
  }

  /** Lower-case words with dots and underscores need no escapes. */
  predicate Token(s: string) {
    forall i :: 0 <= i < |s| ==> 'a' <= s[i] <= 'z' || s[i] == '.' || s[i] == '_'
  }

  lemma {:induction false} TokenLen(s: string)
    requires Token(s)
    ensures CharsLen(s) == |s|
  {
    if s != "" {
      TokenLen(s[..|s| - 1]);
    }
  }

  lemma {:induction false} DecimalLen(n: nat)
    ensures |Decimal(n)| == Digits(n) && Ascii(Decimal(n))
  {
    if n >= 10 {
      DecimalLen(n / 10);
    }
  }

  lemma IntegerLen(n: int)
    ensures ByteLen(Integer(n)) == IntLen(n)
  {
    DecimalLen(if n < 0 then -n else n);
    AsciiLen(Integer(n));
  }

  // ---- values and their text ----

  datatype Value = Str(text: string) | Num(n: int) | Flt(r: real) | List(items: Values) | Object(members: Members)

  datatype Values = NoItem | Items(item: Value, rest: Values)

  datatype Members = NoMember | Member(key: string, value: Value, rest: Members)

  function Text(fl: Floats, v: Value): string {
    match v
    case Str(text) => Quoted(text)
    case Num(n) => Integer(n)
    case Flt(r) => fl(r)
    case List(items) => ItemsText(fl, items, "[") + (if items.NoItem? then "[]" else "]")
    case Object(members) => MembersText(fl, members, "{") + (if members.NoMember? then "{}" else "}")
  }

  /** Each item after its bracket or comma. */
  function ItemsText(fl: Floats, items: Values, before: string): string {
    match items
    case NoItem => ""
    case Items(v, rest) => before + Text(fl, v) + ItemsText(fl, rest, ",")
  }

  function MembersText(fl: Floats, members: Members, before: string): string {
    match members
    case NoMember => ""
    case Member(key, v, rest) => before + Quoted(key) + ":" + Text(fl, v) + MembersText(fl, rest, ",")
  }

  function Len(fw: Widths, v: Value): nat {
    match v
    case Str(text) => StringLen(text)
    case Num(n) => IntLen(n)
    case Flt(r) => fw(r)
    case List(items) => if items.NoItem? then 2 else ItemsSum(fw, items) + 1
    case Object(members) => if members.NoMember? then 2 else MembersSum(fw, members) + 1
  }

  function ItemsSum(fw: Widths, items: Values): nat {
    match items
    case NoItem => 0
    case Items(v, rest) => 1 + Len(fw, v) + ItemsSum(fw, rest)
  }

  function MembersSum(fw: Widths, members: Members): nat {
    match members
    case NoMember => 0
    case Member(key, v, rest) => |key| + 4 + Len(fw, v) + MembersSum(fw, rest)
  }

  predicate PlainKeys(v: Value) {
    match v
    case List(items) => PlainItems(items)
    case Object(members) => PlainMembers(members)
    case _ => true
  }

  predicate PlainItems(items: Values) {
    items.NoItem? || (PlainKeys(items.item) && PlainItems(items.rest))
  }

  predicate PlainMembers(members: Members) {
    members.NoMember? || (Token(members.key) && PlainKeys(members.value) && PlainMembers(members.rest))
  }

  /** Len is the number of bytes of a value's text. */
  lemma {:induction false} TextLen(fl: Floats, fw: Widths, v: Value)
    requires Wide(fl, fw) && PlainKeys(v)
    ensures ByteLen(Text(fl, v)) == Len(fw, v)
  {
    match v
    case Str(text) => QuotedLen(text);
    case Num(n) => IntegerLen(n);
    case Flt(r) =>
    case List(items) =>
      ItemsTextLen(fl, fw, items, "[");
      ClosedLen(ItemsText(fl, items, "["), if items.NoItem? then "[]" else "]");
    case Object(members) =>
      MembersTextLen(fl, fw, members, "{");
      ClosedLen(MembersText(fl, members, "{"), if members.NoMember? then "{}" else "}");
  }

  lemma ClosedLen(s: string, end: string)
    requires Ascii(end)
    ensures ByteLen(s + end) == ByteLen(s) + |end|
  {
    AsciiLen(end);
    ByteLenJoin(s, end);
  }

  lemma {:induction false} ItemsTextLen(fl: Floats, fw: Widths, items: Values, before: string)
    requires Wide(fl, fw) && PlainItems(items) && Ascii(before) && |before| == 1
    ensures ByteLen(ItemsText(fl, items, before)) == ItemsSum(fw, items)
  {
    match items
    case NoItem =>
    case Items(v, rest) =>
      TextLen(fl, fw, v);
      ItemsTextLen(fl, fw, rest, ",");
      AsciiLen(before);
      ByteLenJoin(before, Text(fl, v));
      ByteLenJoin(before + Text(fl, v), ItemsText(fl, rest, ","));
  }

  lemma {:induction false} MembersTextLen(fl: Floats, fw: Widths, members: Members, before: string)
    requires Wide(fl, fw) && PlainMembers(members) && Ascii(before) && |before| == 1
    ensures ByteLen(MembersText(fl, members, before)) == MembersSum(fw, members)
  {
    match members
    case NoMember =>
    case Member(key, v, rest) =>
      TextLen(fl, fw, v);
      MembersTextLen(fl, fw, rest, ",");
      KeyLen(before, key);
      ByteLenJoin(before + Quoted(key) + ":", Text(fl, v));
      ByteLenJoin(before + Quoted(key) + ":" + Text(fl, v), MembersText(fl, rest, ","));
  }

  lemma KeyLen(before: string, key: string)
    requires Token(key) && Ascii(before) && |before| == 1
    ensures ByteLen(before + Quoted(key) + ":") == |key| + 4
  {
    TokenLen(key);
    QuotedLen(key);
    AsciiLen(before);
    ByteLenJoin(before, Quoted(key));
    ClosedLen(before + Quoted(key), ":");
  }

  // ---- torrents and deltas ----

  function ItemValue(t: Torrent): Value {
    Object(Member("hash", Str(t.hash), Member("name", Str(t.name), Member("state", Str(PhaseText(t.state)), ItemSpeeds(t)))))
  }

  function ItemSpeeds(t: Torrent): Members {
    Member("progress", Flt(t.progress), Member("dlspeed", Num(t.dlSpeed), Member("upspeed", Num(t.upSpeed), ItemRest(t))))
  }

  function ItemRest(t: Torrent): Members {
    Member("eta", Num(t.eta), Member("ratio", Flt(t.ratio), Member("category", Str(t.category), ItemSizes(t))))
  }

  function ItemSizes(t: Torrent): Members {
    Member("size", Num(t.size), Member("completed", Num(t.completed), NoMember))
  }

  lemma PhaseTextLen(p: Phase)
    ensures StringLen(PhaseText(p)) == |PhaseText(p)| + 2
  {
    TokenLen(PhaseText(p));
  }

  lemma One(fw: Widths, key: string, v: Value, rest: Members)
    ensures MembersSum(fw, Member(key, v, rest)) == |key| + 4 + Len(fw, v) + MembersSum(fw, rest)
    ensures Token(key) && PlainKeys(v) && PlainMembers(rest) ==> PlainMembers(Member(key, v, rest))
  {
  }

  lemma ItemSizesLen(fw: Widths, t: Torrent)
    ensures MembersSum(fw, ItemSizes(t)) == 21 + IntLen(t.size) + IntLen(t.completed) && PlainMembers(ItemSizes(t))
  {
    One(fw, "completed", Num(t.completed), NoMember);
    One(fw, "size", Num(t.size), Member("completed", Num(t.completed), NoMember));
  }

  lemma ItemRestLen(fw: Widths, t: Torrent)
    ensures MembersSum(fw, ItemRest(t)) == 49 + IntLen(t.eta) + fw(t.ratio) + StringLen(t.category) + IntLen(t.size) + IntLen(t.completed)
    ensures PlainMembers(ItemRest(t))
  {
    ItemSizesLen(fw, t);
    var o := ItemSizes(t);
    One(fw, "category", Str(t.category), o);
    One(fw, "ratio", Flt(t.ratio), Member("category", Str(t.category), o));
    One(fw, "eta", Num(t.eta), Member("ratio", Flt(t.ratio), Member("category", Str(t.category), o)));
  }

  lemma ItemSpeedsLen(fw: Widths, t: Torrent)
    ensures MembersSum(fw, ItemSpeeds(t)) ==
              34 + fw(t.progress) + IntLen(t.dlSpeed) + IntLen(t.upSpeed) + MembersSum(fw, ItemRest(t))
    ensures PlainMembers(ItemSpeeds(t))
  {
    ItemRestLen(fw, t);
    var o := ItemRest(t);
    One(fw, "upspeed", Num(t.upSpeed), o);
    One(fw, "dlspeed", Num(t.dlSpeed), Member("upspeed", Num(t.upSpeed), o));
    One(fw, "progress", Flt(t.progress), Member("dlspeed", Num(t.dlSpeed), Member("upspeed", Num(t.upSpeed), o)));
  }

  lemma ItemValueLen(fw: Widths, t: Torrent)
    ensures Len(fw, ItemValue(t)) == ItemLen(fw, t) && PlainKeys(ItemValue(t))
  {
    ItemSpeedsLen(fw, t);
    ItemRestLen(fw, t);
    PhaseTextLen(t.state);
    var o, state := ItemSpeeds(t), Str(PhaseText(t.state));
    One(fw, "state", state, o);
    One(fw, "name", Str(t.name), Member("state", state, o));
    One(fw, "hash", Str(t.hash), Member("name", Str(t.name), Member("state", state, o)));
  }

  /** ItemLen is the number of bytes of an item's JSON text. */
  lemma ItemLenIs(fl: Floats, fw: Widths, t: Torrent)
    requires Wide(fl, fw)
    ensures ByteLen(Text(fl, ItemValue(t))) == ItemLen(fw, t)
  {
    ItemValueLen(fw, t);
    TextLen(fl, fw, ItemValue(t));
  }

  function ItemValues(ts: seq<Torrent>): Values {
    if ts == [] then NoItem else Items(ItemValue(ts[0]), ItemValues(ts[1..]))
  }

  function HashValues(hs: seq<Hash>): Values {
    if hs == [] then NoItem else Items(Str(hs[0]), HashValues(hs[1..]))
  }

  lemma {:induction false} ItemsLenFront(size: Measure, ts: seq<Torrent>)
    requires ts != []
    ensures ItemsLen(size, ts) == size(ts[0]) + ItemsLen(size, ts[1..])
  {
    if |ts| > 1 {
      var front := ts[..|ts| - 1];
      ItemsLenFront(size, front);
      assert ts[1..][..|ts| - 2] == front[1..];
    } else {
      assert ts[..0] == [] && ts[1..] == [];
      assert ItemsLen(size, ts) == ItemsLen(size, []) + size(ts[0]);
    }
  }

  lemma {:induction false} HashesLenFront(hs: seq<Hash>)
    requires hs != []
    ensures HashesLen(hs) == StringLen(hs[0]) + HashesLen(hs[1..])
  {
    if |hs| > 1 {
      var front := hs[..|hs| - 1];
      HashesLenFront(front);
      assert hs[1..][..|hs| - 2] == front[1..];
    } else {
      assert hs[..0] == [] && hs[1..] == [];
      assert HashesLen(hs) == HashesLen([]) + StringLen(hs[0]);
    }
  }

  lemma {:induction false} ItemValuesLen(fw: Widths, ts: seq<Torrent>)
    ensures ItemsSum(fw, ItemValues(ts)) == |ts| + ItemsLen(JsonItem(fw), ts) && PlainItems(ItemValues(ts))
  {
    if ts != [] {
      ItemValueLen(fw, ts[0]);
      ItemValuesLen(fw, ts[1..]);
      ItemsLenFront(JsonItem(fw), ts);
    }
  }

  lemma {:induction false} HashValuesLen(fw: Widths, hs: seq<Hash>)
    ensures ItemsSum(fw, HashValues(hs)) == |hs| + HashesLen(hs) && PlainItems(HashValues(hs))
  {
    if hs != [] {
      HashValuesLen(fw, hs[1..]);
      HashesLenFront(hs);
    }
  }

  /** What every frame begins with. */
  function Frame(kind: string, members: Members): Value {
    Object(Member("type", Str(kind), Member("protocol", Num(1), members)))
  }

  lemma FrameIs(fw: Widths, kind: string, members: Members)
    requires Token(kind) && PlainMembers(members)
    ensures Len(fw, Frame(kind, members)) == 24 + |kind| + MembersSum(fw, members) && PlainKeys(Frame(kind, members))
  {
    TokenLen(kind);
    One(fw, "protocol", Num(1), members);
    One(fw, "type", Str(kind), Member("protocol", Num(1), members));
  }

  function DeltaLists(f: Change): Members {
    Member("changed", List(ItemValues(f.changed)), Member("removed", List(HashValues(f.removed)), NoMember))
  }

  function DeltaValue(f: Change): Value {
    Frame("torrent.delta", Member("seq", Num(f.seqNo), DeltaLists(f)))
  }

  lemma ListIs(fw: Widths, items: Values, n: nat, sum: nat)
    requires ItemsSum(fw, items) == n + sum && (n == 0 <==> items.NoItem?) && (n == 0 ==> sum == 0)
    ensures Len(fw, List(items)) == 2 + sum + Commas(n) && (PlainItems(items) ==> PlainKeys(List(items)))
  {
  }

  lemma ItemListLen(fw: Widths, ts: seq<Torrent>)
    ensures Len(fw, List(ItemValues(ts))) == 2 + ItemsLen(JsonItem(fw), ts) + Commas(|ts|) && PlainKeys(List(ItemValues(ts)))
  {
    ItemValuesLen(fw, ts);
    ListIs(fw, ItemValues(ts), |ts|, ItemsLen(JsonItem(fw), ts));
  }

  lemma HashListLen(fw: Widths, hs: seq<Hash>)
    ensures Len(fw, List(HashValues(hs))) == 2 + HashesLen(hs) + Commas(|hs|) && PlainKeys(List(HashValues(hs)))
  {
    HashValuesLen(fw, hs);
    ListIs(fw, HashValues(hs), |hs|, HashesLen(hs));
  }

  lemma ActiveListLen(fw: Widths, items: seq<ActiveItem>)
    ensures Len(fw, List(ActiveValues(items))) == 2 + ActiveLen(fw, items) + Commas(|items|) && PlainKeys(List(ActiveValues(items)))
  {
    ActiveValuesLen(fw, items);
    ListIs(fw, ActiveValues(items), |items|, ActiveLen(fw, items));
  }

  lemma DeltaListsLen(fw: Widths, f: Change)
    ensures MembersSum(fw, DeltaLists(f)) ==
              26 + ItemsLen(JsonItem(fw), f.changed) + Commas(|f.changed|) + HashesLen(f.removed) + Commas(|f.removed|)
    ensures PlainMembers(DeltaLists(f))
  {
    var changed, removed := List(ItemValues(f.changed)), List(HashValues(f.removed));
    assert Len(fw, changed) == 2 + ItemsLen(JsonItem(fw), f.changed) + Commas(|f.changed|) && PlainKeys(changed) by { ItemListLen(fw, f.changed); }
    assert Len(fw, removed) == 2 + HashesLen(f.removed) + Commas(|f.removed|) && PlainKeys(removed) by { HashListLen(fw, f.removed); }
    TwoLists(fw, changed, removed);
  }

  lemma TwoLists(fw: Widths, changed: Value, removed: Value)
    requires PlainKeys(changed) && PlainKeys(removed)
    ensures var o := Member("changed", changed, Member("removed", removed, NoMember));
            MembersSum(fw, o) == 22 + Len(fw, changed) + Len(fw, removed) && PlainMembers(o)
  {
    One(fw, "removed", removed, NoMember);
    One(fw, "changed", changed, Member("removed", removed, NoMember));
  }

  lemma Numbered(fw: Widths, seqNo: nat, lists: Members)
    requires PlainMembers(lists)
    ensures var v := Frame("torrent.delta", Member("seq", Num(seqNo), lists));
            Len(fw, v) == 44 + IntLen(seqNo) + MembersSum(fw, lists) && PlainKeys(v)
  {
    One(fw, "seq", Num(seqNo), lists);
    FrameIs(fw, "torrent.delta", Member("seq", Num(seqNo), lists));
  }

  /** FrameLen is the number of bytes of a delta frame. */
  lemma FrameLenIs(fl: Floats, fw: Widths, f: Change)
    requires Wide(fl, fw)
    ensures ByteLen(Text(fl, DeltaValue(f))) == FrameLen(JsonItem(fw), f)
  {
    DeltaListsLen(fw, f);
    Numbered(fw, f.seqNo, DeltaLists(f));
    TextLen(fl, fw, DeltaValue(f));
  }

  function SnapshotMembers(id: int, index: int, t: Torrent): Members {
    Member("id", Num(id), Member("index", Num(index), Member("torrent", ItemValue(t), NoMember)))
  }

  /** SnapshotLen is the number of bytes of a snapshot item's frame. */
  lemma SnapshotLenIs(fl: Floats, fw: Widths, id: int, index: int, t: Torrent)
    requires Wide(fl, fw)
    ensures ByteLen(Text(fl, Frame("torrent.snapshot.item", SnapshotMembers(id, index, t)))) == SnapshotLen(JsonItem(fw), id, index, t)
  {
    ItemValueLen(fw, t);
    var torrent := Member("torrent", ItemValue(t), NoMember);
    One(fw, "torrent", ItemValue(t), NoMember);
    One(fw, "index", Num(index), torrent);
    One(fw, "id", Num(id), Member("index", Num(index), torrent));
    FrameIs(fw, "torrent.snapshot.item", SnapshotMembers(id, index, t));
    TextLen(fl, fw, Frame("torrent.snapshot.item", SnapshotMembers(id, index, t)));
  }

  // ---- dashboards ----

  function CountsTail(c: Counts): Members {
    Member("seeding", Num(c.seeding), Member("paused", Num(c.paused), Member("completed", Num(c.completed), NoMember)))
  }

  function CountsValue(c: Counts): Value {
    Object(Member("total", Num(c.total), Member("active", Num(c.active), Member("downloading", Num(c.downloading), CountsTail(c)))))
  }

  lemma CountsTailLen(fw: Widths, c: Counts)
    ensures MembersSum(fw, CountsTail(c)) == 34 + IntLen(c.seeding) + IntLen(c.paused) + IntLen(c.completed) && PlainMembers(CountsTail(c))
  {
    var o := Member("completed", Num(c.completed), NoMember);
    One(fw, "completed", Num(c.completed), NoMember);
    One(fw, "paused", Num(c.paused), o);
    One(fw, "seeding", Num(c.seeding), Member("paused", Num(c.paused), o));
  }

  lemma CountsValueLen(fw: Widths, c: Counts)
    ensures Len(fw, CountsValue(c)) == CountsLen(c) && PlainKeys(CountsValue(c))
  {
    CountsTailLen(fw, c);
    var o := Member("downloading", Num(c.downloading), CountsTail(c));
    One(fw, "downloading", Num(c.downloading), CountsTail(c));
    One(fw, "active", Num(c.active), o);
    One(fw, "total", Num(c.total), Member("active", Num(c.active), o));
  }

  function TotalsValue(t: Totals): Value {
    Object(Member("total_size", Num(t.size), Member("completed_bytes", Num(t.completed), Member("remaining_bytes", Num(t.remaining), NoMember))))
  }

  lemma TotalsValueLen(fw: Widths, t: Totals)
    ensures Len(fw, TotalsValue(t)) == TotalsLen(t) && PlainKeys(TotalsValue(t))
  {
    var o := Member("remaining_bytes", Num(t.remaining), NoMember);
    One(fw, "remaining_bytes", Num(t.remaining), NoMember);
    One(fw, "completed_bytes", Num(t.completed), o);
    One(fw, "total_size", Num(t.size), Member("completed_bytes", Num(t.completed), o));
  }

  function ActiveTail(a: ActiveItem): Members {
    Member("progress", Flt(a.progress), Member("dlspeed", Num(a.dlSpeed), Member("upspeed", Num(a.upSpeed), NoMember)))
  }

  function ActiveValue(a: ActiveItem): Value {
    Object(Member("name", Str(a.name), Member("state", Str(a.state), ActiveTail(a))))
  }

  lemma ActiveValueLen(fw: Widths, a: ActiveItem)
    ensures Len(fw, ActiveValue(a)) == ActiveItemLen(fw, a) && PlainKeys(ActiveValue(a))
  {
    var o := Member("upspeed", Num(a.upSpeed), NoMember);
    One(fw, "upspeed", Num(a.upSpeed), NoMember);
    One(fw, "dlspeed", Num(a.dlSpeed), o);
    One(fw, "progress", Flt(a.progress), Member("dlspeed", Num(a.dlSpeed), o));
    One(fw, "state", Str(a.state), ActiveTail(a));
    One(fw, "name", Str(a.name), Member("state", Str(a.state), ActiveTail(a)));
  }

  function ActiveValues(items: seq<ActiveItem>): Values {
    if items == [] then NoItem else Items(ActiveValue(items[0]), ActiveValues(items[1..]))
  }

  lemma {:induction false} ActiveLenFront(fw: Widths, items: seq<ActiveItem>)
    requires items != []
    ensures ActiveLen(fw, items) == ActiveItemLen(fw, items[0]) + ActiveLen(fw, items[1..])
  {
    if |items| > 1 {
      var front := items[..|items| - 1];
      ActiveLenFront(fw, front);
      assert items[1..][..|items| - 2] == front[1..];
    } else {
      assert items[..0] == [] && items[1..] == [];
      assert ActiveLen(fw, items) == ActiveLen(fw, []) + ActiveItemLen(fw, items[0]);
    }
  }

  lemma {:induction false} ActiveValuesLen(fw: Widths, items: seq<ActiveItem>)
    ensures ItemsSum(fw, ActiveValues(items)) == |items| + ActiveLen(fw, items) && PlainItems(ActiveValues(items))
  {
    if items != [] {
      ActiveValueLen(fw, items[0]);
      ActiveValuesLen(fw, items[1..]);
      ActiveLenFront(fw, items);
    }
  }

  function Versions(app: string, api: string, rest: Members): Members {
    Member("app_version", Str(app), Member("webapi_version", Str(api), rest))
  }

  lemma VersionsLen(fw: Widths, app: string, api: string, rest: Members)
    requires PlainMembers(rest)
    ensures MembersSum(fw, Versions(app, api, rest)) == 33 + StringLen(app) + StringLen(api) + MembersSum(fw, rest)
    ensures PlainMembers(Versions(app, api, rest))
  {
    One(fw, "webapi_version", Str(api), rest);
    One(fw, "app_version", Str(app), Member("webapi_version", Str(api), rest));
  }

  function Numbers(c: Counts, t: Totals, rest: Members): Members {
    Member("counts", CountsValue(c), Member("aggregate", TotalsValue(t), rest))
  }

  lemma NumbersLen(fw: Widths, c: Counts, t: Totals, rest: Members)
    requires PlainMembers(rest)
    ensures MembersSum(fw, Numbers(c, t, rest)) == 23 + CountsLen(c) + TotalsLen(t) + MembersSum(fw, rest)
    ensures PlainMembers(Numbers(c, t, rest))
  {
    CountsValueLen(fw, c);
    TotalsValueLen(fw, t);
    One(fw, "aggregate", TotalsValue(t), rest);
    One(fw, "counts", CountsValue(c), Member("aggregate", TotalsValue(t), rest));
  }

  /** An unknown free space has no member at all. */
  function FreeSpace(free: Option<int>, rest: Members): Members {
    if free.None? then rest else Member("free_space", Num(free.value), rest)
  }

  function Speeds(d: Dashboard, rest: Members): Members {
    Member("dl_speed", Num(d.dlSpeed), Member("up_speed", Num(d.upSpeed), FreeSpace(d.freeSpace, rest)))
  }

  lemma SpeedsLen(fw: Widths, d: Dashboard, rest: Members)
    requires PlainMembers(rest)
    ensures MembersSum(fw, Speeds(d, rest)) ==
              24 + IntLen(d.dlSpeed) + IntLen(d.upSpeed) + (if d.freeSpace.Some? then 14 + IntLen(d.freeSpace.value) else 0) + MembersSum(fw, rest)
    ensures PlainMembers(Speeds(d, rest))
  {
    if d.freeSpace.Some? {
      One(fw, "free_space", Num(d.freeSpace.value), rest);
    }
    var o := FreeSpace(d.freeSpace, rest);
    One(fw, "up_speed", Num(d.upSpeed), o);
    One(fw, "dl_speed", Num(d.dlSpeed), Member("up_speed", Num(d.upSpeed), o));
  }

  function Status(id: int, backend: string, rest: Members): Value {
    Frame("dashboard.status", Member("id", Num(id), Member("qbittorrent", Str(backend), rest)))
  }

  lemma StatusLen(fw: Widths, id: int, backend: string, rest: Members)
    requires PlainMembers(rest)
    ensures Len(fw, Status(id, backend, rest)) == 61 + IntLen(id) + StringLen(backend) + MembersSum(fw, rest)
    ensures PlainKeys(Status(id, backend, rest))
  {
    var o := Member("qbittorrent", Str(backend), rest);
    One(fw, "qbittorrent", Str(backend), rest);
    One(fw, "id", Num(id), o);
    FrameIs(fw, "dashboard.status", Member("id", Num(id), o));
  }

  function LiveMembers(d: Dashboard): Members {
    Versions(d.appVersion, d.webApi, Speeds(d, Numbers(d.counts, d.totals, Member("active", List(ActiveValues(d.active)), NoMember))))
  }

  function KnownValue(k: LastKnown): Value {
    Object(Versions(k.appVersion, k.webApi, Numbers(k.counts, k.totals, NoMember)))
  }

  function DashboardValue(id: int, f: DashboardFrame): Value {
    match f
    case Live(d) => Status(id, "ok", LiveMembers(d))
    case Degraded(None) => Status(id, "unavailable", NoMember)
    case Degraded(Some(k)) => Status(id, "unavailable", Member("last_known", KnownValue(k), NoMember))
  }

  lemma ActiveMemberLen(fw: Widths, items: seq<ActiveItem>)
    ensures var o := Member("active", List(ActiveValues(items)), NoMember);
            MembersSum(fw, o) == 12 + ActiveLen(fw, items) + Commas(|items|) && PlainMembers(o)
  {
    ActiveListLen(fw, items);
    One(fw, "active", List(ActiveValues(items)), NoMember);
  }

  lemma LiveMembersLen(fw: Widths, d: Dashboard, rest: Members)
    requires PlainMembers(rest)
    ensures var o := Versions(d.appVersion, d.webApi, Speeds(d, Numbers(d.counts, d.totals, rest)));
            && MembersSum(fw, o) == 80 + StringLen(d.appVersion) + StringLen(d.webApi) + IntLen(d.dlSpeed) + IntLen(d.upSpeed)
                 + (if d.freeSpace.Some? then 14 + IntLen(d.freeSpace.value) else 0) + CountsLen(d.counts) + TotalsLen(d.totals) + MembersSum(fw, rest)
            && PlainMembers(o)
  {
    NumbersLen(fw, d.counts, d.totals, rest);
    SpeedsLen(fw, d, Numbers(d.counts, d.totals, rest));
    VersionsLen(fw, d.appVersion, d.webApi, Speeds(d, Numbers(d.counts, d.totals, rest)));
  }

  lemma LiveLen(fw: Widths, id: int, d: Dashboard)
    ensures Len(fw, DashboardValue(id, Live(d))) == DashboardLen(fw, id, Live(d)) && PlainKeys(DashboardValue(id, Live(d)))
  {
    ActiveMemberLen(fw, d.active);
    LiveMembersLen(fw, d, Member("active", List(ActiveValues(d.active)), NoMember));
    TokenLen("ok");
    StatusLen(fw, id, "ok", LiveMembers(d));
  }

  lemma DegradedLen(fw: Widths, id: int, known: Option<LastKnown>)
    ensures Len(fw, DashboardValue(id, Degraded(known))) == DashboardLen(fw, id, Degraded(known))
    ensures PlainKeys(DashboardValue(id, Degraded(known)))
  {
    TokenLen("unavailable");
    match known
    case None => StatusLen(fw, id, "unavailable", NoMember);
    case Some(k) =>
      NumbersLen(fw, k.counts, k.totals, NoMember);
      VersionsLen(fw, k.appVersion, k.webApi, Numbers(k.counts, k.totals, NoMember));
      One(fw, "last_known", KnownValue(k), NoMember);
      StatusLen(fw, id, "unavailable", Member("last_known", KnownValue(k), NoMember));
  }

  /** DashboardLen is the number of bytes of a dashboard frame, in all three shapes. */
  lemma DashboardLenIs(fl: Floats, fw: Widths, id: int, f: DashboardFrame)
    requires Wide(fl, fw)
    ensures ByteLen(Text(fl, DashboardValue(id, f))) == DashboardLen(fw, id, f)
  {
    match f {
      case Live(d) => LiveLen(fw, id, d);
      case Degraded(known) => DegradedLen(fw, id, known);
    }
    TextLen(fl, fw, DashboardValue(id, f));
  }
}
