/** Splitting one change event into delta frames (ipc/protocol.go, EncodeDeltas). A frame
    carries the event's number and a part of its two lists. */
module Deltas {
  import opened Options
  import opened Torrents
  import opened SyncSpec
  import opened JsonSize

  const MAX_FRAME := 4096
  const BUDGET := 3800
  const NAME_CAP := 512
  const MAX_HASH_BYTES := 64
  const HASH_COST := 16

  function CapName(name: string): string {
    CapRunes(name, NAME_CAP)
  }

  function CapItem(t: Torrent): Torrent {
    t.(name := CapName(t.name))
  }

  function CapAll(ts: seq<Torrent>): (r: seq<Torrent>)
    ensures |r| == |ts|
  {
    if ts == [] then [] else CapAll(ts[..|ts| - 1]) + [CapItem(ts[|ts| - 1])]
  }

  // ---- lengths on the wire ----

  function PhaseText(p: Phase): string {
    match p
    case NoPhase => ""
    case Downloading => "downloading"
    case Seeding => "seeding"
    case Paused => "paused"
    case Queued => "queued"
    case Checking => "checking"
    case Moving => "moving"
    case Errored => "error"
    case Other => "other"
  }

  /** The words clients read, for each of qBittorrent's own. */
  lemma StateWords(q: string)
    ensures var w := PhaseText(NormalizeState(q));
            && (w == "downloading" <==> q in {"downloading", "metaDL", "forcedDL", "stalledDL", "allocating"})
            && (w == "seeding" <==> q in {"uploading", "stalledUP", "forcedUP"})
            && (w == "paused" <==> q in {"pausedUP", "pausedDL", "stoppedUP", "stoppedDL"})
            && (w == "queued" <==> q in {"queuedUP", "queuedDL"})
            && (w == "checking" <==> q in {"checkingUP", "checkingDL", "checkingResumeData"})
            && (w == "moving" <==> q == "moving") && (w == "error" <==> q in {"error", "missingFiles"})
            && w in {"downloading", "seeding", "paused", "queued", "checking", "moving", "error", "other"}
  {
    NormalizedStateIs(q);
  }

  /** The item's keys with quotes, colons, commas and braces; likewise for a delta frame. */
  const ITEM_KEYS := 109
  const FRAME_KEYS := 70

  function ItemLen(fw: Widths, t: Torrent): (n: nat)
    ensures n >= 100
  {
    ITEM_KEYS + StringLen(t.hash) + StringLen(t.name) + (|PhaseText(t.state)| + 2) + fw(t.progress)
    + IntLen(t.dlSpeed) + IntLen(t.upSpeed) + IntLen(t.eta) + fw(t.ratio) + StringLen(t.category)
    + IntLen(t.size) + IntLen(t.completed)
  }

  /** Any measure of an item: JsonSize of it, in particular. */
  type Measure = Torrent -> nat

  function JsonItem(fw: Widths): Measure {
    t => ItemLen(fw, t)
  }

  function ItemsLen(size: Measure, ts: seq<Torrent>): nat {
    if ts == [] then 0 else ItemsLen(size, ts[..|ts| - 1]) + size(ts[|ts| - 1])
  }

  function HashesLen(hs: seq<Hash>): nat {
    if hs == [] then 0 else HashesLen(hs[..|hs| - 1]) + StringLen(hs[|hs| - 1])
  }

  function Commas(n: nat): nat {
    if n == 0 then 0 else n - 1
  }

  /** The bytes of a delta frame, without the LF. */
  function FrameLen(size: Measure, f: Change): nat {
    FRAME_KEYS + IntLen(f.seqNo) + ItemsLen(size, f.changed) + Commas(|f.changed|) + HashesLen(f.removed) + Commas(|f.removed|)
  }

  /** What the splitter's own accounting charges for a frame. */
  function HashesCost(hs: seq<Hash>): nat {
    if hs == [] then 0 else HashesCost(hs[..|hs| - 1]) + ByteLen(hs[|hs| - 1]) + HASH_COST
  }

  function Cost(size: Measure, f: Change): nat {
    ItemsLen(size, f.changed) + HashesCost(f.removed)
  }

  // ---- what a split must be ----

  function AllChanged(frames: seq<Change>): seq<Torrent> {
    if frames == [] then [] else AllChanged(frames[..|frames| - 1]) + frames[|frames| - 1].changed
  }

  function AllRemoved(frames: seq<Change>): seq<Hash> {
    if frames == [] then [] else AllRemoved(frames[..|frames| - 1]) + frames[|frames| - 1].removed
  }

  /** No item after an earlier frame's removal, nothing empty, one number for all. */
  predicate Ordered(frames: seq<Change>, seqNo: nat) {
    && (forall i :: 0 <= i < |frames| ==> frames[i].seqNo == seqNo && (frames[i].changed != [] || frames[i].removed != []))
    && (forall i, j :: 0 <= i < j < |frames| && frames[i].removed != [] ==> frames[j].changed == [])
  }

  predicate Splits(size: Measure, ev: Change, frames: seq<Change>) {
    && AllChanged(frames) == CapAll(ev.changed)
    && AllRemoved(frames) == ev.removed
    && Ordered(frames, ev.seqNo)
    && forall i :: 0 <= i < |frames| ==> Cost(size, frames[i]) <= BUDGET
  }

  predicate Frameable(size: Measure, ev: Change) {
    && (forall i :: 0 <= i < |ev.changed| ==> size(CapItem(ev.changed[i])) <= BUDGET)
    && (forall i :: 0 <= i < |ev.removed| ==> ByteLen(ev.removed[i]) <= MAX_HASH_BYTES)
  }

  lemma SplitsMore(frames: seq<Change>, f: Change)
    ensures AllChanged(frames + [f]) == AllChanged(frames) + f.changed
    ensures AllRemoved(frames + [f]) == AllRemoved(frames) + f.removed
  {
    assert (frames + [f])[..|frames|] == frames;
  }

  /** flush: an empty pair of lists makes no frame. */
  method Flush(frames: seq<Change>, seqNo: nat, changed: seq<Torrent>, removed: seq<Hash>) returns (r: seq<Change>)
    ensures r == if changed == [] && removed == [] then frames else frames + [Change(seqNo, changed, removed)]
    ensures AllChanged(r) == AllChanged(frames) + changed && AllRemoved(r) == AllRemoved(frames) + removed
  {
    if |changed| == 0 && |removed| == 0 {
      return frames;
    }
    SplitsMore(frames, Change(seqNo, changed, removed));
    r := frames + [Change(seqNo, changed, removed)];
  }

  lemma ItemsLenAppend(size: Measure, ts: seq<Torrent>, t: Torrent)
    ensures ItemsLen(size, ts + [t]) == ItemsLen(size, ts) + size(t)
  {
    assert (ts + [t])[..|ts|] == ts;
  }

  lemma HashesCostAppend(hs: seq<Hash>, h: Hash)
    ensures HashesCost(hs + [h]) == HashesCost(hs) + ByteLen(h) + HASH_COST
  {
    assert (hs + [h])[..|hs|] == hs;
  }

  /** Frames and open lists that account for the first i items and the first j removals. */
  predicate Accounts(size: Measure, ev: Change, i: nat, j: nat, frames: seq<Change>, changed: seq<Torrent>, removed: seq<Hash>)
    requires i <= |ev.changed| && j <= |ev.removed|
  {
    && AllChanged(frames) + changed == CapAll(ev.changed[..i])
    && AllRemoved(frames) + removed == ev.removed[..j]
    && ItemsLen(size, changed) + HashesCost(removed) <= BUDGET
  }

  predicate RemovalFree(frames: seq<Change>) {
    forall k :: 0 <= k < |frames| ==> frames[k].removed == []
  }

  predicate WithinBudget(size: Measure, frames: seq<Change>) {
    forall k :: 0 <= k < |frames| ==> Cost(size, frames[k]) <= BUDGET
  }

  predicate Open(size: Measure, ev: Change, i: nat, j: nat, frames: seq<Change>, changed: seq<Torrent>, removed: seq<Hash>)
    requires i <= |ev.changed| && j <= |ev.removed|
  {
    && Accounts(size, ev, i, j, frames, changed, removed)
    && Ordered(frames, ev.seqNo) && WithinBudget(size, frames)
    && (changed != [] || i < |ev.changed| ==> RemovalFree(frames))
    && (i < |ev.changed| ==> removed == [])
  }

  lemma OpenFlushed(size: Measure, ev: Change, i: nat, j: nat, frames: seq<Change>, changed: seq<Torrent>, removed: seq<Hash>)
    requires i <= |ev.changed| && j <= |ev.removed| && Open(size, ev, i, j, frames, changed, removed)
    requires changed != [] || removed != []
    ensures Open(size, ev, i, j, frames + [Change(ev.seqNo, changed, removed)], [], [])
  {
    var f := Change(ev.seqNo, changed, removed);
    AccountsFlushed(size, ev, i, j, frames, changed, removed);
    OrderedMore(frames, f);
    assert Cost(size, f) <= BUDGET;
  }

  lemma AccountsFlushed(size: Measure, ev: Change, i: nat, j: nat, frames: seq<Change>, changed: seq<Torrent>, removed: seq<Hash>)
    requires i <= |ev.changed| && j <= |ev.removed| && Accounts(size, ev, i, j, frames, changed, removed)
    ensures Accounts(size, ev, i, j, frames + [Change(ev.seqNo, changed, removed)], [], [])
  {
    SplitsMore(frames, Change(ev.seqNo, changed, removed));
  }

  lemma OrderedMore(frames: seq<Change>, f: Change)
    requires Ordered(frames, f.seqNo) && (f.changed != [] || f.removed != [])
    requires f.changed != [] ==> RemovalFree(frames)
    ensures Ordered(frames + [f], f.seqNo)
  {
  }

  lemma AccountsItem(size: Measure, ev: Change, i: nat, frames: seq<Change>, changed: seq<Torrent>)
    requires i < |ev.changed| && Accounts(size, ev, i, 0, frames, changed, [])
    requires ItemsLen(size, changed) + size(CapItem(ev.changed[i])) <= BUDGET
    ensures Accounts(size, ev, i + 1, 0, frames, changed + [CapItem(ev.changed[i])], [])
  {
    ItemsLenAppend(size, changed, CapItem(ev.changed[i]));
    CapMore(ev.changed, i);
    Reassociated(AllChanged(frames), changed, [CapItem(ev.changed[i])]);
  }

  lemma CapMore(ts: seq<Torrent>, i: nat)
    requires i < |ts|
    ensures CapAll(ts[..i + 1]) == CapAll(ts[..i]) + [CapItem(ts[i])]
  {
    assert ts[..i + 1][..i] == ts[..i];
  }

  lemma Reassociated<T>(a: seq<T>, b: seq<T>, c: seq<T>)
    ensures a + (b + c) == a + b + c
  {
  }

  lemma OpenItem(size: Measure, ev: Change, i: nat, frames: seq<Change>, changed: seq<Torrent>)
    requires i < |ev.changed| && Open(size, ev, i, 0, frames, changed, [])
    requires ItemsLen(size, changed) + size(CapItem(ev.changed[i])) <= BUDGET
    ensures Open(size, ev, i + 1, 0, frames, changed + [CapItem(ev.changed[i])], [])
  {
    AccountsItem(size, ev, i, frames, changed);
  }

  lemma AccountsHash(size: Measure, ev: Change, j: nat, frames: seq<Change>, changed: seq<Torrent>, removed: seq<Hash>)
    requires j < |ev.removed| && Accounts(size, ev, |ev.changed|, j, frames, changed, removed)
    requires ItemsLen(size, changed) + HashesCost(removed) + ByteLen(ev.removed[j]) + HASH_COST <= BUDGET
    ensures Accounts(size, ev, |ev.changed|, j + 1, frames, changed, removed + [ev.removed[j]])
    ensures HashesCost(removed + [ev.removed[j]]) == HashesCost(removed) + ByteLen(ev.removed[j]) + HASH_COST
  {
    HashesCostAppend(removed, ev.removed[j]);
    assert ev.removed[..j + 1] == ev.removed[..j] + [ev.removed[j]];
    Reassociated(AllRemoved(frames), removed, [ev.removed[j]]);
  }

  lemma OpenHash(size: Measure, ev: Change, j: nat, frames: seq<Change>, changed: seq<Torrent>, removed: seq<Hash>)
    requires j < |ev.removed| && Open(size, ev, |ev.changed|, j, frames, changed, removed)
    requires ItemsLen(size, changed) + HashesCost(removed) + ByteLen(ev.removed[j]) + HASH_COST <= BUDGET
    ensures Open(size, ev, |ev.changed|, j + 1, frames, changed, removed + [ev.removed[j]])
    ensures HashesCost(removed + [ev.removed[j]]) == HashesCost(removed) + ByteLen(ev.removed[j]) + HASH_COST
  {
    AccountsHash(size, ev, j, frames, changed, removed);
  }

  lemma OpenDone(size: Measure, ev: Change, frames: seq<Change>)
    requires Open(size, ev, |ev.changed|, |ev.removed|, frames, [], [])
    ensures Splits(size, ev, frames)
  {
    assert ev.changed[..|ev.changed|] == ev.changed && ev.removed[..|ev.removed|] == ev.removed;
  }

  /** The flush before an addition that would overrun the budget. */
  method MakeRoom(size: Measure, ev: Change, i: nat, j: nat, frames: seq<Change>, changed: seq<Torrent>, removed: seq<Hash>,
                  cost: nat, extra: nat)
    returns (frames': seq<Change>, changed': seq<Torrent>, removed': seq<Hash>, cost': nat)
    requires i <= |ev.changed| && j <= |ev.removed| && Open(size, ev, i, j, frames, changed, removed)
    requires cost == ItemsLen(size, changed) + HashesCost(removed) && extra <= BUDGET
    ensures Open(size, ev, i, j, frames', changed', removed')
    ensures cost' == ItemsLen(size, changed') + HashesCost(removed') && cost' + extra <= BUDGET
    ensures removed == [] ==> removed' == []
  {
    frames', changed', removed', cost' := frames, changed, removed, cost;
    if cost + extra > BUDGET && (|changed| > 0 || |removed| > 0) {
      OpenFlushed(size, ev, i, j, frames, changed, removed);
      frames' := Flush(frames, ev.seqNo, changed, removed);
      changed', removed', cost' := [], [], 0;
    }
  }

  /** The first loop: capped items, opening a new frame when one would overrun. */
  method AddChanged(size: Measure, ev: Change)
    returns (ok: bool, frames: seq<Change>, changed: seq<Torrent>, cost: nat)
    ensures ok == forall i :: 0 <= i < |ev.changed| ==> size(CapItem(ev.changed[i])) <= BUDGET
    ensures ok ==> Open(size, ev, |ev.changed|, 0, frames, changed, [])
    ensures ok ==> cost == ItemsLen(size, changed) + HashesCost([])
  {
    var removed: seq<Hash> := [];
    frames, changed, cost := [], [], 0;
    OpenStart(size, ev);
    for i := 0 to |ev.changed|
      invariant forall k :: 0 <= k < i ==> size(CapItem(ev.changed[k])) <= BUDGET
      invariant Open(size, ev, i, 0, frames, changed, removed) && removed == []
      invariant cost == ItemsLen(size, changed) + HashesCost(removed)
    {
      var t := CapItem(ev.changed[i]);
      var b := size(t);
      if b > BUDGET {
        return false, [], [], 0;
      }
      frames, changed, removed, cost := MakeRoom(size, ev, i, 0, frames, changed, removed, cost, b);
      OpenItem(size, ev, i, frames, changed);
      ItemsLenAppend(size, changed, t);
      changed := changed + [t];
      cost := cost + b;
    }
    ok := true;
  }

  lemma OpenStart(size: Measure, ev: Change)
    ensures Open(size, ev, 0, 0, [], [], [])
  {
  }

  /** Its body, for a hash that is not too long. */
  method AddHash(size: Measure, ev: Change, j: nat, frames: seq<Change>, changed: seq<Torrent>, removed: seq<Hash>, cost: nat)
    returns (frames': seq<Change>, changed': seq<Torrent>, removed': seq<Hash>, cost': nat)
    requires j < |ev.removed| && ByteLen(ev.removed[j]) <= MAX_HASH_BYTES
    requires Open(size, ev, |ev.changed|, j, frames, changed, removed) && cost == ItemsLen(size, changed) + HashesCost(removed)
    ensures Open(size, ev, |ev.changed|, j + 1, frames', changed', removed')
    ensures cost' == ItemsLen(size, changed') + HashesCost(removed')
  {
    var h := ev.removed[j];
    frames', changed', removed', cost' :=
      MakeRoom(size, ev, |ev.changed|, j, frames, changed, removed, cost, ByteLen(h) + HASH_COST);
    OpenHash(size, ev, j, frames', changed', removed');
    removed' := removed' + [h];
    cost' := cost' + ByteLen(h) + HASH_COST;
  }

  /** The second loop: removals follow in the frame still open, then in frames of their own. */
  method AddRemoved(size: Measure, ev: Change, full: seq<Change>, pending: seq<Torrent>, pendingCost: nat)
    returns (ok: bool, frames: seq<Change>, changed: seq<Torrent>, removed: seq<Hash>)
    requires Open(size, ev, |ev.changed|, 0, full, pending, [])
    requires pendingCost == ItemsLen(size, pending) + HashesCost([])
    ensures ok == forall i :: 0 <= i < |ev.removed| ==> ByteLen(ev.removed[i]) <= MAX_HASH_BYTES
    ensures ok ==> Open(size, ev, |ev.changed|, |ev.removed|, frames, changed, removed)
  {
    frames, changed, removed := full, pending, [];
    var cost := pendingCost;
    for j := 0 to |ev.removed|
      invariant forall k :: 0 <= k < j ==> ByteLen(ev.removed[k]) <= MAX_HASH_BYTES
      invariant Open(size, ev, |ev.changed|, j, frames, changed, removed)
      invariant cost == ItemsLen(size, changed) + HashesCost(removed)
    {
      var h := ev.removed[j];
      if ByteLen(h) > MAX_HASH_BYTES {
        return false, [], [], [];
      }
      frames, changed, removed, cost := AddHash(size, ev, j, frames, changed, removed, cost);
    }
    ok := true;
  }

  /** The last flush. */
  method Close(size: Measure, ev: Change, most: seq<Change>, rest: seq<Torrent>, removed: seq<Hash>) returns (frames: seq<Change>)
    requires Open(size, ev, |ev.changed|, |ev.removed|, most, rest, removed)
    ensures Splits(size, ev, frames)
  {
    frames := Flush(most, ev.seqNo, rest, removed);
    if |rest| > 0 || |removed| > 0 {
      OpenFlushed(size, ev, |ev.changed|, |ev.removed|, most, rest, removed);
    }
    OpenDone(size, ev, frames);
  }

  /** One event into frames. It fails, emitting nothing, exactly when one capped item alone
      exceeds the budget or one removed hash exceeds 64 bytes. */
  method EncodeDeltas(size: Measure, ev: Change) returns (frames: seq<Change>, ok: bool)
    ensures ok == Frameable(size, ev)
    ensures ok ==> Splits(size, ev, frames)
    ensures !ok ==> frames == []
  {
    var itemsFit, full, changed, cost := AddChanged(size, ev);
    if !itemsFit {
      return [], false;
    }
    var hashesFit, most, rest, removed := AddRemoved(size, ev, full, changed, cost);
    if !hashesFit {
      return [], false;
    }
    frames := Close(size, ev, most, rest, removed);
    ok := true;
  }

  // ---- every frame fits ----

  predicate Hex(h: Hash) {
    forall i :: 0 <= i < |h| ==> HexDigit(h[i])
  }

  lemma {:induction false} ItemsAreLong(size: Measure, ts: seq<Torrent>)
    requires forall t: Torrent :: size(t) >= 100
    ensures ItemsLen(size, ts) >= 100 * |ts|
  {
    if ts != [] {
      ItemsAreLong(size, ts[..|ts| - 1]);
    }
  }

  lemma {:induction false} HexHashesFit(hs: seq<Hash>)
    requires forall i :: 0 <= i < |hs| ==> Hex(hs[i])
    ensures HashesLen(hs) + |hs| <= HashesCost(hs)
  {
    if hs != [] {
      HexHashesFit(hs[..|hs| - 1]);
      PlainLen(hs[|hs| - 1]);
    }
  }

  /** The 3800-byte accounting really keeps every frame, LF, commas and overhead included,
      within 4096 bytes when the removed hashes are hexadecimal. */
  lemma MeasuredFrameFits(size: Measure, f: Change)
    requires forall t: Torrent :: size(t) >= 100
    requires Cost(size, f) <= BUDGET && f.seqNo <= MAX_UINT64
    requires forall i :: 0 <= i < |f.removed| ==> Hex(f.removed[i])
    ensures FrameLen(size, f) + 1 <= MAX_FRAME
  {
    IntBound(f.seqNo);
    ItemsAreLong(size, f.changed);
    HexHashesFit(f.removed);
  }

  lemma {:induction false} RemovedFromEvent(frames: seq<Change>, i: nat, h: Hash)
    requires i < |frames| && h in frames[i].removed
    ensures h in AllRemoved(frames)
  {
    if i < |frames| - 1 {
      RemovedFromEvent(frames[..|frames| - 1], i, h);
    }
  }

  lemma AllFramesFit(fw: Widths, ev: Change, frames: seq<Change>)
    requires Splits(JsonItem(fw), ev, frames) && ev.seqNo <= MAX_UINT64
    requires forall i :: 0 <= i < |ev.removed| ==> Hex(ev.removed[i])
    ensures forall i :: 0 <= i < |frames| ==> FrameLen(JsonItem(fw), frames[i]) + 1 <= MAX_FRAME
  {
    forall i | 0 <= i < |frames| ensures FrameLen(JsonItem(fw), frames[i]) + 1 <= MAX_FRAME {
      forall k | 0 <= k < |frames[i].removed| ensures Hex(frames[i].removed[k]) {
        RemovedFromEvent(frames, i, frames[i].removed[k]);
      }
      MeasuredFrameFits(JsonItem(fw), frames[i]);
    }
  }

  // ---- replaying the frames is applying the event ----

  lemma {:induction false} ApplyChangedAppend(m: map<Hash, Torrent>, xs: seq<Torrent>, ys: seq<Torrent>)
    ensures ApplyChanged(m, xs + ys) == ApplyChanged(ApplyChanged(m, xs), ys)
  {
    if ys == [] {
      assert xs + ys == xs;
    } else {
      assert (xs + ys)[..|xs + ys| - 1] == xs + ys[..|ys| - 1];
      ApplyChangedAppend(m, xs, ys[..|ys| - 1]);
    }
  }

  lemma {:induction false} RemovalFreeFront(frames: seq<Change>)
    ensures AllRemoved(frames) == [] <==> forall i :: 0 <= i < |frames| ==> frames[i].removed == []
  {
    if frames != [] {
      RemovalFreeFront(frames[..|frames| - 1]);
    }
  }

  lemma {:induction false} FramesReplay(m: map<Hash, Torrent>, frames: seq<Change>, seqNo: nat)
    requires Ordered(frames, seqNo)
    ensures ReplayAll(m, frames) == Replay(m, Change(seqNo, AllChanged(frames), AllRemoved(frames)))
  {
    if frames == [] {
      assert Replay(m, Change(seqNo, [], [])) == m;
    } else {
      var front, last := frames[..|frames| - 1], frames[|frames| - 1];
      FramesReplay(m, front, seqNo);
      RemovalFreeFront(front);
      OneMoreFrame(m, seqNo, AllChanged(front), AllRemoved(front), last);
    }
  }

  /** A frame that brings no item after a removal replays on top as its lists appended. */
  lemma OneMoreFrame(m: map<Hash, Torrent>, seqNo: nat, changed: seq<Torrent>, removed: seq<Hash>, last: Change)
    requires removed == [] || last.changed == []
    ensures Replay(Replay(m, Change(seqNo, changed, removed)), last)
            == Replay(m, Change(seqNo, changed + last.changed, removed + last.removed))
  {
    var gone, more := set h | h in removed, set h | h in last.removed;
    assert (set h | h in removed + last.removed) == gone + more;
    ApplyChangedAppend(m, changed, last.changed);
    if removed == [] {
      assert gone == {};
      assert ApplyChanged(m, changed) - gone == ApplyChanged(m, changed);
    } else {
      assert changed + last.changed == changed;
      assert ApplyChanged(m, changed) - gone - more == ApplyChanged(m, changed) - (gone + more);
    }
  }

  /** Applying the frames one after another does to any view what applying the event with
      capped names does. */
  lemma SplitIsLossless(size: Measure, m: map<Hash, Torrent>, ev: Change, frames: seq<Change>)
    requires Splits(size, ev, frames)
    ensures ReplayAll(m, frames) == Replay(m, ev.(changed := CapAll(ev.changed)))
  {
    FramesReplay(m, frames, ev.seqNo);
  }
}
