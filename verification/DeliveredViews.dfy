/** What a client makes of the frames it reads, and the theorems about the stream over every
    run of Delivery. */
module DeliveredViews {
  import opened Options
  import opened Torrents
  import opened SyncSpec
  import opened Connections
  import opened Deltas
  import opened Delivery
  import opened Snapshots
  import Encoders
  import SyncRuns

  // ---- what the client sees ----

  /** The client's own replay of the frames it reads. */
  function ClientView(frames: seq<Frame>): map<Hash, Torrent> {
    if frames == [] then map[]
    else
      var m := ClientView(frames[..|frames| - 1]);
      match frames[|frames| - 1]
      case Begin(_) => map[]
      case Item(_, t) => m[t.hash := t]
      case Delta(part) => Replay(m, part)
      case _ => m
  }

  /** The same torrents, names possibly cut. */
  predicate Mirrors(view: map<Hash, Torrent>, m: map<Hash, Torrent>) {
    && view.Keys == m.Keys
    && forall h :: h in m ==> Encoders.Truncates(view[h].name, m[h].name) && view[h] == m[h].(name := view[h].name)
  }

  predicate MirrorsItems(view: map<Hash, Torrent>, items: seq<Torrent>, n: nat)
    requires n <= |items|
  {
    && (forall i :: 0 <= i < n ==> items[i].hash in view && Shortens(view[items[i].hash], items[i]))
    && (forall h :: h in view ==> exists i :: 0 <= i < n && items[i].hash == h)
  }

  lemma ItemPlaced(view: map<Hash, Torrent>, items: seq<Torrent>, n: nat, t: Torrent)
    requires n < |items| && Distinct(items) && MirrorsItems(view, items, n) && Shortens(t, items[n])
    ensures MirrorsItems(view[t.hash := t], items, n + 1)
  {
    var next := view[t.hash := t];
    forall h | h in next ensures exists i :: 0 <= i < n + 1 && items[i].hash == h {
      if h == t.hash {
        assert items[n].hash == h;
      } else {
        var i :| 0 <= i < n && items[i].hash == h;
      }
    }
  }

  lemma {:induction false} HeadItems(items: seq<Torrent>, head: seq<Frame>)
    requires HeadOf(items, head) && 2 <= |head| <= |items| + 2 && Distinct(items)
    ensures MirrorsItems(ClientView(head), items, |head| - 2)
  {
    var front, n := head[..|head| - 1], |head| - 3;
    if n < 0 {
      assert HeadFrame(items, 1, head[1]);
    } else {
      HeadItems(items, front);
      assert HeadFrame(items, n + 2, head[n + 2]);
      ItemPlaced(ClientView(front), items, n, head[n + 2].torrent);
    }
  }

  lemma ItemsMirror(view: map<Hash, Torrent>, items: seq<Torrent>, m: map<Hash, Torrent>)
    requires MirrorsItems(view, items, |items|) && Lists(items, m) && Tidy(m)
    ensures Mirrors(view, m)
  {
    forall h | h in m ensures h in view && Encoders.Truncates(view[h].name, m[h].name) && view[h] == m[h].(name := view[h].name) {
      var i :| 0 <= i < |items| && items[i] == m[h];
      assert Shortens(view[items[i].hash], items[i]);
    }
    forall h | h in view ensures h in m {
      var i :| 0 <= i < |items| && items[i].hash == h;
    }
  }

  lemma {:induction false} ListedOnce(items: seq<Torrent>, keys: set<Hash>)
    requires Distinct(items) && (forall i :: 0 <= i < |items| ==> items[i].hash in keys)
    requires forall h :: h in keys ==> exists i :: 0 <= i < |items| && items[i].hash == h
    ensures |items| == |keys|
  {
    if items == [] {
      assert keys == {};
    } else {
      var front, last := items[..|items| - 1], items[|items| - 1];
      forall h | h in keys - {last.hash} ensures exists i :: 0 <= i < |front| && front[i].hash == h {
        var i :| 0 <= i < |items| && items[i].hash == h;
        assert front[i].hash == h;
      }
      ListedOnce(front, keys - {last.hash});
    }
  }

  /** The whole head announces the subscription, then as many torrents as the snapshot holds,
      sends them and says that it is done; then the client holds the snapshot. */
  lemma HeadView(items: seq<Torrent>, head: seq<Frame>, m: map<Hash, Torrent>)
    requires HeadOf(items, head) && Complete(items, head) && Lists(items, m) && Tidy(m)
    ensures Mirrors(ClientView(head), m)
    ensures |head| == |m| + 3 && head[0] == Subscribed && head[1] == Begin(|m|) && head[|m| + 2] == End
    ensures forall i :: 2 <= i < |m| + 2 ==> head[i].Item? && head[i].index == i - 2
  {
    forall h | h in m.Keys ensures exists i :: 0 <= i < |items| && items[i].hash == h {
      var i :| 0 <= i < |items| && items[i] == m[h];
    }
    ListedOnce(items, m.Keys);
    assert HeadFrame(items, 0, head[0]) && HeadFrame(items, 1, head[1]);
    forall i | 2 <= i < |m| + 2 ensures head[i].Item? && head[i].index == i - 2 {
      assert HeadFrame(items, i, head[i]);
    }
    var front := head[..|head| - 1];
    assert HeadOf(items, front);
    HeadItems(items, front);
    assert HeadFrame(items, |head| - 1, head[|head| - 1]);
    ItemsMirror(ClientView(front), items, m);
  }

  lemma {:induction false} ApplyMirrors(view: map<Hash, Torrent>, m: map<Hash, Torrent>, ts: seq<Torrent>)
    requires Mirrors(view, m)
    ensures Mirrors(ApplyChanged(view, CapAll(ts)), ApplyChanged(m, ts))
  {
    if ts != [] {
      ApplyMirrors(view, m, ts[..|ts| - 1]);
      Encoders.CapTruncates(ts[|ts| - 1].name, ts[|ts| - 1].name, NAME_CAP);
      assert CapAll(ts)[..|ts| - 1] == CapAll(ts[..|ts| - 1]);
    }
  }

  /** An event applied to a mirror of a map gives a mirror of the event applied to it. */
  lemma ReplayMirrors(view: map<Hash, Torrent>, m: map<Hash, Torrent>, ev: Change)
    requires Mirrors(view, m)
    ensures Mirrors(Replay(view, ev.(changed := CapAll(ev.changed))), Replay(m, ev))
  {
    ApplyMirrors(view, m, ev.changed);
  }

  lemma {:induction false} ViewOfDeltas(frames: seq<Frame>, parts: seq<Change>)
    ensures ClientView(frames + DeltaFrames(parts)) == ReplayAll(ClientView(frames), parts)
  {
    if parts == [] {
      assert frames + DeltaFrames(parts) == frames;
    } else {
      var front := parts[..|parts| - 1];
      ViewOfDeltas(frames, front);
      assert (frames + DeltaFrames(parts))[..|frames| + |parts| - 1] == frames + DeltaFrames(front);
    }
  }

  /** The frames of one event take a mirror of the map before it to a mirror of the map after. */
  lemma BatchMirrors(size: Measure, frames: seq<Frame>, batch: seq<Change>, ev: Change, m: map<Hash, Torrent>)
    requires Mirrors(ClientView(frames), m) && Splits(size, ev, batch)
    ensures Mirrors(ClientView(frames + DeltaFrames(batch)), Replay(m, ev))
  {
    ViewOfDeltas(frames, batch);
    SplitIsLossless(size, ClientView(frames), ev, batch);
    ReplayMirrors(ClientView(frames), m, ev);
  }

  /** The frames up to the end of the k-th event. */
  function Boundary(l: Line, k: nat): seq<Frame>
    requires k <= |l.batches|
  {
    l.head + DeltaFrames(Flat(l.batches[..k]))
  }

  /** The maps a log leads through from its snapshot. */
  predicate LeadsThrough(maps: seq<map<Hash, Torrent>>, log: seq<Change>) {
    |maps| == |log| + 1 && forall j :: 0 <= j < |log| ==> Replay(maps[j], log[j]) == maps[j + 1]
  }

  lemma {:induction false} BoundaryMirrors(size: Measure, l: Line, log: seq<Change>, maps: seq<map<Hash, Torrent>>, k: nat)
    requires HeadOf(l.items, l.head) && Complete(l.items, l.head)
    requires LeadsThrough(maps, log) && Lists(l.items, maps[0]) && Tidy(maps[0])
    requires k <= |l.batches| <= |log| && forall j :: 0 <= j < |l.batches| ==> Splits(size, log[j], l.batches[j])
    ensures Mirrors(ClientView(Boundary(l, k)), maps[k])
  {
    if k == 0 {
      HeadView(l.items, l.head, maps[0]);
      assert Boundary(l, 0) == l.head;
    } else {
      BoundaryMirrors(size, l, log, maps, k - 1);
      BatchMirrors(size, Boundary(l, k - 1), l.batches[k - 1], log[k - 1], maps[k - 1]);
      BoundaryMore(l, k);
    }
  }

  lemma BoundaryMore(l: Line, k: nat)
    requires 0 < k <= |l.batches|
    ensures Boundary(l, k) == Boundary(l, k - 1) + DeltaFrames(l.batches[k - 1])
  {
    assert l.batches[..k] == l.batches[..k - 1] + [l.batches[k - 1]];
    FlatMore(l.batches[..k - 1], l.batches[k - 1]);
  }

  lemma ViewLeads(s: SyncRuns.Sys, id: SubId)
    requires SyncRuns.HistoryOk(s) && id in s.views && SyncRuns.ViewOk(s, id)
    ensures var v := s.views[id];
            v.start + |v.log| < |s.past| && LeadsThrough(s.past[v.start..v.start + |v.log| + 1], v.log)
            && s.past[v.start] == v.snapshot
  {
    var v := s.views[id];
    var maps := s.past[v.start..v.start + |v.log| + 1];
    forall j | 0 <= j < |v.log| ensures Replay(maps[j], v.log[j]) == maps[j + 1] {
      assert v.log[j] == s.published[v.start + j];
      assert maps[j] == s.past[v.start + j] && maps[j + 1] == s.past[v.start + j + 1];
    }
  }

  // ---- the theorems ----

  /** Whatever happened, the subscription frames written are a prefix of: subscribed,
      begin(n), items 0 to n - 1, end, then the delta frames of consecutive published
      events, the first one right after the snapshot was taken. */
  lemma WrittenIsAPrefix(size: Measure, states: seq<World>, steps: seq<Step>, i: nat)
    requires IsRun(size, states, steps) && i < |states| && Started(states[i])
    ensures var s, l, id := states[i].sys, states[i].line, states[i].id;
            && Sub(l.written) <= l.head + DeltaFrames(Flat(l.batches))
            && HeadOf(l.items, l.head) && (l.batches != [] ==> Complete(l.items, l.head))
            && id in s.views && s.views[id].start + |l.batches| <= |s.published| < |s.past|
            && Listing(l.items, s.past[s.views[id].start])
            && forall k :: 0 <= k < |l.batches| ==> Splits(size, s.published[s.views[id].start + k], l.batches[k])
  {
    Reachable(size, states, steps, i);
    BatchesArePublished(size, states[i].sys, states[i].id, states[i].line);
  }

  lemma BatchesArePublished(size: Measure, s: SyncRuns.Sys, id: SubId, l: Line)
    requires |s.past| == |s.published| + 1 && id in s.views && SyncRuns.ViewOk(s, id) && FeedOn(size, s.views[id], l)
    ensures s.views[id].start + |l.batches| <= |s.published| && Listing(l.items, s.past[s.views[id].start])
    ensures forall k :: 0 <= k < |l.batches| ==> Splits(size, s.published[s.views[id].start + k], l.batches[k])
  {
    forall k | 0 <= k < |l.batches| ensures Splits(size, s.published[s.views[id].start + k], l.batches[k]) {
      assert s.views[id].log[k] == s.published[s.views[id].start + k];
    }
  }

  /** A frame or an event goes missing only by shutting the connection's queue: until then
      every frame due is written, queued or still in the pump's hands, and every event put
      into the subscriber's channel is in a batch, in the forwarder's buffer or hand, or
      still in the channel, in that order; the queues stay within their bounds. What the
      client notices of it at its socket is WriterFates.WriterFate's to say. */
  lemma LostOnlyByClosing(size: Measure, states: seq<World>, steps: seq<Step>, i: nat)
    requires IsRun(size, states, steps) && i < |states| && Started(states[i])
    ensures var s, l, id := states[i].sys, states[i].line, states[i].id;
            && |l.conn.queue| <= OUT_QUEUE && |l.fwd| <= FORWARD_BUFFER
            && id in s.views && |l.batches| <= |s.views[id].log| && s.views[id].start <= |s.published|
            && (!l.conn.shut ==> Sub(l.written) + Sub(l.conn.queue) + DeltaFrames(l.pending) == Due(l))
            && (!l.conn.shut && id in s.subs && !l.fwdShut ==>
                  s.published[s.views[id].start..] == s.views[id].log[..|l.batches|] + Waiting(l) + s.subs[id])
  {
    Reachable(size, states, steps, i);
    var s, l, id := states[i].sys, states[i].line, states[i].id;
    assert SyncRuns.ViewOk(s, id);
    if !l.conn.shut && id in s.subs && !l.fwdShut {
      LogSplits(s.views[id], l);
    }
  }

  function Waiting(l: Line): seq<Change> {
    l.fwd + if l.hold.Some? then [l.hold.value] else []
  }

  lemma LogSplits(v: SyncRuns.View, l: Line)
    requires InOrder(v, l) && !l.fwdShut
    ensures v.log == v.log[..|l.batches|] + Waiting(l) + v.log[v.taken..]
  {
    var n, m := |l.batches|, |l.batches| + |l.fwd|;
    assert v.log[m..v.taken] == if l.hold.Some? then [l.hold.value] else [];
    assert v.log[n..v.taken] == v.log[n..m] + v.log[m..v.taken];
  }

  /** At each event boundary of the stream the client's view is a map that was committed:
      the one right after the corresponding event, names possibly cut. */
  lemma BoundaryView(size: Measure, states: seq<World>, steps: seq<Step>, i: nat, k: nat)
    requires IsRun(size, states, steps) && i < |states| && Started(states[i])
    requires Complete(states[i].line.items, states[i].line.head) && k <= |states[i].line.batches|
    ensures var s, l, id := states[i].sys, states[i].line, states[i].id;
            id in s.views && s.views[id].start + k < |s.past|
            && Mirrors(ClientView(Boundary(l, k)), s.past[s.views[id].start + k])
  {
    var s, l, id := states[i].sys, states[i].line, states[i].id;
    assert id in s.views && HeadOk(l) && SyncRuns.HistoryOk(s) && SyncRuns.ViewOk(s, id) && FeedOn(size, s.views[id], l) by {
      Reachable(size, states, steps, i);
    }
    ViewLeads(s, id);
    var v := s.views[id];
    BoundaryMirrors(size, l, v.log, s.past[v.start..v.start + |v.log| + 1], k);
  }

  /** Nothing is on its way and nobody has a closed channel to react to. */
  predicate AtRest(w: World) {
    var l := w.line;
    && l.phase.Pumping? && l.pending == [] && l.fwd == [] && !l.fwdShut && l.hold.None? && l.conn.queue == []
    && w.id in w.sys.views && w.sys.views[w.id].taken == |w.sys.views[w.id].log| && !SourceIsShut(w)
  }

  /** An open connection with nothing left to move has shown its client exactly the current
      committed map: a client is behind only for as long as the pipe still holds the rest. */
  lemma AtRestIsCurrent(size: Measure, states: seq<World>, steps: seq<Step>, i: nat)
    requires IsRun(size, states, steps) && i < |states|
    requires AtRest(states[i]) && !states[i].line.conn.shut
    ensures Mirrors(ClientView(Sub(states[i].line.written)), states[i].sys.core.cur.torrents)
  {
    var w := states[i];
    assert HeadOk(w.line) && FlowOk(w.line) && SyncRuns.HistoryOk(w.sys) && SyncRuns.ViewsOk(w.sys)
      && FeedOn(size, w.sys.views[w.id], w.line) by {
      Reachable(size, states, steps, i);
    }
    RestIsTheLastBoundary(w.line);
    RestIsNow(size, w);
    var n := |w.line.batches|;
    BoundaryView(size, states, steps, i, n);
  }

  lemma RestIsTheLastBoundary(l: Line)
    requires FlowOk(l) && !l.conn.shut && l.pending == [] && l.conn.queue == []
    ensures Boundary(l, |l.batches|) == Sub(l.written)
  {
    assert l.batches[..|l.batches|] == l.batches;
    assert Sub(l.written) + Sub([]) + DeltaFrames([]) == Sub(l.written);
  }

  lemma RestIsNow(size: Measure, w: World)
    requires SyncRuns.HistoryOk(w.sys) && SyncRuns.ViewsOk(w.sys) && AtRest(w) && FeedOn(size, w.sys.views[w.id], w.line)
    ensures var at := w.sys.views[w.id].start + |w.line.batches|;
            at < |w.sys.past| && w.sys.past[at] == w.sys.core.cur.torrents
  {
    assert SyncRuns.ViewOk(w.sys, w.id);
  }

  /** A pump that finds the queue shut, has an event it cannot frame, or sees its source end,
      is done: it takes no event and sends no frame any more. */
  lemma PumpEnds(size: Measure, states: seq<World>, steps: seq<Step>, i: nat, j: nat)
    requires IsRun(size, states, steps) && i < j < |states|
    requires || (steps[i].PumpSend? && states[i + 1].line.conn.shut) || steps[i].PumpEnd?
             || (steps[i].PumpTake? && states[i].line.fwd != [] && !Frameable(size, states[i].line.fwd[0]))
    ensures states[i + 1].line.conn.shut && states[j].line.phase.Finished?
    ensures states[j].line.head == states[i + 1].line.head && states[j].line.batches == states[i + 1].line.batches
  {
    assert StepAt(size, states, steps, i);
    DoneForGood(size, states, steps, i + 1, j);
  }

  lemma {:induction false} DoneForGood(size: Measure, states: seq<World>, steps: seq<Step>, i: nat, j: nat)
    requires IsRun(size, states, steps) && i <= j < |states| && states[i].line.phase.Finished?
    ensures states[j].line.phase.Finished?
    ensures states[j].line.head == states[i].line.head && states[j].line.batches == states[i].line.batches
  {
    if i < j {
      DoneForGood(size, states, steps, i, j - 1);
      assert StepAt(size, states, steps, j - 1);
    }
  }
}
