/** One subscription from the syncer to the socket: the syncer's channel, the forwarder
    (main.go), the snapshot sender, the delta pump, the connection's queue and its writer
    (ipc/server.go), all interleaved with each other and with the whole syncer. */
module Delivery {
  import opened Options
  import opened Torrents
  import opened SyncSpec
  import opened Connections
  import opened Deltas
  import opened Snapshots
  import Encoders
  import SyncRuns

  const FORWARD_BUFFER := 16

  // ---- the snapshot's head ----

  /** What EncodeSnapshotItem may make of an item. */
  predicate Shortens(cut: Torrent, t: Torrent) {
    && Encoders.Truncates(cut.name, t.name)
    && cut == t.(name := cut.name, category := CapRunes(t.category, CATEGORY_CAP))
  }

  predicate HeadFrame(items: seq<Torrent>, i: nat, f: Frame) {
    if i == 0 then f == Subscribed
    else if i == 1 then f == Begin(|items|)
    else if i < |items| + 2 then f.Item? && f.index == i - 2 && Shortens(f.torrent, items[i - 2])
    else i == |items| + 2 && f == End
  }

  /** A prefix of: subscribed, begin(n), items 0 to n - 1, end. */
  predicate HeadOf(items: seq<Torrent>, head: seq<Frame>) {
    forall i :: 0 <= i < |head| ==> HeadFrame(items, i, head[i])
  }

  predicate Complete(items: seq<Torrent>, head: seq<Frame>) {
    |head| == |items| + 3
  }

  // ---- the line ----

  datatype Phase = Unsubscribed | Heading | Pumping | Finished

  /** The forwarder's held event and buffer, the pump's unsent frames, the connection, the
      writer. History: the sorted snapshot, the head frames sent, the frames made of each
      event the pump took, every frame ever queued, every frame written, and the frame whose
      write failed. */
  datatype Line = Line(
    phase: Phase, items: seq<Torrent>, head: seq<Frame>, hold: Option<Change>, fwd: seq<Change>, fwdShut: bool,
    pending: seq<Change>, batches: seq<seq<Change>>, conn: Conn, writerDone: bool, written: seq<Frame>,
    queued: seq<Frame>, lost: Option<Frame>)

  datatype World = World(sys: SyncRuns.Sys, id: SubId, line: Line)

  datatype Step =
    | Daemon(step: SyncRuns.Step)
    | Start(items: seq<Torrent>)
    | SendHead(torrent: Torrent)
    | Receive
    | Forward
    | SourceShut
    | PumpTake(frames: seq<Change>)
    | PumpSend
    | PumpEnd
    | SendOther
    | Write(ok: bool)
    | WriterEnd
    | Teardown

  const IDLE_LINE := Line(Unsubscribed, [], [], None, [], false, [], [], Conn([], false, true, false, NoHook, true), false, [], [], None)

  predicate Init(w: World) {
    SyncRuns.Init(w.sys) && w.line == IDLE_LINE
  }

  predicate Started(w: World) {
    !w.line.phase.Unsubscribed?
  }

  function NextHead(l: Line, torrent: Torrent): Frame {
    if |l.head| == 0 then Subscribed
    else if |l.head| == 1 then Begin(|l.items|)
    else if |l.head| < |l.items| + 2 then Item(|l.head| - 2, torrent)
    else End
  }

  /** The steps that touch nothing but the line. */
  ghost predicate LineEnabled(size: Measure, l: Line, step: Step) {
    match step
    case Daemon(_) => false
    case Start(_) => false
    case Receive => false
    case SendHead(torrent) =>
      && l.phase.Heading? && !l.conn.shut && |l.conn.queue| < OUT_QUEUE
      && (2 <= |l.head| < |l.items| + 2 ==> Shortens(torrent, l.items[|l.head| - 2]))
    case Forward => l.hold.Some?
    case SourceShut => !l.phase.Unsubscribed? && !l.fwdShut && l.hold.None?
    case PumpTake(frames) =>
      && l.phase.Pumping? && l.pending == [] && l.fwd != []
      && (Frameable(size, l.fwd[0]) ==> Splits(size, l.fwd[0], frames))
    case PumpSend => l.phase.Pumping? && l.pending != []
    case PumpEnd => l.phase.Pumping? && l.pending == [] && l.fwd == [] && l.fwdShut
    case SendOther => true
    case Write(_) => l.conn.queue != [] && !l.writerDone
    case WriterEnd => l.conn.queue == [] && l.conn.shut && !l.writerDone
    case Teardown => true
  }

  /** What an offer adds to the queue. */
  function Taken(c: Conn, f: Frame): seq<Frame> {
    if c.shut || |c.queue| >= OUT_QUEUE then [] else [f]
  }

  function Batched(l: Line, frames: seq<Change>): Line
    requires l.fwd != []
  {
    l.(fwd := l.fwd[1..], pending := frames, batches := l.batches + [frames])
  }

  function Unframeable(l: Line): Line
    requires l.fwd != []
  {
    l.(fwd := l.fwd[1..], phase := Finished, conn := TornDown(l.conn))
  }

  ghost function LineAfter(size: Measure, l: Line, step: Step): Line
    requires LineEnabled(size, l, step)
  {
    match step
    case SendHead(torrent) =>
      var f := NextHead(l, torrent);
      l.(head := l.head + [f], conn := Offered(l.conn, f), phase := if f.End? then Pumping else Heading,
         queued := l.queued + Taken(l.conn, f))
    case Forward =>
      if |l.fwd| < FORWARD_BUFFER then l.(hold := None, fwd := l.fwd + [l.hold.value])
      else l.(hold := None, fwdShut := true)
    case SourceShut => l.(fwdShut := true)
    case PumpTake(frames) => if Frameable(size, l.fwd[0]) then Batched(l, frames) else Unframeable(l)
    case PumpSend =>
      var f := Delta(l.pending[0]);
      var c := Offered(l.conn, f);
      if c.shut then l.(conn := c, phase := Finished)
      else l.(conn := c, pending := l.pending[1..], queued := l.queued + Taken(l.conn, f))
    case PumpEnd => l.(phase := Finished, conn := TornDown(l.conn))
    case SendOther => l.(conn := Offered(l.conn, Frame.Other), queued := l.queued + Taken(l.conn, Frame.Other))
    case Write(ok) =>
      var rest := l.conn.(queue := l.conn.queue[1..]);
      if ok then l.(conn := rest, written := l.written + [l.conn.queue[0]])
      else l.(conn := TornDown(rest), writerDone := true, lost := Some(l.conn.queue[0]))
    case WriterEnd => l.(writerDone := true, conn := l.conn.(socketOpen := false))
    case Teardown => l.(conn := TornDown(l.conn))
  }

  /** The syncer closed the forwarder's channel and the forwarder emptied it. */
  predicate SourceIsShut(w: World) {
    w.id !in w.sys.subs && w.id in w.sys.views && w.sys.views[w.id].taken == |w.sys.views[w.id].log|
  }

  ghost predicate Enabled(size: Measure, w: World, step: Step) {
    match step
    case Daemon(step) => step != SyncRuns.Subscribe(w.id) && step != SyncRuns.Take(w.id) && SyncRuns.Enabled(w.sys, step)
    case Start(items) =>
      && w.line.phase.Unsubscribed? && SyncRuns.Enabled(w.sys, SyncRuns.Subscribe(w.id))
      && Listing(items, w.sys.core.cur.torrents)
    case Receive => Started(w) && !w.line.fwdShut && w.line.hold.None? && SyncRuns.Enabled(w.sys, SyncRuns.Take(w.id))
    case _ => LineEnabled(size, w.line, step) && (step.SourceShut? ==> SourceIsShut(w))
  }

  ghost function After(size: Measure, w: World, step: Step): World
    requires Enabled(size, w, step)
  {
    match step
    case Daemon(step) => w.(sys := SyncRuns.After(w.sys, step))
    case Start(items) =>
      w.(sys := SyncRuns.After(w.sys, SyncRuns.Subscribe(w.id)),
         line := w.line.(phase := Heading, items := items, conn := w.line.conn.(subscribed := true, hook := Installed)))
    case Receive =>
      var v := w.sys.views[w.id];
      w.(sys := SyncRuns.After(w.sys, SyncRuns.Take(w.id)), line := w.line.(hold := Some(v.log[v.taken])))
    case _ => w.(line := LineAfter(size, w.line, step))
  }

  ghost predicate StepAt(size: Measure, states: seq<World>, steps: seq<Step>, i: nat)
    requires i < |steps| < |states|
  {
    Enabled(size, states[i], steps[i]) && states[i + 1] == After(size, states[i], steps[i])
  }

  ghost predicate IsRun(size: Measure, states: seq<World>, steps: seq<Step>) {
    && |states| == |steps| + 1
    && Init(states[0])
    && forall i :: 0 <= i < |steps| ==> StepAt(size, states, steps, i)
  }

  // ---- streams of frames ----

  /** A connection's subscription frames, responses and pushes left out. */
  function Sub(frames: seq<Frame>): seq<Frame> {
    if frames == [] then []
    else Sub(frames[..|frames| - 1]) + (if frames[|frames| - 1].Other? then [] else [frames[|frames| - 1]])
  }

  function DeltaFrames(parts: seq<Change>): (r: seq<Frame>)
    ensures |r| == |parts|
  {
    seq(|parts|, i requires 0 <= i < |parts| => Delta(parts[i]))
  }

  function Flat(batches: seq<seq<Change>>): seq<Change> {
    if batches == [] then [] else Flat(batches[..|batches| - 1]) + batches[|batches| - 1]
  }

  /** Every subscription frame the connection should carry so far. */
  function Due(l: Line): seq<Frame> {
    l.head + DeltaFrames(Flat(l.batches))
  }

  lemma SubMore(frames: seq<Frame>, f: Frame)
    ensures Sub(frames + [f]) == Sub(frames) + (if f.Other? then [] else [f])
  {
    assert (frames + [f])[..|frames|] == frames;
  }

  lemma {:induction false} SubJoin(xs: seq<Frame>, ys: seq<Frame>)
    ensures Sub(xs + ys) == Sub(xs) + Sub(ys)
  {
    if ys == [] {
      assert xs + ys == xs;
    } else {
      var front := ys[..|ys| - 1];
      SubJoin(xs, front);
      assert xs + ys == (xs + front) + [ys[|ys| - 1]];
      SubMore(xs + front, ys[|ys| - 1]);
    }
  }

  lemma SubHead(queue: seq<Frame>)
    requires queue != []
    ensures Sub(queue) == (if queue[0].Other? then [] else [queue[0]]) + Sub(queue[1..])
  {
    assert queue == [queue[0]] + queue[1..];
    SubJoin([queue[0]], queue[1..]);
    SubMore([], queue[0]);
    assert [] + [queue[0]] == [queue[0]];
  }

  // ---- invariants ----

  /** The head is sent before any event is taken, and phases say how far it is. */
  predicate HeadOk(l: Line) {
    && HeadOf(l.items, l.head)
    && (l.phase.Unsubscribed? ==> l == IDLE_LINE.(conn := l.conn, writerDone := l.writerDone, written := l.written,
                                                     queued := l.queued, lost := l.lost))
    && (l.phase.Heading? ==> |l.head| < |l.items| + 3 && l.batches == [] && l.pending == [])
    && (l.phase.Pumping? ==> Complete(l.items, l.head))
    && (l.batches != [] ==> Complete(l.items, l.head))
  }

  /** While open nothing is missing between what is due and what is written, queued or
      pending; once shut, what is written and still queued is a prefix of what was due. */
  predicate FlowOk(l: Line) {
    && (!l.conn.shut ==> !l.writerDone && !l.phase.Finished?
                         && Sub(l.written) + Sub(l.conn.queue) + DeltaFrames(l.pending) == Due(l))
    && Sub(l.written) + (if l.writerDone then [] else Sub(l.conn.queue)) <= Due(l)
    && |l.conn.queue| <= OUT_QUEUE
  }

  lemma HeadStep(size: Measure, l: Line, step: Step)
    requires HeadOk(l) && LineEnabled(size, l, step)
    ensures HeadOk(LineAfter(size, l, step))
  {
  }

  lemma FlatMore(batches: seq<seq<Change>>, frames: seq<Change>)
    ensures Flat(batches + [frames]) == Flat(batches) + frames
  {
    assert (batches + [frames])[..|batches|] == batches;
  }

  lemma FlowSendHead(l: Line, f: Frame)
    requires FlowOk(l) && !f.Other? && !l.conn.shut && |l.conn.queue| < OUT_QUEUE && l.batches == [] && l.pending == []
    ensures FlowOk(l.(head := l.head + [f], conn := Offered(l.conn, f)))
  {
    SubMore(l.conn.queue, f);
    var t := l.(head := l.head + [f], conn := Offered(l.conn, f));
    assert Due(l) == l.head && Due(t) == l.head + [f];
    assert Sub(l.written) + (Sub(l.conn.queue) + [f]) == Sub(l.written) + Sub(l.conn.queue) + [f];
  }

  lemma DueMore(l: Line, frames: seq<Change>)
    requires l.fwd != []
    ensures Due(Batched(l, frames)) == Due(l) + DeltaFrames(frames)
  {
    FlatMore(l.batches, frames);
  }

  lemma FlowPumpTake(l: Line, frames: seq<Change>)
    requires FlowOk(l) && l.pending == [] && l.fwd != []
    ensures FlowOk(Batched(l, frames))
  {
    DueMore(l, frames);
    var out := Sub(l.written) + Sub(l.conn.queue);
    assert out + DeltaFrames([]) == out;
  }

  lemma FlowPumpSend(l: Line)
    requires FlowOk(l) && l.pending != [] && !l.conn.shut && |l.conn.queue| < OUT_QUEUE
    ensures FlowOk(l.(pending := l.pending[1..], conn := Offered(l.conn, Delta(l.pending[0]))))
  {
    var f := Delta(l.pending[0]);
    SubMore(l.conn.queue, f);
    assert DeltaFrames(l.pending) == [f] + DeltaFrames(l.pending[1..]);
    var out, rest := Sub(l.written) + Sub(l.conn.queue), DeltaFrames(l.pending[1..]);
    assert Sub(l.written) + (Sub(l.conn.queue) + [f]) == out + [f];
    assert out + [f] + rest == out + ([f] + rest);
  }

  lemma WriteKeeps(written: seq<Frame>, queue: seq<Frame>)
    requires queue != []
    ensures Sub(written + [queue[0]]) + Sub(queue[1..]) == Sub(written) + Sub(queue)
  {
    var one := if queue[0].Other? then [] else [queue[0]];
    SubHead(queue);
    SubMore(written, queue[0]);
    Reassociated(Sub(written), one, Sub(queue[1..]));
  }

  lemma FlowWrite(l: Line)
    requires FlowOk(l) && l.conn.queue != [] && !l.writerDone
    ensures FlowOk(l.(conn := l.conn.(queue := l.conn.queue[1..]), written := l.written + [l.conn.queue[0]]))
  {
    WriteKeeps(l.written, l.conn.queue);
  }

  lemma FlowShut(l: Line)
    requires FlowOk(l)
    ensures FlowOk(l.(conn := TornDown(l.conn)))
    ensures FlowOk(l.(conn := TornDown(l.conn), writerDone := true))
    ensures l.conn.queue != [] ==> FlowOk(l.(conn := TornDown(l.conn.(queue := l.conn.queue[1..])), writerDone := true))
  {
    assert Sub(l.written) <= Sub(l.written) + Sub(l.conn.queue);
  }

  lemma FlowSend(size: Measure, l: Line)
    requires FlowOk(l) && LineEnabled(size, l, PumpSend)
    ensures FlowOk(LineAfter(size, l, PumpSend))
  {
    if !l.conn.shut && |l.conn.queue| < OUT_QUEUE {
      FlowPumpSend(l);
    } else {
      FlowShut(l);
    }
  }

  lemma FlowPhase(l: Line, phase: Phase)
    requires FlowOk(l) && !phase.Finished?
    ensures FlowOk(l.(phase := phase))
  {
    assert Due(l.(phase := phase)) == Due(l);
  }

  lemma FlowHead(size: Measure, l: Line, step: Step)
    requires FlowOk(l) && LineEnabled(size, l, step) && step.SendHead? && l.batches == [] && l.pending == []
    ensures FlowOk(LineAfter(size, l, step))
  {
    var f := NextHead(l, step.torrent);
    var t := l.(head := l.head + [f], conn := Offered(l.conn, f));
    FlowSendHead(l, f);
    FlowPhase(t, if f.End? then Pumping else Heading);
  }

  lemma FlowOther(l: Line)
    requires FlowOk(l)
    ensures FlowOk(l.(conn := Offered(l.conn, Frame.Other)))
  {
    FlowShut(l);
    SubMore(l.conn.queue, Frame.Other);
  }

  lemma FlowRest(size: Measure, l: Line, step: Step)
    requires FlowOk(l) && LineEnabled(size, l, step)
    requires step.Write? || step.WriterEnd? || step.PumpEnd? || step.Forward? || step.SourceShut? || step.Teardown?
    ensures FlowOk(LineAfter(size, l, step))
  {
    FlowShut(l);
    if step == Write(true) {
      FlowWrite(l);
    }
  }

  lemma FlowStep(size: Measure, l: Line, step: Step)
    requires HeadOk(l) && FlowOk(l) && LineEnabled(size, l, step)
    ensures FlowOk(LineAfter(size, l, step))
  {
    match step
    case SendHead(_) => FlowHead(size, l, step);
    case SendOther => FlowOther(l);
    case PumpTake(frames) =>
      FlowPumpTake(l, frames);
      FlowShut(l.(fwd := l.fwd[1..]));
    case PumpSend => FlowSend(size, l);
    case _ => FlowRest(size, l, step);
  }

  // ---- which events are in the pipe ----

  predicate Tidy(m: map<Hash, Torrent>) {
    forall h :: h in m ==> m[h].hash == h && |m[h].category| <= CATEGORY_CAP
  }

  /** The line's part of a subscriber's log: taken into batches, waiting in the forwarder's
      buffer, held by the forwarder, in that order and without a gap. */
  ghost predicate FeedOn(size: Measure, v: SyncRuns.View, l: Line) {
    && Listing(l.items, v.snapshot) && Tidy(v.snapshot)
    && |l.batches| <= v.taken <= |v.log|
    && (forall k :: 0 <= k < |l.batches| ==> Splits(size, v.log[k], l.batches[k]))
    && |l.fwd| <= FORWARD_BUFFER
    && (l.fwdShut ==> l.hold.None?)
    && (!l.phase.Finished? ==> InOrder(v, l))
  }

  predicate InOrder(v: SyncRuns.View, l: Line) {
    && |l.batches| + |l.fwd| <= v.taken <= |v.log|
    && l.fwd == v.log[|l.batches|..|l.batches| + |l.fwd|]
    && (!l.fwdShut ==> v.taken == |l.batches| + |l.fwd| + (if l.hold.Some? then 1 else 0))
    && (l.hold.Some? ==> |l.batches| + |l.fwd| < |v.log| && l.hold.value == v.log[|l.batches| + |l.fwd|])
  }

  ghost predicate FeedOk(size: Measure, w: World) {
    if Started(w) then w.id in w.sys.views && FeedOn(size, w.sys.views[w.id], w.line) else w.id !in w.sys.views
  }

  ghost predicate Inv(size: Measure, w: World) {
    SyncRuns.Inv(w.sys) && HeadOk(w.line) && FlowOk(w.line) && FeedOk(size, w)
  }

  lemma BatchInOrder(v: SyncRuns.View, l: Line, frames: seq<Change>)
    requires InOrder(v, l) && l.fwd != []
    ensures InOrder(v, Batched(l, frames)) && l.fwd[0] == v.log[|l.batches|]
  {
    assert l.fwd[1..] == v.log[|l.batches| + 1..|l.batches| + |l.fwd|];
  }

  lemma FeedPump(size: Measure, v: SyncRuns.View, l: Line, step: Step)
    requires FeedOn(size, v, l) && LineEnabled(size, l, step) && step.PumpTake?
    ensures FeedOn(size, v, LineAfter(size, l, step))
  {
    BatchInOrder(v, l, step.frames);
  }

  lemma FeedForward(size: Measure, v: SyncRuns.View, l: Line)
    requires FeedOn(size, v, l) && LineEnabled(size, l, Forward)
    ensures FeedOn(size, v, LineAfter(size, l, Forward))
  {
    var n := |l.batches| + |l.fwd|;
    if !l.phase.Finished? {
      assert v.log[|l.batches|..n + 1] == v.log[|l.batches|..n] + [v.log[n]];
    }
  }

  lemma FeedLine(size: Measure, v: SyncRuns.View, l: Line, step: Step)
    requires FeedOn(size, v, l) && LineEnabled(size, l, step)
    ensures FeedOn(size, v, LineAfter(size, l, step))
  {
    match step
    case PumpTake(_) => FeedPump(size, v, l, step);
    case Forward => FeedForward(size, v, l);
    case _ =>
  }

  lemma FeedReceive(size: Measure, v: SyncRuns.View, l: Line)
    requires FeedOn(size, v, l) && !l.fwdShut && l.hold.None? && v.taken < |v.log|
    ensures FeedOn(size, v.(taken := v.taken + 1), l.(hold := Some(v.log[v.taken])))
  {
  }

  lemma FeedGrows(size: Measure, v: SyncRuns.View, l: Line, log: seq<Change>)
    requires FeedOn(size, v, l) && v.log <= log
    ensures FeedOn(size, v.(log := log), l)
  {
  }

  /** The rest of the daemon only ever appends to a subscriber's log. */
  lemma ViewKept(s: SyncRuns.Sys, step: SyncRuns.Step, id: SubId)
    requires SyncRuns.Enabled(s, step) && step != SyncRuns.Subscribe(id) && step != SyncRuns.Take(id)
    ensures var t := SyncRuns.After(s, step);
            if id in s.views then id in t.views && s.views[id].log <= t.views[id].log && t.views[id] == s.views[id].(log := t.views[id].log)
            else id !in t.views
  {
  }

  lemma InvDaemon(size: Measure, w: World, step: SyncRuns.Step)
    requires Inv(size, w) && Enabled(size, w, Daemon(step))
    ensures Inv(size, After(size, w, Daemon(step)))
  {
    SyncRuns.InvStep(w.sys, step);
    ViewKept(w.sys, step, w.id);
    if Started(w) {
      FeedGrows(size, w.sys.views[w.id], w.line, SyncRuns.After(w.sys, step).views[w.id].log);
    }
  }

  lemma InvStart(size: Measure, w: World, step: Step)
    requires Inv(size, w) && Enabled(size, w, step) && step.Start?
    ensures Inv(size, After(size, w, step))
  {
    SyncRuns.InvStep(w.sys, SyncRuns.Subscribe(w.id));
    NormalIsTidy(w.sys.lastHeld);
    var l := After(size, w, step).line;
    assert Due(l) == Due(w.line);
  }

  lemma NormalIsTidy(held: map<Hash, RawTorrent>)
    ensures Tidy(NormalAll(held))
  {
  }

  lemma InvReceive(size: Measure, w: World)
    requires Inv(size, w) && Enabled(size, w, Receive)
    ensures Inv(size, After(size, w, Receive))
  {
    SyncRuns.InvStep(w.sys, SyncRuns.Take(w.id));
    FeedReceive(size, w.sys.views[w.id], w.line);
    var l := After(size, w, Receive).line;
    assert Due(l) == Due(w.line);
  }

  lemma InvLine(size: Measure, w: World, step: Step)
    requires Inv(size, w) && Enabled(size, w, step) && LineEnabled(size, w.line, step)
    ensures Inv(size, After(size, w, step))
  {
    HeadStep(size, w.line, step);
    FlowStep(size, w.line, step);
    if Started(w) {
      FeedLine(size, w.sys.views[w.id], w.line, step);
    }
    var t := After(size, w, step);
    assert t.sys == w.sys && t.line == LineAfter(size, w.line, step);
    StaysStarted(size, w.line, step);
  }

  lemma StaysStarted(size: Measure, l: Line, step: Step)
    requires HeadOk(l) && LineEnabled(size, l, step)
    ensures LineAfter(size, l, step).phase.Unsubscribed? <==> l.phase.Unsubscribed?
  {
  }

  lemma InvStep(size: Measure, w: World, step: Step)
    requires Inv(size, w) && Enabled(size, w, step)
    ensures Inv(size, After(size, w, step))
  {
    if step.Daemon? {
      InvDaemon(size, w, step.step);
    } else if step.Start? {
      InvStart(size, w, step);
    } else if step.Receive? {
      InvReceive(size, w);
    } else {
      InvLine(size, w, step);
    }
  }

  lemma InitInv(size: Measure, w: World)
    requires Init(w)
    ensures Inv(size, w)
  {
    SyncRuns.InitInv(w.sys);
  }

  lemma {:induction false} Reachable(size: Measure, states: seq<World>, steps: seq<Step>, i: nat)
    requires IsRun(size, states, steps) && i < |states|
    ensures Inv(size, states[i])
  {
    if i == 0 {
      InitInv(size, states[0]);
    } else {
      var w, step := states[i - 1], steps[i - 1];
      Reachable(size, states, steps, i - 1);
      assert StepAt(size, states, steps, i - 1);
      InvStep(size, w, step);
    }
  }
}
