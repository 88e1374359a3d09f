/** How a connection ends at its socket, over every run of Delivery. */
module WriterFates {
  import opened Options
  import opened Torrents
  import opened SyncSpec
  import opened Connections
  import opened Deltas
  import opened Delivery
  import opened Snapshots

  function Lost(l: Line): seq<Frame> {
    if l.lost.Some? then [l.lost.value] else []
  }

  /** Every frame ever queued is written, lost or still queued, in that order; the writer
      ends on a shut queue, and only ending without a failed write closes the socket. */
  predicate WriterOk(l: Line) {
    && l.queued == l.written + Lost(l) + l.conn.queue
    && l.conn.writing && (l.conn.socketOpen <==> !l.writerDone || l.lost.Some?)
    && (l.writerDone ==> l.conn.shut) && (l.lost.Some? ==> l.writerDone)
    && (l.writerDone && l.lost.None? ==> l.conn.queue == [])
  }

  lemma WriterOffers(l: Line, f: Frame)
    requires WriterOk(l)
    ensures WriterOk(l.(conn := Offered(l.conn, f), queued := l.queued + Taken(l.conn, f)))
  {
    var c := Offered(l.conn, f);
    assert c.queue == l.conn.queue + Taken(l.conn, f);
    assert l.written + Lost(l) + (l.conn.queue + Taken(l.conn, f)) == l.queued + Taken(l.conn, f);
  }

  lemma WriterWrites(size: Measure, l: Line, ok: bool)
    requires WriterOk(l) && LineEnabled(size, l, Write(ok))
    ensures WriterOk(LineAfter(size, l, Write(ok)))
  {
    assert l.conn.queue == [l.conn.queue[0]] + l.conn.queue[1..];
  }

  lemma WriterStep(size: Measure, l: Line, step: Step)
    requires WriterOk(l) && LineEnabled(size, l, step)
    ensures WriterOk(LineAfter(size, l, step))
    ensures LineAfter(size, l, step).lost == if step == Write(false) then Some(l.conn.queue[0]) else l.lost
  {
    match step
    case SendHead(torrent) => WriterOffers(l, NextHead(l, torrent));
    case PumpSend => WriterOffers(l, Delta(l.pending[0]));
    case SendOther => WriterOffers(l, Frame.Other);
    case Write(ok) => WriterWrites(size, l, ok);
    case _ =>
  }

  lemma {:induction false} ReachableWriter(size: Measure, states: seq<World>, steps: seq<Step>, i: nat)
    requires IsRun(size, states, steps) && i < |states|
    ensures WriterOk(states[i].line)
    ensures states[i].line.lost.Some? <==> exists k :: 0 <= k < i && steps[k] == Write(false)
  {
    if i > 0 {
      ReachableWriter(size, states, steps, i - 1);
      assert StepAt(size, states, steps, i - 1);
      var step := steps[i - 1];
      if LineEnabled(size, states[i - 1].line, step) {
        WriterStep(size, states[i - 1].line, step);
      }
    }
  }

  /** How a connection ends for the client. Once the writer ended, the socket is closed if
      and only if no write ever failed, and then every frame queued was written; it is left
      open if and only if one failed, and then that frame and all behind it never arrive. */
  lemma WriterFate(size: Measure, states: seq<World>, steps: seq<Step>, i: nat)
    requires IsRun(size, states, steps) && i < |states| && states[i].line.writerDone
    ensures var l := states[i].line;
            && l.conn.shut
            && (!l.conn.socketOpen <==> !exists k :: 0 <= k < i && steps[k] == Write(false))
            && (!l.conn.socketOpen <==> l.written == l.queued)
            && (l.conn.socketOpen <==> exists lost, rest :: l.queued == l.written + [lost] + rest)
  {
    ReachableWriter(size, states, steps, i);
    var l := states[i].line;
    if l.conn.socketOpen {
      assert l.queued == l.written + [l.lost.value] + l.conn.queue;
    } else {
      assert l.queued == l.written;
      forall lost: Frame, rest: seq<Frame> ensures l.queued != l.written + [lost] + rest {
        assert |l.written + [lost] + rest| > |l.written|;
      }
    }
  }

  lemma DeadLine(size: Measure, l: Line, step: Step)
    requires WriterOk(l) && l.lost.Some? && LineEnabled(size, l, step)
    ensures var t := LineAfter(size, l, step);
            t.lost == l.lost && t.conn.socketOpen && t.writerDone && t.written == l.written
  {
  }

  /** After a failed write no step of the connection writes again or closes the socket. */
  lemma {:induction false} LeftOpenForGood(size: Measure, states: seq<World>, steps: seq<Step>, i: nat, j: nat)
    requires IsRun(size, states, steps) && i < j < |states| && steps[i] == Write(false)
    ensures states[j].line.conn.socketOpen && states[j].line.writerDone && states[j].line.lost.Some?
    ensures states[j].line.written == states[i].line.written
  {
    ReachableWriter(size, states, steps, j - 1);
    assert StepAt(size, states, steps, j - 1);
    if i < j - 1 {
      LeftOpenForGood(size, states, steps, i, j - 1);
      if LineEnabled(size, states[j - 1].line, steps[j - 1]) {
        DeadLine(size, states[j - 1].line, steps[j - 1]);
      }
    } else {
      ReachableWriter(size, states, steps, j);
    }
  }

  lemma EmptyStart(size: Measure, w: World) returns (w1: World)
    requires Init(w)
    ensures Enabled(size, w, Start([])) && w1 == After(size, w, Start([]))
    ensures w1.line == IDLE_LINE.(phase := Heading, conn := IDLE_LINE.conn.(subscribed := true, hook := Installed))
  {
    w1 := After(size, w, Start([]));
  }

  lemma FirstFrame(size: Measure, l: Line)
    requires l == IDLE_LINE.(phase := Heading, conn := IDLE_LINE.conn.(subscribed := true, hook := Installed))
    ensures LineEnabled(size, l, SendHead(ZERO)) && LineEnabled(size, LineAfter(size, l, SendHead(ZERO)), Write(false))
    ensures var t := LineAfter(size, LineAfter(size, l, SendHead(ZERO)), Write(false));
            t.conn.socketOpen && t.writerDone && t.conn.shut && t.queued == [Subscribed] && t.written == []
  {
    assert LineAfter(size, l, SendHead(ZERO)).conn.queue == [Subscribed];
  }

  /** The shortest such run: a client subscribes to an empty mirror and the first write fails.
      It has read nothing, nothing more will come, and its socket is open. */
  lemma SubscriberLeftHanging(size: Measure, w: World) returns (states: seq<World>, steps: seq<Step>)
    requires Init(w)
    ensures IsRun(size, states, steps) && states[0] == w
    ensures var l := states[|steps|].line;
            l.conn.socketOpen && l.writerDone && l.conn.shut && l.queued == [Subscribed] && l.written == []
  {
    var w1 := EmptyStart(size, w);
    FirstFrame(size, w1.line);
    states, steps := Extended(size, [w], [], Start([]));
    states, steps := Extended(size, states, steps, SendHead(ZERO));
    states, steps := Extended(size, states, steps, Write(false));
  }

  lemma Extended(size: Measure, states: seq<World>, steps: seq<Step>, step: Step) returns (states': seq<World>, steps': seq<Step>)
    requires IsRun(size, states, steps) && Enabled(size, states[|steps|], step)
    ensures IsRun(size, states', steps') && states'[0] == states[0]
    ensures |steps'| == |steps| + 1 && states'[|steps'|] == After(size, states[|steps|], step)
  {
    states', steps' := states + [After(size, states[|steps|], step)], steps + [step];
    forall i | 0 <= i < |steps'| ensures StepAt(size, states', steps', i) {
      if i < |steps| {
        assert StepAt(size, states, steps, i);
      }
    }
  }
}
