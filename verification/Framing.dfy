/** Reading LF-terminated frames through a 4096-byte buffer (ipc/server.go, readRequest
    over bufio.Reader.ReadSlice), however the network cuts the stream into reads. */
module Framing {
  import Deltas

  newtype Byte = b: int | 0 <= b < 256
  type Bytes = seq<Byte>

  const LF: Byte := 10
  const WINDOW := Deltas.MAX_FRAME

  // ---- what a stream holds ----

  /** The index of the first LF, or the length when there is none. */
  function Find(s: Bytes): (i: nat)
    ensures i <= |s|
  {
    if s == [] || s[0] == LF then 0 else 1 + Find(s[1..])
  }

  lemma {:induction false} FindIs(s: Bytes, i: nat)
    requires i <= |s| && LF !in s[..i] && (i < |s| ==> s[i] == LF)
    ensures Find(s) == i
  {
    if i > 0 {
      assert s[0] == s[..i][0] != LF;
      assert s[1..][..i - 1] == s[..i][1..];
      FindIs(s[1..], i - 1);
    }
  }

  lemma {:induction false} FindFinds(s: Bytes)
    ensures LF !in s[..Find(s)] && (Find(s) < |s| ==> s[Find(s)] == LF)
  {
    if s != [] && s[0] != LF {
      FindFinds(s[1..]);
      var i := Find(s[1..]);
      assert s[..1 + i] == [s[0]] + s[1..][..i];
    }
  }

  datatype Verdict = Payload(bytes: Bytes) | Clean | Incomplete | TooLarge

  predicate Fits(s: Bytes) {
    Find(s) < |s| && Find(s) < WINDOW
  }

  /** The verdict on the front of a stream that ends where `s` ends. */
  function FrontOf(s: Bytes): Verdict {
    if Fits(s) then Payload(s[..Find(s)])
    else if s == [] then Clean
    else if Find(s) < 2 * WINDOW && Find(s) == |s| then Incomplete
    else TooLarge
  }

  /** The accepted payloads, up to the first overlong or incomplete frame. */
  function Accepted(s: Bytes): seq<Bytes>
    decreases |s|
  {
    if Fits(s) then [s[..Find(s)]] + Accepted(s[Find(s) + 1..]) else []
  }

  /** What is left of the stream there. */
  function Leftover(s: Bytes): Bytes
    decreases |s|
  {
    if Fits(s) then Leftover(s[Find(s) + 1..]) else s
  }

  // ---- the buffered reader ----

  datatype Status = Found | Full | Ended

  /** `buf` holds at most WINDOW bytes already read; `rest` is what the peer will still
      send. A read returns some bytes or an error, never both. */
  class Reader {
    var buf: Bytes
    var rest: Bytes
    var failed: bool

    predicate Valid()
      reads this
    {
      |buf| <= WINDOW && (failed ==> rest == [] && |buf| < WINDOW)
    }

    function Stream(): Bytes
      reads this
    {
      buf + rest
    }

    constructor (stream: Bytes)
      ensures Valid() && Stream() == stream && buf == []
    {
      buf, rest, failed := [], stream, false;
    }

    /** One read of any size the network likes. */
    method Fill()
      requires Valid() && |buf| < WINDOW && !failed
      modifies this
      ensures Valid() && Stream() == old(Stream())
      ensures |buf| >= |old(buf)| && buf[..|old(buf)|] == old(buf)
      ensures |rest| < |old(rest)| || (rest == old(rest) && failed)
    {
      if rest == [] {
        failed := true;
      } else {
        var k: nat :| 1 <= k <= |rest| && k <= WINDOW - |buf|;
        buf, rest := buf + rest[..k], rest[k..];
      }
    }

    method ReadSlice() returns (line: Bytes, status: Status)
      requires Valid()
      modifies this
      ensures Valid()
      ensures line + Stream() == old(Stream())
      ensures status.Found? ==> Fits(old(Stream())) && |line| == Find(old(Stream())) + 1
      ensures status.Full? ==> Find(old(Stream())) >= WINDOW && |line| == WINDOW
      ensures status.Ended? ==> Find(old(Stream())) == |old(Stream())| < WINDOW && Stream() == []
    {
      ghost var s := Stream();
      var scanned: nat := 0;
      while true
        invariant Valid() && Stream() == s
        invariant scanned <= |buf| && LF !in buf[..scanned]
        decreases |rest|, if failed then 0 else 1
      {
        var i := scanned + Find(buf[scanned..]);
        ScannedOn(buf, scanned);
        if i < |buf| {
          FoundAt(buf, rest, i);
          line, status := buf[..i + 1], Found;
          buf := buf[i + 1..];
          return;
        }
        NotFound(buf, rest);
        if failed {
          line, status := buf, Ended;
          buf, failed := [], false;
          return;
        }
        if |buf| >= WINDOW {
          line, status := buf, Full;
          buf := [];
          return;
        }
        scanned := |buf|;
        Fill();
      }
    }

    /** The loop body of readRequest up to its tests: the frame read so far, grown by one
        slice, already decides the verdict, unless it is exactly one window without an LF. */
    method Grow(frame: Bytes) returns (more: Bytes, status: Status)
      requires Valid() && LF !in frame && (frame == [] || |frame| == WINDOW)
      modifies this
      ensures Valid() && more + Stream() == frame + old(Stream())
      ensures |more| <= |frame| + WINDOW && (!status.Ended? ==> |more| > |frame|)
      ensures var front := FrontOf(frame + old(Stream()));
              if status.Ended? then front == if more == [] then Clean else Incomplete
              else if |more| > WINDOW then front == TooLarge
              else if status.Full? then LF !in more && |more| == WINDOW
              else front == Payload(more[..|more| - 1])
    {
      ghost var t := Stream();
      FrontJoined(frame, t);
      NoneBefore(t, if |t| < WINDOW then |t| else WINDOW);
      more, status := ReadSlice();
      Taken(more, Stream(), t);
      assert frame + more + Stream() == frame + t;
      more := frame + more;
    }

    /** readRequest up to the parser. It takes at most two windows off the stream whatever
        the peer sends, and its verdict depends on the stream alone. */
    method ReadFrame() returns (v: Verdict)
      requires Valid()
      modifies this
      ensures Valid()
      ensures v == FrontOf(old(Stream()))
      ensures v.Payload? ==> |v.bytes| < |old(Stream())| && Stream() == old(Stream())[|v.bytes| + 1..]
      ensures |Stream()| <= |old(Stream())| <= |Stream()| + 2 * WINDOW
    {
      ghost var s := Stream();
      var frame: Bytes := [];
      while true
        invariant Valid() && frame + Stream() == s
        invariant LF !in frame && (frame == [] || |frame| == WINDOW)
        decreases |Stream()|
      {
        var status;
        frame, status := Grow(frame);
        if status == Full {
          if |frame| > WINDOW {
            return TooLarge;
          }
        } else if status == Ended {
          return if |frame| == 0 then Clean else Incomplete;
        } else if |frame| > WINDOW {
          return TooLarge;
        } else {
          Taken(frame, Stream(), s);
          return Payload(frame[..|frame| - 1]);
        }
      }
    }

    /** The request loop: every frame it hands on, and how the session ends. */
    method ReadAll() returns (frames: seq<Bytes>, end: Verdict)
      requires Valid()
      modifies this
      ensures frames == Accepted(old(Stream()))
      ensures end == FrontOf(Leftover(old(Stream()))) && !end.Payload?
    {
      ghost var s := Stream();
      ghost var left := s;
      frames := [];
      assert [] + Accepted(s) == Accepted(s);
      while true
        invariant Valid() && Stream() == left
        invariant ReadSoFar(s, frames, left)
        decreases |left|
      {
        end := ReadFrame();
        Handed(s, frames, left);
        if !end.Payload? {
          return;
        }
        frames := frames + [end.bytes];
        left := left[|end.bytes| + 1..];
      }
    }
  }

  /** Scanning goes on where it stopped. */
  lemma ScannedOn(buf: Bytes, scanned: nat)
    requires scanned <= |buf| && LF !in buf[..scanned]
    ensures var i := scanned + Find(buf[scanned..]); i <= |buf| && LF !in buf[..i] && (i < |buf| ==> buf[i] == LF)
  {
    FindFinds(buf[scanned..]);
    var i := scanned + Find(buf[scanned..]);
    assert buf[..i] == buf[..scanned] + buf[scanned..][..i - scanned];
  }

  lemma FoundAt(buf: Bytes, rest: Bytes, i: nat)
    requires i < |buf| && LF !in buf[..i] && buf[i] == LF
    ensures Find(buf + rest) == i
    ensures buf[..i + 1] + (buf[i + 1..] + rest) == buf + rest
  {
    assert (buf + rest)[..i] == buf[..i];
    FindIs(buf + rest, i);
  }

  lemma NotFound(buf: Bytes, rest: Bytes)
    ensures LF !in buf ==> Find(buf + rest) >= |buf| && (rest == [] ==> Find(buf + rest) == |buf|)
    ensures buf[..|buf|] == buf && buf + ([] + rest) == buf + rest
  {
    if LF !in buf {
      FindShift(buf, rest);
    }
  }

  /** What the loop has handed on, and what the stream still holds. */
  ghost predicate ReadSoFar(s: Bytes, frames: seq<Bytes>, left: Bytes) {
    frames + Accepted(left) == Accepted(s) && Leftover(left) == Leftover(s)
  }

  lemma Handed(s: Bytes, frames: seq<Bytes>, left: Bytes)
    requires ReadSoFar(s, frames, left)
    ensures var v := FrontOf(left);
            if v.Payload? then |v.bytes| < |left| && ReadSoFar(s, frames + [v.bytes], left[|v.bytes| + 1..])
            else frames == Accepted(s) && left == Leftover(s)
  {
    FrontDecides(left);
    var v := FrontOf(left);
    if v.Payload? {
      Deltas.Reassociated(frames, [v.bytes], Accepted(left[|v.bytes| + 1..]));
    }
  }

  lemma FrontDecides(s: Bytes)
    ensures var v := FrontOf(s);
            if v.Payload? then
              |v.bytes| < |s| && Accepted(s) == [v.bytes] + Accepted(s[|v.bytes| + 1..]) && Leftover(s) == Leftover(s[|v.bytes| + 1..])
            else Accepted(s) == [] && Leftover(s) == s
  {
  }

  lemma FindShift(front: Bytes, s: Bytes)
    requires LF !in front
    ensures Find(front + s) == |front| + Find(s)
  {
    FindFinds(s);
    var i := |front| + Find(s);
    assert (front + s)[..i] == front + s[..Find(s)];
    FindIs(front + s, i);
  }

  lemma Taken(line: Bytes, rest: Bytes, s: Bytes)
    requires line + rest == s
    ensures line == s[..|line|] && rest == s[|line|..]
  {
  }

  /** The verdict on a stream whose first window, if it was taken already, holds no LF. */
  lemma FrontJoined(front: Bytes, t: Bytes)
    requires LF !in front && (front == [] || |front| == WINDOW)
    ensures var s := front + t;
            && Find(s) == |front| + Find(t)
            && (Find(t) < |t| ==> FrontOf(s) == if front == [] && Fits(t) then Payload(t[..Find(t)]) else TooLarge)
            && (Find(t) == |t| < WINDOW ==> FrontOf(s) == if s == [] then Clean else Incomplete)
            && (Find(t) >= WINDOW && front != [] ==> FrontOf(s) == TooLarge)
  {
    FindShift(front, t);
    if front == [] {
      assert front + t == t;
    }
  }

  lemma NoneBefore(s: Bytes, n: nat)
    requires n <= |s|
    ensures LF in s[..n] <==> Find(s) < n
  {
    FindFinds(s);
    if Find(s) < n {
      assert s[..n][Find(s)] == LF;
    } else {
      assert s[..n] == s[..Find(s)][..n];
    }
  }

  // ---- reading inverts writing ----

  /** writeFrame and the queue's writer: payload, LF, one after another. */
  function Written(payloads: seq<Bytes>): Bytes {
    if payloads == [] then [] else payloads[0] + [LF] + Written(payloads[1..])
  }

  predicate Framable(p: Bytes) {
    LF !in p && |p| < WINDOW
  }

  lemma ReadsOne(p: Bytes, more: Bytes)
    requires Framable(p)
    ensures Accepted(p + [LF] + more) == [p] + Accepted(more)
    ensures Leftover(p + [LF] + more) == Leftover(more)
  {
    var s := p + [LF] + more;
    FindIs(s, |p|);
    assert s[..|p|] == p && s[|p| + 1..] == more;
  }

  lemma WrittenMore(p: Bytes, ps: seq<Bytes>)
    ensures Written([p] + ps) == p + [LF] + Written(ps)
  {
    assert ([p] + ps)[1..] == ps;
  }

  /** Whatever follows them, the payloads written come back, then the reading of the rest. */
  lemma {:induction false} ReadsWhatWasWritten(payloads: seq<Bytes>, tail: Bytes)
    requires forall i :: 0 <= i < |payloads| ==> Framable(payloads[i])
    ensures Accepted(Written(payloads) + tail) == payloads + Accepted(tail)
    ensures Leftover(Written(payloads) + tail) == Leftover(tail)
  {
    if payloads == [] {
      assert [] + tail == tail;
    } else {
      var p, ps := payloads[0], payloads[1..];
      assert payloads == [p] + ps;
      ReadsWhatWasWritten(ps, tail);
      WrittenMore(p, ps);
      Deltas.Reassociated(p + [LF], Written(ps), tail);
      ReadsOne(p, Written(ps) + tail);
      Deltas.Reassociated([p], ps, Accepted(tail));
    }
  }

  lemma FitsSplits(s: Bytes)
    requires Fits(s)
    ensures Framable(s[..Find(s)]) && s == s[..Find(s)] + [LF] + s[Find(s) + 1..]
  {
    FindFinds(s);
  }

  /** Conversely every stream is the writing of what is accepted from it, then a leftover
      that does not begin with a frame of at most 4096 bytes, LF included. */
  lemma {:induction false} StreamIsAcceptedAndLeftover(s: Bytes)
    ensures s == Written(Accepted(s)) + Leftover(s)
    ensures forall i :: 0 <= i < |Accepted(s)| ==> Framable(Accepted(s)[i])
    ensures !Fits(Leftover(s))
    decreases |s|
  {
    FrontDecides(s);
    if Fits(s) {
      var p, more := s[..Find(s)], s[Find(s) + 1..];
      FitsSplits(s);
      StreamIsAcceptedAndLeftover(more);
      WrittenMore(p, Accepted(more));
      Deltas.Reassociated(p + [LF], Written(Accepted(more)), Leftover(more));
    } else {
      assert Written([]) + s == s;
    }
  }

  /** A session ends cleanly exactly when the stream is nothing but frames. */
  lemma CleanExactlyWhenWhole(s: Bytes)
    ensures FrontOf(Leftover(s)) == Clean <==>
            exists payloads :: (forall i :: 0 <= i < |payloads| ==> Framable(payloads[i])) && s == Written(payloads)
  {
    StreamIsAcceptedAndLeftover(s);
    if FrontOf(Leftover(s)) == Clean {
      assert s == Written(Accepted(s));
    }
    forall payloads | (forall i :: 0 <= i < |payloads| ==> Framable(payloads[i])) && s == Written(payloads)
      ensures FrontOf(Leftover(s)) == Clean
    {
      ReadsWhatWasWritten(payloads, []);
      assert s + [] == s;
    }
  }
}
