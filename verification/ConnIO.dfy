/** The outbound side of one client connection (ipc/server.go, connIO). */
module Connections {
  import opened Torrents
  import opened SyncSpec

  const OUT_QUEUE := 256

  /** The frames of a subscription; everything else a connection carries is Other. */
  datatype Frame = Subscribed | Begin(count: nat) | Item(index: nat, torrent: Torrent) | End | Delta(part: Change) | Other

  datatype CancelHook = NoHook | Installed | Called

  datatype Conn = Conn(queue: seq<Frame>, shut: bool, writing: bool, subscribed: bool, hook: CancelHook, socketOpen: bool)

  function TornDown(c: Conn): Conn {
    if c.shut then c
    else c.(shut := true, hook := if c.hook.Installed? then Called else c.hook, socketOpen := c.socketOpen && c.writing)
  }

  /** send: a full queue closes the connection. */
  function Offered(c: Conn, f: Frame): Conn {
    if c.shut then c
    else if |c.queue| < OUT_QUEUE then c.(queue := c.queue + [f])
    else TornDown(c)
  }

  class ConnIO {
    var queue: seq<Frame>
    var shut: bool
    var writerStarted: bool
    var subscribed: bool
    var hook: CancelHook
    var socketOpen: bool

    function Now(): Conn
      reads this
    {
      Conn(queue, shut, writerStarted, subscribed, hook, socketOpen)
    }

    constructor ()
      ensures Now() == Conn([], false, false, false, NoHook, true)
    {
      queue, shut, writerStarted, subscribed, hook, socketOpen := [], false, false, false, NoHook, true;
    }

    /** Enqueues or, finding the queue full, closes; never waits and never drops a frame
        on a connection that stays open. */
    method Send(frame: Frame) returns (ok: bool)
      modifies this
      ensures Now() == Offered(old(Now()), frame)
      ensures ok <==> !shut
      ensures ok ==> queue == old(queue) + [frame]
      ensures !ok ==> queue == old(queue) && (!old(shut) ==> hook != Installed && |queue| >= 256)
    {
      if shut {
        return false;
      }
      if |queue| < OUT_QUEUE {
        queue := queue + [frame];
        return true;
      }
      shut := true;
      CancelSub();
      if !writerStarted {
        socketOpen := false;
      }
      ok := false;
    }

    /** One locked attempt of sendBlocking, which retries until `late`. */
    method TrySend(frame: Frame, late: bool) returns (done: bool, ok: bool)
      modifies this
      ensures done ==> (ok <==> !shut)
      ensures ok ==> done
      ensures Now() == if old(shut) then old(Now())
                       else if |old(queue)| < OUT_QUEUE then Offered(old(Now()), frame)
                       else if late then TornDown(old(Now())) else old(Now())
      ensures !done ==> !late && !shut && |queue| >= OUT_QUEUE
    {
      if shut {
        return true, false;
      }
      if |queue| < OUT_QUEUE {
        queue := queue + [frame];
        return true, true;
      }
      if late {
        Teardown();
        return true, false;
      }
      return false, false;
    }

    method Teardown()
      modifies this
      ensures Now() == TornDown(old(Now()))
      ensures shut && queue == old(queue) && writerStarted == old(writerStarted) && subscribed == old(subscribed)
      ensures old(shut) ==> hook == old(hook) && socketOpen == old(socketOpen)
      ensures !old(shut) ==> hook != Installed && (old(hook) == Installed ==> hook == Called) && socketOpen == (old(socketOpen) && writerStarted)
    {
      if shut {
        return;
      }
      shut := true;
      CancelSub();
      if !writerStarted {
        socketOpen := false;
      }
    }

    /** The hook runs at most once. */
    method CancelSub()
      modifies this`hook
      ensures hook == if old(hook).Installed? then Called else old(hook)
    {
      if hook == Installed {
        hook := Called;
      }
    }

    method StartWriter()
      modifies this`writerStarted
      ensures Now() == old(Now()).(writing := true)
    {
      writerStarted := true;
    }

    method SetSubCancel()
      modifies this`hook
      ensures Now() == old(Now()).(hook := Installed)
    {
      hook := Installed;
    }

    /** The writer's loop until the queue is empty: everything queued is written in order,
        and the socket closed after it if the connection was closed; on an open one the
        writer goes on waiting. A failed write, number `failing`, loses that frame and the
        rest, closes the connection and leaves the socket as it is. */
    method Writer(failing: nat) returns (written: seq<Frame>)
      requires writerStarted
      modifies this
      ensures failing < |old(queue)| ==>
                && written == old(queue)[..failing]
                && Now() == TornDown(old(Now()).(queue := old(queue)[failing + 1..])) && socketOpen == old(socketOpen)
      ensures failing >= |old(queue)| ==>
                && written == old(queue)
                && Now() == old(Now()).(queue := [], socketOpen := old(socketOpen) && !old(shut))
    {
      written := [];
      while queue != []
        invariant Now() == old(Now()).(queue := queue)
        invariant |written| <= failing && written + queue == old(queue)
        decreases |queue|
      {
        var f := queue[0];
        queue := queue[1..];
        if |written| == failing {
          Teardown();
          return;
        }
        written := written + [f];
      }
      if shut {
        socketOpen := false;
      }
    }

    /** One subscription per connection. */
    method MarkSubscribed() returns (first: bool)
      modifies this`subscribed
      ensures first == !old(subscribed) && subscribed
    {
      if subscribed {
        return false;
      }
      subscribed := true;
      first := true;
    }
  }
}
