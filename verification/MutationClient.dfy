/** The panel's correlation of mutation requests, acceptances and results, which may arrive
    in either order (plugins/local.omatorrent/MutationClient.js). */
module MutationClient {
  import opened Options

  type Hash = string

  /** A daemon mutation id; None is an absent one. */
  type MutId = Option<nat>

  const MAX_EARLY := 16

  datatype Overlay = Overlay(
    action: string, mutation: MutId, reference: string, hash: Hash, url: string, delFiles: bool, since: int,
    queried: Option<bool>)

  datatype Outcome = Outcome(mutation: MutId, action: string, hash: Hash, status: string)

  datatype Ask = Ask(id: int, action: string, hash: Hash, url: string, delFiles: bool, reference: string, since: int)

  datatype Acceptance = Acceptance(id: int, mutation: MutId, action: string, hash: Hash)

  datatype Bag = Bag(pending: map<Hash, Overlay>, early: map<MutId, Outcome>, order: seq<MutId>, inflight: Option<Ask>)

  const FRESH := Bag(map[], map[], [], None)

  // ---- each handler as a function of the bag ----

  predicate Distinct(order: seq<MutId>) {
    forall i, j :: 0 <= i < j < |order| ==> order[i] != order[j]
  }

  /** The early map's keys are exactly the duplicate-free order list, at most 16 long. */
  predicate Valid(b: Bag) {
    && Distinct(b.order) && |b.order| <= MAX_EARLY
    && (forall m :: m in b.early ==> m in b.order) && (forall m :: m in b.order ==> m in b.early)
    && (forall m :: m in b.early ==> b.early[m].mutation == m)
  }

  function Without(order: seq<MutId>, m: MutId): seq<MutId> {
    if order == [] then []
    else if order[0] == m then order[1..]
    else [order[0]] + Without(order[1..], m)
  }

  function Begun(b: Bag, ask: Ask): Bag {
    if b.inflight.Some? then b
    else b.(inflight := Some(ask),
            pending := if ask.hash == "" then b.pending
                       else b.pending[ask.hash := Overlay(ask.action, None, ask.reference, ask.hash, "", ask.delFiles, ask.since, None)])
  }

  function Buffered(b: Bag, msg: Outcome): Bag {
    if msg.mutation in b.early then b.(early := b.early[msg.mutation := msg])
    else if |b.order| < MAX_EARLY then b.(early := b.early[msg.mutation := msg], order := b.order + [msg.mutation])
    else b.(early := (b.early - {b.order[0]})[msg.mutation := msg], order := b.order[1..] + [msg.mutation])
  }

  /** The overlay of a request the daemon has not answered. */
  predicate Unanswered(e: Overlay, ask: Ask) {
    && e.action == ask.action && e.mutation.None? && e.reference == ask.reference && e.hash == ask.hash && e.url == ""
    && e.delFiles == ask.delFiles && e.since == ask.since && e.queried.None?
  }

  /** The overlay an acceptance registers: for an add a new one with the magnet, keeping the
      watchdog's latch, for the rest the one already there under its new id. */
  predicate Registered(e: Overlay, was: map<Hash, Overlay>, ask: Ask, msg: Acceptance) {
    && e.action == msg.action && e.mutation == msg.mutation
    && (msg.action == "torrent.add" ==>
          && e.reference == ask.reference && e.hash == msg.hash && e.url == ask.url && !e.delFiles && e.since == ask.since
          && e.queried == if msg.hash in was then was[msg.hash].queried else None)
    && (msg.action != "torrent.add" ==>
          if msg.hash in was && was[msg.hash].action == msg.action then e.(mutation := None) == was[msg.hash].(mutation := None)
          else e.reference == ask.reference && e.hash == msg.hash && e.url == "" && e.delFiles == ask.delFiles && e.since == ask.since)
  }

  predicate Clears(e: Overlay, t: Outcome) {
    e.action == t.action && (e.mutation.None? || e.mutation == t.mutation)
  }

  /** A terminal takes away the overlay on its hash, if that is of its action and has no other
      id, and touches nothing else. */
  predicate Settles(was: map<Hash, Overlay>, now: map<Hash, Overlay>, t: Outcome) {
    if t.hash in was && was[t.hash].action == t.action && (was[t.hash].mutation.None? || was[t.hash].mutation == t.mutation)
    then now == was - {t.hash}
    else now == was
  }

  function Settled(b: Bag, t: Outcome): Bag {
    if t.hash in b.pending && Clears(b.pending[t.hash], t) then b.(pending := b.pending - {t.hash}) else b
  }

  function Consumed(b: Bag, m: MutId): Bag {
    if m in b.early then b.(early := b.early - {m}, order := Without(b.order, m)) else b
  }

  predicate Answers(b: Bag, id: int) {
    b.inflight.Some? && b.inflight.value.id == id
  }

  function AcceptedOverlay(b: Bag, ask: Ask, msg: Acceptance): Overlay {
    if msg.action == "torrent.add" then
      Overlay(msg.action, msg.mutation, ask.reference, msg.hash, ask.url, false, ask.since,
              if msg.hash in b.pending then b.pending[msg.hash].queried else None)
    else if msg.hash in b.pending && b.pending[msg.hash].action == msg.action then
      b.pending[msg.hash].(mutation := msg.mutation)
    else Overlay(msg.action, msg.mutation, ask.reference, msg.hash, "", ask.delFiles, ask.since, None)
  }

  function Accepted(b: Bag, msg: Acceptance): Bag {
    if !Answers(b, msg.id) then b
    else
      var free := b.(inflight := None);
      if msg.mutation in b.early then Settled(Consumed(free, msg.mutation), b.early[msg.mutation])
      else free.(pending := b.pending[msg.hash := AcceptedOverlay(b, b.inflight.value, msg)])
  }

  predicate Matches(b: Bag, msg: Outcome) {
    && msg.mutation.Some? && msg.hash in b.pending
    && b.pending[msg.hash].mutation == msg.mutation && b.pending[msg.hash].action == msg.action
  }

  function Pushed(b: Bag, msg: Outcome): Bag {
    if Matches(b, msg) then b.(pending := b.pending - {msg.hash}) else Buffered(b, msg)
  }

  function Replayed(b: Bag, id: int, msg: Outcome): Bag {
    if !Answers(b, id) then b else Consumed(Settled(b.(inflight := None), msg), msg.mutation)
  }

  /** A request that ends takes its own overlay along: the one on its hash with its action. */
  ghost predicate GoesWith(was: map<Hash, Overlay>, now: map<Hash, Overlay>, ask: Ask) {
    && (ask.hash != "" && ask.hash in was && was[ask.hash].action == ask.action ==> ask.hash !in now)
    && (ask.hash == "" || ask.hash !in was || was[ask.hash].action != ask.action ==> now == was)
    && (forall h :: h != ask.hash ==> (h in now <==> h in was))
    && (forall h :: h in now ==> h in was && now[h] == was[h])
  }

  function Rejected(b: Bag, id: int): Bag {
    if !Answers(b, id) then b
    else
      var ask := b.inflight.value;
      b.(inflight := None,
         pending := if ask.hash != "" && ask.hash in b.pending && b.pending[ask.hash].action == ask.action
                    then b.pending - {ask.hash} else b.pending)
  }

  // ---- the state bag, updated in place ----

  class Client {
    var pending: map<Hash, Overlay>
    var early: map<MutId, Outcome>
    var earlyOrder: seq<MutId>
    var inflight: Option<Ask>

    function Now(): Bag
      reads this
    {
      Bag(pending, early, earlyOrder, inflight)
    }

    constructor ()
      ensures Now() == FRESH && Valid(Now())
    {
      pending, early, earlyOrder, inflight := map[], map[], [], None;
    }

    method Begin(ask: Ask) returns (ok: bool)
      requires Valid(Now())
      modifies this
      ensures Now() == Begun(old(Now()), ask) && Valid(Now())
      ensures ok == old(inflight).None?
      ensures early == old(early) && earlyOrder == old(earlyOrder) && (!ok ==> inflight == old(inflight) && pending == old(pending))
      ensures ok ==> inflight == Some(ask) && pending - {ask.hash} == old(pending) - {ask.hash}
      ensures ok && ask.hash == "" ==> pending == old(pending)
      ensures ok && ask.hash != "" ==> ask.hash in pending && Unanswered(pending[ask.hash], ask)
    {
      if inflight != None {
        return false;
      }
      inflight := Some(ask);
      if ask.hash != "" {
        pending := pending[ask.hash := Overlay(ask.action, None, ask.reference, ask.hash, "", ask.delFiles, ask.since, None)];
      }
      ok := true;
    }

    method BufferEarly(msg: Outcome)
      requires Valid(Now())
      modifies this`early, this`earlyOrder
      ensures Now() == Buffered(old(Now()), msg) && Valid(Now())
    {
      BufferedIsValid(Now(), msg);
      if msg.mutation !in early {
        earlyOrder := earlyOrder + [msg.mutation];
        if |earlyOrder| > MAX_EARLY {
          var oldest := earlyOrder[0];
          earlyOrder := earlyOrder[1..];
          early := early - {oldest};
        }
      }
      early := early[msg.mutation := msg];
    }

    method ApplyTerminal(t: Outcome)
      modifies this`pending
      ensures Now() == Settled(old(Now()), t)
    {
      if t.hash in pending {
        var e := pending[t.hash];
        if e.action == t.action && (e.mutation == None || e.mutation == t.mutation) {
          pending := pending - {t.hash};
        }
      }
    }

    /** indexOf and splice. */
    method DropFromOrder(m: MutId)
      modifies this`earlyOrder
      ensures earlyOrder == Without(old(earlyOrder), m)
    {
      var i := 0;
      while i < |earlyOrder| && earlyOrder[i] != m
        invariant 0 <= i <= |earlyOrder|
        invariant Without(earlyOrder, m) == earlyOrder[..i] + Without(earlyOrder[i..], m)
      {
        i := i + 1;
      }
      if i < |earlyOrder| {
        earlyOrder := earlyOrder[..i] + earlyOrder[i + 1..];
      }
    }

    /** The early result, if it had arrived, is applied at once and no overlay is made. */
    method OnAccepted(msg: Acceptance) returns (handled: bool, applied: Option<Outcome>)
      requires Valid(Now())
      modifies this
      ensures Now() == Accepted(old(Now()), msg) && Valid(Now())
      ensures handled == Answers(old(Now()), msg.id)
      ensures applied == if handled && msg.mutation in old(early) then Some(old(early)[msg.mutation]) else None
      ensures handled ==> inflight.None? && (applied.None? ==> early == old(early) && earlyOrder == old(earlyOrder))
      ensures applied.Some? ==> msg.mutation !in early && early == old(early) - {msg.mutation} && Settles(old(pending), pending, applied.value)
      ensures handled && applied.None? ==>
                && msg.hash in pending && Registered(pending[msg.hash], old(pending), old(inflight).value, msg)
                && pending - {msg.hash} == old(pending) - {msg.hash}
    {
      AcceptedIsValid(Now(), msg);
      if inflight == None || msg.id != inflight.value.id {
        return false, None;
      }
      var req := inflight.value;
      inflight := None;
      if msg.mutation in early {
        var result := early[msg.mutation];
        early := early - {msg.mutation};
        DropFromOrder(msg.mutation);
        ApplyTerminal(result);
        return true, Some(result);
      }
      if msg.action == "torrent.add" {
        var queried := if msg.hash in pending then pending[msg.hash].queried else None;
        pending := pending[msg.hash := Overlay(msg.action, msg.mutation, req.reference, msg.hash, req.url, false, req.since, queried)];
      } else if msg.hash in pending && pending[msg.hash].action == msg.action {
        pending := pending[msg.hash := pending[msg.hash].(mutation := msg.mutation)];
      } else {
        pending := pending[msg.hash := Overlay(msg.action, msg.mutation, req.reference, msg.hash, "", req.delFiles, req.since, None)];
      }
      return true, None;
    }

    /** A push clears an overlay only if that overlay carries its mutation id. */
    method OnResultPush(msg: Outcome) returns (applied: bool)
      requires Valid(Now())
      modifies this
      ensures Now() == Pushed(old(Now()), msg) && Valid(Now())
      ensures applied == Matches(old(Now()), msg)
      ensures forall h :: h in old(pending) && h !in pending ==>
                h == msg.hash && msg.mutation.Some? && old(pending)[h].mutation == msg.mutation && old(pending)[h].action == msg.action
      ensures applied <==> msg.hash in old(pending) && msg.hash !in pending
      ensures inflight == old(inflight) && (if applied then early == old(early) else msg.mutation in early && early[msg.mutation] == msg)
      ensures forall h :: h in pending ==> h in old(pending) && pending[h] == old(pending)[h]
    {
      if msg.mutation != None && msg.hash in pending {
        var e := pending[msg.hash];
        if e.mutation != None && e.action == msg.action && e.mutation == msg.mutation {
          pending := pending - {msg.hash};
          return true;
        }
      }
      BufferEarly(msg);
      applied := false;
    }

    /** A replayed result settles the request in flight and leaves no early copy. */
    method OnResultResponse(id: int, msg: Outcome) returns (handled: bool)
      requires Valid(Now())
      modifies this
      ensures Now() == Replayed(old(Now()), id, msg) && Valid(Now())
      ensures handled == Answers(old(Now()), id)
      ensures handled ==> inflight.None? && msg.mutation !in early
      ensures handled ==> Settles(old(pending), pending, msg) && early == old(early) - {msg.mutation}
      ensures !handled ==> pending == old(pending) && early == old(early) && inflight == old(inflight)
    {
      ConsumedIsValid(Settled(Now().(inflight := None), msg), msg.mutation);
      if inflight == None || id != inflight.value.id {
        return false;
      }
      inflight := None;
      ApplyTerminal(msg);
      if msg.mutation in early {
        early := early - {msg.mutation};
        DropFromOrder(msg.mutation);
      }
      handled := true;
    }

    method OnRejected(id: int) returns (handled: bool)
      requires Valid(Now())
      modifies this
      ensures Now() == Rejected(old(Now()), id) && Valid(Now())
      ensures handled <==> old(inflight).Some? && old(inflight).value.id == id
      ensures early == old(early) && earlyOrder == old(earlyOrder)
      ensures handled ==> inflight.None? && GoesWith(old(pending), pending, old(inflight).value)
      ensures !handled ==> inflight == old(inflight) && pending == old(pending)
    {
      if inflight == None || id != inflight.value.id {
        return false;
      }
      var req := inflight.value;
      inflight := None;
      if req.hash != "" && req.hash in pending && pending[req.hash].action == req.action {
        pending := pending - {req.hash};
      }
      handled := true;
    }

    method Reset()
      modifies this
      ensures Now() == FRESH && Valid(Now())
    {
      pending, early, earlyOrder, inflight := map[], map[], [], None;
    }
  }

  // ---- the buffer's invariant ----

  lemma BufferedIsValid(b: Bag, msg: Outcome)
    requires Valid(b)
    ensures Valid(Buffered(b, msg))
  {
    var c := Buffered(b, msg);
    if msg.mutation !in b.early {
      if |b.order| == MAX_EARLY {
        forall m ensures m in c.early <==> m in c.order {
          assert m in b.order <==> m == b.order[0] || m in b.order[1..];
        }
      }
    }
  }

  lemma {:induction false} WithoutIs(order: seq<MutId>, m: MutId)
    requires Distinct(order)
    ensures Distinct(Without(order, m)) && |Without(order, m)| <= |order|
    ensures forall x :: x in Without(order, m) <==> x in order && x != m
  {
    if order != [] {
      var rest := order[1..];
      WithoutIs(rest, m);
      assert forall x :: x in order <==> x == order[0] || x in rest;
      if order[0] != m {
        assert order[0] !in rest;
      }
    }
  }

  lemma ConsumedIsValid(b: Bag, m: MutId)
    requires Valid(b)
    ensures Valid(Consumed(b, m)) && m !in Consumed(b, m).early
  {
    WithoutIs(b.order, m);
  }

  lemma AcceptedIsValid(b: Bag, msg: Acceptance)
    requires Valid(b)
    ensures Valid(Accepted(b, msg))
  {
    ConsumedIsValid(b.(inflight := None), msg.mutation);
  }

  // ---- frames in any order ----

  datatype Event = Accept | Own | Foreign(msg: Outcome) | Refuse | Answer

  /** One mutation: its request, the daemon's acceptance and its result, pushed (Own) or sent
      as the answer to a repeated request (Answer). */
  datatype Story = Story(ask: Ask, accepted: Acceptance, result: Outcome)

  predicate Coherent(y: Story) {
    && y.accepted.id == y.ask.id && y.accepted.mutation.Some?
    && y.result.mutation == y.accepted.mutation && y.result.action == y.accepted.action == y.ask.action
    && y.result.hash == y.accepted.hash && (y.ask.hash == "" || y.ask.hash == y.accepted.hash)
  }

  function On(b: Bag, y: Story, e: Event): Bag {
    match e
    case Accept => Accepted(b, y.accepted)
    case Own => Pushed(b, y.result)
    case Foreign(msg) => Pushed(b, msg)
    case Refuse => Rejected(b, y.ask.id)
    case Answer => Replayed(b, y.ask.id, y.result)
  }

  function Run(b: Bag, y: Story, events: seq<Event>): Bag {
    if events == [] then b else On(Run(b, y, events[..|events| - 1]), y, events[|events| - 1])
  }

  predicate AllForeign(y: Story, events: seq<Event>) {
    forall i :: 0 <= i < |events| ==> events[i].Foreign? && events[i].msg.mutation != y.accepted.mutation
  }

  /** Whether a push puts an id into the buffer that is not in it. */
  function NewId(c: Bag, msg: Outcome): nat {
    if !Matches(c, msg) && msg.mutation !in c.early then 1 else 0
  }

  /** How many of the pushes do. */
  function NewIds(b: Bag, y: Story, events: seq<Event>): nat {
    if events == [] then 0
    else
      var front, e := events[..|events| - 1], events[|events| - 1];
      NewIds(b, y, front) + if e.Foreign? then NewId(Run(b, y, front), e.msg) else 0
  }

  lemma {:induction false} RunJoin(b: Bag, y: Story, xs: seq<Event>, ys: seq<Event>)
    ensures Run(b, y, xs + ys) == Run(Run(b, y, xs), y, ys)
  {
    if ys == [] {
      assert xs + ys == xs;
    } else {
      assert (xs + ys)[..|xs + ys| - 1] == xs + ys[..|ys| - 1];
      RunJoin(b, y, xs, ys[..|ys| - 1]);
    }
  }

  /** The overlay a story may have on its hash: none, or one without an id or with its own. */
  predicate OverlayAt(b: Bag, y: Story, o: Option<Overlay>) {
    if y.accepted.hash in b.pending then o == Some(b.pending[y.accepted.hash]) else o == None
  }

  /** Foreign pushes touch neither the request in flight nor the story's overlay, and never
      buffer its result. */
  lemma {:induction false} ForeignLeaves(b: Bag, y: Story, o: Option<Overlay>, events: seq<Event>)
    requires Valid(b) && OverlayAt(b, y, o) && AllForeign(y, events)
    requires o.None? || o.value.mutation.None? || o.value.mutation == y.accepted.mutation
    ensures var c := Run(b, y, events);
            Valid(c) && OverlayAt(c, y, o) && c.inflight == b.inflight
            && (y.accepted.mutation !in b.early ==> y.accepted.mutation !in c.early)
  {
    if events != [] {
      var front, e := events[..|events| - 1], events[|events| - 1];
      ForeignLeaves(b, y, o, front);
      BufferedIsValid(Run(b, y, front), e.msg);
    }
  }

  /** The result lies n places under the newest buffered id, or is gone. */
  predicate Deep(c: Bag, y: Story, n: nat) {
    if n < MAX_EARLY then
      n < |c.order| && c.order[|c.order| - 1 - n] == y.accepted.mutation
      && y.accepted.mutation in c.early && c.early[y.accepted.mutation] == y.result
    else y.accepted.mutation !in c.early
  }

  lemma DepthStep(c: Bag, y: Story, n: nat, msg: Outcome)
    requires Valid(c) && msg.mutation != y.accepted.mutation && Deep(c, y, n)
    ensures Deep(Pushed(c, msg), y, n + NewId(c, msg))
  {
  }

  lemma PushedIsValid(b: Bag, msg: Outcome)
    requires Valid(b)
    ensures Valid(Pushed(b, msg))
  {
    BufferedIsValid(b, msg);
  }

  lemma OneMorePush(b: Bag, y: Story, events: seq<Event>)
    requires events != [] && events[|events| - 1].Foreign?
    ensures var front, msg := events[..|events| - 1], events[|events| - 1].msg;
            var c := Run(b, y, front);
            && Run(b, y, events) == Pushed(c, msg)
            && NewIds(b, y, events) == NewIds(b, y, front) + NewId(c, msg)
  {
  }

  lemma DepthMore(b: Bag, y: Story, events: seq<Event>)
    requires events != [] && AllForeign(y, events)
    requires var front := events[..|events| - 1]; Valid(Run(b, y, front)) && Deep(Run(b, y, front), y, NewIds(b, y, front))
    ensures Valid(Run(b, y, events)) && Deep(Run(b, y, events), y, NewIds(b, y, events))
  {
    var front, msg := events[..|events| - 1], events[|events| - 1].msg;
    OneMorePush(b, y, events);
    DepthPush(Run(b, y, front), y, NewIds(b, y, front), msg);
  }

  lemma DepthPush(c: Bag, y: Story, n: nat, msg: Outcome)
    requires Valid(c) && msg.mutation != y.accepted.mutation && Deep(c, y, n)
    ensures Valid(Pushed(c, msg)) && Deep(Pushed(c, msg), y, n + NewId(c, msg))
  {
    PushedIsValid(c, msg);
    DepthStep(c, y, n, msg);
  }

  /** A buffered result lies as deep under the end of the list as new ids came after it,
      and is gone with the sixteenth. */
  lemma {:induction false} BufferedDepth(b: Bag, y: Story, events: seq<Event>)
    requires Valid(b) && AllForeign(y, events) && Deep(b, y, 0)
    ensures Valid(Run(b, y, events)) && Deep(Run(b, y, events), y, NewIds(b, y, events))
  {
    if events != [] {
      BufferedDepth(b, y, events[..|events| - 1]);
      DepthMore(b, y, events);
    }
  }

  /** Nothing of the story is left. */
  predicate AllSettled(b: Bag, y: Story) {
    b.inflight.None? && y.accepted.hash !in b.pending && y.accepted.mutation !in b.early
  }

  /** Acceptance first: everything is settled, whatever comes between and around. */
  lemma AcceptanceFirst(b: Bag, y: Story, before: seq<Event>, between: seq<Event>, after: seq<Event>)
    requires Valid(b) && b.inflight.None? && y.accepted.hash !in b.pending && y.accepted.mutation !in b.early && Coherent(y)
    requires AllForeign(y, before) && AllForeign(y, between) && AllForeign(y, after)
    ensures AllSettled(Run(Begun(b, y.ask), y, before + [Accept] + between + [Own] + after), y)
  {
    var b0 := Begun(b, y.ask);
    var o := BegunOverlay(b, y);
    ForeignLeaves(b0, y, o, before);
    var b1 := Run(b0, y, before);
    var b2 := Accepted(b1, y.accepted);
    AcceptedIsValid(b1, y.accepted);
    ForeignLeaves(b2, y, Some(b2.pending[y.accepted.hash]), between);
    var b3 := Run(b2, y, between);
    var b4 := Pushed(b3, y.result);
    ForeignLeaves(b4, y, None, after);
    Chain(b0, y, before, Accept, between, Own, after);
  }

  lemma Chain(b: Bag, y: Story, before: seq<Event>, e: Event, between: seq<Event>, f: Event, after: seq<Event>)
    ensures Run(b, y, before + [e] + between + [f] + after)
            == Run(On(Run(On(Run(b, y, before), y, e), y, between), y, f), y, after)
  {
    RunJoin(b, y, before + [e] + between + [f], after);
    RunJoin(b, y, before + [e] + between, [f]);
    RunJoin(b, y, before + [e], between);
    RunJoin(b, y, before, [e]);
    Once(Run(b, y, before), y, e);
    Once(Run(b, y, before + [e] + between), y, f);
  }

  lemma Once(b: Bag, y: Story, e: Event)
    ensures Run(b, y, [e]) == On(b, y, e)
  {
    assert [e][..0] == [];
    assert Run(b, y, []) == b;
  }

  lemma BegunOverlay(b: Bag, y: Story) returns (o: Option<Overlay>)
    requires Valid(b) && b.inflight.None? && y.accepted.hash !in b.pending && Coherent(y)
    ensures var c := Begun(b, y.ask);
            Valid(c) && c.inflight == Some(y.ask) && c.early == b.early && OverlayAt(c, y, o)
    ensures o.Some? ==> o.value.mutation.None? && o.value.action == y.ask.action
  {
    var c := Begun(b, y.ask);
    o := if y.accepted.hash in c.pending then Some(c.pending[y.accepted.hash]) else None;
  }

  /** The end of a story whose acceptance finds, or misses, the buffered result. */
  lemma LateAcceptance(b: Bag, y: Story, o: Option<Overlay>, n: nat, after: seq<Event>)
    requires Valid(b) && b.inflight == Some(y.ask) && Coherent(y) && Deep(b, y, n) && OverlayAt(b, y, o)
    requires o.Some? ==> o.value.mutation.None? && o.value.action == y.ask.action
    requires AllForeign(y, after)
    ensures AllSettled(Run(Accepted(b, y.accepted), y, after), y) <==> n < MAX_EARLY
  {
    var c := Accepted(b, y.accepted);
    AcceptedIsValid(b, y.accepted);
    if n < MAX_EARLY {
      ConsumedIsValid(b.(inflight := None), y.accepted.mutation);
      ForeignLeaves(c, y, None, after);
    } else {
      ForeignLeaves(c, y, Some(c.pending[y.accepted.hash]), after);
    }
  }

  lemma EarlyResult(b: Bag, y: Story)
    requires Valid(b) && y.accepted.mutation !in b.early && Coherent(y)
    requires y.accepted.hash in b.pending ==> b.pending[y.accepted.hash].mutation.None?
    ensures var c := Pushed(b, y.result);
            Valid(c) && Deep(c, y, 0) && c.pending == b.pending && c.inflight == b.inflight
  {
    BufferedIsValid(b, y.result);
  }

  /** Result first: everything is settled if and only if fewer than sixteen new foreign ids
      were buffered between the result and the acceptance. With sixteen the result is
      evicted and the acceptance leaves an overlay that no later frame of the story clears. */
  lemma ResultFirst(b: Bag, y: Story, before: seq<Event>, between: seq<Event>, after: seq<Event>)
    requires Valid(b) && b.inflight.None? && y.accepted.hash !in b.pending && y.accepted.mutation !in b.early && Coherent(y)
    requires AllForeign(y, before) && AllForeign(y, between) && AllForeign(y, after)
    ensures var early := Pushed(Run(Begun(b, y.ask), y, before), y.result);
            AllSettled(Run(Begun(b, y.ask), y, before + [Own] + between + [Accept] + after), y)
            <==> NewIds(early, y, between) < MAX_EARLY
  {
    var b0 := Begun(b, y.ask);
    var o := BegunOverlay(b, y);
    ForeignLeaves(b0, y, o, before);
    var b1 := Run(b0, y, before);
    EarlyResult(b1, y);
    var b2 := Pushed(b1, y.result);
    ForeignLeaves(b2, y, o, between);
    BufferedDepth(b2, y, between);
    LateAcceptance(Run(b2, y, between), y, o, NewIds(b2, y, between), after);
    Chain(b0, y, before, Own, between, Accept, after);
  }

  lemma {:induction false} NewIdsBound(b: Bag, y: Story, events: seq<Event>)
    ensures NewIds(b, y, events) <= |events|
  {
    if events != [] {
      NewIdsBound(b, y, events[..|events| - 1]);
    }
  }

  /** Two frames, either order, fewer than sixteen frames between them: the same end. */
  lemma FrameOrderIsIrrelevant(b: Bag, y: Story, before: seq<Event>, between: seq<Event>, after: seq<Event>)
    requires Valid(b) && b.inflight.None? && y.accepted.hash !in b.pending && y.accepted.mutation !in b.early && Coherent(y)
    requires AllForeign(y, before) && AllForeign(y, between) && AllForeign(y, after) && |between| < MAX_EARLY
    ensures AllSettled(Run(Begun(b, y.ask), y, before + [Accept] + between + [Own] + after), y)
    ensures AllSettled(Run(Begun(b, y.ask), y, before + [Own] + between + [Accept] + after), y)
  {
    AcceptanceFirst(b, y, before, between, after);
    ResultFirst(b, y, before, between, after);
    NewIdsBound(Pushed(Run(Begun(b, y.ask), y, before), y.result), y, between);
  }

  // ---- the other two ways a request ends ----

  predicate AllPushes(events: seq<Event>) {
    forall i :: 0 <= i < |events| ==> events[i].Foreign?
  }

  /** No push at all touches the request in flight or an overlay without an id, or makes one. */
  lemma {:induction false} PushesLeave(b: Bag, y: Story, h: Hash, events: seq<Event>)
    requires Valid(b) && AllPushes(events) && (h in b.pending ==> b.pending[h].mutation.None?)
    ensures var c := Run(b, y, events);
            Valid(c) && c.inflight == b.inflight && (h in c.pending <==> h in b.pending)
            && (h in b.pending ==> c.pending[h] == b.pending[h])
  {
    if events != [] {
      var front, e := events[..|events| - 1], events[|events| - 1];
      PushesLeave(b, y, h, front);
      BufferedIsValid(Run(b, y, front), e.msg);
    }
  }

  lemma Ending(b: Bag, y: Story, before: seq<Event>, e: Event, after: seq<Event>)
    ensures Run(b, y, before + [e] + after) == Run(On(Run(b, y, before), y, e), y, after)
  {
    RunJoin(b, y, before + [e], after);
    RunJoin(b, y, before, [e]);
    Once(Run(b, y, before), y, e);
  }

  /** A rejected request leaves nothing: no request in flight and no overlay on its hash,
      whatever was pushed before and after the rejection. */
  lemma RejectionEnds(b: Bag, y: Story, before: seq<Event>, after: seq<Event>)
    requires Valid(b) && b.inflight.None? && AllPushes(before) && AllPushes(after)
    ensures var c := Run(Begun(b, y.ask), y, before + [Refuse] + after);
            Valid(c) && c.inflight.None? && (y.ask.hash != "" ==> y.ask.hash !in c.pending)
  {
    var b0 := Begun(b, y.ask);
    Ending(b0, y, before, Refuse, after);
    if y.ask.hash == "" {
      PushesStay(b0, y, before);
      PushesStay(Rejected(Run(b0, y, before), y.ask.id), y, after);
    } else {
      PushesLeave(b0, y, y.ask.hash, before);
      PushesLeave(Rejected(Run(b0, y, before), y.ask.id), y, y.ask.hash, after);
    }
  }

  lemma {:induction false} PushesStay(b: Bag, y: Story, events: seq<Event>)
    requires Valid(b) && AllPushes(events)
    ensures Valid(Run(b, y, events)) && Run(b, y, events).inflight == b.inflight
  {
    if events != [] {
      var front := events[..|events| - 1];
      PushesStay(b, y, front);
      BufferedIsValid(Run(b, y, front), events[|events| - 1].msg);
    }
  }

  /** A request answered with a recorded result is settled at once, whatever was pushed around
      it: foreign results, or its own. */
  lemma AnswerSettles(b: Bag, y: Story, before: seq<Event>, after: seq<Event>)
    requires Valid(b) && b.inflight.None? && y.accepted.hash !in b.pending && y.accepted.mutation !in b.early && Coherent(y)
    requires AllPushes(before) && AllForeign(y, after)
    ensures AllSettled(Run(Begun(b, y.ask), y, before + [Answer] + after), y)
  {
    var b0 := Begun(b, y.ask);
    var o := BegunOverlay(b, y);
    PushesLeave(b0, y, y.accepted.hash, before);
    var b1 := Run(b0, y, before);
    var b2 := Replayed(b1, y.ask.id, y.result);
    ConsumedIsValid(Settled(b1.(inflight := None), y.result), y.result.mutation);
    ForeignLeaves(b2, y, None, after);
    Ending(b0, y, before, Answer, after);
  }
}
