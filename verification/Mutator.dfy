/** mutate.Mutator: the object whose fields the sections update. */
module Mutating {
  import opened Options
  import opened Torrents
  import opened MutateSpec

  const NO_RECORD := RefRecord("", OtherAction, "", "", false, Rejected(Busy), 0)

  datatype Registration = Answered(answer: Stage1) | Running(mutation: nat, backend: BackendId, epoch: nat)

  class Mutator {
    const lim: Limits
    var backend: BackendId
    var epoch: nat
    var draining: bool
    var nextMut: nat
    var inflight: map<Ref, Pending>
    var ring: array<RefRecord>
    var ringLen: nat

    ghost predicate Valid()
      reads this
    {
      ring.Length == lim.ringSize && ringLen <= lim.ringSize
    }

    ghost function Guarded(): Table
      reads this, ring
      requires Valid()
    {
      Table(backend, epoch, draining, nextMut, inflight, ring[..ringLen])
    }

    constructor (b: BackendId, limits: Limits)
      ensures Valid() && fresh(ring) && lim == limits
      ensures Guarded() == Table(b, 0, false, 0, map[], [])
    {
      lim := limits;
      backend, epoch, draining, nextMut, inflight := b, 0, false, 0, map[];
      ring, ringLen := new RefRecord[limits.ringSize](_ => NO_RECORD), 0;
    }

    /** Starts a drain: refused while another one is held or anything is in flight. */
    method BeginSwitch() returns (ok: bool)
      requires Valid()
      modifies this`draining
      ensures Valid()
      ensures ok == (!old(draining) && inflight == map[])
      ensures Guarded() == old(Guarded()).(draining := old(draining) || ok)
    {
      if draining || |inflight| > 0 {
        return false;
      }
      draining := true;
      ok := true;
    }

    method CommitSwap(b: BackendId)
      requires Valid()
      modifies this`draining, this`backend, this`epoch
      ensures Valid()
      ensures Guarded() == old(Guarded()).(draining := false, backend := b, epoch := old(epoch) + 1)
    {
      draining, backend, epoch := false, b, epoch + 1;
    }

    method AbortSwitch()
      requires Valid()
      modifies this`draining
      ensures Valid()
      ensures Guarded() == old(Guarded()).(draining := false)
    {
      draining := false;
    }

    method LookupRefLocked(req: Request) returns (r: Option<Stage1>)
      requires Valid()
      ensures r == Lookup(Guarded(), req)
      ensures r.Some? <==> Known(Guarded(), req.ref)
      ensures r.Some? ==> AnswersKnown(Guarded(), req, r.value)
    {
      LookupAnswers(Guarded(), req);
      if req.ref in inflight {
        var p := inflight[req.ref];
        if !PendingMatches(p, req) {
          return Some(Refused(RefConflict));
        }
        return Some(Accepted(p.mutation, p.action, p.hash));
      }
      for i := 0 to ringLen
        invariant RingFind(ring[..ringLen], req.ref) == RingFind(ring[i..ringLen], req.ref)
      {
        assert ring[i..ringLen][1..] == ring[i + 1..ringLen];
        if ring[i].ref == req.ref {
          var rec := ring[i];
          if !RecordMatches(rec, req) {
            return Some(Refused(RefConflict));
          }
          match rec.outcome
          case Rejected(code) => return Some(Refused(code));
          case Settled(status) => return Some(Replayed(Result(rec.mutation, rec.action, rec.hash, status)));
        }
      }
      r := None;
    }

    /** Beyond the ring size the array shifts in place and the last slot is overwritten. */
    method AppendRingLocked(rec: RefRecord)
      requires Valid()
      modifies this`ringLen, ring
      ensures Valid()
      ensures Guarded() == old(Guarded()).(ring := Appended(old(ring[..ringLen]), lim.ringSize, rec))
    {
      if ringLen >= lim.ringSize {
        var i := 0;
        while i + 1 < ringLen
          invariant 0 <= i < ringLen == old(ringLen) <= ring.Length
          invariant forall j :: 0 <= j < i ==> ring[j] == old(ring[j + 1])
          invariant forall j :: i <= j < ringLen ==> ring[j] == old(ring[j])
        {
          ring[i] := ring[i + 1];
          i := i + 1;
        }
        ring[ringLen - 1] := rec;
        assert ring[..ringLen] == old(ring[..ringLen])[1..] + [rec];
        return;
      }
      ring[ringLen] := rec;
      ringLen := ringLen + 1;
      assert ring[..ringLen] == old(ring[..ringLen]) + [rec];
    }

    /** The first section of Submit. */
    method EarlyCheck(req: Request) returns (r: Option<Stage1>)
      requires Valid()
      ensures r == EarlyAnswer(Guarded(), lim, req)
    {
      r := LookupRefLocked(req);
      if r.Some? {
        return;
      }
      if |inflight| >= lim.maxInFlight {
        r := Some(Refused(Busy));
      }
    }

    /** The registration section: drain, ref and cap are checked together with the
        registration, and the backend is captured here. */
    method Register(req: Request, hash: Hash, deadline: int) returns (r: Registration)
      requires Valid()
      modifies this`nextMut, this`inflight
      ensures Valid()
      ensures var late := LateAnswer(old(Guarded()), lim, req);
              if late.Some? then r == Answered(late.value) && Guarded() == old(Guarded())
              else r == Running(old(nextMut) + 1, backend, epoch)
                   && Guarded() == Registered(old(Guarded()), req, hash, deadline)
    {
      if draining {
        return Answered(Refused(Busy));
      }
      var known := LookupRefLocked(req);
      if known.Some? {
        return Answered(known.value);
      }
      if |inflight| >= lim.maxInFlight {
        return Answered(Refused(Busy));
      }
      nextMut := nextMut + 1;
      inflight := inflight[req.ref := Pending(nextMut, req.action, hash, req.url, req.deleteFiles, deadline, epoch)];
      r := Running(nextMut, backend, epoch);
    }

    /** The section after a failed backend call. */
    method RecordFailure(req: Request, hash: Hash, code: Code)
      requires Valid()
      modifies this`inflight, this`ringLen, ring
      ensures Valid()
      ensures Guarded() == FailedSubmit(old(Guarded()), lim, req, hash, code)
    {
      inflight := inflight - {req.ref};
      AppendRingLocked(RejectRecord(req, hash, code));
    }

    method Reject(req: Request, code: Code) returns (answer: Stage1)
      requires Valid()
      modifies this`ringLen, ring
      ensures Valid()
      ensures answer == Refused(code)
      ensures Guarded() == old(Guarded()).(ring := Appended(old(ring[..ringLen]), lim.ringSize, RejectRecord(req, req.hash, code)))
    {
      AppendRingLocked(RejectRecord(req, req.hash, code));
      answer := Refused(code);
    }

    /** What follows the backend call. */
    method AfterCall(req: Request, hash: Hash, mutation: nat, failure: Option<Code>) returns (answer: Stage1)
      requires Valid()
      modifies this`inflight, this`ringLen, ring
      ensures Valid()
      ensures Guarded() == if failure.Some? then FailedSubmit(old(Guarded()), lim, req, hash, failure.value) else old(Guarded())
      ensures answer == if failure.Some? then Refused(failure.value) else Accepted(mutation, req.action, hash)
    {
      if failure.Some? {
        RecordFailure(req, hash, failure.value);
        return Refused(failure.value);
      }
      answer := Accepted(mutation, req.action, hash);
    }

    /** Submit with nothing running beside it; `failure` is how its backend call would fail. */
    method Submit(sent: Request, st: Committed, now: int, window: nat, failure: Option<Code>)
      returns (answer: Stage1, called: Option<BackendId>)
      requires Valid()
      modifies this, ring
      ensures Valid()
      ensures Submitted(Guarded(), answer, called) == SubmitAlone(old(Guarded()), lim, Lowered(sent), st, now + window, failure)
      ensures SubmitLeaves(old(Guarded()), lim, Lowered(sent), st, now + window, failure, Submitted(Guarded(), answer, called))
    {
      answer, called := SubmitLowered(Lowered(sent), st, now + window, failure);
    }

    /** The rest of it, on the lower-cased request. */
    method SubmitLowered(req: Request, st: Committed, deadline: int, failure: Option<Code>)
      returns (answer: Stage1, called: Option<BackendId>)
      requires Valid()
      modifies this, ring
      ensures Valid()
      ensures Submitted(Guarded(), answer, called) == SubmitAlone(old(Guarded()), lim, req, st, deadline, failure)
      ensures SubmitLeaves(old(Guarded()), lim, req, st, deadline, failure, Submitted(Guarded(), answer, called))
    {
      ghost var was := Guarded();
      answer, called := Decide(req, st, deadline, failure);
      SubmitsAsTold(was, lim, req, st, deadline, failure, Submitted(Guarded(), answer, called));
    }

    /** From the first section to the answer. */
    method Decide(req: Request, st: Committed, deadline: int, failure: Option<Code>)
      returns (answer: Stage1, called: Option<BackendId>)
      requires Valid()
      modifies this, ring
      ensures Valid()
      ensures Submitted(Guarded(), answer, called) == SubmitAlone(old(Guarded()), lim, req, st, deadline, failure)
    {
      called := None;
      var early := EarlyCheck(req);
      if early.Some? {
        return early.value, None;
      }
      match Validate(req, st)
      case Bad(code) =>
        answer := Reject(req, code);
      case Good(hash) =>
        var r := Register(req, hash, deadline);
        match r {
          case Answered(a) => answer := a;
          case Running(mutation, b, _) =>
            called := Some(b);
            answer := AfterCall(req, hash, mutation, failure);
        }
    }

    /** What reconcile makes of one entry. */
    method Judge(p: Pending, st: Committed, now: int) returns (settles: bool, status: Status)
      ensures Settlement(p, st, epoch, now) == if settles then Some(status) else None
      ensures settles && status == Confirmed <==> Confirms(p, st, epoch)
      ensures settles && status == Timeout <==> TimesOut(p, st, epoch, now)
    {
      SettlementIs(p, st, epoch, now);
      settles, status := true, Timeout;
      if p.epoch != epoch {
        return;
      }
      if st.backendOK && IntentMet(p.action, p.hash, st) {
        status := Confirmed;
      } else if now <= p.deadline {
        settles := false;
      }
    }

    method SettleOne(ref: Ref, p: Pending, status: Status)
      requires Valid()
      modifies this`inflight, this`ringLen, ring
      ensures Valid()
      ensures Guarded() == old(Guarded()).(inflight := old(inflight) - {ref},
                                           ring := Appended(old(ring[..ringLen]), lim.ringSize, SettledRecord(ref, p, status)))
    {
      AppendRingLocked(SettledRecord(ref, p, status));
      inflight := inflight - {ref};
    }

    /** The locked section of reconcile, for a state `st` read before the lock. */
    method Reconcile(st: Committed, now: int) returns (finished: seq<Result>, ghost order: seq<Ref>)
      requires Valid()
      modifies this`inflight, this`ringLen, ring
      ensures Valid()
      ensures SettlesInOrder(old(Guarded()), st, now, order) && AllSettle(old(Guarded()), st, now, order)
      ensures finished == ResultsFor(old(Guarded()), st, now, order)
      ensures Guarded() == Reconciled(old(Guarded()), lim, st, now, order)
      ensures PassLeaves(old(Guarded()), Guarded(), st, now, order, finished)
    {
      ghost var t := Guarded();
      finished, order := [], [];
      var todo := inflight.Keys;
      while todo != {}
        invariant Valid() && ring == old(ring)
        invariant PassedOver(t, st, now, todo, order)
        invariant finished == ResultsFor(t, st, now, order)
        invariant Guarded() == Halfway(t, lim, st, now, order)
        decreases todo
      {
        var ref :| ref in todo;
        assert ref !in order;
        var p := inflight[ref];
        var settles, status := Judge(p, st, now);
        if settles {
          finished := finished + [SettledResult(p, status)];
          SettleOne(ref, p, status);
          RecordsGrow(t, lim, st, now, order, ref);
          PassesOver(t, st, now, todo, order, ref);
          order := order + [ref];
        }
        todo := todo - {ref};
      }
      AllPassedOver(t, st, now, order);
      ReconcileLeaves(t, lim, st, now, order);
    }
  }

  lemma SubmitsAsTold(t: Table, lim: Limits, req: Request, st: Committed, deadline: int, failure: Option<Code>, r: Submitted)
    requires r == SubmitAlone(t, lim, req, st, deadline, failure)
    ensures SubmitLeaves(t, lim, req, st, deadline, failure, r)
  {
    SubmitAnswers(t, lim, req, st, deadline, failure);
  }

  /** The entries outside `todo` are judged: those that settle are in `order`, once each. */
  ghost predicate PassedOver(t: Table, st: Committed, now: int, todo: set<Ref>, order: seq<Ref>) {
    && todo <= t.inflight.Keys && AllSettle(t, st, now, order)
    && (forall i, j :: 0 <= i < j < |order| ==> order[i] != order[j])
    && (forall i :: 0 <= i < |order| ==> order[i] !in todo)
    && (forall ref :: ref in t.inflight && ref !in todo && ref !in order ==> Settlement(t.inflight[ref], st, t.epoch, now).None?)
  }

  lemma PassesOver(t: Table, st: Committed, now: int, todo: set<Ref>, order: seq<Ref>, ref: Ref)
    requires PassedOver(t, st, now, todo, order) && ref in todo && Settlement(t.inflight[ref], st, t.epoch, now).Some?
    ensures PassedOver(t, st, now, todo - {ref}, order + [ref])
  {
  }

  lemma AllPassedOver(t: Table, st: Committed, now: int, order: seq<Ref>)
    requires PassedOver(t, st, now, {}, order)
    ensures SettlesInOrder(t, st, now, order)
    ensures t.inflight - (set ref | ref in order) == Survivors(t, st, now)
  {
  }

  /** The table once those in `order` are settled. */
  ghost function Halfway(t: Table, lim: Limits, st: Committed, now: int, order: seq<Ref>): Table
    requires AllSettle(t, st, now, order)
  {
    t.(inflight := t.inflight - (set ref | ref in order),
       ring := AppendedAll(t.ring, lim.ringSize, RecordsFor(t, st, now, order)))
  }

  lemma RecordsGrow(t: Table, lim: Limits, st: Committed, now: int, order: seq<Ref>, ref: Ref)
    requires AllSettle(t, st, now, order)
    requires ref in t.inflight && Settlement(t.inflight[ref], st, t.epoch, now).Some?
    ensures AllSettle(t, st, now, order + [ref])
    ensures var p, status, part := t.inflight[ref], Settlement(t.inflight[ref], st, t.epoch, now).value, Halfway(t, lim, st, now, order);
            && ResultsFor(t, st, now, order + [ref]) == ResultsFor(t, st, now, order) + [SettledResult(p, status)]
            && Halfway(t, lim, st, now, order + [ref]) ==
                 part.(inflight := part.inflight - {ref}, ring := Appended(part.ring, lim.ringSize, SettledRecord(ref, p, status)))
  {
    var recs := RecordsFor(t, st, now, order);
    assert RecordsFor(t, st, now, order + [ref])[..|order|] == recs;
    assert (set r | r in order + [ref]) == (set r | r in order) + {ref};
  }
}
