/** Concrete runs for any limits: a Submit stalls between its registration and its call until
    the ring forgot its ref. */
module ForgottenRef {
  import opened Options
  import opened MutateSpec
  import opened MutateRuns
  import opened SubmitRuns
  import opened MutationFates

  /** The i-th filler ref: longer than one character, all of different length. */
  function Filler(i: nat): Ref {
    seq(i + 2, _ => 'x')
  }

  function Unknown(i: nat): Request {
    Request(OtherAction, "", "", None, false, Filler(i))
  }

  /** The refs recorded so far, in order: the one wanted, then the fillers. */
  function RefAt(i: nat): Ref {
    if i == 0 then "r" else Filler(i)
  }

  predicate RingIs(ring: seq<RefRecord>, size: Pos, total: nat) {
    && |ring| == (if total <= size then total else size)
    && forall j :: 0 <= j < |ring| ==> ring[j].ref == RefAt(total - |ring| + j)
  }

  lemma RingPush(ring: seq<RefRecord>, size: Pos, total: nat, rec: RefRecord)
    requires RingIs(ring, size, total) && rec.ref == RefAt(total)
    ensures RingIs(Appended(ring, size, rec), size, total + 1)
  {
  }

  lemma RefsDiffer(i: nat, j: nat)
    requires i != j
    ensures RefAt(i) != RefAt(j)
  {
    assert |RefAt(i)| != |RefAt(j)|;
  }

  /** The first Submit under "r" has not called yet; its entry was settled meanwhile, and
      `total` records have been appended. */
  ghost predicate Waiting(s: Sys, lim: Limits, total: nat) {
    && s.table.inflight == map[] && !s.table.draining && s.table.nextMut == |s.regs| == 1 && lim.maxInFlight > 0
    && s.regs[0].ref == "r" && s.regs[0].backend == s.table.backend && s.calls == []
    && RingIs(s.table.ring, lim.ringSize, total)
    && s.committed != [] && s.committed[|s.committed| - 1] == SHOWN
    && 0 in s.tasks && s.tasks[0] == Calling(On(Pause), "h", 1) && (forall id :: id in s.tasks ==> id < total)
    && (forall k :: 0 <= k < |s.settled| ==> s.settled[k].result.mutation == 1)
  }

  /** The first Submit stalls just after it registered. */
  lemma Stalled(s: Sys, lim: Limits) returns (states: seq<Sys>, steps: seq<Step>, t: Sys)
    requires Init(s) && lim.maxInFlight > 0
    ensures Extends(states, lim, steps, t) && states[0] == s
    ensures t == s.(table := Registered(s.table, On(Pause), "h", 0), tasks := map[0 := Calling(On(Pause), "h", 1)],
                    committed := s.committed + [SHOWN], stamps := s.stamps + [Stamp(0, s.table.backend)],
                    regs := [Registry("r", s.table.backend, 0, 0, 1, On(Pause))])
  {
    var u;
    states, steps, u := Validated(s, lim, Pause);
    states, steps := Extended(states, lim, steps, u, RegisterSection(0, 0));
    t := After(u, lim, RegisterSection(0, 0));
  }

  /** The reconciler confirms the first mutation before it is called. */
  lemma SettledMeanwhile(states: seq<Sys>, lim: Limits, steps: seq<Step>, s: Sys)
    returns (states': seq<Sys>, steps': seq<Step>, t: Sys)
    requires Extends(states, lim, steps, s) && lim.maxInFlight > 0
    requires s.table.inflight == map["r" := Pending(1, Pause, "h", "", false, 0, s.table.epoch)]
    requires s.table.ring == [] && !s.table.draining && s.table.nextMut == |s.regs| == 1
    requires s.regs[0].ref == "r" && s.regs[0].backend == s.table.backend && s.calls == []
    requires s.recon.Asleep? && s.settled == [] && s.committed != [] && s.committed[|s.committed| - 1] == SHOWN
    requires s.tasks == map[0 := Calling(On(Pause), "h", 1)]
    ensures Extends(states', lim, steps', t) && states <= states' && Waiting(t, lim, 1) && t.table.backend == s.table.backend
  {
    var s1 := After(s, lim, ReadForReconcile(0));
    states', steps' := Extended(states, lim, steps, s, ReadForReconcile(0));
    var order := ["r"];
    assert Settlement(s1.table.inflight["r"], SHOWN, s1.table.epoch, 0) == Some(Confirmed);
    assert SettlesInOrder(s1.table, s1.committed[s1.recon.at], s1.recon.now, order);
    states', steps' := Extended(states', lim, steps', s1, ReconcileSection(order));
    t := After(s1, lim, ReconcileSection(order));
    OneRecord(s1.table, lim, order);
  }

  lemma OneRecord(t: Table, lim: Limits, order: seq<Ref>)
    requires order == ["r"] && AllSettle(t, SHOWN, 0, order) && t.ring == []
    ensures RingIs(AppendedAll(t.ring, lim.ringSize, RecordsFor(t, SHOWN, 0, order)), lim.ringSize, 1)
  {
    var recs := RecordsFor(t, SHOWN, 0, order);
    assert recs[..0] == [];
    assert AppendedAll([], lim.ringSize, recs) == Appended([], lim.ringSize, recs[0]);
    assert recs[0].ref == order[0] == RefAt(0);
  }

  lemma FillerRefused(t: Table, lim: Limits, req: Request, st: Committed)
    requires t.inflight == map[] && lim.maxInFlight > 0 && req.action.OtherAction?
    requires forall j :: 0 <= j < |t.ring| ==> t.ring[j].ref != req.ref
    ensures SubmitAlone(t, lim, req, st, 0, None) ==
              Submitted(t.(ring := Appended(t.ring, lim.ringSize, RejectRecord(req, req.hash, BackendRejected))), Refused(BackendRejected), None)
  {
    LookupKnows(t, req);
  }

  lemma FillerIsNew(ring: seq<RefRecord>, size: Pos, total: nat)
    requires RingIs(ring, size, total) && total > 0
    ensures forall j :: 0 <= j < |ring| ==> ring[j].ref != RefAt(total)
  {
    forall j | 0 <= j < |ring| ensures ring[j].ref != RefAt(total) {
      RefsDiffer(total - |ring| + j, total);
    }
  }

  lemma StillWaiting(s: Sys, lim: Limits, total: nat, t: Sys, rec: RefRecord)
    requires Waiting(s, lim, total) && total > 0 && rec.ref == RefAt(total) && Beside(s, t, total) && t.calls == s.calls && t.regs == s.regs
    requires t.table == s.table.(ring := Appended(s.table.ring, lim.ringSize, rec))
    ensures Waiting(t, lim, total + 1)
  {
    RingPush(s.table.ring, lim.ringSize, total, rec);
  }

  /** One more request, refused at once, appends one more record. */
  lemma OneFiller(s: Sys, lim: Limits, total: nat) returns (steps: seq<Step>, t: Sys)
    requires Waiting(s, lim, total) && total > 0
    ensures Leads(s, lim, steps, t) && Waiting(t, lim, total + 1) && t.table.backend == s.table.backend
  {
    var req := Unknown(total);
    assert Lowered(req) == req;
    FillerIsNew(s.table.ring, lim.ringSize, total);
    FillerRefused(s.table, lim, req, SHOWN);
    steps, t := UndisturbedSubmit(s, lim, total, req, 0, None);
    StillWaiting(s, lim, total, t, RejectRecord(req, req.hash, BackendRejected));
  }

  lemma {:induction false} Fillers(s: Sys, lim: Limits, states: seq<Sys>, steps: seq<Step>, total: nat, wanted: nat)
    returns (states': seq<Sys>, steps': seq<Step>, t: Sys)
    requires Extends(states, lim, steps, s) && Waiting(s, lim, total) && 0 < total <= wanted
    ensures Extends(states', lim, steps', t) && states <= states' && Waiting(t, lim, wanted) && t.table.backend == s.table.backend
    decreases wanted - total
  {
    states', steps', t := states, steps, s;
    if total < wanted {
      var more, u := OneFiller(s, lim, total);
      states', steps' := Followed(states, lim, steps, s, more, u);
      states', steps', t := Fillers(u, lim, states', steps', total + 1, wanted);
    }
  }

  /** The ring has forgotten "r": a second request under it runs and is accepted. */
  lemma SecondAccepted(s: Sys, lim: Limits) returns (steps: seq<Step>, t: Sys)
    requires Waiting(s, lim, lim.ringSize + 1)
    ensures Leads(s, lim, steps, t)
    ensures t.table == Registered(s.table, On(Pause), "h", 0) && Beside(s, t, lim.ringSize + 1)
    ensures t.tasks[lim.ringSize + 1] == Done(Accepted(2, Pause, "h")) && t.hist == s.hist
    ensures t.calls == [Call(2, s.table.backend, None, |s.hist|, true)] && t.regs == s.regs + [NextReg(s, On(Pause), |s.committed| - 1)]
  {
    OnIsLowered(Pause);
    forall j | 0 <= j < |s.table.ring| ensures s.table.ring[j].ref != "r" {
      RefsDiffer(1 + j, 0);
    }
    LookupKnows(s.table, On(Pause));
    steps, t := UndisturbedSubmit(s, lim, lim.ringSize + 1, On(Pause), 0, None);
  }

  /** Both calls of "r" made, the older registration's last, while "r" is in flight. */
  ghost predicate CalledTwice(s: Sys, t: Sys, lim: Limits, failure: Option<Code>) {
    && (exists n: nat :: t.calls == [Call(2, s.table.backend, None, n, true), Call(1, s.table.backend, failure, n, false)])
    && |t.regs| == 2 && t.regs[0].ref == t.regs[1].ref == "r"
    && t.table.inflight.Keys == {"r"} && t.table.inflight["r"].mutation == 2
    && 0 in t.tasks && lim.ringSize + 1 in t.tasks
    && t.tasks[0] == (if failure.Some? then CallFailed(On(Pause), "h", 1, failure.value) else Done(Accepted(1, Pause, "h")))
    && t.tasks[lim.ringSize + 1] == Done(Accepted(2, Pause, "h"))
    && (forall k :: 0 <= k < |t.settled| ==> t.settled[k].result.mutation == 1)
  }

  /** Whatever the limits, a run exists in which two calls are made under one ref with no
      append between them: the second registration's, and only then the first one's, whose
      entry was settled and then forgotten before it called. */
  lemma CalledTwiceAtOnce(s: Sys, lim: Limits, failure: Option<Code>) returns (states: seq<Sys>, steps: seq<Step>)
    requires Init(s) && lim.maxInFlight > 0
    ensures IsRun(states, lim, steps) && states[0] == s && CalledTwice(s, states[|steps|], lim, failure)
  {
    var u, v, w, more;
    states, steps, u := Stalled(s, lim);
    states, steps, v := SettledMeanwhile(states, lim, steps, u);
    states, steps, w := Fillers(v, lim, states, steps, 1, lim.ringSize + 1);
    var x;
    more, x := SecondAccepted(w, lim);
    states, steps := Followed(states, lim, steps, w, more, x);
    states, steps := Extended(states, lim, steps, x, BackendCall(0, failure));
    assert states[|steps|].calls == [Call(2, s.table.backend, None, |w.hist|, true), Call(1, s.table.backend, failure, |w.hist|, false)];
  }

  /** Going on from there when the late call fails: whatever the limits, a run exists in
      which a client is told that mutation 2 is accepted and the mutation then is neither
      in flight nor ever given a result. */
  lemma AcceptedWithoutResult(s: Sys, lim: Limits) returns (states: seq<Sys>, steps: seq<Step>, id: TaskId)
    requires Init(s) && lim.maxInFlight > 0
    ensures IsRun(states, lim, steps) && states[0] == s
    ensures var t := states[|steps|];
            && id in t.tasks && t.tasks[id] == Done(Accepted(2, Pause, "h")) && CallWas(t, 2, true)
            && !InFlight(t, 2) && !HasResult(t, 2)
  {
    id := lim.ringSize + 1;
    states, steps := CalledTwiceAtOnce(s, lim, Some(BackendRejected));
    var t := states[|steps|];
    assert t.calls[0].mutation == 2;
    states, steps := Extended(states, lim, steps, t, FailureSection(0));
  }
}
