/** How far apart, in ring appends, two backend calls under one ref are. */
module CallDistances {
  import opened Options
  import opened MutateSpec
  import opened MutateRuns
  import opened MutationFates

  /** The ref of a call's registration. */
  ghost predicate Under(s: Sys, c: Call, ref: Ref) {
    0 < c.mutation <= |s.regs| && s.regs[c.mutation - 1].ref == ref
  }

  /** A call comes after its registration; if its entry was in flight then, its ref is in
      flight or recorded since, and every later registration of the ref came more than
      RingSize appends after the call. */
  ghost predicate CallApart(s: Sys, lim: Limits, c: Call) {
    && 0 < c.mutation <= |s.regs|
    && s.regs[c.mutation - 1].appends <= c.appends <= |s.hist|
    && (c.held ==>
          && Covered(s, s.regs[c.mutation - 1].ref, c.appends)
          && forall j :: c.mutation <= j < |s.regs| && s.regs[j].ref == s.regs[c.mutation - 1].ref ==>
               c.appends + lim.ringSize < s.regs[j].appends)
  }

  ghost predicate CallsApart(s: Sys, lim: Limits) {
    forall a :: 0 <= a < |s.calls| ==> CallApart(s, lim, s.calls[a])
  }

  lemma ApartRegistered(s: Sys, lim: Limits, step: Step, c: Call)
    requires TableOk(s, lim) && Enabled(s, step) && CallApart(s, lim, c) && |After(s, lim, step).regs| > |s.regs|
    ensures CallApart(After(s, lim, step), lim, c)
  {
    RegistersUnknown(s, lim, step);
    var ref := s.regs[c.mutation - 1].ref;
    if c.held {
      StaysCovered(s, lim, step, ref, c.appends);
      if s.tasks[step.id].req.ref == ref {
        UnknownIsOld(s, lim, ref, c.appends);
      }
    }
  }

  lemma ApartStep(s: Sys, lim: Limits, step: Step, c: Call)
    requires TableOk(s, lim) && Enabled(s, step) && CallApart(s, lim, c)
    ensures CallApart(After(s, lim, step), lim, c)
  {
    if |After(s, lim, step).regs| > |s.regs| {
      ApartRegistered(s, lim, step, c);
    } else {
      assert After(s, lim, step).regs == s.regs && s.hist <= After(s, lim, step).hist;
      if c.held {
        StaysCovered(s, lim, step, s.regs[c.mutation - 1].ref, c.appends);
      }
    }
  }

  /** A fresh call: its ref's entry is its own, so nothing registered under it since. */
  lemma FreshApart(s: Sys, lim: Limits, id: TaskId, failure: Option<Code>)
    requires Latest(s) && Named(s) && RegsOk(s, lim) && Enabled(s, BackendCall(id, failure))
    ensures var t := After(s, lim, BackendCall(id, failure)); CallApart(t, lim, t.calls[|s.calls|])
  {
    assert Running(s.tasks[id]);
  }

  lemma CallsApartStep(s: Sys, lim: Limits, step: Step)
    requires TableOk(s, lim) && RegsOk(s, lim) && Latest(s) && Named(s) && CallsApart(s, lim) && Enabled(s, step)
    ensures CallsApart(After(s, lim, step), lim)
  {
    var t := After(s, lim, step);
    if step.BackendCall? {
      FreshApart(s, lim, step.id, step.failure);
    }
    forall a | 0 <= a < |s.calls| ensures CallApart(t, lim, s.calls[a]) {
      ApartStep(s, lim, step, s.calls[a]);
    }
    assert step.BackendCall? || t.calls == s.calls;
  }

  lemma {:induction false} ReachableApart(states: seq<Sys>, lim: Limits, steps: seq<Step>, i: nat)
    requires IsRun(states, lim, steps) && i < |states|
    ensures CallsApart(states[i], lim)
  {
    if i > 0 {
      ReachableApart(states, lim, steps, i - 1);
      assert TableOk(states[i - 1], lim) && RegsOk(states[i - 1], lim) by { Reachable(states, lim, steps, i - 1); }
      assert Latest(states[i - 1]) && Named(states[i - 1]) by { ReachableTraced(states, lim, steps, i - 1); }
      assert StepAt(states, lim, steps, i - 1);
      CallsApartStep(states[i - 1], lim, steps[i - 1]);
    }
  }

  ghost predicate CallsInOrder(s: Sys) {
    && (forall a, b :: 0 <= a <= b < |s.calls| ==> s.calls[a].appends <= s.calls[b].appends)
    && (forall a :: 0 <= a < |s.calls| ==> s.calls[a].appends <= |s.hist|)
  }

  lemma {:induction false} ReachableInOrder(states: seq<Sys>, lim: Limits, steps: seq<Step>, i: nat)
    requires IsRun(states, lim, steps) && i < |states|
    ensures CallsInOrder(states[i])
  {
    if i > 0 {
      ReachableInOrder(states, lim, steps, i - 1);
      assert StepAt(states, lim, steps, i - 1);
      assert states[i - 1].calls <= states[i].calls && states[i - 1].hist <= states[i].hist;
    }
  }

  /** Of two calls under one ref, the one registered first is made first and more than
      RingSize appends earlier, unless its entry had left the table before it was made. */
  lemma CalledApart(states: seq<Sys>, lim: Limits, steps: seq<Step>, i: nat, a: nat, b: nat, ref: Ref)
    requires IsRun(states, lim, steps) && i < |states|
    requires a < |states[i].calls| && b < |states[i].calls| && states[i].calls[a].mutation < states[i].calls[b].mutation
    requires Under(states[i], states[i].calls[a], ref) && Under(states[i], states[i].calls[b], ref)
    ensures states[i].calls[a].held ==> a < b && states[i].calls[a].appends + lim.ringSize < states[i].calls[b].appends
  {
    ReachableApart(states, lim, steps, i);
    assert CallApart(states[i], lim, states[i].calls[a]) && CallApart(states[i], lim, states[i].calls[b]);
    ReachableInOrder(states, lim, steps, i);
  }

  // ---- the exception ----

  ghost predicate LateCall(s: Sys, c: Call) {
    0 < c.mutation <= |s.regs| && (!c.held ==> !InFlight(s, c.mutation))
  }

  lemma FreshLate(s: Sys, lim: Limits, id: TaskId, failure: Option<Code>)
    requires TableOk(s, lim) && Named(s) && Enabled(s, BackendCall(id, failure))
    ensures var t := After(s, lim, BackendCall(id, failure)); LateCall(t, t.calls[|s.calls|])
  {
    var t := After(s, lim, BackendCall(id, failure));
    assert Running(s.tasks[id]);
    if InFlight(t, s.tasks[id].mutation) {
      var ref :| ref in s.table.inflight && s.table.inflight[ref].mutation == s.tasks[id].mutation;
      assert EntryOk(s, ref);
    }
  }

  lemma LateStep(s: Sys, lim: Limits, step: Step, c: Call)
    requires TableOk(s, lim) && Enabled(s, step) && LateCall(s, c)
    ensures LateCall(After(s, lim, step), c)
  {
    FateStep(s, lim, step, c.mutation);
  }

  lemma {:induction false} ReachableLate(states: seq<Sys>, lim: Limits, steps: seq<Step>, i: nat, a: nat)
    requires IsRun(states, lim, steps) && i < |states| && a < |states[i].calls|
    ensures LateCall(states[i], states[i].calls[a])
  {
    assert i > 0 && StepAt(states, lim, steps, i - 1);
    assert TableOk(states[i - 1], lim) by { Reachable(states, lim, steps, i - 1); }
    if a < |states[i - 1].calls| {
      ReachableLate(states, lim, steps, i - 1, a);
      LateStep(states[i - 1], lim, steps[i - 1], states[i - 1].calls[a]);
    } else {
      assert Named(states[i - 1]) by { ReachableTraced(states, lim, steps, i - 1); }
      FreshLate(states[i - 1], lim, steps[i - 1].id, steps[i - 1].failure);
    }
  }

  /** A call made after its entry left the table is the call of a mutation already settled,
      or dropped by a failure section. */
  lemma CalledTooLate(states: seq<Sys>, lim: Limits, steps: seq<Step>, i: nat, a: nat)
    requires IsRun(states, lim, steps) && i < |states| && a < |states[i].calls| && !states[i].calls[a].held
    ensures HasResult(states[i], states[i].calls[a].mutation) || Dropped(states, steps, i, states[i].calls[a].mutation)
  {
    ReachableLate(states, lim, steps, i, a);
    Fate(states, lim, steps, i, states[i].calls[a].mutation);
  }
}
