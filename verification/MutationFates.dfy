/** What becomes of a registered mutation over every run of MutateRuns: it is in flight, it
    has its one result, or the section after a failed backend call took its entry away. */
module MutationFates {
  import opened Options
  import opened MutateSpec
  import opened MutateRuns

  // ---- which call a section belongs to ----

  predicate Running(t: Task) {
    t.Calling? || t.CallFailed?
  }

  /** An entry belongs to the latest registration of its ref. */
  ghost predicate Latest(s: Sys) {
    forall ref, i :: ref in s.table.inflight && s.table.inflight[ref].mutation <= i < |s.regs| ==> s.regs[i].ref != ref
  }

  /** A Submit past its registration knows its own number. */
  ghost predicate Named(s: Sys) {
    forall id :: id in s.tasks && Running(s.tasks[id]) ==>
      0 < s.tasks[id].mutation <= |s.regs| && s.regs[s.tasks[id].mutation - 1].ref == s.tasks[id].req.ref
  }

  ghost predicate CallWas(s: Sys, m: nat, ok: bool) {
    exists a :: 0 <= a < |s.calls| && s.calls[a].mutation == m && s.calls[a].failure.None? == ok
  }

  ghost predicate FailedCalled(s: Sys) {
    forall id :: id in s.tasks && s.tasks[id].CallFailed? ==> CallWas(s, s.tasks[id].mutation, false)
  }

  ghost predicate Traced(s: Sys) {
    Latest(s) && Named(s) && FailedCalled(s)
  }

  lemma LatestStep(s: Sys, lim: Limits, step: Step)
    requires TableOk(s, lim) && Latest(s) && Enabled(s, step)
    ensures Latest(After(s, lim, step))
  {
    var t := After(s, lim, step);
    if |t.regs| == |s.regs| {
      assert t.regs == s.regs;
      assert forall ref :: ref in t.table.inflight ==> ref in s.table.inflight && t.table.inflight[ref] == s.table.inflight[ref];
    } else {
      forall ref, i | ref in t.table.inflight && t.table.inflight[ref].mutation <= i < |t.regs| ensures t.regs[i].ref != ref {
        if i == |s.regs| {
          assert ref != s.tasks[step.id].req.ref;
        }
      }
    }
  }

  predicate NamedTask(regs: seq<Registry>, t: Task) {
    Running(t) ==> 0 < t.mutation <= |regs| && regs[t.mutation - 1].ref == t.req.ref
  }

  lemma NamedRegister(s: Sys, lim: Limits, step: Step)
    requires s.table.nextMut == |s.regs| && Named(s) && Enabled(s, step) && step.RegisterSection?
    ensures Named(After(s, lim, step))
  {
    var t := After(s, lim, step);
    forall id | id in t.tasks && Running(t.tasks[id]) ensures NamedTask(t.regs, t.tasks[id]) {
      if id != step.id {
        assert NamedTask(s.regs, s.tasks[id]);
      }
    }
  }

  lemma NamedStep(s: Sys, lim: Limits, step: Step)
    requires s.table.nextMut == |s.regs| && Named(s) && Enabled(s, step)
    ensures Named(After(s, lim, step))
  {
    if step.RegisterSection? {
      NamedRegister(s, lim, step);
    } else {
      var t := After(s, lim, step);
      assert t.regs == s.regs;
      forall id | id in t.tasks && Running(t.tasks[id]) ensures NamedTask(t.regs, t.tasks[id]) {
        assert id in s.tasks && NamedTask(s.regs, s.tasks[id]);
      }
    }
  }

  lemma CallWasStep(s: Sys, lim: Limits, step: Step, m: nat, ok: bool)
    requires Enabled(s, step) && CallWas(s, m, ok)
    ensures CallWas(After(s, lim, step), m, ok)
  {
    var t := After(s, lim, step);
    assert s.calls <= t.calls;
    var a :| 0 <= a < |s.calls| && s.calls[a].mutation == m && s.calls[a].failure.None? == ok;
    assert t.calls[a] == s.calls[a];
  }

  lemma FailedCalledStep(s: Sys, lim: Limits, step: Step)
    requires FailedCalled(s) && Enabled(s, step)
    ensures FailedCalled(After(s, lim, step))
  {
    var t := After(s, lim, step);
    forall id | id in t.tasks && t.tasks[id].CallFailed? ensures CallWas(t, t.tasks[id].mutation, false) {
      if id in s.tasks && s.tasks[id].CallFailed? {
        CallWasStep(s, lim, step, s.tasks[id].mutation, false);
      } else {
        assert step.BackendCall? && t.calls[|s.calls|].mutation == t.tasks[id].mutation;
      }
    }
  }

  lemma {:induction false} ReachableTraced(states: seq<Sys>, lim: Limits, steps: seq<Step>, i: nat)
    requires IsRun(states, lim, steps) && i < |states|
    ensures Traced(states[i])
  {
    if i > 0 {
      ReachableTraced(states, lim, steps, i - 1);
      assert TableOk(states[i - 1], lim) by { Reachable(states, lim, steps, i - 1); }
      assert StepAt(states, lim, steps, i - 1);
      TracedStep(states[i - 1], lim, steps[i - 1]);
    }
  }

  lemma TracedStep(s: Sys, lim: Limits, step: Step)
    requires TableOk(s, lim) && Traced(s) && Enabled(s, step)
    ensures Traced(After(s, lim, step))
  {
    LatestStep(s, lim, step);
    NamedStep(s, lim, step);
    FailedCalledStep(s, lim, step);
  }

  // ---- how an entry leaves the table ----

  /** The failure section of mutation m takes the entry of a later mutation under its ref,
      after more than RingSize records were appended between the two registrations. */
  ghost predicate TakesLater(s: Sys, lim: Limits, m: nat, later: nat) {
    && 0 < m < later <= |s.regs|
    && s.regs[m - 1].ref == s.regs[later - 1].ref
    && s.regs[m - 1].appends + lim.ringSize < s.regs[later - 1].appends <= |s.hist|
  }

  /** The failure section of a Submit removes the entry of another mutation if and only if
      its ref is in flight under another number; that number is then a later one, and more
      than RingSize records were appended since the failed mutation registered. */
  lemma FailureTakesAnother(s: Sys, lim: Limits, id: TaskId, ref: Ref)
    requires Inv(s, lim) && Traced(s) && Enabled(s, FailureSection(id)) && ref in s.table.inflight
    ensures var t, task, later := After(s, lim, FailureSection(id)), s.tasks[id], s.table.inflight[ref].mutation;
            && (ref !in t.table.inflight <==> ref == task.req.ref)
            && (ref in t.table.inflight ==> t.table.inflight[ref] == s.table.inflight[ref])
            && (ref == task.req.ref && later != task.mutation ==> TakesLater(s, lim, task.mutation, later))
            && (ref == task.req.ref && later == task.mutation ==> CallWas(s, later, false))
  {
    var task, p := s.tasks[id], s.table.inflight[ref];
    assert EntryOk(s, ref);
    assert Running(task);
    if ref == task.req.ref {
      NoLaterThanEntry(s, ref, task.mutation);
    }
  }

  lemma NoLaterThanEntry(s: Sys, ref: Ref, m: nat)
    requires Latest(s) && ref in s.table.inflight && 0 < m <= |s.regs| && s.regs[m - 1].ref == ref
    ensures m <= s.table.inflight[ref].mutation
  {
  }

  ghost predicate InFlight(s: Sys, m: nat) {
    exists ref :: ref in s.table.inflight && s.table.inflight[ref].mutation == m
  }

  ghost predicate HasResult(s: Sys, m: nat) {
    exists k :: 0 <= k < |s.settled| && s.settled[k].result.mutation == m
  }

  /** This failure section takes the entry of mutation m. */
  ghost predicate Drops(s: Sys, step: Step, m: nat) {
    && step.FailureSection? && step.id in s.tasks && s.tasks[step.id].CallFailed?
    && s.tasks[step.id].req.ref in s.table.inflight && s.table.inflight[s.tasks[step.id].req.ref].mutation == m
  }

  lemma NeverBoth(s: Sys, lim: Limits, m: nat)
    requires TableOk(s, lim) && InFlight(s, m)
    ensures !HasResult(s, m)
  {
    var ref :| ref in s.table.inflight && s.table.inflight[ref].mutation == m;
    assert EntryOk(s, ref);
  }

  lemma SettledWasInFlight(s: Sys, lim: Limits, order: seq<Ref>, k: nat)
    requires Enabled(s, ReconcileSection(order)) && |s.settled| <= k < |After(s, lim, ReconcileSection(order)).settled|
    ensures InFlight(s, After(s, lim, ReconcileSection(order)).settled[k].result.mutation)
  {
    var ref := order[k - |s.settled|];
    assert ref in order && ref in s.table.inflight;
  }

  lemma EntryWasThere(s: Sys, lim: Limits, step: Step, m: nat)
    requires s.table.nextMut == |s.regs| && Enabled(s, step) && 0 < m <= |s.regs| && InFlight(After(s, lim, step), m)
    ensures InFlight(s, m)
  {
    var t := After(s, lim, step);
    var ref :| ref in t.table.inflight && t.table.inflight[ref].mutation == m;
    assert ref in s.table.inflight && s.table.inflight[ref].mutation == m;
  }

  lemma ReconcileKeepsOrSettles(s: Sys, lim: Limits, order: seq<Ref>, m: nat)
    requires TableOk(s, lim) && Enabled(s, ReconcileSection(order)) && InFlight(s, m)
    ensures var t := After(s, lim, ReconcileSection(order)); InFlight(t, m) || HasResult(t, m)
  {
    var t := After(s, lim, ReconcileSection(order));
    var results := ResultsFor(s.table, s.committed[s.recon.at], s.recon.now, order);
    var ref :| ref in s.table.inflight && s.table.inflight[ref].mutation == m;
    if ref in order {
      var k :| 0 <= k < |order| && order[k] == ref;
      assert t.settled[|s.settled| + k].result == results[k];
    } else {
      assert ref in t.table.inflight && t.table.inflight[ref].mutation == m;
    }
  }

  lemma ReconcileSettlesNoOther(s: Sys, lim: Limits, order: seq<Ref>, m: nat)
    requires s.table.nextMut == |s.regs| && Enabled(s, ReconcileSection(order)) && 0 < m <= |s.regs| && !InFlight(s, m)
    ensures var t := After(s, lim, ReconcileSection(order)); !InFlight(t, m) && (HasResult(t, m) <==> HasResult(s, m))
  {
    var t := After(s, lim, ReconcileSection(order));
    if HasResult(t, m) {
      var k :| 0 <= k < |t.settled| && t.settled[k].result.mutation == m;
      if k >= |s.settled| {
        SettledWasInFlight(s, lim, order, k);
      }
    }
    if k: nat :| k < |s.settled| && s.settled[k].result.mutation == m {
      assert t.settled[k] == s.settled[k];
    }
    if InFlight(t, m) {
      EntryWasThere(s, lim, ReconcileSection(order), m);
    }
  }

  lemma ReconcileSettles(s: Sys, lim: Limits, order: seq<Ref>, m: nat)
    requires TableOk(s, lim) && Enabled(s, ReconcileSection(order)) && 0 < m <= |s.regs|
    ensures var t := After(s, lim, ReconcileSection(order));
            && (InFlight(s, m) ==> InFlight(t, m) || HasResult(t, m))
            && (!InFlight(s, m) ==> !InFlight(t, m) && (HasResult(t, m) <==> HasResult(s, m)))
  {
    if InFlight(s, m) {
      ReconcileKeepsOrSettles(s, lim, order, m);
    } else {
      ReconcileSettlesNoOther(s, lim, order, m);
    }
  }

  lemma OtherFate(s: Sys, lim: Limits, step: Step, m: nat)
    requires TableOk(s, lim) && Enabled(s, step) && 0 < m <= |s.regs| && !step.ReconcileSection?
    ensures var t := After(s, lim, step);
            && (HasResult(t, m) <==> HasResult(s, m))
            && (InFlight(t, m) <==> InFlight(s, m) && !Drops(s, step, m))
  {
    var t := After(s, lim, step);
    assert t.settled == s.settled;
    if InFlight(s, m) {
      var ref :| ref in s.table.inflight && s.table.inflight[ref].mutation == m;
      assert EntryOk(s, ref);
      OneEntry(s, lim, step, m, ref);
    } else if InFlight(t, m) {
      EntryWasThere(s, lim, step, m);
    }
  }

  lemma OneEntry(s: Sys, lim: Limits, step: Step, m: nat, ref: Ref)
    requires TableOk(s, lim) && Enabled(s, step) && 0 < m <= |s.regs| && !step.ReconcileSection?
    requires ref in s.table.inflight && s.table.inflight[ref].mutation == m
    ensures InFlight(After(s, lim, step), m) <==> !Drops(s, step, m)
  {
    var t := After(s, lim, step);
    assert forall r :: r in s.table.inflight && s.table.inflight[r].mutation == m ==> EntryOk(s, r) && r == ref;
    if ref in t.table.inflight {
      assert t.table.inflight[ref] == s.table.inflight[ref];
    }
  }

  /** One step: a mutation in flight stays, is settled, or is dropped; one that left the
      table never comes back and never gets another fate. */
  lemma FateStep(s: Sys, lim: Limits, step: Step, m: nat)
    requires TableOk(s, lim) && Enabled(s, step) && 0 < m <= |s.regs|
    ensures var t := After(s, lim, step);
            && (InFlight(s, m) ==> InFlight(t, m) || HasResult(t, m) || Drops(s, step, m))
            && (InFlight(s, m) && Drops(s, step, m) ==> !InFlight(t, m) && !HasResult(t, m))
            && (!InFlight(s, m) ==> !InFlight(t, m) && !Drops(s, step, m) && (HasResult(t, m) <==> HasResult(s, m)))
  {
    match step
    case ReconcileSection(order) => ReconcileSettles(s, lim, order, m);
    case _ => OtherFate(s, lim, step, m);
    if InFlight(s, m) {
      NeverBoth(s, lim, m);
    }
  }

  // ---- over whole runs ----

  /** The step before state i that took the entry of mutation m away unsettled. */
  ghost predicate DroppedAt(states: seq<Sys>, steps: seq<Step>, i: nat, k: nat, m: nat)
    requires i < |states| == |steps| + 1
  {
    k < i && Drops(states[k], steps[k], m)
  }

  lemma Registers(s: Sys, lim: Limits, step: Step)
    requires TableOk(s, lim) && SettledOk(s) && Enabled(s, step) && |After(s, lim, step).regs| > |s.regs|
    ensures var t := After(s, lim, step); |t.regs| == |s.regs| + 1 && InFlight(t, |t.regs|) && !HasResult(t, |t.regs|)
  {
    var t := After(s, lim, step);
    var ref := s.tasks[step.id].req.ref;
    assert ref in t.table.inflight && t.table.inflight[ref].mutation == |t.regs|;
  }

  lemma TooEarlyToDrop(states: seq<Sys>, lim: Limits, steps: seq<Step>, k: nat, m: nat)
    requires IsRun(states, lim, steps) && k < |steps| && Drops(states[k], steps[k], m)
    ensures 0 < m <= |states[k].regs|
  {
    Reachable(states, lim, steps, k);
    assert EntryOk(states[k], states[k].tasks[steps[k].id].req.ref);
  }

  ghost predicate Dropped(states: seq<Sys>, steps: seq<Step>, i: nat, m: nat)
    requires i < |states| == |steps| + 1
  {
    exists k: nat :: DroppedAt(states, steps, i, k, m)
  }

  /** Exactly one of the three. */
  predicate OneOf(a: bool, b: bool, c: bool) {
    (a || b || c) && !(a && b) && !(a && c) && !(b && c)
  }

  lemma FirstFate(states: seq<Sys>, lim: Limits, steps: seq<Step>, i: nat, m: nat)
    requires IsRun(states, lim, steps) && 0 < i < |states| && |states[i - 1].regs| < m <= |states[i].regs|
    ensures InFlight(states[i], m) && !HasResult(states[i], m) && !Dropped(states, steps, i, m)
  {
    assert StepAt(states, lim, steps, i - 1);
    Reachable(states, lim, steps, i - 1);
    Registers(states[i - 1], lim, steps[i - 1]);
    if k: nat :| DroppedAt(states, steps, i, k, m) {
      TooEarlyToDrop(states, lim, steps, k, m);
      RegsGrow(states, lim, steps, k, i - 1);
    }
  }

  lemma DroppedMore(states: seq<Sys>, steps: seq<Step>, i: nat, m: nat)
    requires 0 < i < |states| == |steps| + 1
    ensures Dropped(states, steps, i, m) <==> Dropped(states, steps, i - 1, m) || Drops(states[i - 1], steps[i - 1], m)
  {
    var h := i - 1;
    if k: nat :| DroppedAt(states, steps, i, k, m) {
      assert k < h ==> DroppedAt(states, steps, h, k, m);
    }
    if k: nat :| DroppedAt(states, steps, h, k, m) {
      assert DroppedAt(states, steps, i, k, m);
    }
    if Drops(states[h], steps[h], m) {
      assert DroppedAt(states, steps, i, h, m);
    }
  }

  /** Exactly one of three at every moment after its registration: in flight, settled with a
      result, or dropped by a failure section. */
  lemma {:induction false} Fate(states: seq<Sys>, lim: Limits, steps: seq<Step>, i: nat, m: nat)
    requires IsRun(states, lim, steps) && i < |states| && 0 < m <= |states[i].regs|
    ensures OneOf(InFlight(states[i], m), HasResult(states[i], m), Dropped(states, steps, i, m))
  {
    assert i > 0;
    if m > |states[i - 1].regs| {
      FirstFate(states, lim, steps, i, m);
    } else {
      Fate(states, lim, steps, i - 1, m);
      Reachable(states, lim, steps, i - 1);
      Reachable(states, lim, steps, i);
      assert StepAt(states, lim, steps, i - 1);
      FateStep(states[i - 1], lim, steps[i - 1], m);
      DroppedMore(states, steps, i, m);
      if InFlight(states[i], m) {
        NeverBoth(states[i], lim, m);
      }
    }
  }

  /** What is neither in flight nor settled stays so. */
  lemma {:induction false} GoneForGood(states: seq<Sys>, lim: Limits, steps: seq<Step>, i: nat, j: nat, m: nat)
    requires IsRun(states, lim, steps) && i <= j < |states| && 0 < m <= |states[i].regs|
    requires !InFlight(states[i], m) && !HasResult(states[i], m)
    ensures !InFlight(states[j], m) && !HasResult(states[j], m)
  {
    if i < j {
      GoneForGood(states, lim, steps, i, j - 1, m);
      RegsGrow(states, lim, steps, i, j - 1);
      assert TableOk(states[j - 1], lim) by { Reachable(states, lim, steps, j - 1); }
      assert StepAt(states, lim, steps, j - 1);
      FateStep(states[j - 1], lim, steps[j - 1], m);
    }
  }

  lemma {:induction false} RegsGrow(states: seq<Sys>, lim: Limits, steps: seq<Step>, k: nat, i: nat)
    requires IsRun(states, lim, steps) && k <= i < |states|
    ensures |states[k].regs| <= |states[i].regs|
  {
    if k < i {
      RegsGrow(states, lim, steps, k, i - 1);
      assert StepAt(states, lim, steps, i - 1);
    }
  }

  lemma {:induction false} CallStays(states: seq<Sys>, lim: Limits, steps: seq<Step>, k: nat, i: nat, m: nat)
    requires IsRun(states, lim, steps) && k <= i < |states| && CallWas(states[k], m, false)
    ensures CallWas(states[i], m, false)
  {
    if k < i {
      CallStays(states, lim, steps, k, i - 1, m);
      assert StepAt(states, lim, steps, i - 1);
      CallWasStep(states[i - 1], lim, steps[i - 1], m, false);
    }
  }

  ghost predicate DroppedByOlder(states: seq<Sys>, lim: Limits, steps: seq<Step>, i: nat, k: nat, m: nat)
    requires i < |states| == |steps| + 1
  {
    DroppedAt(states, steps, i, k, m) && TakesLater(states[k], lim, states[k].tasks[steps[k].id].mutation, m)
  }

  /** A mutation whose backend call succeeded, the one its client was told is accepted, ends
      without a result if and only if it is neither in flight nor settled, and that happens
      exactly through the failure section of an earlier call under the same ref, more than
      RingSize appends after that call registered. */
  lemma AcceptedFate(states: seq<Sys>, lim: Limits, steps: seq<Step>, i: nat, m: nat)
    requires IsRun(states, lim, steps) && i < |states| && CallWas(states[i], m, true)
    ensures 0 < m <= |states[i].regs|
    ensures !InFlight(states[i], m) && !HasResult(states[i], m) <==>
            exists k: nat :: DroppedByOlder(states, lim, steps, i, k, m)
  {
    Reachable(states, lim, steps, i);
    var a :| 0 <= a < |states[i].calls| && states[i].calls[a].mutation == m;
    Fate(states, lim, steps, i, m);
    if k: nat :| DroppedAt(states, steps, i, k, m) {
      OnlyByOlder(states, lim, steps, i, k, m);
    }
  }

  lemma OnlyByOlder(states: seq<Sys>, lim: Limits, steps: seq<Step>, i: nat, k: nat, m: nat)
    requires IsRun(states, lim, steps) && i < |states| && CallWas(states[i], m, true) && DroppedAt(states, steps, i, k, m)
    ensures DroppedByOlder(states, lim, steps, i, k, m)
  {
    var id := steps[k].id;
    ReachableTraced(states, lim, steps, k);
    Reachable(states, lim, steps, k);
    assert StepAt(states, lim, steps, k);
    FailureTakesAnother(states[k], lim, id, states[k].tasks[id].req.ref);
    if states[k].tasks[id].mutation == m {
      CallStays(states, lim, steps, k, i, m);
      Reachable(states, lim, steps, i);
      OneCall(states[i], m);
    }
  }

  lemma OneCall(s: Sys, m: nat)
    requires CallsOk(s)
    ensures !(CallWas(s, m, true) && CallWas(s, m, false))
  {
  }
}
