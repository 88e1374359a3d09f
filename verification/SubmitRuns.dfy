/** Runs of MutateRuns put together step by step, and one Submit that runs alone. */
module SubmitRuns {
  import opened Options
  import opened Torrents
  import opened MutateSpec
  import opened MutateRuns
  import SyncSpec

  ghost predicate Leads(s: Sys, lim: Limits, steps: seq<Step>, t: Sys)
    decreases |steps|
  {
    if steps == [] then s == t
    else Enabled(s, steps[0]) && Leads(After(s, lim, steps[0]), lim, steps[1..], t)
  }

  lemma LeadsOn(s: Sys, lim: Limits, step: Step, rest: seq<Step>, t: Sys) returns (steps: seq<Step>)
    requires Enabled(s, step) && Leads(After(s, lim, step), lim, rest, t)
    ensures Leads(s, lim, steps, t)
  {
    steps := [step] + rest;
    assert steps[1..] == rest;
  }

  ghost predicate Extends(states: seq<Sys>, lim: Limits, steps: seq<Step>, s: Sys) {
    IsRun(states, lim, steps) && states[|steps|] == s
  }

  lemma Extended(states: seq<Sys>, lim: Limits, steps: seq<Step>, s: Sys, step: Step)
    returns (states': seq<Sys>, steps': seq<Step>)
    requires Extends(states, lim, steps, s) && Enabled(s, step)
    ensures Extends(states', lim, steps', After(s, lim, step)) && states <= states'
  {
    states', steps' := states + [After(s, lim, step)], steps + [step];
    forall i | 0 <= i < |steps'| ensures StepAt(states', lim, steps', i) {
      if i < |steps| {
        assert StepAt(states, lim, steps, i);
      }
    }
  }

  lemma {:induction false} Followed(states: seq<Sys>, lim: Limits, steps: seq<Step>, s: Sys, more: seq<Step>, t: Sys)
    returns (states': seq<Sys>, steps': seq<Step>)
    requires Extends(states, lim, steps, s) && Leads(s, lim, more, t)
    ensures Extends(states', lim, steps', t) && states <= states'
    decreases |more|
  {
    if more == [] {
      states', steps' := states, steps;
    } else {
      states', steps' := Extended(states, lim, steps, s, more[0]);
      states', steps' := Followed(states', lim, steps', After(s, lim, more[0]), more[1..], t);
    }
  }

  // ---- one Submit alone ----

  /** What such a Submit leaves alone. */
  ghost predicate Beside(s: Sys, t: Sys, id: TaskId) {
    && id in t.tasks && t.tasks == s.tasks[id := t.tasks[id]] && |t.regs| == t.table.nextMut
    && t.recon == s.recon && t.committed == s.committed && t.stamps == s.stamps
    && t.settled == s.settled && t.published == s.published
  }

  /** What it leaves in the histories, having called `called` or nobody. */
  ghost predicate Traces(s: Sys, t: Sys, reg: Registry, called: Option<BackendId>, failure: Option<Code>) {
    if called.None? then t.calls == s.calls && t.regs == s.regs
    else
      && t.calls == s.calls + [Call(s.table.nextMut + 1, called.value, failure, |s.hist|, true)]
      && t.regs == s.regs + [reg]
      && (failure.None? ==> t.hist == s.hist)
  }

  function NextReg(s: Sys, req: Request, basis: nat): Registry {
    Registry(req.ref, s.table.backend, s.table.epoch, |s.hist|, basis, req)
  }

  ghost predicate EndsAs(s: Sys, t: Sys, id: TaskId, reg: Registry, failure: Option<Code>, r: Submitted) {
    && t.table == r.table && Beside(s, t, id) && t.tasks[id] == Done(r.answer)
    && Traces(s, t, reg, r.called, failure)
  }

  /** The method Mutator.Submit and this machine agree: a Submit whose sections run without
      anything in between leaves the table and the answer that Submit is proved to give,
      and calls the same backend. */
  lemma UndisturbedSubmit(s: Sys, lim: Limits, id: TaskId, req: Request, deadline: int, failure: Option<Code>)
    returns (steps: seq<Step>, t: Sys)
    requires id !in s.tasks && s.committed != [] && s.table.nextMut == |s.regs|
    ensures Leads(s, lim, steps, t)
    ensures EndsAs(s, t, id, NextReg(s, Lowered(req), |s.committed| - 1), failure,
                   SubmitAlone(s.table, lim, Lowered(req), s.committed[|s.committed| - 1], deadline, failure))
  {
    var s1 := After(s, lim, Arrive(id, req));
    steps, t := FromArrived(s1, lim, id, deadline, failure);
    Sooner(s, s1, t, id, NextReg(s, Lowered(req), |s.committed| - 1), failure,
           SubmitAlone(s.table, lim, Lowered(req), s.committed[|s.committed| - 1], deadline, failure));
    steps := LeadsOn(s, lim, Arrive(id, req), steps, t);
  }

  /** Seen from before a step that changed only the Submit itself. */
  lemma Sooner(s: Sys, s': Sys, t: Sys, id: TaskId, reg: Registry, failure: Option<Code>, r: Submitted)
    requires id in s'.tasks && s' == s.(tasks := s.tasks[id := s'.tasks[id]]) && EndsAs(s', t, id, reg, failure, r)
    ensures EndsAs(s, t, id, reg, failure, r)
  {
  }

  lemma FromArrived(s: Sys, lim: Limits, id: TaskId, deadline: int, failure: Option<Code>) returns (steps: seq<Step>, t: Sys)
    requires id in s.tasks && s.tasks[id].Arrived? && s.committed != [] && s.table.nextMut == |s.regs|
    ensures Leads(s, lim, steps, t)
    ensures EndsAs(s, t, id, NextReg(s, s.tasks[id].req, |s.committed| - 1), failure,
                   SubmitAlone(s.table, lim, s.tasks[id].req, s.committed[|s.committed| - 1], deadline, failure))
  {
    var req, s1 := s.tasks[id].req, After(s, lim, EarlySection(id));
    if EarlyAnswer(s.table, lim, req).Some? {
      steps, t := [], s1;
    } else {
      steps, t := FromValidating(s1, lim, id, deadline, failure);
      Sooner(s, s1, t, id, NextReg(s, req, |s.committed| - 1), failure,
             SubmitAlone(s.table, lim, req, s.committed[|s.committed| - 1], deadline, failure));
    }
    steps := LeadsOn(s, lim, EarlySection(id), steps, t);
  }

  lemma FromValidating(s: Sys, lim: Limits, id: TaskId, deadline: int, failure: Option<Code>) returns (steps: seq<Step>, t: Sys)
    requires id in s.tasks && s.tasks[id].Validating? && s.committed != [] && s.table.nextMut == |s.regs|
    requires EarlyAnswer(s.table, lim, s.tasks[id].req).None?
    ensures Leads(s, lim, steps, t)
    ensures EndsAs(s, t, id, NextReg(s, s.tasks[id].req, |s.committed| - 1), failure,
                   SubmitAlone(s.table, lim, s.tasks[id].req, s.committed[|s.committed| - 1], deadline, failure))
  {
    var s1 := After(s, lim, ReadState(id));
    if Validate(s.tasks[id].req, s.committed[|s.committed| - 1]).Bad? {
      steps, t := FromRejecting(s, lim, id, deadline, failure);
    } else {
      steps, t := FromRegistering(s1, lim, id, deadline, failure);
      Sooner(s, s1, t, id, NextReg(s, s.tasks[id].req, |s.committed| - 1), failure,
             RegisterAlone(s.table, lim, s.tasks[id].req, s1.tasks[id].hash, deadline, failure));
    }
    steps := LeadsOn(s, lim, ReadState(id), steps, t);
  }

  lemma FromRejecting(s: Sys, lim: Limits, id: TaskId, deadline: int, failure: Option<Code>) returns (steps: seq<Step>, t: Sys)
    requires id in s.tasks && s.tasks[id].Validating? && s.committed != [] && s.table.nextMut == |s.regs|
    requires EarlyAnswer(s.table, lim, s.tasks[id].req).None?
    requires Validate(s.tasks[id].req, s.committed[|s.committed| - 1]).Bad?
    ensures Leads(After(s, lim, ReadState(id)), lim, steps, t)
    ensures EndsAs(s, t, id, NextReg(s, s.tasks[id].req, |s.committed| - 1), failure,
                   SubmitAlone(s.table, lim, s.tasks[id].req, s.committed[|s.committed| - 1], deadline, failure))
  {
    var s1 := After(s, lim, ReadState(id));
    t := After(s1, lim, RejectSection(id));
    steps := LeadsOn(s1, lim, RejectSection(id), [], t);
  }

  /** SubmitAlone from the registering section on. */
  function RegisterAlone(t: Table, lim: Limits, req: Request, hash: Hash, deadline: int, failure: Option<Code>): Submitted {
    var late, r := LateAnswer(t, lim, req), Registered(t, req, hash, deadline);
    if late.Some? then Submitted(t, late.value, None)
    else if failure.Some? then Submitted(FailedSubmit(r, lim, req, hash, failure.value), Refused(failure.value), Some(t.backend))
    else Submitted(r, Accepted(r.nextMut, req.action, hash), Some(t.backend))
  }

  lemma FromRegistering(s: Sys, lim: Limits, id: TaskId, deadline: int, failure: Option<Code>) returns (steps: seq<Step>, t: Sys)
    requires id in s.tasks && s.tasks[id].Registering? && s.table.nextMut == |s.regs|
    ensures Leads(s, lim, steps, t)
    ensures EndsAs(s, t, id, NextReg(s, s.tasks[id].req, s.tasks[id].basis), failure,
                   RegisterAlone(s.table, lim, s.tasks[id].req, s.tasks[id].hash, deadline, failure))
  {
    var s1 := After(s, lim, RegisterSection(id, deadline));
    if LateAnswer(s.table, lim, s.tasks[id].req).Some? {
      steps, t := [], s1;
    } else {
      steps, t := FromCalling(s, lim, id, deadline, failure);
    }
    steps := LeadsOn(s, lim, RegisterSection(id, deadline), steps, t);
  }

  lemma FromCalling(s: Sys, lim: Limits, id: TaskId, deadline: int, failure: Option<Code>) returns (steps: seq<Step>, t: Sys)
    requires id in s.tasks && s.tasks[id].Registering? && s.table.nextMut == |s.regs|
    requires LateAnswer(s.table, lim, s.tasks[id].req).None?
    ensures Leads(After(s, lim, RegisterSection(id, deadline)), lim, steps, t)
    ensures EndsAs(s, t, id, NextReg(s, s.tasks[id].req, s.tasks[id].basis), failure,
                   RegisterAlone(s.table, lim, s.tasks[id].req, s.tasks[id].hash, deadline, failure))
  {
    var s1 := After(s, lim, RegisterSection(id, deadline));
    var s2 := After(s1, lim, BackendCall(id, failure));
    steps, t := [], s2;
    if failure.Some? {
      t := After(s2, lim, FailureSection(id));
      steps := LeadsOn(s2, lim, FailureSection(id), [], t);
    }
    steps := LeadsOn(s1, lim, BackendCall(id, failure), steps, t);
  }

  // ---- the request and the state of the concrete runs ----

  const SHOWN := SyncSpec.START.(backendOK := true, torrents := map["h" := ZERO.(hash := "h", state := Paused)])

  function On(action: Action): Request {
    Request(action, "h", "", None, false, "r")
  }

  lemma OnIsLowered(action: Action)
    ensures Lowered(On(action)) == On(action)
  {
    assert Lowered(On(action)).hash == ['h'] == "h";
  }

  /** A Submit up to its registering section. */
  lemma Validated(s: Sys, lim: Limits, action: Action) returns (states: seq<Sys>, steps: seq<Step>, t: Sys)
    requires Init(s) && lim.maxInFlight > 0 && (action.Pause? || action.Resume? || action.Remove?)
    ensures Extends(states, lim, steps, t) && states[0] == s
    ensures t == s.(tasks := map[0 := Registering(On(action), "h", 1)], committed := s.committed + [SHOWN],
                    stamps := s.stamps + [Stamp(0, s.table.backend)])
  {
    OnIsLowered(action);
    states, steps := Extended([s], lim, [], s, StateMoves(SHOWN));
    var s1 := After(s, lim, StateMoves(SHOWN));
    states, steps := Extended(states, lim, steps, s1, Arrive(0, On(action)));
    var s2 := After(s1, lim, Arrive(0, On(action)));
    states, steps := Extended(states, lim, steps, s2, EarlySection(0));
    var s3 := After(s2, lim, EarlySection(0));
    states, steps := Extended(states, lim, steps, s3, ReadState(0));
    t := After(s3, lim, ReadState(0));
  }
}
