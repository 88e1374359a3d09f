/** Which backend epoch a mutation's validation and its settlement rest on, over every run of
    MutateRuns. Both read the committed state without the mutator's lock, so a switch of the
    syncer can fall between the read and the section that uses it. */
module MutationEpochs {
  import opened Options
  import opened MutateSpec
  import opened MutateRuns
  import opened SubmitRuns
  import SyncSpec

  // ---- epochs along a run ----

  ghost predicate Grew(s: Sys, t: Sys) {
    s.regs <= t.regs && s.committed <= t.committed && s.stamps <= t.stamps && s.settled <= t.settled
  }

  lemma {:induction false} GrewOver(states: seq<Sys>, lim: Limits, steps: seq<Step>, k: nat, i: nat)
    requires IsRun(states, lim, steps) && k <= i < |states|
    ensures Grew(states[k], states[i])
  {
    if k < i {
      GrewOver(states, lim, steps, k, i - 1);
      assert StepAt(states, lim, steps, i - 1);
      assert Grew(states[i - 1], states[i]);
    }
  }

  /** The syncer switched its backend in some step from k on, before r. */
  predicate SwitchBetween(steps: seq<Step>, k: nat, r: nat)
    requires k <= r <= |steps|
  {
    exists j :: k <= j < r && steps[j].SyncerSwitches?
  }

  lemma SwitchBetweenMore(steps: seq<Step>, k: nat, r: nat)
    requires k < r <= |steps|
    ensures SwitchBetween(steps, k, r) <==> SwitchBetween(steps, k, r - 1) || steps[r - 1].SyncerSwitches?
  {
    if SwitchBetween(steps, k, r - 1) {
      var j :| k <= j < r - 1 && steps[j].SyncerSwitches?;
      assert k <= j < r && steps[j].SyncerSwitches?;
    }
  }

  /** What the syncer shows stays of one epoch and backend until it switches, and is of a
      later epoch from then on. */
  lemma {:induction false} ShownOver(states: seq<Sys>, lim: Limits, steps: seq<Step>, k: nat, r: nat)
    requires IsRun(states, lim, steps) && k <= r < |states|
    ensures states[k].stamps != [] && states[r].stamps != []
    ensures if SwitchBetween(steps, k, r) then Shown(states[k]).epoch < Shown(states[r]).epoch
            else Shown(states[k]) == Shown(states[r])
  {
    assert StampsOk(states[k]) by { Reachable(states, lim, steps, k); }
    if k < r {
      ShownOver(states, lim, steps, k, r - 1);
      assert StepAt(states, lim, steps, r - 1);
      SwitchBetweenMore(steps, k, r);
    }
  }

  // ---- validation ----

  /** The Submit now registering read its state at step k, and that state validates it. */
  ghost predicate ReadAt(states: seq<Sys>, steps: seq<Step>, r: nat, id: TaskId, k: nat)
    requires r < |states| == |steps| + 1
  {
    && k < r && steps[k] == ReadState(id)
    && id in states[r].tasks && states[r].tasks[id].Registering?
    && var task := states[r].tasks[id];
    && |states[k].committed| == task.basis + 1
    && Validate(task.req, states[k].committed[task.basis]) == Good(task.hash)
  }

  lemma {:induction false} ItsRead(states: seq<Sys>, lim: Limits, steps: seq<Step>, r: nat, id: TaskId) returns (k: nat)
    requires IsRun(states, lim, steps) && r < |states| && id in states[r].tasks && states[r].tasks[id].Registering?
    ensures ReadAt(states, steps, r, id, k)
  {
    assert r > 0 && StepAt(states, lim, steps, r - 1);
    if id in states[r - 1].tasks && states[r - 1].tasks[id] == states[r].tasks[id] {
      k := ItsRead(states, lim, steps, r - 1, id);
    } else {
      k := r - 1;
    }
  }

  /** Mutation m registered in step r. */
  ghost predicate RegisteredAt(states: seq<Sys>, steps: seq<Step>, r: nat, m: nat)
    requires r < |steps| < |states|
  {
    steps[r].RegisterSection? && |states[r].regs| == m - 1 && |states[r + 1].regs| == m
  }

  lemma {:induction false} ItsRegistration(states: seq<Sys>, lim: Limits, steps: seq<Step>, i: nat, m: nat) returns (r: nat)
    requires IsRun(states, lim, steps) && i < |states| && 0 < m <= |states[i].regs|
    ensures r < i && RegisteredAt(states, steps, r, m)
  {
    assert i > 0 && StepAt(states, lim, steps, i - 1);
    if m <= |states[i - 1].regs| {
      r := ItsRegistration(states, lim, steps, i - 1, m);
    } else {
      r := i - 1;
    }
  }

  /** The registration takes over what the Submit read, in the epoch shown at that moment. */
  lemma RegistersInShown(s: Sys, lim: Limits, step: Step)
    requires StampsOk(s) && Enabled(s, step) && |After(s, lim, step).regs| > |s.regs|
    ensures var reg := After(s, lim, step).regs[|s.regs|];
            && step.RegisterSection? && Shown(s) == Stamp(reg.epoch, reg.backend)
            && reg.ref == s.tasks[step.id].req.ref && reg.basis == s.tasks[step.id].basis
  {
    RegistersUnknown(s, lim, step);
  }

  /** A state read in step k, against the epoch of step r's section. */
  lemma ReadThenUsed(states: seq<Sys>, lim: Limits, steps: seq<Step>, k: nat, r: nat, i: nat, basis: nat)
    requires IsRun(states, lim, steps) && k <= r <= i < |states| && |states[k].committed| == basis + 1
    ensures basis < |states[i].stamps| == |states[i].committed| && states[r].stamps != []
    ensures states[i].committed[basis] == states[k].committed[basis]
    ensures states[i].stamps[basis].epoch == Shown(states[r]).epoch <==> !SwitchBetween(steps, k, r)
    ensures states[i].stamps[basis].epoch == Shown(states[r]).epoch ==> states[i].stamps[basis] == Shown(states[r])
  {
    assert StampsOk(states[k]) by { Reachable(states, lim, steps, k); }
    assert StampsOk(states[i]) by { Reachable(states, lim, steps, i); }
    GrewOver(states, lim, steps, k, i);
    ShownOver(states, lim, steps, k, r);
    assert states[i].stamps[basis] == Shown(states[k]);
  }

  /** Every registered mutation was validated, by its own read in step k, against a committed
      state which it registered on in step r. That state is of the epoch and the backend the
      mutation runs on if and only if the syncer did not switch between k and r. */
  lemma ValidatedOnItsOwn(states: seq<Sys>, lim: Limits, steps: seq<Step>, i: nat, m: nat) returns (k: nat, r: nat)
    requires IsRun(states, lim, steps) && i < |states| && 0 < m <= |states[i].regs|
    ensures k < r < i && RegisteredAt(states, steps, r, m) && ReadAt(states, steps, r, steps[r].id, k)
    ensures var reg := states[i].regs[m - 1];
            && reg.ref == states[r].tasks[steps[r].id].req.ref && reg.basis == states[r].tasks[steps[r].id].basis
            && reg.basis < |states[i].stamps| == |states[i].committed|
            && Validate(states[r].tasks[steps[r].id].req, states[i].committed[reg.basis]).Good?
            && (states[i].stamps[reg.basis].epoch == reg.epoch <==> !SwitchBetween(steps, k, r))
            && (states[i].stamps[reg.basis].epoch == reg.epoch ==> states[i].stamps[reg.basis].mirror == reg.backend)
  {
    r := ItsRegistration(states, lim, steps, i, m);
    assert StepAt(states, lim, steps, r);
    assert StampsOk(states[r]) by { Reachable(states, lim, steps, r); }
    RegistersInShown(states[r], lim, steps[r]);
    k := ItsRead(states, lim, steps, r, steps[r].id);
    GrewOver(states, lim, steps, r + 1, i);
    ReadThenUsed(states, lim, steps, k, r, i, states[r].tasks[steps[r].id].basis);
  }

  // ---- settlement ----

  /** The reconciler holding state `at` read it in step k. */
  lemma {:induction false} HeldSince(states: seq<Sys>, lim: Limits, steps: seq<Step>, r: nat) returns (k: nat)
    requires IsRun(states, lim, steps) && r < |states| && states[r].recon.Holding?
    ensures k < r && steps[k] == ReadForReconcile(states[r].recon.now) && |states[k].committed| == states[r].recon.at + 1
  {
    assert r > 0 && StepAt(states, lim, steps, r - 1);
    if states[r - 1].recon == states[r].recon {
      k := HeldSince(states, lim, steps, r - 1);
    } else {
      k := r - 1;
    }
  }

  ghost predicate SettledAt(states: seq<Sys>, steps: seq<Step>, r: nat, a: nat)
    requires r < |steps| < |states|
  {
    steps[r].ReconcileSection? && |states[r].settled| <= a < |states[r + 1].settled|
  }

  lemma {:induction false} ItsSettlement(states: seq<Sys>, lim: Limits, steps: seq<Step>, i: nat, a: nat) returns (r: nat)
    requires IsRun(states, lim, steps) && i < |states| && a < |states[i].settled|
    ensures r < i && SettledAt(states, steps, r, a)
  {
    assert i > 0 && StepAt(states, lim, steps, i - 1);
    if a < |states[i - 1].settled| {
      r := ItsSettlement(states, lim, steps, i - 1, a);
    } else {
      r := i - 1;
    }
  }

  /** What is settled runs in the epoch shown at that moment. */
  lemma SettlesInShown(s: Sys, lim: Limits, order: seq<Ref>, a: nat)
    requires TableOk(s, lim) && StampsOk(s) && Enabled(s, ReconcileSection(order))
    requires |s.settled| <= a < |After(s, lim, ReconcileSection(order)).settled|
    ensures var v := After(s, lim, ReconcileSection(order)).settled[a];
            && v.at == s.recon.at && 0 < v.result.mutation <= |s.regs|
            && var reg := s.regs[v.result.mutation - 1];
            Shown(s) == Stamp(reg.epoch, reg.backend)
  {
    var ref := order[a - |s.settled|];
    assert ref in order && ref in s.table.inflight;
    assert EntryOk(s, ref);
  }

  /** Every settlement rests on a committed state read in step k and used in step r. That
      state is of the epoch and the backend its mutation ran on if and only if the syncer
      did not switch between k and r. */
  lemma SettledOnItsOwn(states: seq<Sys>, lim: Limits, steps: seq<Step>, i: nat, a: nat) returns (k: nat, r: nat)
    requires IsRun(states, lim, steps) && i < |states| && a < |states[i].settled|
    ensures k < r < i && steps[k].ReadForReconcile? && SettledAt(states, steps, r, a)
    ensures var v := states[i].settled[a];
            && |states[k].committed| == v.at + 1 && v.at < |states[i].stamps| && 0 < v.result.mutation <= |states[i].regs|
            && var reg := states[i].regs[v.result.mutation - 1];
            && (states[i].stamps[v.at].epoch == reg.epoch <==> !SwitchBetween(steps, k, r))
            && (states[i].stamps[v.at].epoch == reg.epoch ==> states[i].stamps[v.at].mirror == reg.backend)
  {
    r := ItsSettlement(states, lim, steps, i, a);
    assert StepAt(states, lim, steps, r);
    assert TableOk(states[r], lim) && StampsOk(states[r]) by { Reachable(states, lim, steps, r); }
    SettlesInShown(states[r], lim, steps[r].order, a);
    k := HeldSince(states, lim, steps, r);
    GrewOver(states, lim, steps, r, i);
    GrewOver(states, lim, steps, r + 1, i);
    ReadThenUsed(states, lim, steps, k, r, i, states[r].recon.at);
  }

  // ---- both can rest on the other backend ----

  const BARE := SyncSpec.START.(backendOK := true)

  /** The three steps of a switch, whoever is waiting beside it. */
  lemma WholeSwitch(states: seq<Sys>, lim: Limits, steps: seq<Step>, s: Sys, b: BackendId)
    returns (states': seq<Sys>, steps': seq<Step>, t: Sys)
    requires Extends(states, lim, steps, s) && StampsOk(s) && !s.table.draining && s.table.inflight == map[]
    ensures Extends(states', lim, steps', t) && states <= states'
    ensures t == s.(table := s.table.(backend := b, epoch := s.table.epoch + 1),
                    committed := s.committed + [SyncSpec.Emptied(s.committed[|s.committed| - 1])],
                    stamps := s.stamps + [Stamp(s.table.epoch + 1, b)])
  {
    var s1 := After(s, lim, DrainBegins);
    states', steps' := Extended(states, lim, steps, s, DrainBegins);
    var s2 := After(s1, lim, SyncerSwitches(b));
    states', steps' := Extended(states', lim, steps', s1, SyncerSwitches(b));
    t := After(s2, lim, DrainCommits(b));
    states', steps' := Extended(states', lim, steps', s2, DrainCommits(b));
  }

  /** Whatever the limits and the new backend, a run exists in which a mutation validated
      against the old backend's state is sent to the new one, whose state never showed the
      torrent, and is answered as accepted. */
  lemma SentToTheOther(s: Sys, lim: Limits, b: BackendId) returns (states: seq<Sys>, steps: seq<Step>)
    requires Init(s) && lim.maxInFlight > 0
    ensures IsRun(states, lim, steps) && states[0] == s
    ensures var t := states[|steps|];
            && t.calls == [Call(1, b, None, 0, true)] && t.tasks == map[0 := Done(Accepted(1, Remove, "h"))]
            && |t.regs| == 1 && t.regs[0].epoch == 1 && t.regs[0].backend == b
            && t.regs[0].basis == 1 && |t.stamps| == |t.committed| == 3
            && t.stamps[1] == Stamp(0, s.table.backend) && t.committed[1] == SHOWN
            && t.stamps[2] == Stamp(1, b) && t.committed[2].torrents == map[]
  {
    var u, v;
    states, steps, u := Validated(s, lim, Remove);
    states, steps, v := WholeSwitch(states, lim, steps, u, b);
    var w := After(v, lim, RegisterSection(0, 0));
    states, steps := Extended(states, lim, steps, v, RegisterSection(0, 0));
    states, steps := Extended(states, lim, steps, w, BackendCall(0, None));
  }

  /** A reconciler that read its state before the switch and uses it after; the new backend
      has the torrent. */
  lemma ReadyToReconcile(s: Sys, lim: Limits, b: BackendId) returns (states: seq<Sys>, steps: seq<Step>, t: Sys)
    requires Init(s)
    ensures Extends(states, lim, steps, t) && states[0] == s
    ensures t == s.(table := s.table.(backend := b, epoch := 1), recon := Holding(1, 0),
                    committed := s.committed + [BARE, SyncSpec.Emptied(BARE), SHOWN],
                    stamps := s.stamps + [Stamp(0, s.table.backend), Stamp(1, b), Stamp(1, b)])
  {
    states, steps := Extended([s], lim, [], s, StateMoves(BARE));
    var s1 := After(s, lim, StateMoves(BARE));
    states, steps := Extended(states, lim, steps, s1, ReadForReconcile(0));
    var s2 := After(s1, lim, ReadForReconcile(0));
    var s3;
    states, steps, s3 := WholeSwitch(states, lim, steps, s2, b);
    states, steps := Extended(states, lim, steps, s3, StateMoves(SHOWN));
    t := After(s3, lim, StateMoves(SHOWN));
  }

  /** Whatever the limits and the new backend, a run exists in which the new backend's
      removal is confirmed because the old backend's state lacks the torrent, while the
      state shown by the new one still has it. */
  lemma ConfirmedByTheOther(s: Sys, lim: Limits, b: BackendId) returns (states: seq<Sys>, steps: seq<Step>)
    requires Init(s) && lim.maxInFlight > 0
    ensures IsRun(states, lim, steps) && states[0] == s
    ensures var t := states[|steps|];
            && t.settled == [Settling(Result(1, Remove, "h", Confirmed), 1)]
            && t.published == [Result(1, Remove, "h", Confirmed)]
            && |t.regs| == 1 && t.regs[0].epoch == 1 && t.regs[0].backend == b && |t.stamps| == |t.committed| == 4
            && t.stamps[1] == Stamp(0, s.table.backend) && t.committed[1] == BARE
            && t.stamps[3] == Stamp(1, b) && t.committed[3] == SHOWN
  {
    var u;
    states, steps, u := ReadyToReconcile(s, lim, b);
    OnIsLowered(Remove);
    var more, v := UndisturbedSubmit(u, lim, 0, On(Remove), 0, None);
    states, steps := Followed(states, lim, steps, u, more, v);
    var order := ["r"];
    assert v.table.inflight == map["r" := Pending(1, Remove, "h", "", false, 0, 1)];
    assert Settlement(v.table.inflight["r"], BARE, 1, 0) == Some(Confirmed);
    assert SettlesInOrder(v.table, v.committed[v.recon.at], v.recon.now, order);
    states, steps := Extended(states, lim, steps, v, ReconcileSection(order));
    var w := After(v, lim, ReconcileSection(order));
    states, steps := Extended(states, lim, steps, w, PublishOne);
  }
}
