/** Every run of the mutator: any number of Submit calls whose sections interleave with each
    other, with the reconciler, with backend switches in the order Configure makes them, and
    with a syncer that commits new states at any time. */
module MutateRuns {
  import opened Options
  import opened Torrents
  import opened MutateSpec
  import SyncSpec

  type TaskId = nat

  /** A Submit between two of its sections; once validated it remembers (as history) the index
      of the committed state it read. */
  datatype Task =
    | Arrived(req: Request)
    | Validating(req: Request)
    | Rejecting(req: Request, code: Code)
    | Registering(req: Request, hash: Hash, basis: nat)
    | Calling(req: Request, hash: Hash, mutation: nat)
    | CallFailed(req: Request, hash: Hash, mutation: nat, code: Code)
    | Done(answer: Stage1)

  /** The reconciler: asleep, holding a state it read (by its index among the committed
      states) before taking the lock, or publishing what it settled. */
  datatype Recon = Asleep | Holding(at: nat, now: int) | Publishing(rest: seq<Result>)

  datatype Registry = Registry(ref: Ref, backend: BackendId, epoch: nat, appends: nat, basis: nat, req: Request)

  /** A backend call, with the number of appends before it and whether its own entry was
      still in flight. */
  datatype Call = Call(mutation: nat, backend: BackendId, failure: Option<Code>, appends: nat, held: bool)

  /** A request refused for good, and the code it was answered with. */
  datatype Refusal = Refusal(req: Request, code: Code)

  /** The epoch of the syncer and the backend it mirrored when it committed a state. */
  datatype Stamp = Stamp(epoch: nat, mirror: BackendId)

  datatype Verdict = Settling(result: Result, at: nat)

  /** Table, Submits, reconciler, committed states and their stamps; then history: all ring
      appends, the registrations (mutation n is entry n-1, with the number of appends before
      it, the state it was validated against and its request), the refusals by their place
      among the appends, the backend calls, the settlements and the published results. */
  datatype Sys = Sys(
    table: Table, tasks: map<TaskId, Task>, recon: Recon, committed: seq<Committed>, stamps: seq<Stamp>,
    hist: seq<RefRecord>, regs: seq<Registry>, refused: map<nat, Refusal>, calls: seq<Call>, settled: seq<Verdict>, published: seq<Result>)

  datatype Step =
    | Arrive(id: TaskId, req: Request)
    | EarlySection(id: TaskId)
    | ReadState(id: TaskId)
    | RejectSection(id: TaskId)
    | RegisterSection(id: TaskId, deadline: int)
    | BackendCall(id: TaskId, failure: Option<Code>)
    | FailureSection(id: TaskId)
    | ReadForReconcile(now: int)
    | ReconcileSection(order: seq<Ref>)
    | PublishOne
    | DrainBegins
    | SyncerSwitches(b: BackendId)
    | DrainCommits(b: BackendId)
    | DrainAborts
    | StateMoves(st: Committed)

  ghost predicate Init(s: Sys) {
    && s.table.inflight == map[] && s.table.ring == [] && s.table.nextMut == 0 && s.table.epoch == 0 && !s.table.draining
    && s.tasks == map[] && s.recon == Asleep && |s.committed| == 1 && s.stamps == [Stamp(0, s.table.backend)]
    && s.hist == [] && s.regs == [] && s.refused == map[] && s.calls == [] && s.settled == [] && s.published == []
  }

  /** The stamp of the state the syncer shows now. */
  function Shown(s: Sys): Stamp
    requires s.stamps != []
  {
    s.stamps[|s.stamps| - 1]
  }

  /** Between the syncer's switch and the mutator's the syncer is one epoch ahead. */
  predicate Ahead(s: Sys) {
    s.stamps != [] && Shown(s).epoch == s.table.epoch + 1
  }

  ghost predicate Enabled(s: Sys, step: Step) {
    match step
    case Arrive(id, _) => id !in s.tasks
    case EarlySection(id) => id in s.tasks && s.tasks[id].Arrived?
    case ReadState(id) => id in s.tasks && s.tasks[id].Validating? && s.committed != []
    case RejectSection(id) => id in s.tasks && s.tasks[id].Rejecting?
    case RegisterSection(id, _) => id in s.tasks && s.tasks[id].Registering?
    case BackendCall(id, _) => id in s.tasks && s.tasks[id].Calling? && 0 < s.tasks[id].mutation <= |s.regs|
    case FailureSection(id) => id in s.tasks && s.tasks[id].CallFailed?
    case ReadForReconcile(_) => s.recon.Asleep? && s.committed != []
    case ReconcileSection(order) =>
      s.recon.Holding? && s.recon.at < |s.committed|
      && SettlesInOrder(s.table, s.committed[s.recon.at], s.recon.now, order)
    case PublishOne => s.recon.Publishing?
    case DrainBegins => !s.table.draining && s.table.inflight == map[]
    case SyncerSwitches(_) => s.table.draining && s.stamps != [] && !Ahead(s) && s.committed != []
    case DrainCommits(b) => s.table.draining && Ahead(s) && Shown(s).mirror == b
    case DrainAborts => s.table.draining && !Ahead(s)
    case StateMoves(_) => s.stamps != []
  }

  function Finish(s: Sys, id: TaskId, task: Task): Sys {
    s.(tasks := s.tasks[id := task])
  }

  function AppendOne(s: Sys, lim: Limits, rec: RefRecord): Sys {
    s.(table := s.table.(ring := Appended(s.table.ring, lim.ringSize, rec)), hist := s.hist + [rec])
  }

  function NoteRefusal(s: Sys, req: Request, code: Code): map<nat, Refusal> {
    s.refused[|s.hist| := Refusal(req, code)]
  }

  predicate Holds(t: Table, ref: Ref, mutation: nat) {
    ref in t.inflight && t.inflight[ref].mutation == mutation
  }

  ghost function After(s: Sys, lim: Limits, step: Step): Sys
    requires Enabled(s, step)
  {
    match step
    case Arrive(id, req) => Finish(s, id, Arrived(Lowered(req)))
    case EarlySection(id) =>
      var req := s.tasks[id].req;
      var early := EarlyAnswer(s.table, lim, req);
      Finish(s, id, if early.Some? then Done(early.value) else Validating(req))
    case ReadState(id) =>
      var req := s.tasks[id].req;
      var verdict := Validate(req, s.committed[|s.committed| - 1]);
      Finish(s, id, if verdict.Bad? then Rejecting(req, verdict.code) else Registering(req, verdict.hash, |s.committed| - 1))
    case RejectSection(id) =>
      var t := s.tasks[id];
      Finish(AppendOne(s, lim, RejectRecord(t.req, t.req.hash, t.code)).(refused := NoteRefusal(s, t.req, t.code)), id, Done(Refused(t.code)))
    case RegisterSection(id, deadline) =>
      var t := s.tasks[id];
      var late := LateAnswer(s.table, lim, t.req);
      if late.Some? then Finish(s, id, Done(late.value))
      else Finish(s.(table := Registered(s.table, t.req, t.hash, deadline),
                     regs := s.regs + [Registry(t.req.ref, s.table.backend, s.table.epoch, |s.hist|, t.basis, t.req)]),
                  id, Calling(t.req, t.hash, s.table.nextMut + 1))
    case BackendCall(id, failure) =>
      var t := s.tasks[id];
      Finish(s.(calls := s.calls + [Call(t.mutation, s.regs[t.mutation - 1].backend, failure, |s.hist|, Holds(s.table, t.req.ref, t.mutation))]), id,
             if failure.Some? then CallFailed(t.req, t.hash, t.mutation, failure.value)
             else Done(Accepted(t.mutation, t.req.action, t.hash)))
    case FailureSection(id) =>
      var t := s.tasks[id];
      var rec := RejectRecord(t.req, t.hash, t.code);
      Finish(s.(table := FailedSubmit(s.table, lim, t.req, t.hash, t.code), hist := s.hist + [rec], refused := NoteRefusal(s, t.req, t.code)),
             id, Done(Refused(t.code)))
    case ReadForReconcile(now) => s.(recon := Holding(|s.committed| - 1, now))
    case ReconcileSection(order) =>
      var st, now := s.committed[s.recon.at], s.recon.now;
      var results := ResultsFor(s.table, st, now, order);
      s.(table := Reconciled(s.table, lim, st, now, order),
         hist := s.hist + RecordsFor(s.table, st, now, order),
         settled := s.settled + seq(|results|, i requires 0 <= i < |results| => Settling(results[i], s.recon.at)),
         recon := Publishing(results))
    case PublishOne =>
      if s.recon.rest == [] then s.(recon := Asleep)
      else s.(published := s.published + [s.recon.rest[0]], recon := Publishing(s.recon.rest[1..]))
    case DrainBegins => s.(table := s.table.(draining := true))
    case DrainCommits(b) => s.(table := s.table.(draining := false, backend := b, epoch := s.table.epoch + 1))
    case DrainAborts => s.(table := s.table.(draining := false))
    case SyncerSwitches(b) =>
      s.(committed := s.committed + [SyncSpec.Emptied(s.committed[|s.committed| - 1])],
         stamps := s.stamps + [Stamp(Shown(s).epoch + 1, b)])
    case StateMoves(st) => s.(committed := s.committed + [st], stamps := s.stamps + [Shown(s)])
  }

  ghost predicate StepAt(states: seq<Sys>, lim: Limits, steps: seq<Step>, i: nat)
    requires i < |steps| < |states|
  {
    Enabled(states[i], steps[i]) && states[i + 1] == After(states[i], lim, steps[i])
  }

  ghost predicate IsRun(states: seq<Sys>, lim: Limits, steps: seq<Step>) {
    && |states| == |steps| + 1
    && Init(states[0])
    && forall i :: 0 <= i < |steps| ==> StepAt(states, lim, steps, i)
  }

  // ---- invariants ----

  ghost predicate TableOk(s: Sys, lim: Limits) {
    && s.table.ring == Tail(s.hist, lim.ringSize)
    && s.table.nextMut == |s.regs|
    && |s.table.inflight| <= lim.maxInFlight
    && (s.table.draining ==> s.table.inflight == map[])
    && forall ref :: ref in s.table.inflight ==> EntryOk(s, ref)
  }

  /** An in-flight entry belongs to the registration with its number, in the current epoch. */
  ghost predicate EntryOk(s: Sys, ref: Ref)
    requires ref in s.table.inflight
  {
    var p := s.table.inflight[ref];
    && p.epoch == s.table.epoch
    && 0 < p.mutation <= |s.regs|
    && s.regs[p.mutation - 1].ref == ref
    && s.regs[p.mutation - 1].epoch == p.epoch
    && s.regs[p.mutation - 1].backend == s.table.backend
    && forall k :: 0 <= k < |s.settled| ==> s.settled[k].result.mutation != p.mutation
  }

  /** The ref is in flight or was recorded since. */
  ghost predicate Covered(s: Sys, ref: Ref, from: nat) {
    ref in s.table.inflight || RecordedSince(s.hist, ref, from)
  }

  ghost predicate RecordedSince(hist: seq<RefRecord>, ref: Ref, from: nat) {
    exists k :: from <= k < |hist| && hist[k].ref == ref
  }

  ghost predicate RegsOk(s: Sys, lim: Limits) {
    && (forall i :: 0 <= i < |s.regs| ==> s.regs[i].appends <= |s.hist| && Covered(s, s.regs[i].ref, s.regs[i].appends))
    && (forall i, j :: 0 <= i < j < |s.regs| && s.regs[i].ref == s.regs[j].ref ==>
          s.regs[j].appends >= s.regs[i].appends + lim.ringSize + 1)
  }

  ghost predicate CallsOk(s: Sys) {
    CallsFine(s.calls, s.regs, s.tasks)
  }

  /** Each call belongs to its own registration; a Submit about to call has not called. */
  ghost predicate CallsFine(calls: seq<Call>, regs: seq<Registry>, tasks: map<TaskId, Task>) {
    && (forall i :: 0 <= i < |calls| ==>
          0 < calls[i].mutation <= |regs| && calls[i].backend == regs[calls[i].mutation - 1].backend)
    && (forall i, j :: 0 <= i < j < |calls| ==> calls[i].mutation != calls[j].mutation)
    && (forall id :: id in tasks && tasks[id].Calling? ==> 0 < tasks[id].mutation <= |regs|)
    && (forall id, i :: id in tasks && tasks[id].Calling? && 0 <= i < |calls| ==> calls[i].mutation != tasks[id].mutation)
    && (forall a, b :: a in tasks && b in tasks && a != b && tasks[a].Calling? && tasks[b].Calling? ==>
          tasks[a].mutation != tasks[b].mutation)
  }

  ghost predicate SettledOk(s: Sys) {
    && (forall k :: 0 <= k < |s.settled| ==>
          && 0 < s.settled[k].result.mutation <= |s.regs|
          && s.settled[k].at < |s.committed|
          && (s.settled[k].result.status.Confirmed? ==>
                && s.committed[s.settled[k].at].backendOK
                && IntentMet(s.settled[k].result.action, s.settled[k].result.hash, s.committed[s.settled[k].at])))
    && (forall j, k :: 0 <= j < k < |s.settled| ==> s.settled[j].result.mutation != s.settled[k].result.mutation)
    && s.committed != []
    && (s.recon.Holding? ==> s.recon.at < |s.committed|)
  }

  ghost function ResultsOf(settled: seq<Verdict>): seq<Result> {
    seq(|settled|, i requires 0 <= i < |settled| => settled[i].result)
  }

  /** What was published, followed by what is about to be, is what was settled, in order. */
  ghost predicate PublishedOk(s: Sys) {
    var todo := if s.recon.Publishing? then s.recon.rest else [];
    s.published + todo == ResultsOf(s.settled)
  }

  /** With the drain free the syncer and the mutator are in one epoch on one backend. */
  ghost predicate StampsOk(s: Sys) {
    && |s.stamps| == |s.committed| > 0
    && (Ahead(s) ==> s.table.draining)
    && (!Ahead(s) ==> Shown(s) == Stamp(s.table.epoch, s.table.backend))
  }

  ghost predicate Inv(s: Sys, lim: Limits) {
    TableOk(s, lim) && RegsOk(s, lim) && CallsOk(s) && SettledOk(s) && PublishedOk(s) && StampsOk(s)
  }

  lemma InitInv(s: Sys, lim: Limits)
    requires Init(s)
    ensures Inv(s, lim)
  {
    InitTable(s, lim);
    InitHistory(s, lim);
  }

  lemma InitTable(s: Sys, lim: Limits)
    requires Init(s)
    ensures TableOk(s, lim) && StampsOk(s)
  {
  }

  lemma InitHistory(s: Sys, lim: Limits)
    requires Init(s)
    ensures RegsOk(s, lim) && CallsOk(s) && SettledOk(s) && PublishedOk(s)
  {
  }

  lemma RingStep(s: Sys, lim: Limits, step: Step)
    requires TableOk(s, lim) && Enabled(s, step)
    ensures After(s, lim, step).table.ring == Tail(After(s, lim, step).hist, lim.ringSize)
  {
    match step
    case RejectSection(id) =>
      AppendKeepsTail(s.hist, lim.ringSize, RejectRecord(s.tasks[id].req, s.tasks[id].req.hash, s.tasks[id].code));
    case FailureSection(id) =>
      AppendKeepsTail(s.hist, lim.ringSize, RejectRecord(s.tasks[id].req, s.tasks[id].hash, s.tasks[id].code));
    case ReconcileSection(order) =>
      RingIsTail(s.hist, lim.ringSize, RecordsFor(s.table, s.committed[s.recon.at], s.recon.now, order));
    case _ =>
  }

  lemma SubsetCount<T>(a: map<Ref, T>, b: map<Ref, T>)
    requires a.Keys <= b.Keys
    ensures |a| <= |b|
  {
    if exists k :: k in b && k !in a {
      var k :| k in b && k !in a;
      SubsetCount(a, b - {k});
    } else {
      assert a.Keys == b.Keys;
      assert |a| == |a.Keys| && |b| == |b.Keys|;
    }
  }

  /** Entries that stay, in an unchanged epoch, with nothing newly settled. */
  lemma EntriesStay(s: Sys, t: Sys, lim: Limits)
    requires TableOk(s, lim) && t.settled == s.settled
    requires |s.regs| <= |t.regs| && t.regs[..|s.regs|] == s.regs
    requires t.table.epoch == s.table.epoch && t.table.backend == s.table.backend
    requires t.table.inflight.Keys <= s.table.inflight.Keys
    requires forall ref :: ref in t.table.inflight ==> t.table.inflight[ref] == s.table.inflight[ref]
    ensures forall ref :: ref in t.table.inflight ==> EntryOk(t, ref)
    ensures |t.table.inflight| <= lim.maxInFlight
  {
    SubsetCount(t.table.inflight, s.table.inflight);
    forall ref | ref in t.table.inflight ensures EntryOk(t, ref) {
      assert EntryOk(s, ref);
      var m := s.table.inflight[ref].mutation - 1;
      assert t.regs[..|s.regs|][m] == t.regs[m];
    }
  }

  lemma TableRegistered(s: Sys, lim: Limits, step: Step)
    requires TableOk(s, lim) && SettledOk(s) && Enabled(s, step) && step.RegisterSection?
    requires LateAnswer(s.table, lim, s.tasks[step.id].req).None?
    ensures TableOk(After(s, lim, step), lim)
  {
    var t := After(s, lim, step);
    var ref := s.tasks[step.id].req.ref;
    RingStep(s, lim, step);
    assert ref !in s.table.inflight;
    forall r | r in t.table.inflight ensures EntryOk(t, r) {
      if r != ref {
        assert EntryOk(s, r);
      }
    }
  }

  lemma TableStepRegister(s: Sys, lim: Limits, step: Step)
    requires TableOk(s, lim) && SettledOk(s) && Enabled(s, step) && step.RegisterSection?
    ensures TableOk(After(s, lim, step), lim)
  {
    if LateAnswer(s.table, lim, s.tasks[step.id].req).None? {
      TableRegistered(s, lim, step);
    } else {
      RingStep(s, lim, step);
      EntriesStay(s, After(s, lim, step), lim);
    }
  }

  lemma TableStepReconcile(s: Sys, lim: Limits, order: seq<Ref>)
    requires TableOk(s, lim) && Enabled(s, ReconcileSection(order))
    ensures TableOk(After(s, lim, ReconcileSection(order)), lim)
  {
    var t := After(s, lim, ReconcileSection(order));
    RingStep(s, lim, ReconcileSection(order));
    SubsetCount(t.table.inflight, s.table.inflight);
    forall ref | ref in t.table.inflight ensures EntryOk(t, ref) {
      SurvivorOk(s, lim, order, ref);
    }
  }

  lemma TableStep(s: Sys, lim: Limits, step: Step)
    requires TableOk(s, lim) && SettledOk(s) && Enabled(s, step)
    ensures TableOk(After(s, lim, step), lim)
  {
    if step.RegisterSection? {
      TableStepRegister(s, lim, step);
    } else if step.ReconcileSection? {
      TableStepReconcile(s, lim, step.order);
    } else {
      var t := After(s, lim, step);
      RingStep(s, lim, step);
      assert t.regs == s.regs;
      if step.DrainCommits? {
        assert t.table.inflight == map[];
      } else {
        EntriesStay(s, t, lim);
      }
    }
  }

  /** A survivor's number differs from those just settled: the refs differ. */
  lemma SurvivorOk(s: Sys, lim: Limits, order: seq<Ref>, ref: Ref)
    requires TableOk(s, lim) && Enabled(s, ReconcileSection(order))
    requires ref in After(s, lim, ReconcileSection(order)).table.inflight
    ensures EntryOk(After(s, lim, ReconcileSection(order)), ref)
  {
    var t := After(s, lim, ReconcileSection(order));
    var p := s.table.inflight[ref];
    assert EntryOk(s, ref);
    assert ref !in order;
    forall k | 0 <= k < |t.settled| ensures t.settled[k].result.mutation != p.mutation {
      if k >= |s.settled| {
        assert order[k - |s.settled|] in order;
        assert EntryOk(s, order[k - |s.settled|]);
      }
    }
  }

  lemma RecordedLonger(hist: seq<RefRecord>, more: seq<RefRecord>, ref: Ref, from: nat)
    requires RecordedSince(hist, ref, from)
    ensures RecordedSince(hist + more, ref, from)
  {
    var k :| from <= k < |hist| && hist[k].ref == ref;
    assert (hist + more)[k].ref == ref;
  }

  lemma RecordedNow(hist: seq<RefRecord>, more: seq<RefRecord>, ref: Ref, from: nat, m: nat)
    requires from <= |hist| && m < |more| && more[m].ref == ref
    ensures RecordedSince(hist + more, ref, from)
  {
    assert (hist + more)[|hist| + m].ref == ref;
  }

  /** Whatever leaves the in-flight table is recorded. */
  lemma StaysCovered(s: Sys, lim: Limits, step: Step, ref: Ref, from: nat)
    requires Enabled(s, step) && from <= |s.hist| && Covered(s, ref, from)
    ensures from <= |After(s, lim, step).hist| && Covered(After(s, lim, step), ref, from)
  {
    match step
    case RejectSection(id) =>
      if ref !in s.table.inflight {
        RecordedLonger(s.hist, [RejectRecord(s.tasks[id].req, s.tasks[id].req.hash, s.tasks[id].code)], ref, from);
      }
    case FailureSection(id) =>
      CoveredByFailure(s, lim, id, ref, from);
    case ReconcileSection(order) =>
      CoveredByReconcile(s, lim, order, ref, from);
    case _ =>
  }

  lemma CoveredByFailure(s: Sys, lim: Limits, id: TaskId, ref: Ref, from: nat)
    requires Enabled(s, FailureSection(id)) && from <= |s.hist| && Covered(s, ref, from)
    ensures Covered(After(s, lim, FailureSection(id)), ref, from)
  {
    var rec := RejectRecord(s.tasks[id].req, s.tasks[id].hash, s.tasks[id].code);
    if ref == s.tasks[id].req.ref {
      RecordedNow(s.hist, [rec], ref, from, 0);
    } else if ref !in s.table.inflight {
      RecordedLonger(s.hist, [rec], ref, from);
    }
  }

  lemma CoveredByReconcile(s: Sys, lim: Limits, order: seq<Ref>, ref: Ref, from: nat)
    requires Enabled(s, ReconcileSection(order)) && from <= |s.hist| && Covered(s, ref, from)
    ensures Covered(After(s, lim, ReconcileSection(order)), ref, from)
  {
    var recs := RecordsFor(s.table, s.committed[s.recon.at], s.recon.now, order);
    if ref in order {
      var m :| 0 <= m < |order| && order[m] == ref;
      assert recs[m].ref == ref;
      RecordedNow(s.hist, recs, ref, from, m);
    } else if ref !in s.table.inflight {
      RecordedLonger(s.hist, recs, ref, from);
    }
  }

  /** A ref that can register is not in flight and its last record has been pushed out of
      the ring by at least RingSize later appends. */
  lemma UnknownIsOld(s: Sys, lim: Limits, ref: Ref, from: nat)
    requires s.table.ring == Tail(s.hist, lim.ringSize) && Covered(s, ref, from) && !Known(s.table, ref)
    ensures |s.hist| >= from + lim.ringSize + 1
  {
    var k :| from <= k < |s.hist| && s.hist[k].ref == ref;
    RecentInTail(s.hist, lim.ringSize, k);
  }

  lemma RecentInTail(hist: seq<RefRecord>, size: Pos, k: nat)
    requires k < |hist|
    ensures |hist| <= k + size ==> hist[k] in Tail(hist, size)
  {
    if size < |hist| <= k + size {
      assert Tail(hist, size)[k - (|hist| - size)] == hist[k];
    }
  }

  /** Only an unknown ref registers, outside a drain and below the cap. */
  lemma RegistersUnknown(s: Sys, lim: Limits, step: Step)
    requires Enabled(s, step) && |After(s, lim, step).regs| > |s.regs|
    ensures step.RegisterSection? && !Known(s.table, s.tasks[step.id].req.ref)
    ensures !s.table.draining && |s.table.inflight| < lim.maxInFlight
    ensures var reg := Registry(s.tasks[step.id].req.ref, s.table.backend, s.table.epoch, |s.hist|, s.tasks[step.id].basis, s.tasks[step.id].req);
            After(s, lim, step).regs == s.regs + [reg]
  {
  }

  lemma RegsRegistered(s: Sys, lim: Limits, step: Step)
    requires TableOk(s, lim) && RegsOk(s, lim) && Enabled(s, step) && |After(s, lim, step).regs| > |s.regs|
    ensures RegsOk(After(s, lim, step), lim)
  {
    var t := After(s, lim, step);
    RegistersUnknown(s, lim, step);
    forall i | 0 <= i < |s.regs| ensures Covered(t, s.regs[i].ref, s.regs[i].appends) {
      StaysCovered(s, lim, step, s.regs[i].ref, s.regs[i].appends);
    }
    forall i | 0 <= i < |s.regs| && s.regs[i].ref == t.regs[|s.regs|].ref ensures |s.hist| >= s.regs[i].appends + lim.ringSize + 1 {
      UnknownIsOld(s, lim, s.regs[i].ref, s.regs[i].appends);
    }
  }

  lemma RegsStep(s: Sys, lim: Limits, step: Step)
    requires TableOk(s, lim) && RegsOk(s, lim) && Enabled(s, step)
    ensures RegsOk(After(s, lim, step), lim)
  {
    var t := After(s, lim, step);
    if |t.regs| > |s.regs| {
      RegsRegistered(s, lim, step);
    } else {
      assert t.regs == s.regs;
      forall i | 0 <= i < |s.regs| ensures s.regs[i].appends <= |t.hist| && Covered(t, s.regs[i].ref, s.regs[i].appends) {
        StaysCovered(s, lim, step, s.regs[i].ref, s.regs[i].appends);
      }
    }
  }

  lemma CallersStay(calls: seq<Call>, regs: seq<Registry>, tasks: map<TaskId, Task>, id: TaskId, task: Task)
    requires CallsFine(calls, regs, tasks) && !task.Calling?
    ensures CallsFine(calls, regs, tasks[id := task])
  {
    var after := tasks[id := task];
    assert forall x :: x in after && after[x].Calling? ==> x in tasks && tasks[x] == after[x];
  }

  lemma CallerRegisters(calls: seq<Call>, regs: seq<Registry>, tasks: map<TaskId, Task>, id: TaskId, task: Task, reg: Registry)
    requires CallsFine(calls, regs, tasks) && task.Calling? && task.mutation == |regs| + 1
    ensures CallsFine(calls, regs + [reg], tasks[id := task])
  {
    var after := tasks[id := task];
    assert forall x :: x in after && after[x].Calling? && x != id ==> x in tasks && tasks[x] == after[x];
  }

  lemma CallerCalls(calls: seq<Call>, regs: seq<Registry>, tasks: map<TaskId, Task>, id: TaskId, call: Call, task: Task)
    requires CallsFine(calls, regs, tasks) && id in tasks && tasks[id].Calling? && !task.Calling?
    requires call.mutation == tasks[id].mutation && call.backend == regs[call.mutation - 1].backend
    ensures CallsFine(calls + [call], regs, tasks[id := task])
  {
    var after := tasks[id := task];
    assert forall x :: x in after && after[x].Calling? ==> x != id && x in tasks && tasks[x] == after[x];
  }

  lemma CallsStep(s: Sys, lim: Limits, step: Step)
    requires s.table.nextMut == |s.regs| && CallsOk(s) && Enabled(s, step)
    ensures CallsOk(After(s, lim, step))
  {
    var t := After(s, lim, step);
    match step
    case RegisterSection(id, _) =>
      if |t.regs| > |s.regs| {
        CallerRegisters(s.calls, s.regs, s.tasks, id, t.tasks[id], t.regs[|s.regs|]);
      } else {
        CallersStay(s.calls, s.regs, s.tasks, id, t.tasks[id]);
      }
    case BackendCall(id, _) => CallerCalls(s.calls, s.regs, s.tasks, id, t.calls[|s.calls|], t.tasks[id]);
    case Arrive(id, _) => CallersStay(s.calls, s.regs, s.tasks, id, t.tasks[id]);
    case EarlySection(id) => CallersStay(s.calls, s.regs, s.tasks, id, t.tasks[id]);
    case ReadState(id) => CallersStay(s.calls, s.regs, s.tasks, id, t.tasks[id]);
    case RejectSection(id) => CallersStay(s.calls, s.regs, s.tasks, id, t.tasks[id]);
    case FailureSection(id) => CallersStay(s.calls, s.regs, s.tasks, id, t.tasks[id]);
    case _ =>
  }

  /** What one pass settles was never settled before, and nothing twice. */
  lemma FreshSettlements(s: Sys, lim: Limits, order: seq<Ref>)
    requires TableOk(s, lim) && Enabled(s, ReconcileSection(order))
    ensures var results := ResultsFor(s.table, s.committed[s.recon.at], s.recon.now, order);
            && (forall k :: 0 <= k < |results| ==> 0 < results[k].mutation <= |s.regs|)
            && (forall j, k :: 0 <= j < |s.settled| && 0 <= k < |results| ==> s.settled[j].result.mutation != results[k].mutation)
            && (forall j, k :: 0 <= j < k < |results| ==> results[j].mutation != results[k].mutation)
  {
    forall i | 0 <= i < |order| ensures order[i] in s.table.inflight && EntryOk(s, order[i]) {
      assert order[i] in order;
    }
    var results := ResultsFor(s.table, s.committed[s.recon.at], s.recon.now, order);
    forall j, k | 0 <= j < k < |results| ensures results[j].mutation != results[k].mutation {
      assert EntryOk(s, order[j]) && EntryOk(s, order[k]) && order[j] != order[k];
    }
  }

  lemma SettledStepReconcile(s: Sys, lim: Limits, step: Step)
    requires TableOk(s, lim) && SettledOk(s) && Enabled(s, step) && step.ReconcileSection?
    ensures SettledOk(After(s, lim, step))
  {
    FreshSettlements(s, lim, step.order);
  }

  lemma SettledStep(s: Sys, lim: Limits, step: Step)
    requires TableOk(s, lim) && SettledOk(s) && Enabled(s, step)
    ensures SettledOk(After(s, lim, step))
  {
    if step.ReconcileSection? {
      SettledStepReconcile(s, lim, step);
    } else {
      var t := After(s, lim, step);
      assert t.settled == s.settled && |t.regs| >= |s.regs| && s.committed <= t.committed;
    }
  }

  lemma PublishedReconcile(s: Sys, lim: Limits, step: Step)
    requires PublishedOk(s) && Enabled(s, step) && step.ReconcileSection?
    ensures PublishedOk(After(s, lim, step))
  {
    var t := After(s, lim, step);
    assert ResultsOf(t.settled) == ResultsOf(s.settled) + t.recon.rest;
  }

  lemma PublishedStep(s: Sys, lim: Limits, step: Step)
    requires PublishedOk(s) && Enabled(s, step)
    ensures PublishedOk(After(s, lim, step))
  {
    if step.ReconcileSection? {
      PublishedReconcile(s, lim, step);
    } else if step.PublishOne? {
      if s.recon.rest != [] {
        assert s.recon.rest == [s.recon.rest[0]] + s.recon.rest[1..];
      }
    } else {
      var t := After(s, lim, step);
      assert t.settled == s.settled && t.published == s.published;
    }
  }

  lemma StampsStep(s: Sys, lim: Limits, step: Step)
    requires StampsOk(s) && Enabled(s, step)
    ensures StampsOk(After(s, lim, step))
  {
  }

  lemma InvStep(s: Sys, lim: Limits, step: Step)
    requires Inv(s, lim) && Enabled(s, step)
    ensures Inv(After(s, lim, step), lim)
  {
    TableStep(s, lim, step);
    RegsStep(s, lim, step);
    CallsStep(s, lim, step);
    SettledStep(s, lim, step);
    PublishedStep(s, lim, step);
    StampsStep(s, lim, step);
  }

  lemma {:induction false} Reachable(states: seq<Sys>, lim: Limits, steps: seq<Step>, i: nat)
    requires IsRun(states, lim, steps) && i < |states|
    ensures Inv(states[i], lim)
  {
    if i == 0 {
      InitInv(states[0], lim);
    } else {
      Reachable(states, lim, steps, i - 1);
      assert StepAt(states, lim, steps, i - 1);
      InvStep(states[i - 1], lim, steps[i - 1]);
    }
  }

  // ---- the properties ----

  /** Whatever the interleaving: while a ref is in flight or in the ring, no Submit with it
      registers, so the registrations behind two calls made under one ref have at least
      RingSize + 1 ring appends between them: the first one's own record and RingSize later
      ones. No registration makes two calls. */
  lemma AtMostOncePerRef(states: seq<Sys>, lim: Limits, steps: seq<Step>, i: nat, a: nat, b: nat)
    requires IsRun(states, lim, steps) && i < |states|
    requires a < |states[i].calls| && b < |states[i].calls| && a != b
    ensures var s := states[i];
            && 0 < s.calls[a].mutation <= |s.regs| && 0 < s.calls[b].mutation <= |s.regs|
            && s.calls[a].mutation != s.calls[b].mutation
            && var ra, rb := s.regs[s.calls[a].mutation - 1], s.regs[s.calls[b].mutation - 1];
            (ra.ref == rb.ref ==> ra.appends + lim.ringSize < rb.appends || rb.appends + lim.ringSize < ra.appends)
  {
    Reachable(states, lim, steps, i);
  }

  lemma KnownRefNeverRegisters(states: seq<Sys>, lim: Limits, steps: seq<Step>, i: nat)
    requires IsRun(states, lim, steps) && i < |steps| && steps[i].RegisterSection? && StepAt(states, lim, steps, i)
    requires Known(states[i].table, states[i].tasks[steps[i].id].req.ref)
    ensures states[i + 1].tasks[steps[i].id].Done? && states[i + 1].regs == states[i].regs
    ensures states[i + 1].calls == states[i].calls && states[i + 1].table == states[i].table
  {
    assert StepAt(states, lim, steps, i);
  }

  /** The ring is always the last min(n, RingSize) of all records ever appended. */
  lemma RingIsHistoryTail(states: seq<Sys>, lim: Limits, steps: seq<Step>, i: nat)
    requires IsRun(states, lim, steps) && i < |states|
    ensures states[i].table.ring == Tail(states[i].hist, lim.ringSize)
    ensures |states[i].table.ring| == if |states[i].hist| <= lim.ringSize then |states[i].hist| else lim.ringSize
  {
    Reachable(states, lim, steps, i);
  }

  /** The cap holds, a drain never coexists with an in-flight mutation, every in-flight
      entry is of the current epoch and backend, and in-flight numbers are distinct. */
  lemma InFlightSafety(states: seq<Sys>, lim: Limits, steps: seq<Step>, i: nat)
    requires IsRun(states, lim, steps) && i < |states|
    ensures var t, regs := states[i].table, states[i].regs;
            && |t.inflight| <= lim.maxInFlight
            && (t.draining ==> t.inflight == map[])
            && t.nextMut == |regs|
            && (forall ref :: ref in t.inflight ==>
                  var p := t.inflight[ref];
                  && p.epoch == t.epoch && 0 < p.mutation <= |regs|
                  && regs[p.mutation - 1].ref == ref && regs[p.mutation - 1].backend == t.backend)
            && (forall r1, r2 :: r1 in t.inflight && r2 in t.inflight && r1 != r2 ==>
                  t.inflight[r1].mutation != t.inflight[r2].mutation)
  {
    Reachable(states, lim, steps, i);
    forall ref | ref in states[i].table.inflight ensures EntryOk(states[i], ref) {}
  }

  /** Hence reconcile never settles an orphan: what it settles is confirmed or overdue. */
  lemma OrphanBranchUnreachable(states: seq<Sys>, lim: Limits, steps: seq<Step>, i: nat, ref: Ref)
    requires IsRun(states, lim, steps) && i < |steps| && steps[i].ReconcileSection? && StepAt(states, lim, steps, i)
    requires ref in steps[i].order
    ensures var s := states[i]; ref in s.table.inflight && s.table.inflight[ref].epoch == s.table.epoch
    ensures var s := states[i];
            var p := s.table.inflight[ref];
            Settlement(p, s.committed[s.recon.at], s.table.epoch, s.recon.now) ==
              if s.committed[s.recon.at].backendOK && IntentMet(p.action, p.hash, s.committed[s.recon.at]) then Some(Confirmed)
              else Some(Timeout)
  {
    Reachable(states, lim, steps, i);
    assert StepAt(states, lim, steps, i);
    assert EntryOk(states[i], ref);
  }

  /** A mutation number is published at most once, only after it was registered and
      settled; a confirmed result is justified by some committed backend-OK state. */
  lemma OneResultPerMutation(states: seq<Sys>, lim: Limits, steps: seq<Step>, i: nat, a: nat, b: nat)
    requires IsRun(states, lim, steps) && i < |states|
    requires a < b < |states[i].published|
    ensures states[i].published[a].mutation != states[i].published[b].mutation
  {
    Reachable(states, lim, steps, i);
    var s := states[i];
    var todo := if s.recon.Publishing? then s.recon.rest else [];
    assert (s.published + todo)[a] == s.settled[a].result && (s.published + todo)[b] == s.settled[b].result;
  }

  lemma ConfirmedIsJustified(states: seq<Sys>, lim: Limits, steps: seq<Step>, i: nat, a: nat) returns (at: nat)
    requires IsRun(states, lim, steps) && i < |states| && a < |states[i].published|
    ensures 0 < states[i].published[a].mutation <= |states[i].regs|
    ensures at < |states[i].committed|
    ensures var r := states[i].published[a];
            r.status.Confirmed? ==> states[i].committed[at].backendOK && IntentMet(r.action, r.hash, states[i].committed[at])
  {
    Reachable(states, lim, steps, i);
    var s := states[i];
    var todo := if s.recon.Publishing? then s.recon.rest else [];
    assert (s.published + todo)[a] == s.settled[a].result;
    at := s.settled[a].at;
  }

  /** Each backend call goes to the backend captured at its own registration. */
  lemma CallsUseCapturedBackend(states: seq<Sys>, lim: Limits, steps: seq<Step>, i: nat, a: nat)
    requires IsRun(states, lim, steps) && i < |states| && a < |states[i].calls|
    ensures 0 < states[i].calls[a].mutation <= |states[i].regs|
    ensures states[i].calls[a].backend == states[i].regs[states[i].calls[a].mutation - 1].backend
  {
    Reachable(states, lim, steps, i);
  }
}
