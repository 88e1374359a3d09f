/** Any number of Configure calls interleaved step by step, with mutations registering and
    settling and certificates being offered at any time. Failed provider operations change
    nothing and undo writes succeed. */
module ConfigureRuns {
  import opened Options
  import opened ConnectionSpec

  type CallId = nat

  /** What a call captured under exclusivity: the file, and the secret unless `keep`. */
  datatype Snapshot = Snapshot(before: Contents, prev: Option<string>)

  /** `seen` is the map of offered certificates that the call's own resolution read: a
      history variable, never read by the code. */
  datatype Phase =
    | Entered(req: Request)
    | Exclusive(req: Request)
    | FileRead(req: Request, before: Contents)
    | Snapped(req: Request, snap: Snapshot)
    | Resolved(req: Request, snap: Snapshot, next: Profile, seen: map<string, string>)
    | SecretSet(req: Request, snap: Snapshot, next: Profile, seen: map<string, string>)
    | Saved(req: Request, snap: Snapshot, next: Profile, seen: map<string, string>)
    | Built(req: Request, snap: Snapshot, next: Profile, seen: map<string, string>, client: ClientId)
    | UndoSecret(req: Request, snap: Snapshot, next: Profile, stored: bool, code: Rejection)
    | UndoStore(snap: Snapshot, next: Profile, stored: bool, code: Rejection)
    | Aborting(code: Rejection)
    | SyncerSwitched(req: Request, next: Profile, seen: map<string, string>, client: ClientId)
    | ManagerDone(req: Request, next: Profile, seen: map<string, string>, client: ClientId)
    | Accepted
    | Rejected(code: Rejection)

  datatype Holder = Holder(epoch: nat, client: ClientId)

  /** One accepted call, in the order the drain was released: what it asked for, the
      certificates it saw and its client, but not what it decided. */
  datatype Commit = Commit(call: CallId, req: Request, seen: map<string, string>, client: ClientId)

  /** The manager, the syncer and the mutator with their epoch and backend each, the
      mutator's drain and in-flight count, the two durable cells, the offered certificates,
      the calls, and the log of accepted calls. */
  datatype Sys = Sys(
    profile: Profile, manager: Holder, syncer: Holder, mutator: Holder, draining: bool, busy: nat,
    store: Contents, secret: Option<string>, offered: map<string, string>, calls: map<CallId, Phase>, log: seq<Commit>)

  datatype Step =
    | Enter(id: CallId, req: Request)
    | Begin(id: CallId)
    | ReadFile(id: CallId, ok: bool)
    | ReadSecret(id: CallId, ok: bool)
    | ResolvePin(id: CallId)
    | SetSecret(id: CallId, ok: bool)
    | SaveFile(id: CallId, ok: bool)
    | BuildClient(id: CallId, ok: bool, client: ClientId)
    | RestoreSecret(id: CallId)
    | RestoreStore(id: CallId)
    | Abort(id: CallId)
    | SwitchSyncer(id: CallId)
    | CommitManager(id: CallId)
    | CommitSwap(id: CallId)
    | MutationRegisters
    | MutationSettles
    | Offer(fingerprint: string, pem: string)
    | Forget(fingerprint: string)

  /** The durable outcome the serial reading speaks of. */
  datatype Durable = Durable(store: Contents, secret: Option<string>, profile: Profile, epoch: nat, client: ClientId)

  function DurableOf(s: Sys): Durable {
    Durable(s.store, s.secret, s.profile, s.manager.epoch, s.manager.client)
  }

  /** One call run alone: it decides on the profile it finds, and does nothing if refused. */
  function Apply(d: Durable, c: Commit): Durable {
    var next := Decision(c.req, c.seen, d.profile);
    if next.None? then d
    else Durable(Marshalled(next.value), SecretAfter(c.req, d.secret), next.value, d.epoch + 1, c.client)
  }

  /** The accepted calls run one after another. */
  function Serial(d: Durable, log: seq<Commit>): Durable {
    if log == [] then d else Apply(Serial(d, log[..|log| - 1]), log[|log| - 1])
  }

  /** Run after the calls before it, the call is accepted there too. */
  predicate AcceptedThere(d: Durable, log: seq<Commit>, i: nat)
    requires i < |log|
  {
    Decision(log[i].req, log[i].seen, Serial(d, log[..i]).profile).Some?
  }

  predicate Init(s: Sys) {
    && s.manager == s.syncer == s.mutator && s.manager.epoch == 0 && !s.draining
    && s.calls == map[] && s.log == []
  }

  predicate In(s: Sys, id: CallId) {
    id in s.calls
  }

  predicate Enabled(s: Sys, step: Step) {
    match step
    case Enter(id, _) => !In(s, id)
    case Begin(id) => In(s, id) && s.calls[id].Entered?
    case ReadFile(id, _) => In(s, id) && s.calls[id].Exclusive?
    case ReadSecret(id, _) => In(s, id) && s.calls[id].FileRead?
    case ResolvePin(id) => In(s, id) && s.calls[id].Snapped? && s.calls[id].req.endpoint.Some?
    case SetSecret(id, _) => In(s, id) && s.calls[id].Resolved?
    case SaveFile(id, _) => In(s, id) && s.calls[id].SecretSet?
    case BuildClient(id, _, _) => In(s, id) && s.calls[id].Saved?
    case RestoreSecret(id) => In(s, id) && s.calls[id].UndoSecret?
    case RestoreStore(id) => In(s, id) && s.calls[id].UndoStore?
    case Abort(id) => In(s, id) && s.calls[id].Aborting?
    case SwitchSyncer(id) => In(s, id) && s.calls[id].Built?
    case CommitManager(id) => In(s, id) && s.calls[id].SyncerSwitched?
    case CommitSwap(id) => In(s, id) && s.calls[id].ManagerDone?
    case MutationRegisters => !s.draining
    case MutationSettles => s.busy > 0
    case Offer(_, _) => true
    case Forget(_) => true
  }

  function To(s: Sys, id: CallId, phase: Phase): Sys {
    s.(calls := s.calls[id := phase])
  }

  function After(s: Sys, step: Step): Sys
    requires Enabled(s, step)
  {
    match step
    case Enter(id, req) => To(s, id, Entered(req))
    case Begin(id) =>
      var req := s.calls[id].req;
      var pure := PureRejection(req);
      if pure.Some? then To(s, id, Rejected(pure.value))
      else if s.draining || s.busy > 0 then To(s, id, Rejected(MutationsPending))
      else To(s, id, Exclusive(req)).(draining := true)
    case ReadFile(id, ok) =>
      To(s, id, if ok then FileRead(s.calls[id].req, s.store) else Aborting(StorageError))
    case ReadSecret(id, ok) =>
      var c := s.calls[id];
      To(s, id, if c.req.secretAction.Keep? then Snapped(c.req, Snapshot(c.before, None))
                else if ok then Snapped(c.req, Snapshot(c.before, s.secret))
                else Aborting(SecretsUnavailable))
    case ResolvePin(id) =>
      var c := s.calls[id];
      var pem := ResolveTls(c.req, s.offered, s.profile);
      To(s, id, if pem.None? then Aborting(PinUnknown) else Resolved(c.req, c.snap, NextProfile(c.req, pem.value), s.offered))
    case SetSecret(id, ok) =>
      var c := s.calls[id];
      if c.req.secretAction.Keep? then To(s, id, SecretSet(c.req, c.snap, c.next, c.seen))
      else if !ok then To(s, id, Aborting(SecretsUnavailable))
      else To(s, id, SecretSet(c.req, c.snap, c.next, c.seen)).(secret := SecretAfter(c.req, s.secret))
    case SaveFile(id, ok) =>
      var c := s.calls[id];
      if ok && Savable(c.next) then To(s, id, Saved(c.req, c.snap, c.next, c.seen)).(store := Marshalled(c.next))
      else To(s, id, UndoSecret(c.req, c.snap, c.next, false, StorageError))
    case BuildClient(id, ok, client) =>
      var c := s.calls[id];
      To(s, id, if ok then Built(c.req, c.snap, c.next, c.seen, client) else UndoSecret(c.req, c.snap, c.next, true, InvalidURL))
    case RestoreSecret(id) =>
      var c := s.calls[id];
      To(s, id, UndoStore(c.snap, c.next, c.stored, c.code))
        .(secret := if c.req.secretAction.Keep? then s.secret else c.snap.prev)
    case RestoreStore(id) =>
      var c := s.calls[id];
      To(s, id, Aborting(c.code)).(store := if c.stored then c.snap.before else s.store)
    case Abort(id) => To(s, id, Rejected(s.calls[id].code)).(draining := false)
    case SwitchSyncer(id) =>
      var c := s.calls[id];
      To(s, id, SyncerSwitched(c.req, c.next, c.seen, c.client)).(syncer := Holder(s.syncer.epoch + 1, c.client))
    case CommitManager(id) =>
      var c := s.calls[id];
      To(s, id, ManagerDone(c.req, c.next, c.seen, c.client))
        .(manager := Holder(s.manager.epoch + 1, c.client), profile := c.next)
    case CommitSwap(id) =>
      var c := s.calls[id];
      To(s, id, Phase.Accepted)
        .(mutator := Holder(s.mutator.epoch + 1, c.client), draining := false,
          log := s.log + [Commit(id, c.req, c.seen, c.client)])
    case MutationRegisters => s.(busy := s.busy + 1)
    case MutationSettles => s.(busy := s.busy - 1)
    case Offer(fp, pem) => s.(offered := s.offered[fp := pem])
    case Forget(fp) => s.(offered := s.offered - {fp})
  }

  ghost predicate StepAt(states: seq<Sys>, steps: seq<Step>, i: nat)
    requires i < |steps| < |states|
  {
    Enabled(states[i], steps[i]) && states[i + 1] == After(states[i], steps[i])
  }

  ghost predicate IsRun(states: seq<Sys>, steps: seq<Step>) {
    && |states| == |steps| + 1
    && Init(states[0])
    && forall i :: 0 <= i < |steps| ==> StepAt(states, steps, i)
  }

  // ---- invariants ----

  /** Between BeginSwitch and the drain's release. */
  predicate Holds(p: Phase) {
    !p.Entered? && !p.Accepted? && !p.Rejected?
  }

  predicate Exclusion(s: Sys) {
    && (s.draining ==> exists id :: id in s.calls && Holds(s.calls[id]))
    && (forall id :: id in s.calls && Holds(s.calls[id]) ==> s.draining)
    && (forall a, b :: a in s.calls && b in s.calls && Holds(s.calls[a]) && Holds(s.calls[b]) ==> a == b)
  }

  /** With `pre` the serial state so far, what a holder in this phase has changed of it,
      and that its snapshots are exactly what it takes to go back. */
  ghost predicate PhaseOk(s: Sys, p: Phase, pre: Durable) {
    var at := DurableOf(s);
    var home := Holder(pre.epoch, pre.client);
    match p
    case Exclusive(req) => at == pre && AllAt(s, home) && PureRejection(req).None?
    case FileRead(req, before) => at == pre && AllAt(s, home) && PureRejection(req).None? && before == pre.store
    case Snapped(req, snap) => at == pre && AllAt(s, home) && PureRejection(req).None? && SnapOk(req, snap, pre)
    case Resolved(req, snap, next, seen) =>
      at == pre && AllAt(s, home) && SnapOk(req, snap, pre) && Decided(req, next, seen, pre)
    case SecretSet(req, snap, next, seen) =>
      at == pre.(secret := SecretAfter(req, pre.secret)) && AllAt(s, home) && SnapOk(req, snap, pre) && Decided(req, next, seen, pre)
    case Saved(req, snap, next, seen) =>
      at == pre.(secret := SecretAfter(req, pre.secret), store := Marshalled(next)) && AllAt(s, home)
      && SnapOk(req, snap, pre) && Decided(req, next, seen, pre)
    case Built(req, snap, next, seen, _) =>
      at == pre.(secret := SecretAfter(req, pre.secret), store := Marshalled(next)) && AllAt(s, home)
      && SnapOk(req, snap, pre) && Decided(req, next, seen, pre)
    case UndoSecret(req, snap, next, stored, _) =>
      at == pre.(secret := SecretAfter(req, pre.secret), store := if stored then Marshalled(next) else pre.store)
      && AllAt(s, home) && SnapOk(req, snap, pre)
    case UndoStore(snap, next, stored, _) =>
      at == pre.(store := if stored then Marshalled(next) else pre.store) && AllAt(s, home) && snap.before == pre.store
    case Aborting(_) => at == pre && AllAt(s, home)
    case SyncerSwitched(req, next, seen, client) =>
      at == pre.(secret := SecretAfter(req, pre.secret), store := Marshalled(next)) && Decided(req, next, seen, pre)
      && s.manager == s.mutator == home && s.syncer == Holder(pre.epoch + 1, client)
    case ManagerDone(req, next, seen, client) =>
      at == Apply(pre, Commit(0, req, seen, client)) && Decided(req, next, seen, pre)
      && s.mutator == home && s.manager == s.syncer == Holder(pre.epoch + 1, client)
    case _ => true
  }

  predicate AllAt(s: Sys, h: Holder) {
    s.manager == s.syncer == s.mutator == h
  }

  predicate SnapOk(req: Request, snap: Snapshot, pre: Durable) {
    snap.before == pre.store && (!req.secretAction.Keep? ==> snap.prev == pre.secret)
  }

  predicate Decided(req: Request, next: Profile, seen: map<string, string>, pre: Durable) {
    Decision(req, seen, pre.profile) == Some(next)
  }

  ghost predicate Inv(s: Sys, d: Durable) {
    var pre := Serial(d, s.log);
    && Exclusion(s)
    && (!s.draining ==> DurableOf(s) == pre && AllAt(s, Holder(pre.epoch, pre.client)))
    && (forall id :: id in s.calls && Holds(s.calls[id]) ==> PhaseOk(s, s.calls[id], pre))
    && (forall i :: 0 <= i < |s.log| ==> AcceptedThere(d, s.log, i))
    && LogOk(s)
  }

  /** The log holds exactly the accepted calls, each once. */
  predicate LogOk(s: Sys) {
    && (forall i :: 0 <= i < |s.log| ==> s.log[i].call in s.calls && s.calls[s.log[i].call].Accepted?)
    && (forall i, j :: 0 <= i < j < |s.log| ==> s.log[i].call != s.log[j].call)
    && (forall id :: id in s.calls && s.calls[id].Accepted? ==> exists i :: 0 <= i < |s.log| && s.log[i].call == id)
  }

  lemma InitInv(s: Sys)
    requires Init(s)
    ensures Inv(s, DurableOf(s))
  {
  }

  /** The call a step belongs to, if it is one that only a drain holder takes. */
  function Owner(step: Step): Option<CallId> {
    match step
    case ReadFile(id, _) => Some(id)
    case ReadSecret(id, _) => Some(id)
    case ResolvePin(id) => Some(id)
    case SetSecret(id, _) => Some(id)
    case SaveFile(id, _) => Some(id)
    case BuildClient(id, _, _) => Some(id)
    case RestoreSecret(id) => Some(id)
    case RestoreStore(id) => Some(id)
    case Abort(id) => Some(id)
    case SwitchSyncer(id) => Some(id)
    case CommitManager(id) => Some(id)
    case CommitSwap(id) => Some(id)
    case _ => None
  }

  predicate Releases(step: Step) {
    step.Abort? || step.CommitSwap?
  }

  lemma OwnerHolds(s: Sys, step: Step)
    requires Enabled(s, step) && Owner(step).Some?
    ensures var id := Owner(step).value;
            && In(s, id) && Holds(s.calls[id])
            && (Releases(step) || Holds(After(s, step).calls[id]))
            && After(s, step).draining == (s.draining && !Releases(step))
            && After(s, step).calls == s.calls[id := After(s, step).calls[id]]
  {
  }

  lemma ExclusionStep(s: Sys, step: Step)
    requires Exclusion(s) && Enabled(s, step)
    ensures Exclusion(After(s, step))
  {
    var t := After(s, step);
    if Owner(step).Some? {
      OwnerHolds(s, step);
      var id := Owner(step).value;
      if Releases(step) {
        assert forall x :: x in t.calls && x != id ==> x in s.calls && t.calls[x] == s.calls[x];
      } else {
        assert Holds(t.calls[id]);
        assert forall x :: x in t.calls && Holds(t.calls[x]) ==> x in s.calls && Holds(s.calls[x]);
      }
    } else if step.Begin? && t.calls[step.id].Exclusive? {
      assert Holds(t.calls[step.id]);
      assert forall x :: x in t.calls && Holds(t.calls[x]) ==> x == step.id || (x in s.calls && Holds(s.calls[x]));
    } else {
      assert t.draining == s.draining;
      assert forall x :: x in s.calls && Holds(s.calls[x]) ==> x in t.calls && t.calls[x] == s.calls[x];
      assert forall x :: x in t.calls && Holds(t.calls[x]) ==> x in s.calls && s.calls[x] == t.calls[x];
    }
  }

  predicate Undoes(step: Step) {
    step.RestoreSecret? || step.RestoreStore?
  }

  predicate Gathers(step: Step) {
    step.ReadFile? || step.ReadSecret? || step.ResolvePin?
  }

  lemma GatheringStep(s: Sys, step: Step, pre: Durable)
    requires Enabled(s, step) && Gathers(step) && In(s, Owner(step).value) && PhaseOk(s, s.calls[Owner(step).value], pre)
    ensures PhaseOk(After(s, step), After(s, step).calls[Owner(step).value], pre) && After(s, step).log == s.log
  {
  }

  lemma SecretStep(s: Sys, step: Step, pre: Durable)
    requires Enabled(s, step) && step.SetSecret? && PhaseOk(s, s.calls[step.id], pre)
    ensures PhaseOk(After(s, step), After(s, step).calls[step.id], pre) && After(s, step).log == s.log
  {
  }

  lemma FileStep(s: Sys, step: Step, pre: Durable)
    requires Enabled(s, step) && step.SaveFile? && PhaseOk(s, s.calls[step.id], pre)
    ensures PhaseOk(After(s, step), After(s, step).calls[step.id], pre) && After(s, step).log == s.log
  {
  }

  lemma ClientStep(s: Sys, step: Step, pre: Durable)
    requires Enabled(s, step) && step.BuildClient? && PhaseOk(s, s.calls[step.id], pre)
    ensures PhaseOk(After(s, step), After(s, step).calls[step.id], pre) && After(s, step).log == s.log
  {
  }

  lemma UndoingStep(s: Sys, step: Step, pre: Durable)
    requires Enabled(s, step) && Undoes(step) && In(s, Owner(step).value) && PhaseOk(s, s.calls[Owner(step).value], pre)
    ensures PhaseOk(After(s, step), After(s, step).calls[Owner(step).value], pre) && After(s, step).log == s.log
  {
  }

  lemma SwitchingStep(s: Sys, step: Step, pre: Durable)
    requires Enabled(s, step) && (step.SwitchSyncer? || step.CommitManager?)
    requires PhaseOk(s, s.calls[Owner(step).value], pre)
    ensures PhaseOk(After(s, step), After(s, step).calls[Owner(step).value], pre) && After(s, step).log == s.log
  {
  }

  /** Progress of the holder keeps the account of what it changed. */
  lemma HolderStep(s: Sys, step: Step, pre: Durable)
    requires Enabled(s, step) && Owner(step).Some? && !Releases(step)
    requires In(s, Owner(step).value) && PhaseOk(s, s.calls[Owner(step).value], pre)
    ensures PhaseOk(After(s, step), After(s, step).calls[Owner(step).value], pre)
    ensures After(s, step).log == s.log
  {
    if Gathers(step) {
      GatheringStep(s, step, pre);
    } else if Undoes(step) {
      UndoingStep(s, step, pre);
    } else if step.SwitchSyncer? || step.CommitManager? {
      SwitchingStep(s, step, pre);
    } else if step.SetSecret? {
      SecretStep(s, step, pre);
    } else if step.SaveFile? {
      FileStep(s, step, pre);
    } else {
      ClientStep(s, step, pre);
    }
  }

  /** Releasing by abort leaves the serial state; by commit, the serial state and one more. */
  lemma ReleaseStep(s: Sys, step: Step, pre: Durable)
    requires Enabled(s, step) && Releases(step) && PhaseOk(s, s.calls[step.id], pre)
    ensures var t := After(s, step);
            if step.Abort? then t.log == s.log && DurableOf(t) == pre && AllAt(t, Holder(pre.epoch, pre.client))
            else
              var c := s.calls[step.id];
              var commit := Commit(step.id, c.req, c.seen, c.client);
              && t.log == s.log + [commit] && DurableOf(t) == Apply(pre, commit)
              && AllAt(t, Holder(pre.epoch + 1, c.client)) && Decided(c.req, c.next, c.seen, pre)
  {
  }

  /** Steps outside the drain touch nothing a Configure may touch. */
  lemma BystanderStep(s: Sys, step: Step)
    requires Enabled(s, step) && Owner(step).None?
    ensures var t := After(s, step);
            && DurableOf(t) == DurableOf(s) && t.manager == s.manager && t.syncer == s.syncer && t.mutator == s.mutator
            && t.log == s.log
            && (forall id :: id in s.calls && Holds(s.calls[id]) ==> id in t.calls && t.calls[id] == s.calls[id])
            && (forall id :: id in t.calls && Holds(t.calls[id]) ==>
                  (id in s.calls && s.calls[id] == t.calls[id])
                  || (step.Begin? && id == step.id && t.calls[id].Exclusive? && !s.draining
                      && PureRejection(t.calls[id].req).None?))
            && (t.draining != s.draining ==> step.Begin? && t.calls[step.id].Exclusive? && !s.draining && t.draining)
  {
  }

  lemma SamePhase(s: Sys, t: Sys, p: Phase, pre: Durable)
    requires PhaseOk(s, p, pre) && DurableOf(t) == DurableOf(s)
    requires t.manager == s.manager && t.syncer == s.syncer && t.mutator == s.mutator
    ensures PhaseOk(t, p, pre)
  {
  }

  /** The call a step moves. */
  function Mover(step: Step): Option<CallId> {
    match step
    case Enter(id, _) => Some(id)
    case Begin(id) => Some(id)
    case _ => Owner(step)
  }

  /** A step moves one call at most; only CommitSwap makes it accepted, and nothing leads
      back from a switched syncer. */
  lemma MoverMoves(s: Sys, step: Step)
    requires Enabled(s, step)
    ensures var t, m := After(s, step), Mover(step);
            if m.None? then t.calls == s.calls
            else
              && m.value in t.calls && t.calls == s.calls[m.value := t.calls[m.value]]
              && (m.value in s.calls ==> !s.calls[m.value].Accepted?)
              && (t.calls[m.value].Accepted? <==> step.CommitSwap?)
              && (m.value in s.calls && PastNoReturn(s.calls[m.value]) ==> PastNoReturn(t.calls[m.value]))
    ensures !step.CommitSwap? ==> After(s, step).log == s.log
  {
  }

  lemma LogGrows(s: Sys, step: Step)
    requires LogOk(s) && Enabled(s, step) && step.CommitSwap?
    ensures LogOk(After(s, step))
  {
    var t := After(s, step);
    MoverMoves(s, step);
    assert t.log[|s.log|].call == step.id;
    forall id | id in t.calls && t.calls[id].Accepted? ensures exists i :: 0 <= i < |t.log| && t.log[i].call == id {
      if id != step.id {
        var i :| 0 <= i < |s.log| && s.log[i].call == id;
        assert t.log[i].call == id;
      }
    }
  }

  lemma SameLog(s: Sys, t: Sys, m: Option<CallId>)
    requires LogOk(s) && t.log == s.log
    requires if m.None? then t.calls == s.calls
             else m.value in t.calls && t.calls == s.calls[m.value := t.calls[m.value]]
                  && (m.value in s.calls ==> !s.calls[m.value].Accepted?) && !t.calls[m.value].Accepted?
    ensures LogOk(t)
  {
  }

  lemma LogStep(s: Sys, step: Step)
    requires LogOk(s) && Enabled(s, step)
    ensures LogOk(After(s, step))
  {
    if step.CommitSwap? {
      LogGrows(s, step);
    } else {
      MoverMoves(s, step);
      SameLog(s, After(s, step), Mover(step));
    }
  }

  lemma AcceptedStays(d: Durable, log: seq<Commit>, c: Commit)
    requires forall i :: 0 <= i < |log| ==> AcceptedThere(d, log, i)
    requires Decision(c.req, c.seen, Serial(d, log).profile).Some?
    ensures forall i :: 0 <= i < |log + [c]| ==> AcceptedThere(d, log + [c], i)
  {
    forall i | 0 <= i < |log + [c]| ensures AcceptedThere(d, log + [c], i) {
      if i < |log| {
        assert AcceptedThere(d, log, i);
        assert (log + [c])[..i] == log[..i];
      } else {
        assert (log + [c])[..i] == log;
      }
    }
  }

  lemma InvStep(s: Sys, step: Step, d: Durable)
    requires Inv(s, d) && Enabled(s, step)
    ensures Inv(After(s, step), d)
  {
    var t := After(s, step);
    var pre := Serial(d, s.log);
    ExclusionStep(s, step);
    LogStep(s, step);
    if Owner(step).Some? {
      OwnerHolds(s, step);
      var id := Owner(step).value;
      assert PhaseOk(s, s.calls[id], pre);
      if Releases(step) {
        ReleaseStep(s, step, pre);
        if step.CommitSwap? {
          assert t.log[..|s.log|] == s.log;
          AcceptedStays(d, s.log, t.log[|s.log|]);
        }
      } else {
        HolderStep(s, step, pre);
      }
    } else {
      BystanderStep(s, step);
      forall id | id in t.calls && Holds(t.calls[id]) ensures PhaseOk(t, t.calls[id], pre) {
        if id in s.calls && s.calls[id] == t.calls[id] {
          SamePhase(s, t, t.calls[id], pre);
        }
      }
    }
  }

  lemma {:induction false} Reachable(states: seq<Sys>, steps: seq<Step>, i: nat)
    requires IsRun(states, steps) && i < |states|
    ensures Inv(states[i], DurableOf(states[0]))
  {
    if i == 0 {
      InitInv(states[0]);
    } else {
      Reachable(states, steps, i - 1);
      assert StepAt(states, steps, i - 1);
      InvStep(states[i - 1], steps[i - 1], DurableOf(states[0]));
    }
  }

  // ---- the properties ----

  /** Whenever the drain is free, file, secret, active profile, epoch and client are what
      the accepted calls alone, run one after another in the order they released the drain,
      would have left, each deciding on the profile its predecessors left and none of them
      refused there; and the log holds exactly the accepted calls. */
  lemma Serialisable(states: seq<Sys>, steps: seq<Step>, i: nat)
    requires IsRun(states, steps) && i < |states|
    ensures var s, d := states[i], DurableOf(states[0]);
            && (!s.draining ==> DurableOf(s) == Serial(d, s.log))
            && (forall k :: 0 <= k < |s.log| ==> AcceptedThere(d, s.log, k))
            && LogOk(s)
  {
    Reachable(states, steps, i);
  }

  function Seen(p: Phase): Option<map<string, string>> {
    match p
    case Resolved(_, _, _, seen) => Some(seen)
    case SecretSet(_, _, _, seen) => Some(seen)
    case Saved(_, _, _, seen) => Some(seen)
    case Built(_, _, _, seen, _) => Some(seen)
    case SyncerSwitched(_, _, seen, _) => Some(seen)
    case ManagerDone(_, _, seen, _) => Some(seen)
    case _ => None
  }

  predicate Carries(step: Step) {
    step.SetSecret? || step.SaveFile? || step.BuildClient? || step.SwitchSyncer? || step.CommitManager?
  }

  lemma SeenCarried(s: Sys, step: Step)
    requires Enabled(s, step) && Carries(step) && Seen(After(s, step).calls[step.id]).Some?
    ensures Seen(After(s, step).calls[step.id]) == Seen(s.calls[step.id]) && Holds(s.calls[step.id])
  {
  }

  lemma NothingSeen(s: Sys, step: Step)
    requires Enabled(s, step) && Mover(step).Some? && !Carries(step) && !step.ResolvePin?
    ensures Seen(After(s, step).calls[Mover(step).value]).None?
  {
  }

  /** What a call saw was read by its own ResolvePin step or carried over. */
  lemma SeenStep(s: Sys, step: Step, id: CallId)
    requires Enabled(s, step) && id in After(s, step).calls && Seen(After(s, step).calls[id]).Some?
    ensures id in s.calls && Holds(s.calls[id]) && Seen(After(s, step).calls[id]) ==
              if step == ResolvePin(id) then Some(s.offered) else Seen(s.calls[id])
  {
    if Mover(step) != Some(id) {
      MoverMoves(s, step);
    } else if Carries(step) {
      SeenCarried(s, step);
    } else if !step.ResolvePin? {
      NothingSeen(s, step);
    }
  }

  /** Under one drain, that step read the offered certificates and the log was the present one. */
  lemma {:induction false} SeenAt(states: seq<Sys>, steps: seq<Step>, i: nat, id: CallId) returns (k: nat)
    requires IsRun(states, steps) && i < |states|
    requires id in states[i].calls && Seen(states[i].calls[id]).Some?
    ensures k < i && steps[k] == ResolvePin(id) && StepAt(states, steps, k)
    ensures Seen(states[i].calls[id]) == Some(states[k].offered) && states[k].log == states[i].log
  {
    assert StepAt(states, steps, i - 1);
    var s, step := states[i - 1], steps[i - 1];
    SeenStep(s, step, id);
    if step.CommitSwap? {
      OneHolder(states, steps, i - 1, id, step.id);
      assert false;
    }
    if step == ResolvePin(id) {
      k := i - 1;
    } else {
      k := SeenAt(states, steps, i - 1, id);
    }
  }

  lemma LogMoves(s: Sys, step: Step)
    requires Enabled(s, step)
    ensures s.log <= After(s, step).log && |After(s, step).log| <= |s.log| + 1
    ensures |After(s, step).log| > |s.log| ==> step.CommitSwap? && After(s, step).log[|s.log|].call == step.id
  {
    MoverMoves(s, step);
  }

  lemma {:induction false} LoggedAt(states: seq<Sys>, steps: seq<Step>, i: nat, e: nat) returns (j: nat)
    requires IsRun(states, steps) && i < |states| && e < |states[i].log|
    ensures j < i && StepAt(states, steps, j) && steps[j] == CommitSwap(states[i].log[e].call)
    ensures states[j].log == states[i].log[..e] && states[j + 1].log == states[i].log[..e + 1]
  {
    assert StepAt(states, steps, i - 1);
    LogMoves(states[i - 1], steps[i - 1]);
    if e < |states[i - 1].log| {
      j := LoggedAt(states, steps, i - 1, e);
    } else {
      j := i - 1;
    }
  }

  /** Each accepted call read the certificates and the active profile while it held the
      drain, at its own ResolvePin step; the profile it read is the one its predecessors in
      the log leave, and what it decided on them is what the log's serial reading decides. */
  lemma DecidedUnderTheDrain(states: seq<Sys>, steps: seq<Step>, i: nat, e: nat) returns (k: nat)
    requires IsRun(states, steps) && i < |states| && e < |states[i].log|
    ensures k < i && steps[k] == ResolvePin(states[i].log[e].call)
    ensures var d, c, before := DurableOf(states[0]), states[i].log[e], states[i].log[..e];
            && states[k].draining && states[k].log == before && states[k].offered == c.seen
            && states[k].profile == Serial(d, before).profile
            && Decision(c.req, states[k].offered, states[k].profile).Some?
            && Serial(d, before + [c]).profile == Decision(c.req, states[k].offered, states[k].profile).value
  {
    var j := LoggedAt(states, steps, i, e);
    var id := states[i].log[e].call;
    assert states[j + 1].log == states[j].log + [states[i].log[e]];
    k := SeenAt(states, steps, j, id);
    Reachable(states, steps, k);
    Reachable(states, steps, j + 1);
    assert StepAt(states, steps, k);
    var before, c := states[i].log[..e], states[i].log[e];
    assert PhaseOk(states[k], states[k].calls[id], Serial(DurableOf(states[0]), before));
    assert AcceptedThere(DurableOf(states[0]), states[j + 1].log, e);
    assert states[j + 1].log[..e] == before && (before + [c])[..e] == before;
  }

  /** At most one call is ever past BeginSwitch and before its release. */
  lemma OneHolder(states: seq<Sys>, steps: seq<Step>, i: nat, a: CallId, b: CallId)
    requires IsRun(states, steps) && i < |states|
    requires a in states[i].calls && b in states[i].calls && Holds(states[i].calls[a]) && Holds(states[i].calls[b])
    ensures a == b && states[i].draining
  {
    Reachable(states, steps, i);
  }

  /** While one call holds the drain nobody else extends the log. */
  lemma {:induction false} LogFrozen(states: seq<Sys>, steps: seq<Step>, i: nat, j: nat, id: CallId)
    requires IsRun(states, steps) && i <= j < |states|
    requires forall t :: i <= t <= j ==> id in states[t].calls && Holds(states[t].calls[id])
    ensures states[j].log == states[i].log
  {
    if i < j {
      LogFrozen(states, steps, i, j - 1, id);
      var s, step := states[j - 1], steps[j - 1];
      assert StepAt(states, steps, j - 1);
      if step.CommitSwap? {
        OneHolder(states, steps, j - 1, id, step.id);
      }
    }
  }

  /** A call that got exclusivity at step i and gave it up at step j changed nothing: file,
      secret, profile, epochs and clients are those of the moment before it began. */
  lemma RejectedIsIdentity(states: seq<Sys>, steps: seq<Step>, i: nat, j: nat, id: CallId)
    requires IsRun(states, steps) && i < j < |steps|
    requires steps[i] == Begin(id) && steps[j] == Abort(id) && StepAt(states, steps, i) && StepAt(states, steps, j)
    requires forall t :: i < t <= j ==> id in states[t].calls && Holds(states[t].calls[id])
    ensures DurableOf(states[j + 1]) == DurableOf(states[i])
    ensures var a, b := states[i], states[j + 1];
            a.manager == b.manager && a.syncer == b.syncer && a.mutator == b.mutator && !b.draining
    ensures states[j + 1].calls[id].Rejected?
  {
    Reachable(states, steps, i);
    Reachable(states, steps, j + 1);
    assert StepAt(states, steps, i);
    assert StepAt(states, steps, j);
    LogFrozen(states, steps, i + 1, j, id);
    assert states[i + 1].calls[id].Exclusive?;
  }

  /** With the drain free, manager, syncer and mutator agree on epoch and client, the epoch
      counts the accepted calls, and once one was accepted the file is the active profile. */
  lemma ThreeWayAgreement(states: seq<Sys>, steps: seq<Step>, i: nat)
    requires IsRun(states, steps) && i < |states| && !states[i].draining
    ensures var s := states[i];
            && s.manager == s.syncer == s.mutator
            && s.manager.epoch == |s.log|
            && (s.log != [] ==> s.store == Marshalled(s.profile))
  {
    Reachable(states, steps, i);
    SerialEpoch(DurableOf(states[0]), states[i].log);
  }

  lemma {:induction false} SerialEpoch(d: Durable, log: seq<Commit>)
    requires forall i :: 0 <= i < |log| ==> AcceptedThere(d, log, i)
    ensures Serial(d, log).epoch == d.epoch + |log|
    ensures log != [] ==> Serial(d, log).store == Marshalled(Serial(d, log).profile)
  {
    if log != [] {
      var front := log[..|log| - 1];
      forall i | 0 <= i < |front| ensures AcceptedThere(d, front, i) {
        assert AcceptedThere(d, log, i) && front[..i] == log[..i];
      }
      SerialEpoch(d, front);
      assert AcceptedThere(d, log, |log| - 1);
    }
  }

  /** Every accepted request of every run met the policy, whatever the state was. */
  lemma LoggedIsAdmissible(states: seq<Sys>, steps: seq<Step>, i: nat, e: nat)
    requires IsRun(states, steps) && i < |states| && e < |states[i].log|
    ensures Admissible(states[i].log[e].req) && !NeedsConsent(states[i].log[e].req)
  {
    Reachable(states, steps, i);
    var d, c := DurableOf(states[0]), states[i].log[e];
    assert AcceptedThere(d, states[i].log, e);
    DecisionReflects(c.req, c.seen, Serial(d, states[i].log[..e]).profile);
  }

  /** With the drain free, what is active and on disk is what the last accepted request asked
      for, on top of what its predecessors left. */
  lemma ActiveIsLastAsked(states: seq<Sys>, steps: seq<Step>, i: nat)
    requires IsRun(states, steps) && i < |states| && !states[i].draining && states[i].log != []
    ensures var s, n := states[i], |states[i].log| - 1;
            var c, before := s.log[n], Serial(DurableOf(states[0]), s.log[..n]);
            && Reflects(s.profile, c.req) && Certified(c.req, c.seen, before.profile, s.profile.pinCertPEM)
            && s.store == Marshalled(s.profile) && SecretIs(c.req, before.secret, s.secret)
            && s.manager.client == s.syncer.client == s.mutator.client == c.client
  {
    Reachable(states, steps, i);
    var d, n := DurableOf(states[0]), |states[i].log| - 1;
    var c, before := states[i].log[n], Serial(d, states[i].log[..n]);
    assert AcceptedThere(d, states[i].log, n);
    DecisionReflects(c.req, c.seen, before.profile);
    SecretAfterIs(c.req, before.secret);
  }

  /** A call is refused for plain HTTP exactly when its request needed consent. */
  lemma RefusedForHttp(states: seq<Sys>, steps: seq<Step>, i: nat, id: CallId)
    requires IsRun(states, steps) && i < |steps| && steps[i] == Begin(id)
    ensures id in states[i].calls && states[i].calls[id].Entered? && id in states[i + 1].calls
    ensures states[i + 1].calls[id] == Rejected(InsecureHTTP) <==> NeedsConsent(states[i].calls[id].req)
    ensures states[i + 1].calls[id].Exclusive? ==> Admissible(states[i].calls[id].req)
  {
    assert StepAt(states, steps, i);
    PureIsAdmissible(states[i].calls[id].req);
  }

  predicate PastNoReturn(p: Phase) {
    p.SyncerSwitched? || p.ManagerDone? || p.Accepted?
  }

  lemma StaysPast(s: Sys, step: Step, id: CallId, t: Sys)
    requires Enabled(s, step) && t == After(s, step)
    requires id in s.calls && PastNoReturn(s.calls[id])
    ensures id in t.calls && PastNoReturn(t.calls[id])
  {
    MoverMoves(s, step);
  }

  /** Once a call switched the syncer it can only end accepted. */
  lemma {:induction false} NoFailureAfterSwitch(states: seq<Sys>, steps: seq<Step>, i: nat, j: nat, id: CallId)
    requires IsRun(states, steps) && i <= j < |states|
    requires id in states[i].calls && PastNoReturn(states[i].calls[id])
    ensures id in states[j].calls && PastNoReturn(states[j].calls[id])
  {
    if i < j {
      NoFailureAfterSwitch(states, steps, i, j - 1, id);
      assert StepAt(states, steps, j - 1);
      StaysPast(states[j - 1], steps[j - 1], id, states[j]);
    }
  }

  // ---- one call alone ----

  ghost predicate Leads(s: Sys, steps: seq<Step>, t: Sys)
    decreases |steps|
  {
    if steps == [] then s == t
    else Enabled(s, steps[0]) && Leads(After(s, steps[0]), steps[1..], t)
  }

  lemma LeadsOn(s: Sys, step: Step, steps: seq<Step>, t: Sys)
    requires Enabled(s, step) && Leads(After(s, step), steps, t)
    ensures Leads(s, [step] + steps, t)
  {
    assert ([step] + steps)[1..] == steps;
  }

  /** Where a refused call ends: everything as it was. */
  ghost predicate Refuses(s: Sys, t: Sys, id: CallId, code: Rejection) {
    && id in t.calls && t.calls[id] == Rejected(code) && !t.draining && t.log == s.log
    && DurableOf(t) == DurableOf(s) && t.manager == s.manager && t.syncer == s.syncer && t.mutator == s.mutator
  }

  ghost predicate Accepts(s: Sys, t: Sys, id: CallId, commit: Commit) {
    && id in t.calls && t.calls[id].Accepted? && !t.draining && t.log == s.log + [commit]
    && DurableOf(t) == Apply(DurableOf(s), commit)
    && t.syncer == Holder(s.syncer.epoch + 1, commit.client) && t.mutator == Holder(s.mutator.epoch + 1, commit.client)
  }

  lemma AbortEnds(s: Sys, id: CallId) returns (steps: seq<Step>, t: Sys)
    requires In(s, id) && s.calls[id].Aborting?
    ensures Leads(s, steps, t) && Refuses(s, t, id, s.calls[id].code)
  {
    t := After(s, Abort(id));
    LeadsOn(s, Abort(id), [], t);
    steps := [Abort(id)] + [];
  }

  /** Undoing brings back the snapshot, whatever the call had changed of it. */
  lemma UndoEnds(s: Sys, id: CallId, home: Sys) returns (steps: seq<Step>, t: Sys)
    requires In(s, id) && s.calls[id].UndoSecret?
    requires var c := s.calls[id];
             && (c.stored ==> c.snap.before == home.store) && (!c.stored ==> s.store == home.store)
             && (if c.req.secretAction.Keep? then s.secret == home.secret else c.snap.prev == home.secret)
             && s == home.(store := s.store, secret := s.secret, calls := s.calls, draining := s.draining)
    ensures Leads(s, steps, t) && Refuses(home, t, id, s.calls[id].code)
  {
    var s1 := After(s, RestoreSecret(id));
    var s2 := After(s1, RestoreStore(id));
    steps, t := AbortEnds(s2, id);
    LeadsOn(s1, RestoreStore(id), steps, t);
    steps := [RestoreStore(id)] + steps;
    LeadsOn(s, RestoreSecret(id), steps, t);
    steps := [RestoreSecret(id)] + steps;
  }

  lemma CommitEnds(s: Sys, id: CallId) returns (steps: seq<Step>, t: Sys)
    requires In(s, id) && s.calls[id].Built?
    ensures Leads(s, steps, t) && id in t.calls && t.calls[id].Accepted? && !t.draining
    ensures var c := s.calls[id];
            && t.log == s.log + [Commit(id, c.req, c.seen, c.client)]
            && DurableOf(t) == Durable(s.store, s.secret, c.next, s.manager.epoch + 1, c.client)
            && t.syncer == Holder(s.syncer.epoch + 1, c.client) && t.mutator == Holder(s.mutator.epoch + 1, c.client)
  {
    var s1 := After(s, SwitchSyncer(id));
    var s2 := After(s1, CommitManager(id));
    t := After(s2, CommitSwap(id));
    LeadsOn(s2, CommitSwap(id), [], t);
    steps := [CommitSwap(id)] + [];
    LeadsOn(s1, CommitManager(id), steps, t);
    steps := [CommitManager(id)] + steps;
    LeadsOn(s, SwitchSyncer(id), steps, t);
    steps := [SwitchSyncer(id)] + steps;
  }

  ghost predicate EndsAs(s: Sys, t: Sys, id: CallId, req: Request, luck: Luck, client: ClientId)
    requires PureRejection(req).None?
  {
    var obstacle := PreparationObstacle(req, luck, s.profile, s.offered);
    if obstacle.Some? then Refuses(s, t, id, obstacle.value)
    else Accepts(s, t, id, Commit(id, req, s.offered, client))
  }

  lemma FromSaved(s: Sys, id: CallId, ok: bool, client: ClientId, home: Sys) returns (steps: seq<Step>, t: Sys)
    requires In(s, id) && s.calls[id].Saved?
    requires var c := s.calls[id];
             && c.snap.before == home.store && s.store == Marshalled(c.next) && s.secret == SecretAfter(c.req, home.secret)
             && Decided(c.req, c.next, c.seen, DurableOf(home)) && (!c.req.secretAction.Keep? ==> c.snap.prev == home.secret)
             && s == home.(store := s.store, secret := s.secret, calls := s.calls, draining := s.draining)
    ensures Leads(s, steps, t)
    ensures if ok then Accepts(home, t, id, Commit(id, s.calls[id].req, s.calls[id].seen, client))
            else Refuses(home, t, id, InvalidURL)
  {
    var s1 := After(s, BuildClient(id, ok, client));
    if ok {
      steps, t := CommitEnds(s1, id);
    } else {
      steps, t := UndoEnds(s1, id, home);
    }
    LeadsOn(s, BuildClient(id, ok, client), steps, t);
    steps := [BuildClient(id, ok, client)] + steps;
  }

  lemma FromSecretSet(s: Sys, id: CallId, luck: Luck, client: ClientId, home: Sys) returns (steps: seq<Step>, t: Sys)
    requires In(s, id) && s.calls[id].SecretSet?
    requires var c := s.calls[id];
             && c.snap.before == home.store && s.secret == SecretAfter(c.req, home.secret)
             && Decided(c.req, c.next, c.seen, DurableOf(home)) && (!c.req.secretAction.Keep? ==> c.snap.prev == home.secret)
             && s == home.(secret := s.secret, calls := s.calls, draining := s.draining)
    ensures Leads(s, steps, t)
    ensures if !(luck.saveStore && Savable(s.calls[id].next)) then Refuses(home, t, id, StorageError)
            else if !luck.buildClient then Refuses(home, t, id, InvalidURL)
            else Accepts(home, t, id, Commit(id, s.calls[id].req, s.calls[id].seen, client))
  {
    var s1 := After(s, SaveFile(id, luck.saveStore));
    if s1.calls[id].UndoSecret? {
      steps, t := UndoEnds(s1, id, home);
    } else {
      steps, t := FromSaved(s1, id, luck.buildClient, client, home);
    }
    LeadsOn(s, SaveFile(id, luck.saveStore), steps, t);
    steps := [SaveFile(id, luck.saveStore)] + steps;
  }

  /** From the resolved profile on. */
  lemma FromResolved(s: Sys, id: CallId, luck: Luck, client: ClientId, home: Sys) returns (steps: seq<Step>, t: Sys)
    requires In(s, id) && s.calls[id].Resolved?
    requires var c := s.calls[id];
             && PureRejection(c.req).None? && c.snap.before == home.store && (!c.req.secretAction.Keep? ==> c.snap.prev == home.secret)
             && s == home.(calls := s.calls, draining := s.draining)
             && luck.readStore && (!c.req.secretAction.Keep? ==> luck.getSecret)
             && ResolveTls(c.req, home.offered, home.profile).Some?
             && c.next == NextProfile(c.req, ResolveTls(c.req, home.offered, home.profile).value) && c.seen == home.offered
    ensures Leads(s, steps, t) && EndsAs(home, t, id, s.calls[id].req, luck, client)
  {
    var s1 := After(s, SetSecret(id, luck.setSecret));
    if s1.calls[id].Aborting? {
      steps, t := AbortEnds(s1, id);
    } else {
      steps, t := FromSecretSet(s1, id, luck, client, home);
    }
    LeadsOn(s, SetSecret(id, luck.setSecret), steps, t);
    steps := [SetSecret(id, luck.setSecret)] + steps;
  }

  lemma FromExclusive(s: Sys, id: CallId, luck: Luck, client: ClientId) returns (steps: seq<Step>, t: Sys)
    requires In(s, id) && s.calls[id].Exclusive? && PureRejection(s.calls[id].req).None?
    ensures Leads(s, steps, t) && EndsAs(s, t, id, s.calls[id].req, luck, client)
  {
    var s1 := After(s, ReadFile(id, luck.readStore));
    if s1.calls[id].Aborting? {
      steps, t := AbortEnds(s1, id);
    } else {
      var s2 := After(s1, ReadSecret(id, luck.getSecret));
      if s2.calls[id].Aborting? {
        steps, t := AbortEnds(s2, id);
      } else {
        var s3 := After(s2, ResolvePin(id));
        if s3.calls[id].Aborting? {
          steps, t := AbortEnds(s3, id);
        } else {
          steps, t := FromResolved(s3, id, luck, client, s);
        }
        LeadsOn(s2, ResolvePin(id), steps, t);
        steps := [ResolvePin(id)] + steps;
      }
      LeadsOn(s1, ReadSecret(id, luck.getSecret), steps, t);
      steps := [ReadSecret(id, luck.getSecret)] + steps;
    }
    LeadsOn(s, ReadFile(id, luck.readStore), steps, t);
    steps := [ReadFile(id, luck.readStore)] + steps;
  }

  /** The method Manager.Configure and this machine agree: a call whose steps run without
      anything in between is refused for exactly the first obstacle that Configure reports
      and then changes nothing, or leaves exactly what Configure is proved to leave. */
  lemma UndisturbedConfigure(s: Sys, id: CallId, req: Request, luck: Luck, client: ClientId) returns (steps: seq<Step>, t: Sys)
    requires !In(s, id) && !s.draining
    ensures Leads(s, steps, t)
    ensures var obstacle := Obstacle(req, luck, s.busy > 0, s.profile, s.offered);
            if obstacle.Some? then Refuses(s, t, id, obstacle.value)
            else Accepts(s, t, id, Commit(id, req, s.offered, client))
  {
    var s1 := After(s, Enter(id, req));
    var s2 := After(s1, Begin(id));
    if s2.calls[id].Exclusive? {
      steps, t := FromExclusive(s2, id, luck, client);
    } else {
      steps, t := [], s2;
    }
    LeadsOn(s1, Begin(id), steps, t);
    steps := [Begin(id)] + steps;
    LeadsOn(s, Enter(id, req), steps, t);
    steps := [Enter(id, req)] + steps;
  }
}
