/** Every run of the syncer: one cycle goroutine whose lock sections interleave with
    backend switches, subscribers and the backends themselves. Backend calls happen
    between sections, so a switch can fall anywhere inside a cycle. */
module SyncRuns {
  import opened Options
  import opened Torrents
  import opened SyncSpec

  // ---- backends ----

  /** What a backend session remembers: the rid of its last reply and the map it then held. */
  datatype Session = NoSession | Session(rid: int, base: map<Hash, RawTorrent>)

  datatype Server = Server(torrents: map<Hash, RawTorrent>, session: Session, app: string, api: string)

  /** The adapter clamps a negative rid. */
  function Asked(rid: int): nat {
    if rid < 0 then 0 else rid
  }

  predicate FullReply(now: map<Hash, RawTorrent>, md: Maindata) {
    md.fullUpdate && md.torrents == map h | h in now :: Entry(Whole(now[h]))
  }

  predicate DeltaReply(base: map<Hash, RawTorrent>, now: map<Hash, RawTorrent>, md: Maindata) {
    && !md.fullUpdate
    && (forall h :: h in md.torrents ==> h in now && md.torrents[h].Entry?)
    && (forall h :: h in md.torrents ==> if h in base then Explains(base[h], now[h], md.torrents[h].fields)
                                         else md.torrents[h].fields == Whole(now[h]))
    && (forall h :: h in now && h !in md.torrents ==> h in base && base[h] == now[h])
    && (forall h :: h in base && h !in now ==> h in md.removed)
    && (forall h :: h in md.removed ==> h !in now)
  }

  /** A reply that reaches the daemon intact. A delta is sent only to a request that names
      the session's last reply; anything else gets a full update. */
  predicate HonestReply(srv: Server, asked: nat, md: Maindata) {
    if md.fullUpdate then FullReply(srv.torrents, md)
    else asked != 0 && srv.session.Session? && srv.session.rid == asked
         && DeltaReply(srv.session.base, srv.torrents, md)
  }

  // ---- the system ----

  datatype Capture = Capture(rid: int, ver: bool, prev: Committed, epoch: nat, backend: BackendId)

  /** A cycle between two of its sections. `held` is the map the backend held when it
      answered: a history variable, never read by the code. */
  datatype CycleAt =
    | Idle
    | LoggingIn(k: Capture)
    | LoggedIn(k: Capture)
    | Syncing(k: Capture)
    | Refused(k: Capture, fault: Fault)
    | Failing(k: Capture, fault: Fault)
    | ProbingApp(k: Capture, next: Committed, rid: int, held: map<Hash, RawTorrent>, ch: Change)
    | ProbingApi(k: Capture, next: Committed, rid: int, held: map<Hash, RawTorrent>, ch: Change, app: string)
    | Probed(k: Capture, next: Committed, rid: int, held: map<Hash, RawTorrent>, ch: Change)
    | Ready(k: Capture, next: Committed, rid: int, held: map<Hash, RawTorrent>, ch: Change)

  /** A subscriber: the snapshot it was given, the number of events published before it
      registered, every event ever put into its channel, and how many of them it took. */
  datatype View = View(snapshot: map<Hash, Torrent>, start: nat, log: seq<Change>, taken: nat)

  /** Core, channels, the cycle in flight and the backends, plus history: every event
      published, the committed map around each of them, what the backend held at the last
      good answer of this epoch, the version answers per epoch, and the auth-class
      failures of this epoch since its last successful login. */
  datatype Sys = Sys(
    core: Core, subs: map<SubId, seq<Change>>, cycle: CycleAt, servers: map<BackendId, Server>,
    published: seq<Change>, past: seq<map<Hash, Torrent>>, views: map<SubId, View>,
    lastHeld: map<Hash, RawTorrent>, apps: set<(nat, string)>, apis: set<(nat, string)>, authEnded: nat)

  datatype Step =
    | Begin
    | LoginReply(fault: Option<Fault>)
    | ClearFails
    | SyncReply(reply: Reply, ch: Change, session: Session)
    | NoteFault
    | Degrade
    | AppReply(ok: bool)
    | ApiReply(ok: bool)
    | SetVer
    | Commit(note: Option<Change>)
    | SwitchTo(b: BackendId, switchNote: Option<Change>)
    | Subscribe(id: SubId)
    | Take(id: SubId)
    | Cancel(id: SubId)
    | ServerMoves(b: BackendId, srv: Server)

  predicate Init(s: Sys) {
    && s.core.cur == START && s.core.epoch == 0 && s.core.rid == 0 && !s.core.ver
    && s.core.authFails == 0 && !s.core.sticky && s.core.backend in s.servers
    && s.subs == map[] && s.cycle == Idle && s.published == [] && s.past == [map[]]
    && s.views == map[] && s.lastHeld == map[] && s.apps == {} && s.apis == {} && s.authEnded == 0
  }

  /** Login, SyncMaindata, AppVersion and WebAPIVersion. */
  predicate CallsBackend(step: Step) {
    step.LoginReply? || step.SyncReply? || step.AppReply? || step.ApiReply?
  }

  /** The step has its actor where it starts from. */
  predicate Fits(s: Sys, step: Step) {
    match step
    case Begin => s.cycle.Idle?
    case LoginReply(_) => s.cycle.LoggingIn?
    case ClearFails => s.cycle.LoggedIn?
    case SyncReply(_, _, _) => s.cycle.Syncing? && s.cycle.k.backend in s.servers
    case NoteFault => s.cycle.Refused?
    case Degrade => s.cycle.Failing?
    case AppReply(_) => s.cycle.ProbingApp? && s.core.backend in s.servers
    case ApiReply(_) => s.cycle.ProbingApi? && s.core.backend in s.servers
    case SetVer => s.cycle.Probed?
    case Commit(_) => s.cycle.Ready?
    case SwitchTo(b, _) => b in s.servers
    case Subscribe(id) => id !in s.subs && id !in s.views
    case Take(id) => id in s.views && s.views[id].taken < |s.views[id].log|
    case Cancel(id) => true
    case ServerMoves(b, _) => b in s.servers
  }

  /** What it brings along is what the code and the backends can bring. */
  predicate Honest(s: Sys, step: Step)
    requires Fits(s, step)
  {
    match step
    case SyncReply(reply, ch, session) =>
      var srv := s.servers[s.cycle.k.backend];
      (reply.Answer? && Decodable(reply.md) ==>
         && HonestReply(srv, Asked(s.cycle.k.rid), reply.md)
         && session == Session(reply.md.rid, srv.torrents)
         && Describes(s.cycle.k.prev, reply.md, ch))
    case Commit(note) =>
      if s.core.epoch != s.cycle.k.epoch then note == None
      else note == if Quiet(s.cycle.ch, s.cycle.k.prev.backendOK) then None else Some(s.cycle.ch)
    case SwitchTo(b, note) => Announces(s.core.cur.torrents, Switched(s.core, b).cur, note)
    case ServerMoves(b, srv) =>
      // Torrents and versions change at will; a session can be lost but not invented.
      srv.session == s.servers[b].session || srv.session.NoSession?
    case _ => true
  }

  predicate Enabled(s: Sys, step: Step) {
    Fits(s, step) && Honest(s, step)
  }

  /** A put happens for exactly the subscribers that stay registered. */
  function Seen(views: map<SubId, View>, subs: map<SubId, seq<Change>>, note: Option<Change>): map<SubId, View> {
    if note.None? then views
    else map id | id in views :: if id in Announced(subs, note.value) then views[id].(log := views[id].log + [note.value]) else views[id]
  }

  function Publish(s: Sys, core: Core, note: Option<Change>): Sys {
    s.(core := core, subs := Noted(s.subs, note), views := Seen(s.views, s.subs, note),
       published := if note.Some? then s.published + [note.value] else s.published,
       past := if note.Some? then s.past + [core.cur.torrents] else s.past)
  }

  function After(s: Sys, step: Step): Sys
    requires Fits(s, step)
  {
    match step
    case Begin =>
      var k := Capture(s.core.rid, s.core.ver, s.core.cur, s.core.epoch, s.core.backend);
      s.(cycle := if s.core.sticky then Failing(k, OtherFault)
                  else if !s.core.cur.backendOK then LoggingIn(k) else Syncing(k))
    case LoginReply(fault) =>
      s.(cycle := if fault.Some? then Refused(s.cycle.k, fault.value) else LoggedIn(s.cycle.k))
    case ClearFails =>
      s.(core := LoginNoted(s.core, s.cycle.k.epoch), cycle := Syncing(s.cycle.k),
         authEnded := if s.core.epoch == s.cycle.k.epoch then 0 else s.authEnded)
    case SyncReply(reply, ch, session) =>
      var k := s.cycle.k;
      var t := s.(servers := s.servers[k.backend := s.servers[k.backend].(session := session)]);
      if reply.Failed? then t.(cycle := Refused(k, reply.fault))
      else if !Decodable(reply.md) then t.(cycle := Failing(k, OtherFault))
      else
        var next := Draft(k.prev, reply.md);
        var held := s.servers[k.backend].torrents;
        t.(cycle := if NeedsProbe(k.ver, k.prev) then ProbingApp(k, next, reply.md.rid, held, ch)
                    else Ready(k, next, reply.md.rid, held, ch))
    case NoteFault =>
      s.(core := AuthNoted(s.core, s.cycle.fault), cycle := Failing(s.cycle.k, s.cycle.fault),
         authEnded := if IsAuth(s.cycle.fault) && s.core.epoch == s.cycle.k.epoch then s.authEnded + 1 else s.authEnded)
    case Degrade =>
      s.(core := Degraded(s.core, s.cycle.k.epoch, s.cycle.fault), cycle := Idle)
    case AppReply(ok) =>
      // The probe reads the backend field again, without the lock.
      var c := s.cycle;
      if ok then s.(apps := s.apps + {(s.core.epoch, s.servers[s.core.backend].app)},
                    cycle := ProbingApi(c.k, c.next, c.rid, c.held, c.ch, s.servers[s.core.backend].app))
      else s.(cycle := Ready(c.k, c.next, c.rid, c.held, c.ch))
    case ApiReply(ok) =>
      var c := s.cycle;
      var api := s.servers[s.core.backend].api;
      if ok then s.(apis := s.apis + {(s.core.epoch, api)},
                    cycle := Probed(c.k, c.next.(appVersion := c.app, webApi := api), c.rid, c.held, c.ch))
      else s.(cycle := Ready(c.k, c.next, c.rid, c.held, c.ch))
    case SetVer =>
      var c := s.cycle;
      s.(core := s.core.(ver := true), cycle := Ready(c.k, c.next, c.rid, c.held, c.ch))
    case Commit(note) =>
      var c := s.cycle;
      Publish(s, CommittedCore(s.core, c.k.epoch, c.next, c.rid), note)
        .(cycle := Idle, lastHeld := if s.core.epoch == c.k.epoch then c.held else s.lastHeld)
    case SwitchTo(b, note) =>
      Publish(s, Switched(s.core, b), note).(lastHeld := map[], authEnded := 0)
    case Subscribe(id) =>
      s.(subs := s.subs[id := []], views := s.views[id := View(s.core.cur.torrents, |s.published|, [], 0)])
    case Take(id) =>
      s.(views := s.views[id := s.views[id].(taken := s.views[id].taken + 1)],
         subs := if id in s.subs && s.subs[id] != [] then s.subs[id := s.subs[id][1..]] else s.subs)
    case Cancel(id) => s.(subs := s.subs - {id})
    case ServerMoves(b, srv) => s.(servers := s.servers[b := srv])
  }

  ghost predicate StepAt(states: seq<Sys>, steps: seq<Step>, i: nat)
    requires i < |steps| < |states|
  {
    Enabled(states[i], steps[i]) && states[i + 1] == After(states[i], steps[i])
  }

  ghost predicate IsRun(states: seq<Sys>, steps: seq<Step>) {
    && |states| == |steps| + 1
    && Init(states[0])
    && forall i :: 0 <= i < |steps| ==> StepAt(states, steps, i)
  }

  // ---- invariants ----

  /** While nothing switched the backend, nothing else moved what the cycle captured; after
      a switch nothing of the old epoch is left. */
  predicate CaptureHolds(s: Sys) {
    !s.cycle.Idle? ==>
      var k := s.cycle.k;
      && k.epoch <= s.core.epoch
      && k.backend in s.servers
      && (k.epoch == s.core.epoch ==> k.backend == s.core.backend && k.prev == s.core.cur && k.rid == s.core.rid)
      && (k.epoch < s.core.epoch ==> s.core.rid == 0 && !s.core.cur.backendOK)
  }

  /** If the backend would answer the committed rid with a delta, that delta is against
      the map the daemon committed. */
  predicate Matched(s: Sys) {
    s.core.backend in s.servers &&
    var session := s.servers[s.core.backend].session;
    Asked(s.core.rid) != 0 && session.Session? && session.rid == Asked(s.core.rid) ==>
      s.core.cur.torrents == NormalAll(session.base)
  }

  predicate Answered(c: CycleAt) {
    c.ProbingApp? || c.ProbingApi? || c.Probed? || c.Ready?
  }

  predicate Unasked(c: CycleAt) {
    c.Idle? || c.LoggingIn? || c.LoggedIn? || c.Syncing?
  }

  predicate SessionOk(s: Sys) {
    && s.core.backend in s.servers
    && (Unasked(s.cycle) ==> Matched(s))
    && (Answered(s.cycle) && s.cycle.k.epoch == s.core.epoch ==>
          var srv := s.servers[s.core.backend];
          && s.cycle.next.torrents == NormalAll(s.cycle.held)
          && (srv.session.NoSession? || srv.session == Session(s.cycle.rid, s.cycle.held)))
  }

  predicate DraftOk(s: Sys) {
    Answered(s.cycle) ==>
      var c := s.cycle;
      && c.next.backendOK && c.next.generation == c.k.prev.generation + 1 && c.ch.seqNo == c.next.generation
      && Replay(c.k.prev.torrents, c.ch) == c.next.torrents
  }

  predicate VersionsOk(s: Sys) {
    && (s.core.cur.appVersion == "" || (s.core.epoch, s.core.cur.appVersion) in s.apps)
    && (s.core.cur.webApi == "" || (s.core.epoch, s.core.cur.webApi) in s.apis)
    && (Answered(s.cycle) && s.cycle.k.epoch == s.core.epoch ==>
          && (s.cycle.next.appVersion == "" || (s.core.epoch, s.cycle.next.appVersion) in s.apps)
          && (s.cycle.next.webApi == "" || (s.core.epoch, s.cycle.next.webApi) in s.apis)
          && (s.cycle.ProbingApi? ==> (s.core.epoch, s.cycle.app) in s.apps))
  }

  predicate AuthOk(s: Sys) {
    && (s.core.sticky <==> s.core.authFails >= STICKY_AUTH_FAILS)
    && s.authEnded <= s.core.authFails <= STICKY_AUTH_FAILS
    && (s.core.sticky ==> s.cycle.Idle? || s.cycle.Failing?)
  }

  predicate HistoryOk(s: Sys) {
    && |s.past| == |s.published| + 1
    && s.past[|s.published|] == s.core.cur.torrents
    && (forall i :: 0 <= i < |s.published| ==> Replay(s.past[i], s.published[i]) == s.past[i + 1])
    && (forall i :: 0 <= i < |s.published| ==> s.published[i].seqNo <= s.core.cur.generation)
    && (forall i, j :: 0 <= i < j < |s.published| ==> s.published[i].seqNo < s.published[j].seqNo)
  }

  predicate ViewOk(s: Sys, id: SubId)
    requires id in s.views
  {
    var v := s.views[id];
    && v.taken <= |v.log| && v.start + |v.log| <= |s.published| < |s.past|
    && v.snapshot == s.past[v.start]
    && v.log == s.published[v.start..v.start + |v.log|]
    && (id in s.subs ==> v.start + |v.log| == |s.published|
                         && s.subs[id] == v.log[v.taken..]
                         && |s.subs[id]| <= SUBSCRIBER_BUFFER)
  }

  predicate ViewsOk(s: Sys) {
    && s.subs.Keys <= s.views.Keys
    && forall id :: id in s.views ==> ViewOk(s, id)
  }

  predicate Inv(s: Sys) {
    && CaptureHolds(s) && SessionOk(s) && DraftOk(s) && VersionsOk(s) && AuthOk(s) && HistoryOk(s) && ViewsOk(s)
    && s.core.cur.torrents == NormalAll(s.lastHeld)
  }

  lemma InitInv(s: Sys)
    requires Init(s)
    ensures Inv(s)
  {
  }

  lemma EntryIsCurrent(h: Hash, base: map<Hash, RawTorrent>, now: map<Hash, RawTorrent>, md: Maindata)
    requires Decodable(md) && DeltaReply(base, now, md) && h in md.torrents
    ensures PatchedOne(NormalAll(base), h, md.torrents[h].fields) == Normal(h, now[h])
  {
    if h in base {
      MergeExplains(h, base[h], now[h], md.torrents[h].fields);
    } else {
      MergeWhole(h, now[h]);
    }
  }

  lemma PatchGives<T>(prev: map<Hash, T>, patch: map<Hash, T>, gone: set<Hash>, target: map<Hash, T>)
    requires forall h :: h in patch ==> h in target && patch[h] == target[h]
    requires forall h :: h in target && h !in patch ==> h in prev && prev[h] == target[h]
    requires forall h :: h in prev && h !in target ==> h in gone
    requires forall h :: h in gone ==> h !in target
    ensures prev + patch - gone == target
  {
    assert (prev + patch - gone).Keys == target.Keys;
  }

  /** A delta against the committed map yields the normalised current map. */
  lemma DeltaIsFullFetch(base: map<Hash, RawTorrent>, now: map<Hash, RawTorrent>, md: Maindata)
    requires Decodable(md) && DeltaReply(base, now, md)
    ensures Patched(NormalAll(base), md) == NormalAll(now)
  {
    var prev := NormalAll(base);
    var patch := map h | h in md.torrents :: PatchedOne(prev, h, md.torrents[h].fields);
    forall h | h in patch ensures h in NormalAll(now) && patch[h] == NormalAll(now)[h] {
      EntryIsCurrent(h, base, now, md);
    }
    PatchGives(prev, patch, (set h | h in md.removed), NormalAll(now));
  }

  lemma FullIsFullFetch(now: map<Hash, RawTorrent>, md: Maindata)
    requires Decodable(md) && FullReply(now, md)
    ensures Rebuilt(md) == NormalAll(now)
  {
    forall h | h in now ensures Rebuilt(md)[h] == Normal(h, now[h]) {
      MergeWhole(h, now[h]);
    }
  }

  /** An honest reply, full or delta, turns the map committed for its rid into the
      normalised map the backend holds. */
  lemma AnswerIsFullFetch(prev: map<Hash, Torrent>, srv: Server, asked: nat, md: Maindata)
    requires Decodable(md) && HonestReply(srv, asked, md)
    requires asked != 0 && srv.session.Session? && srv.session.rid == asked ==> prev == NormalAll(srv.session.base)
    ensures NextTorrents(prev, md) == NormalAll(srv.torrents)
  {
    if md.fullUpdate {
      FullIsFullFetch(srv.torrents, md);
    } else {
      DeltaIsFullFetch(srv.session.base, srv.torrents, md);
    }
  }

  // The steps in groups, to take one group at a time.

  predicate Starts(step: Step) {
    step.Begin? || step.LoginReply? || step.ClearFails?
  }

  predicate Fails(step: Step) {
    step.NoteFault? || step.Degrade?
  }

  predicate Probes(step: Step) {
    step.AppReply? || step.ApiReply? || step.SetVer?
  }

  predicate Publishes(step: Step) {
    step.Commit? || step.SwitchTo?
  }

  predicate Attends(step: Step) {
    step.Subscribe? || step.Take? || step.Cancel? || step.ServerMoves?
  }

  /** Subscribers and the backends' own moves leave the syncer alone. */
  lemma Aside(s: Sys, step: Step)
    requires Fits(s, step) && Attends(step)
    ensures var t := After(s, step);
            && t.core == s.core && t.cycle == s.cycle && t.servers.Keys == s.servers.Keys && t.apps == s.apps && t.apis == s.apis
            && t.published == s.published && t.past == s.past && t.lastHeld == s.lastHeld && t.authEnded == s.authEnded
  {
  }

  lemma CaptureStart(s: Sys, step: Step)
    requires CaptureHolds(s) && SessionOk(s) && Fits(s, step) && Starts(step)
    ensures CaptureHolds(After(s, step))
  {
  }

  lemma CaptureReply(s: Sys, step: Step)
    requires CaptureHolds(s) && SessionOk(s) && Fits(s, step) && (step.SyncReply? || Fails(step))
    ensures CaptureHolds(After(s, step))
  {
  }

  lemma CaptureProbe(s: Sys, step: Step)
    requires CaptureHolds(s) && SessionOk(s) && Fits(s, step) && Probes(step)
    ensures CaptureHolds(After(s, step))
  {
  }

  lemma CapturePublish(s: Sys, step: Step)
    requires CaptureHolds(s) && SessionOk(s) && Fits(s, step) && Publishes(step)
    ensures CaptureHolds(After(s, step))
  {
  }

  lemma CaptureStep(s: Sys, step: Step)
    requires CaptureHolds(s) && SessionOk(s) && Fits(s, step)
    ensures CaptureHolds(After(s, step))
  {
    if Starts(step) {
      CaptureStart(s, step);
    } else if Probes(step) {
      CaptureProbe(s, step);
    } else if Publishes(step) {
      CapturePublish(s, step);
    } else if Attends(step) {
      Aside(s, step);
    } else {
      CaptureReply(s, step);
    }
  }

  lemma SessionStepAnswer(s: Sys, step: Step)
    requires CaptureHolds(s) && SessionOk(s) && Enabled(s, step) && step.SyncReply?
    requires step.reply.Answer? && Decodable(step.reply.md) && s.cycle.k.epoch == s.core.epoch
    ensures SessionOk(After(s, step))
  {
    AnswerIsFullFetch(s.core.cur.torrents, s.servers[s.core.backend], Asked(s.core.rid), step.reply.md);
  }

  lemma SessionStepReply(s: Sys, step: Step)
    requires CaptureHolds(s) && SessionOk(s) && Enabled(s, step) && step.SyncReply?
    ensures SessionOk(After(s, step))
  {
    if step.reply.Answer? && Decodable(step.reply.md) && s.cycle.k.epoch == s.core.epoch {
      SessionStepAnswer(s, step);
    } else {
      SessionStepNoAnswer(s, step);
    }
  }

  lemma SessionStepNoAnswer(s: Sys, step: Step)
    requires CaptureHolds(s) && SessionOk(s) && Fits(s, step) && step.SyncReply?
    requires !(step.reply.Answer? && Decodable(step.reply.md) && s.cycle.k.epoch == s.core.epoch)
    ensures SessionOk(After(s, step))
  {
  }

  lemma SessionStepPublish(s: Sys, step: Step)
    requires CaptureHolds(s) && SessionOk(s) && Fits(s, step) && (step.Commit? || step.SwitchTo?)
    ensures SessionOk(After(s, step))
  {
  }

  lemma SessionStepStart(s: Sys, step: Step)
    requires SessionOk(s) && Fits(s, step) && Starts(step)
    ensures SessionOk(After(s, step))
  {
  }

  lemma SessionStepFail(s: Sys, step: Step)
    requires CaptureHolds(s) && SessionOk(s) && Fits(s, step) && Fails(step)
    ensures SessionOk(After(s, step))
  {
  }

  lemma SessionStepProbe(s: Sys, step: Step)
    requires SessionOk(s) && Fits(s, step) && Probes(step)
    ensures SessionOk(After(s, step))
  {
  }

  lemma SessionStepAside(s: Sys, step: Step)
    requires SessionOk(s) && Enabled(s, step) && Attends(step)
    ensures SessionOk(After(s, step))
  {
    Aside(s, step);
  }

  lemma SessionStep(s: Sys, step: Step)
    requires CaptureHolds(s) && SessionOk(s) && Enabled(s, step)
    ensures SessionOk(After(s, step))
  {
    if step.SyncReply? {
      SessionStepReply(s, step);
    } else if Publishes(step) {
      SessionStepPublish(s, step);
    } else if Starts(step) {
      SessionStepStart(s, step);
    } else if Probes(step) {
      SessionStepProbe(s, step);
    } else if Attends(step) {
      SessionStepAside(s, step);
    } else {
      SessionStepFail(s, step);
    }
  }

  lemma DraftStart(s: Sys, step: Step)
    requires DraftOk(s) && Enabled(s, step) && Starts(step)
    ensures DraftOk(After(s, step))
  {
  }

  lemma DraftReply(s: Sys, step: Step)
    requires DraftOk(s) && Enabled(s, step) && (step.SyncReply? || Fails(step))
    ensures DraftOk(After(s, step))
  {
  }

  lemma DraftProbe(s: Sys, step: Step)
    requires DraftOk(s) && Enabled(s, step) && Probes(step)
    ensures DraftOk(After(s, step))
  {
  }

  lemma DraftPublish(s: Sys, step: Step)
    requires DraftOk(s) && Enabled(s, step) && Publishes(step)
    ensures DraftOk(After(s, step))
  {
  }

  lemma DraftStep(s: Sys, step: Step)
    requires DraftOk(s) && Enabled(s, step)
    ensures DraftOk(After(s, step))
  {
    if Starts(step) {
      DraftStart(s, step);
    } else if Probes(step) {
      DraftProbe(s, step);
    } else if Publishes(step) {
      DraftPublish(s, step);
    } else if Attends(step) {
      Aside(s, step);
    } else {
      DraftReply(s, step);
    }
  }

  lemma VersionsStart(s: Sys, step: Step)
    requires CaptureHolds(s) && VersionsOk(s) && Fits(s, step) && Starts(step)
    ensures VersionsOk(After(s, step))
  {
  }

  lemma VersionsAnswer(s: Sys, step: Step)
    requires CaptureHolds(s) && VersionsOk(s) && Fits(s, step) && step.SyncReply?
    ensures VersionsOk(After(s, step))
  {
  }

  lemma VersionsReply(s: Sys, step: Step)
    requires CaptureHolds(s) && VersionsOk(s) && Fits(s, step) && (step.SyncReply? || Fails(step))
    ensures VersionsOk(After(s, step))
  {
    if step.SyncReply? {
      VersionsAnswer(s, step);
    }
  }

  lemma VersionsAsk(s: Sys, step: Step)
    requires VersionsOk(s) && Fits(s, step) && (step.AppReply? || step.SetVer?)
    ensures VersionsOk(After(s, step))
  {
  }

  lemma VersionsProbe(s: Sys, step: Step)
    requires CaptureHolds(s) && VersionsOk(s) && Fits(s, step) && Probes(step)
    ensures VersionsOk(After(s, step))
  {
    if !step.ApiReply? {
      VersionsAsk(s, step);
    }
  }

  lemma VersionsPublish(s: Sys, step: Step)
    requires CaptureHolds(s) && VersionsOk(s) && Fits(s, step) && Publishes(step)
    ensures VersionsOk(After(s, step))
  {
  }

  lemma VersionsStep(s: Sys, step: Step)
    requires CaptureHolds(s) && VersionsOk(s) && Fits(s, step)
    ensures VersionsOk(After(s, step))
  {
    if Starts(step) {
      VersionsStart(s, step);
    } else if Probes(step) {
      VersionsProbe(s, step);
    } else if Publishes(step) {
      VersionsPublish(s, step);
    } else if Attends(step) {
      Aside(s, step);
    } else {
      VersionsReply(s, step);
    }
  }

  lemma AuthStart(s: Sys, step: Step)
    requires AuthOk(s) && Fits(s, step) && Starts(step)
    ensures AuthOk(After(s, step))
  {
  }

  lemma AuthReply(s: Sys, step: Step)
    requires AuthOk(s) && Fits(s, step) && (step.SyncReply? || Fails(step))
    ensures AuthOk(After(s, step))
  {
  }

  lemma AuthProbe(s: Sys, step: Step)
    requires AuthOk(s) && Fits(s, step) && Probes(step)
    ensures AuthOk(After(s, step))
  {
  }

  lemma AuthPublish(s: Sys, step: Step)
    requires AuthOk(s) && Fits(s, step) && Publishes(step)
    ensures AuthOk(After(s, step))
  {
  }

  lemma AuthStep(s: Sys, step: Step)
    requires AuthOk(s) && Fits(s, step)
    ensures AuthOk(After(s, step))
  {
    if Starts(step) {
      AuthStart(s, step);
    } else if Probes(step) {
      AuthProbe(s, step);
    } else if Publishes(step) {
      AuthPublish(s, step);
    } else if Attends(step) {
      Aside(s, step);
    } else {
      AuthReply(s, step);
    }
  }

  lemma HeldPublish(s: Sys, step: Step)
    requires CaptureHolds(s) && SessionOk(s) && s.core.cur.torrents == NormalAll(s.lastHeld) && Fits(s, step) && Publishes(step)
    ensures After(s, step).core.cur.torrents == NormalAll(After(s, step).lastHeld)
  {
  }

  lemma UnpublishedStart(s: Sys, step: Step)
    requires Fits(s, step) && Starts(step)
    ensures var t := After(s, step);
            && t.core.cur.torrents == s.core.cur.torrents && t.core.cur.generation == s.core.cur.generation
            && t.lastHeld == s.lastHeld && t.published == s.published && t.past == s.past
            && t.views == s.views && t.subs == s.subs && t.core.epoch == s.core.epoch
  {
  }

  lemma UnpublishedReply(s: Sys, step: Step)
    requires Fits(s, step) && (step.SyncReply? || Fails(step))
    ensures var t := After(s, step);
            && t.core.cur.torrents == s.core.cur.torrents && t.core.cur.generation == s.core.cur.generation
            && t.lastHeld == s.lastHeld && t.published == s.published && t.past == s.past
            && t.views == s.views && t.subs == s.subs && t.core.epoch == s.core.epoch
  {
  }

  lemma UnpublishedProbe(s: Sys, step: Step)
    requires Fits(s, step) && Probes(step)
    ensures var t := After(s, step);
            && t.core.cur.torrents == s.core.cur.torrents && t.core.cur.generation == s.core.cur.generation
            && t.lastHeld == s.lastHeld && t.published == s.published && t.past == s.past
            && t.views == s.views && t.subs == s.subs && t.core.epoch == s.core.epoch
  {
  }

  /** Only a commit or a switch moves the committed map and its history. */
  lemma Unpublished(s: Sys, step: Step)
    requires Fits(s, step) && !Publishes(step)
    ensures var t := After(s, step);
            && t.core.cur.torrents == s.core.cur.torrents && t.core.cur.generation == s.core.cur.generation
            && t.lastHeld == s.lastHeld && t.published == s.published && t.past == s.past
  {
    if Starts(step) {
      UnpublishedStart(s, step);
    } else if Probes(step) {
      UnpublishedProbe(s, step);
    } else if Attends(step) {
      Aside(s, step);
    } else {
      UnpublishedReply(s, step);
    }
  }

  lemma HeldStep(s: Sys, step: Step)
    requires CaptureHolds(s) && SessionOk(s) && s.core.cur.torrents == NormalAll(s.lastHeld) && Fits(s, step)
    ensures After(s, step).core.cur.torrents == NormalAll(After(s, step).lastHeld)
  {
    if Publishes(step) {
      HeldPublish(s, step);
    } else {
      Unpublished(s, step);
    }
  }

  lemma PublishHistory(s: Sys, core: Core, note: Option<Change>)
    requires HistoryOk(s) && core.cur.generation > s.core.cur.generation
    requires Announces(s.core.cur.torrents, core.cur, note)
    ensures HistoryOk(Publish(s, core, note))
  {
    var t := Publish(s, core, note);
    if note.Some? {
      assert t.past == s.past + [core.cur.torrents] && t.published == s.published + [note.value];
    } else {
      assert t.past == s.past && t.published == s.published;
    }
  }

  /** What one publication does to one subscriber: it gets the event or it is dropped. */
  lemma ViewPublished(s: Sys, t: Sys, id: SubId, ev: Change)
    requires id in s.views && ViewOk(s, id) && id in t.views
    requires t.published == s.published + [ev] && |t.past| == |s.past| + 1 && s.past <= t.past && |s.past| == |s.published| + 1
    requires if id in t.subs then id in s.subs && t.subs[id] == s.subs[id] + [ev] && |t.subs[id]| <= SUBSCRIBER_BUFFER
                                  && t.views[id] == s.views[id].(log := s.views[id].log + [ev])
             else t.views[id] == s.views[id]
    ensures ViewOk(t, id)
  {
    var v, w := s.views[id], t.views[id];
    if id in t.subs {
      assert t.published[v.start..v.start + |w.log|] == s.published[v.start..] + [ev];
      assert w.log[w.taken..] == v.log[v.taken..] + [ev];
    } else {
      assert t.published[v.start..v.start + |v.log|] == s.published[v.start..v.start + |v.log|];
    }
  }

  lemma PublishViews(s: Sys, core: Core, note: Option<Change>)
    requires |s.past| == |s.published| + 1 && ViewsOk(s)
    ensures ViewsOk(Publish(s, core, note))
  {
    var t := Publish(s, core, note);
    if note.Some? {
      forall id | id in t.views ensures ViewOk(t, id) {
        ViewPublished(s, t, id, note.value);
      }
    } else {
      ViewsUnmoved(s, t);
    }
  }

  /** A commit that goes through announces the step from the committed map to its draft. */
  lemma CommitAnnounces(s: Sys, step: Step)
    requires CaptureHolds(s) && DraftOk(s) && Enabled(s, step) && step.Commit? && s.core.epoch == s.cycle.k.epoch
    ensures Announces(s.core.cur.torrents, s.cycle.next, step.note)
  {
  }

  lemma HistoryCommit(s: Sys, step: Step)
    requires CaptureHolds(s) && DraftOk(s) && HistoryOk(s) && Enabled(s, step) && step.Commit?
    ensures HistoryOk(After(s, step))
  {
    if s.core.epoch == s.cycle.k.epoch {
      CommitAnnounces(s, step);
      PublishHistory(s, CommittedCore(s.core, s.cycle.k.epoch, s.cycle.next, s.cycle.rid), step.note);
    }
  }

  lemma HistoryStep(s: Sys, step: Step)
    requires CaptureHolds(s) && DraftOk(s) && HistoryOk(s) && Enabled(s, step)
    ensures HistoryOk(After(s, step))
  {
    if step.Commit? {
      HistoryCommit(s, step);
    } else if step.SwitchTo? {
      PublishHistory(s, Switched(s.core, step.b), step.switchNote);
    } else {
      Unpublished(s, step);
    }
  }

  lemma SubscriberJoins(s: Sys, id: SubId)
    requires HistoryOk(s) && ViewsOk(s) && Fits(s, Subscribe(id))
    ensures ViewsOk(After(s, Subscribe(id)))
  {
    var t := After(s, Subscribe(id));
    assert t.published[|s.published|..|s.published|] == [];
    forall x | x in t.views ensures ViewOk(t, x) {
      assert x != id ==> ViewOk(s, x);
    }
  }

  lemma SubscriberTakes(s: Sys, id: SubId)
    requires ViewsOk(s) && Fits(s, Take(id))
    ensures ViewsOk(After(s, Take(id)))
  {
    var t, v := After(s, Take(id)), s.views[id];
    assert ViewOk(s, id);
    assert v.log[v.taken..][1..] == v.log[v.taken + 1..];
    forall x | x in t.views ensures ViewOk(t, x) {
      assert x != id ==> ViewOk(s, x);
    }
  }

  lemma SubscriberLeaves(s: Sys, id: SubId)
    requires ViewsOk(s)
    ensures ViewsOk(After(s, Cancel(id)))
  {
    var t := After(s, Cancel(id));
    forall x | x in t.views ensures ViewOk(t, x) {
      assert ViewOk(s, x);
    }
  }

  lemma ViewsUnmoved(s: Sys, t: Sys)
    requires ViewsOk(s)
    requires t.published == s.published && t.past == s.past && t.views == s.views && t.subs == s.subs
    ensures ViewsOk(t)
  {
    forall id | id in t.views ensures ViewOk(t, id) {
      assert ViewOk(s, id);
    }
  }

  lemma ViewsCommit(s: Sys, step: Step)
    requires HistoryOk(s) && ViewsOk(s) && Fits(s, step) && step.Commit?
    ensures ViewsOk(After(s, step))
  {
    var c := s.cycle;
    var core := CommittedCore(s.core, c.k.epoch, c.next, c.rid);
    PublishViews(s, core, step.note);
    ViewsUnmoved(Publish(s, core, step.note), After(s, step));
  }

  lemma ViewsSwitch(s: Sys, step: Step)
    requires HistoryOk(s) && ViewsOk(s) && Fits(s, step) && step.SwitchTo?
    ensures ViewsOk(After(s, step))
  {
    PublishViews(s, Switched(s.core, step.b), step.switchNote);
    ViewsUnmoved(Publish(s, Switched(s.core, step.b), step.switchNote), After(s, step));
  }

  lemma ViewsAside(s: Sys, step: Step)
    requires ViewsOk(s) && Fits(s, step) && !Publishes(step) && (!Attends(step) || step.ServerMoves?)
    ensures ViewsOk(After(s, step))
  {
    if Starts(step) {
      UnpublishedStart(s, step);
    } else if Probes(step) {
      UnpublishedProbe(s, step);
    } else if !Attends(step) {
      UnpublishedReply(s, step);
    }
    ViewsUnmoved(s, After(s, step));
  }

  lemma ViewsStep(s: Sys, step: Step)
    requires HistoryOk(s) && ViewsOk(s) && Fits(s, step)
    ensures ViewsOk(After(s, step))
  {
    match step
    case Commit(_) => ViewsCommit(s, step);
    case SwitchTo(_, _) => ViewsSwitch(s, step);
    case Subscribe(id) => SubscriberJoins(s, id);
    case Take(id) => SubscriberTakes(s, id);
    case Cancel(id) => SubscriberLeaves(s, id);
    case _ => ViewsAside(s, step);
  }

  lemma InvStep(s: Sys, step: Step)
    requires Inv(s) && Enabled(s, step)
    ensures Inv(After(s, step))
  {
    CaptureStep(s, step);
    SessionStep(s, step);
    DraftStep(s, step);
    VersionsStep(s, step);
    AuthStep(s, step);
    HistoryStep(s, step);
    ViewsStep(s, step);
    HeldStep(s, step);
  }

  lemma {:induction false} Reachable(states: seq<Sys>, steps: seq<Step>, i: nat)
    requires IsRun(states, steps) && i < |states|
    ensures Inv(states[i])
  {
    if i == 0 {
      InitInv(states[0]);
    } else {
      Reachable(states, steps, i - 1);
      assert StepAt(states, steps, i - 1);
      InvStep(states[i - 1], steps[i - 1]);
    }
  }

  // ---- the committed map is a full fetch ----

  /** Step j is an intact answer, asked for by the backend and epoch of state i; `held` is
      the whole map that backend held at that moment. */
  ghost predicate AnsweredAt(states: seq<Sys>, steps: seq<Step>, i: nat, j: nat, held: map<Hash, RawTorrent>, rid: int)
    requires i < |states| == |steps| + 1
  {
    && j < i
    && steps[j].SyncReply? && steps[j].reply.Answer? && Decodable(steps[j].reply.md)
    && states[j].cycle.Syncing?
    && states[j].core.epoch == states[j].cycle.k.epoch == states[i].core.epoch
    && states[j].core.backend == states[j].cycle.k.backend == states[i].core.backend
    && states[j].core.backend in states[j].servers
    && held == states[j].servers[states[j].core.backend].torrents
    && rid == steps[j].reply.md.rid
  }

  /** A draft of the current epoch survives a step only unchanged, and neither an answer nor
      a switch is such a step. */
  lemma DraftKept(s: Sys, step: Step)
    requires CaptureHolds(s) && Fits(s, step) && !step.SyncReply?
    requires var t := After(s, step); Answered(t.cycle) && t.cycle.k.epoch == t.core.epoch
    ensures var t := After(s, step);
            && Answered(s.cycle) && s.cycle.k == t.cycle.k && s.cycle.held == t.cycle.held && s.cycle.rid == t.cycle.rid
            && s.core.epoch == t.core.epoch && s.core.backend == t.core.backend && !step.SwitchTo?
  {
    if step.AppReply? || step.ApiReply? || step.SetVer? {
      ProbeKeepsDraft(s, step);
    } else {
      assert After(s, step).cycle == s.cycle;
    }
  }

  lemma ProbeKeepsDraft(s: Sys, step: Step)
    requires Fits(s, step) && (step.AppReply? || step.ApiReply? || step.SetVer?)
    ensures var t := After(s, step);
            && Answered(s.cycle) && s.cycle.k == t.cycle.k && s.cycle.held == t.cycle.held && s.cycle.rid == t.cycle.rid
            && s.core.epoch == t.core.epoch && s.core.backend == t.core.backend
  {
  }

  lemma DraftMade(s: Sys, step: Step)
    requires CaptureHolds(s) && Fits(s, step) && step.SyncReply?
    requires var t := After(s, step); Answered(t.cycle) && t.cycle.k.epoch == t.core.epoch
    ensures var t := After(s, step);
            && s.cycle.Syncing? && step.reply.Answer? && Decodable(step.reply.md)
            && s.core.epoch == s.cycle.k.epoch == t.core.epoch
            && s.core.backend == s.cycle.k.backend == t.core.backend && s.core.backend in s.servers
            && t.cycle.held == s.servers[s.core.backend].torrents && t.cycle.rid == step.reply.md.rid
  {
  }

  /** A cycle about to commit in its own epoch carries the map of its own answer, the last
      one any backend gave. */
  lemma {:induction false} DraftFromAnswer(states: seq<Sys>, steps: seq<Step>, i: nat) returns (j: nat)
    requires IsRun(states, steps) && i < |states|
    requires Answered(states[i].cycle) && states[i].cycle.k.epoch == states[i].core.epoch
    ensures AnsweredAt(states, steps, i, j, states[i].cycle.held, states[i].cycle.rid)
    ensures forall t :: j < t < i ==> !steps[t].SyncReply? && !steps[t].SwitchTo?
  {
    assert i > 0;
    var s, step := states[i - 1], steps[i - 1];
    assert CaptureHolds(s) by { Reachable(states, steps, i - 1); }
    assert StepAt(states, steps, i - 1);
    if step.SyncReply? {
      DraftMade(s, step);
      j := i - 1;
    } else {
      DraftKept(s, step);
      j := DraftFromAnswer(states, steps, i - 1);
    }
  }

  /** What a step that neither commits nor switches does to the committed map. */
  lemma CommittedKept(s: Sys, step: Step)
    requires Fits(s, step) && !step.SwitchTo?
    requires step.Commit? ==> s.core.epoch != s.cycle.k.epoch
    ensures var t := After(s, step);
            && t.core.cur.torrents == s.core.cur.torrents && (t.core.rid == s.core.rid || t.core.rid == 0)
            && t.core.epoch == s.core.epoch && t.core.backend == s.core.backend
  {
  }

  /** In every reachable state the committed torrents are either empty, with rid 0 and no
      good cycle yet in this epoch, or exactly the normalised full map the current epoch's
      backend held when it answered some cycle of this epoch; the rid then is that
      answer's, or 0 after a failure. Lost replies, undecodable payloads, restarts and
      switches are all steps of the run. */
  lemma {:induction false} CommittedIsAFullFetch(states: seq<Sys>, steps: seq<Step>, i: nat)
    requires IsRun(states, steps) && i < |states|
    ensures (states[i].core.cur.torrents == map[] && states[i].core.rid == 0)
            || exists j: nat, held, rid :: AnsweredAt(states, steps, i, j, held, rid)
                 && states[i].core.cur.torrents == NormalAll(held)
                 && (states[i].core.rid == 0 || states[i].core.rid == rid)
  {
    if i > 0 {
      var s, step := states[i - 1], steps[i - 1];
      assert StepAt(states, steps, i - 1);
      if step.Commit? && s.core.epoch == s.cycle.k.epoch {
        var j := DraftFromAnswer(states, steps, i - 1);
        assert SessionOk(s) && CaptureHolds(s) by { Reachable(states, steps, i - 1); }
        assert AnsweredAt(states, steps, i, j, s.cycle.held, s.cycle.rid);
      } else if !step.SwitchTo? {
        CommittedKept(s, step);
        CommittedIsAFullFetch(states, steps, i - 1);
        if !(s.core.cur.torrents == map[] && s.core.rid == 0) {
          var j: nat, held, rid :| AnsweredAt(states, steps, i - 1, j, held, rid)
            && s.core.cur.torrents == NormalAll(held) && (s.core.rid == 0 || s.core.rid == rid);
          assert AnsweredAt(states, steps, i, j, held, rid);
        }
      }
    }
  }

  /** After every successful commit the map and the rid are those of the answer to that
      very cycle: no backend answered anything in between. */
  lemma CommitEqualsFullFetch(states: seq<Sys>, steps: seq<Step>, i: nat) returns (j: nat)
    requires IsRun(states, steps) && i < |steps|
    requires steps[i].Commit? && StepAt(states, steps, i) && states[i].core.epoch == states[i].cycle.k.epoch
    ensures j < i && AnsweredAt(states, steps, i + 1, j, states[i].cycle.held, states[i].cycle.rid)
    ensures states[i + 1].core.cur.torrents == NormalAll(states[j].servers[states[i + 1].core.backend].torrents)
    ensures states[i + 1].core.rid == steps[j].reply.md.rid
    ensures states[i + 1].core.cur.backendOK
    ensures forall t :: j < t < i ==> !steps[t].SyncReply? && !steps[t].SwitchTo?
  {
    j := DraftFromAnswer(states, steps, i);
    assert SessionOk(states[i]) && CaptureHolds(states[i]) && DraftOk(states[i]) by { Reachable(states, steps, i); }
    assert StepAt(states, steps, i);
  }

  /** Versions shown were answered in the epoch that shows them. */
  lemma VersionsAreOfThisEpoch(states: seq<Sys>, steps: seq<Step>, i: nat)
    requires IsRun(states, steps) && i < |states|
    ensures var c := states[i].core;
            && (c.cur.appVersion == "" || (c.epoch, c.cur.appVersion) in states[i].apps)
            && (c.cur.webApi == "" || (c.epoch, c.cur.webApi) in states[i].apis)
  {
    Reachable(states, steps, i);
  }

  // ---- the change feed ----

  lemma {:induction false} ReplayPast(s: Sys, from: nat, n: nat)
    requires HistoryOk(s) && from + n <= |s.published|
    ensures ReplayAll(s.past[from], s.published[from..from + n]) == s.past[from + n]
  {
    if n > 0 {
      ReplayPast(s, from, n - 1);
      var evs := s.published[from..from + n];
      assert evs[..n - 1] == s.published[from..from + n - 1];
      assert evs[n - 1] == s.published[from + n - 1];
    }
  }

  lemma ViewReplays(s: Sys, id: SubId, n: nat)
    requires HistoryOk(s) && id in s.views && ViewOk(s, id) && n <= |s.views[id].log|
    ensures var v := s.views[id]; ReplayAll(v.snapshot, v.log[..n]) == s.past[v.start + n]
  {
    var v := s.views[id];
    ReplayPast(s, v.start, n);
    assert v.log[..n] == s.published[v.start..v.start + n];
  }

  /** The subscriber's view: its snapshot with every event ever put into its channel
      replayed is the current committed map as long as it is registered, and the map that
      was committed around its last event once it was dropped; what it took so far leads to
      an earlier committed map, and what it has not taken waits in its channel. */
  lemma SubscriberView(states: seq<Sys>, steps: seq<Step>, i: nat, id: SubId)
    requires IsRun(states, steps) && i < |states| && id in states[i].views
    ensures var s, v := states[i], states[i].views[id];
            && v.taken <= |v.log| && v.start + |v.log| < |s.past|
            && ReplayAll(v.snapshot, v.log) == s.past[v.start + |v.log|]
            && ReplayAll(v.snapshot, v.log[..v.taken]) == s.past[v.start + v.taken]
            && (id in s.subs ==> ReplayAll(v.snapshot, v.log) == s.core.cur.torrents && s.subs[id] == v.log[v.taken..])
  {
    Reachable(states, steps, i);
    var s, v := states[i], states[i].views[id];
    ViewReplays(s, id, |v.log|);
    ViewReplays(s, id, v.taken);
    assert v.log[..|v.log|] == v.log;
  }

  /** The events a subscriber gets are consecutive published events, and published numbers
      strictly increase over the whole run. */
  lemma EventsInSequence(states: seq<Sys>, steps: seq<Step>, i: nat)
    requires IsRun(states, steps) && i < |states|
    ensures forall a, b :: 0 <= a < b < |states[i].published| ==>
              states[i].published[a].seqNo < states[i].published[b].seqNo
    ensures forall id :: id in states[i].views ==>
              var v := states[i].views[id];
              v.start + |v.log| <= |states[i].published| && v.log == states[i].published[v.start..v.start + |v.log|]
  {
    Reachable(states, steps, i);
    assert forall id :: id in states[i].views ==> ViewOk(states[i], id);
  }

  predicate Goes(s: Sys, step: Step) {
    step.SwitchTo? || (step.Commit? && s.cycle.Ready? && s.core.epoch == s.cycle.k.epoch)
  }

  lemma GenerationPublish(s: Sys, step: Step)
    requires CaptureHolds(s) && DraftOk(s) && Enabled(s, step) && Publishes(step)
    ensures var t := After(s, step);
            && t.core.cur.generation == s.core.cur.generation + (if Goes(s, step) then 1 else 0)
            && t.core.epoch == s.core.epoch + (if step.SwitchTo? then 1 else 0)
            && s.published <= t.published
            && (|t.published| > |s.published| ==> Goes(s, step) && t.published == s.published + [t.published[|s.published|]])
  {
  }

  lemma GenerationStep(s: Sys, step: Step)
    requires CaptureHolds(s) && DraftOk(s) && Enabled(s, step)
    ensures var t := After(s, step);
            && t.core.cur.generation == s.core.cur.generation + (if Goes(s, step) then 1 else 0)
            && t.core.epoch == s.core.epoch + (if step.SwitchTo? then 1 else 0)
            && s.published <= t.published
            && (|t.published| > |s.published| ==> Goes(s, step) && t.published == s.published + [t.published[|s.published|]])
  {
    if Publishes(step) {
      GenerationPublish(s, step);
    } else if Starts(step) {
      UnpublishedStart(s, step);
    } else if Probes(step) {
      UnpublishedProbe(s, step);
    } else if Attends(step) {
      Aside(s, step);
    } else {
      UnpublishedReply(s, step);
    }
  }

  /** One generation per switch and per commit that goes through, none for anything else,
      a degraded commit and a stale one included; events are only published by those. */
  lemma GenerationLaw(states: seq<Sys>, steps: seq<Step>, i: nat)
    requires IsRun(states, steps) && i < |steps|
    ensures var s, t, step := states[i], states[i + 1], steps[i];
            && t.core.cur.generation == s.core.cur.generation + (if Goes(s, step) then 1 else 0)
            && t.core.epoch == s.core.epoch + (if step.SwitchTo? then 1 else 0)
            && s.published <= t.published
            && (|t.published| > |s.published| ==> Goes(s, step) && t.published == s.published + [t.published[|s.published|]])
  {
    assert CaptureHolds(states[i]) && DraftOk(states[i]) by { Reachable(states, steps, i); }
    assert StepAt(states, steps, i);
    GenerationStep(states[i], steps[i]);
  }

  // ---- authentication frugality ----

  /** Since the last successful login of an epoch, at most three cycles ended in an
      auth-class failure. */
  lemma AtMostThreeAuthFailures(states: seq<Sys>, steps: seq<Step>, i: nat)
    requires IsRun(states, steps) && i < |states|
    ensures states[i].authEnded <= states[i].core.authFails <= STICKY_AUTH_FAILS
  {
    Reachable(states, steps, i);
  }

  lemma ParkedStep(s: Sys, step: Step)
    requires AuthOk(s) && s.core.sticky && Fits(s, step) && !step.SwitchTo?
    ensures !CallsBackend(step) && After(s, step).core.sticky
  {
  }

  /** Once parked, and until a switch, no step calls a backend and the syncer stays parked. */
  lemma {:induction false} ParkedIsQuiet(states: seq<Sys>, steps: seq<Step>, i: nat, j: nat)
    requires IsRun(states, steps) && i <= j < |states|
    requires states[i].core.sticky
    requires forall t :: i <= t < j ==> !steps[t].SwitchTo?
    ensures states[j].core.sticky
    ensures forall t :: i <= t < j ==> !CallsBackend(steps[t])
  {
    if i < j {
      ParkedIsQuiet(states, steps, i, j - 1);
      assert AuthOk(states[j - 1]) by { Reachable(states, steps, j - 1); }
      assert StepAt(states, steps, j - 1);
      ParkedStep(states[j - 1], steps[j - 1]);
    }
  }

  // ---- the steps of an undisturbed cycle ----

  ghost predicate Leads(s: Sys, steps: seq<Step>, t: Sys)
    decreases |steps|
  {
    if steps == [] then s == t
    else Enabled(s, steps[0]) && Leads(After(s, steps[0]), steps[1..], t)
  }

  lemma LeadsOn(s: Sys, step: Step, steps: seq<Step>, t: Sys)
    requires Enabled(s, step) && Leads(After(s, step), steps, t)
    ensures Leads(s, [step] + steps, t)
  {
    assert ([step] + steps)[1..] == steps;
  }

  lemma LeadsOnce(s: Sys, step: Step)
    requires Enabled(s, step)
    ensures Leads(s, [step], After(s, step))
  {
    LeadsOn(s, step, [], After(s, step));
  }

  /** What the subscribers were told between two states. */
  predicate Told(s: Sys, t: Sys, note: Option<Change>) {
    && t.subs == Noted(s.subs, note) && t.views == Seen(s.views, s.subs, note)
    && t.published == if note.Some? then s.published + [note.value] else s.published
  }

  /** The event that the decoding of an honest answer produces is one this machine takes. */
  lemma DecodedEventIsTaken(s: Sys, md: Maindata, ch: Change)
    requires s.cycle.Syncing? && s.cycle.k.backend in s.servers && Describes(s.cycle.k.prev, md, ch)
    requires HonestReply(s.servers[s.cycle.k.backend], Asked(s.cycle.k.rid), md)
    ensures Enabled(s, SyncReply(Answer(md), ch, Session(md.rid, s.servers[s.cycle.k.backend].torrents)))
  {
  }

  /** The method Syncer.Cycle and this machine agree: stepping the cycle alone from any idle
      state, with an event that describes the answer, ends in the core state, with the
      published event and the subscribers' channels that Cycle is proved to leave. */
  lemma UndisturbedCycle(s: Sys, login: Option<Fault>, reply: Reply, ch: Change, session: Session, probe: bool)
    returns (steps: seq<Step>, t: Sys)
    requires s.cycle.Idle? && s.core.backend in s.servers
    requires var k := Capture(s.core.rid, s.core.ver, s.core.cur, s.core.epoch, s.core.backend);
             Enabled(s.(cycle := Syncing(k)), SyncReply(reply, ch, session))
    ensures Leads(s, steps, t) && t.cycle.Idle?
    ensures var srv := s.servers[s.core.backend];
            t.core == CycleAlone(s.core, login, reply, if probe then Some((srv.app, srv.api)) else None)
    ensures Told(s, t, NoteOf(s.core, login, reply, ch))
  {
    var s1 := After(s, Begin);
    if s1.cycle.Failing? {
      LeadsOnce(s1, Degrade);
      t := After(s1, Degrade);
      steps := [Degrade];
    } else if s1.cycle.Syncing? {
      steps, t := FromSyncing(s1, reply, ch, session, probe);
    } else {
      steps, t := FromLoggingIn(s1, login, reply, ch, session, probe);
    }
    LeadsOn(s, Begin, steps, t);
    steps := [Begin] + steps;
  }

  lemma FromLoggingIn(s: Sys, login: Option<Fault>, reply: Reply, ch: Change, session: Session, probe: bool)
    returns (steps: seq<Step>, t: Sys)
    requires s.cycle.LoggingIn? && Enabled(s.(cycle := Syncing(s.cycle.k)), SyncReply(reply, ch, session))
    requires s.cycle.k == Capture(s.core.rid, s.core.ver, s.core.cur, s.core.epoch, s.core.backend)
    ensures Leads(s, steps, t) && t.cycle.Idle?
    ensures var srv := s.servers[s.core.backend];
            t.core == if login.Some? then Degraded(AuthNoted(s.core, login.value), s.core.epoch, login.value)
                      else AfterLogin(LoginNoted(s.core, s.core.epoch), s.core.ver, reply, if probe then Some((srv.app, srv.api)) else None)
    ensures Told(s, t, if login.None? && reply.Answer? && Decodable(reply.md) && !Quiet(ch, s.core.cur.backendOK) then Some(ch) else None)
  {
    var s1 := After(s, LoginReply(login));
    if login.Some? {
      steps, t := FromRefused(s1);
    } else {
      var s2 := After(s1, ClearFails);
      steps, t := FromSyncing(s2, reply, ch, session, probe);
      LeadsOn(s1, ClearFails, steps, t);
      steps := [ClearFails] + steps;
    }
    LeadsOn(s, LoginReply(login), steps, t);
    steps := [LoginReply(login)] + steps;
  }

  /** What a cycle makes of the answer it got. */
  function AfterLogin(c: Core, ver: bool, reply: Reply, versions: Option<(string, string)>): Core {
    if reply.Failed? then Degraded(AuthNoted(c, reply.fault), c.epoch, reply.fault) else Finished(c, ver, reply.md, versions)
  }

  lemma FromRefused(s: Sys) returns (steps: seq<Step>, t: Sys)
    requires s.cycle.Refused?
    ensures Leads(s, steps, t) && t.cycle.Idle? && Told(s, t, None)
    ensures t.core == Degraded(AuthNoted(s.core, s.cycle.fault), s.cycle.k.epoch, s.cycle.fault)
  {
    var s1 := After(s, NoteFault);
    t := After(s1, Degrade);
    LeadsOnce(s1, Degrade);
    LeadsOn(s, NoteFault, [Degrade], t);
    steps := [NoteFault] + [Degrade];
  }

  lemma FromReady(s: Sys) returns (steps: seq<Step>, t: Sys)
    requires s.cycle.Ready? && s.core.epoch == s.cycle.k.epoch
    ensures Leads(s, steps, t) && t.cycle.Idle?
    ensures t.core == CommittedCore(s.core, s.cycle.k.epoch, s.cycle.next, s.cycle.rid)
    ensures Told(s, t, if Quiet(s.cycle.ch, s.cycle.k.prev.backendOK) then None else Some(s.cycle.ch))
  {
    var step := Commit(if Quiet(s.cycle.ch, s.cycle.k.prev.backendOK) then None else Some(s.cycle.ch));
    LeadsOnce(s, step);
    steps, t := [step], After(s, step);
  }

  lemma FromProbing(s: Sys, probe: bool) returns (steps: seq<Step>, t: Sys)
    requires s.cycle.ProbingApp? && s.core.backend in s.servers && s.core.epoch == s.cycle.k.epoch
    ensures Leads(s, steps, t) && t.cycle.Idle?
    ensures var srv, c := s.servers[s.core.backend], s.cycle;
            t.core == if probe then CommittedCore(s.core.(ver := true), c.k.epoch, c.next.(appVersion := srv.app, webApi := srv.api), c.rid)
                      else CommittedCore(s.core, c.k.epoch, c.next, c.rid)
    ensures Told(s, t, if Quiet(s.cycle.ch, s.cycle.k.prev.backendOK) then None else Some(s.cycle.ch))
  {
    var s2 := After(s, AppReply(probe));
    if probe {
      var s3 := After(s2, ApiReply(true));
      var s4 := After(s3, SetVer);
      steps, t := FromReady(s4);
      LeadsOn(s3, SetVer, steps, t);
      LeadsOn(s2, ApiReply(true), [SetVer] + steps, t);
      steps := [ApiReply(true)] + ([SetVer] + steps);
    } else {
      steps, t := FromReady(s2);
    }
    LeadsOn(s, AppReply(probe), steps, t);
    steps := [AppReply(probe)] + steps;
  }

  /** After the answer: refused, failing, or with a draft. */
  lemma AnswerArrives(s: Sys, reply: Reply, ch: Change, session: Session)
    requires s.cycle.Syncing? && Fits(s, SyncReply(reply, ch, session))
    ensures var t, k := After(s, SyncReply(reply, ch, session)), s.cycle.k;
            && t.core == s.core && t.subs == s.subs && t.views == s.views && t.published == s.published
            && (forall b :: b in s.servers ==> b in t.servers && t.servers[b].app == s.servers[b].app && t.servers[b].api == s.servers[b].api)
            && t.cycle.k == k
            && (reply.Failed? ==> t.cycle == Refused(k, reply.fault))
            && (reply.Answer? && !Decodable(reply.md) ==> t.cycle == Failing(k, OtherFault))
            && (reply.Answer? && Decodable(reply.md) ==>
                  && (if NeedsProbe(k.ver, k.prev) then t.cycle.ProbingApp? else t.cycle.Ready?)
                  && t.cycle.next == Draft(k.prev, reply.md) && t.cycle.rid == reply.md.rid && t.cycle.ch == ch)
  {
  }

  lemma ToldAlike(s: Sys, s': Sys, t: Sys, note: Option<Change>)
    requires s'.subs == s.subs && s'.views == s.views && s'.published == s.published && Told(s', t, note)
    ensures Told(s, t, note)
  {
  }

  lemma FromSyncing(s: Sys, reply: Reply, ch: Change, session: Session, probe: bool)
    returns (steps: seq<Step>, t: Sys)
    requires s.cycle.Syncing? && Enabled(s, SyncReply(reply, ch, session))
    requires s.cycle.k.epoch == s.core.epoch && s.cycle.k.backend == s.core.backend && s.cycle.k.prev == s.core.cur
    ensures Leads(s, steps, t) && t.cycle.Idle?
    ensures var srv := s.servers[s.core.backend];
            t.core == AfterLogin(s.core, s.cycle.k.ver, reply, if probe then Some((srv.app, srv.api)) else None)
    ensures Told(s, t, if reply.Answer? && Decodable(reply.md) && !Quiet(ch, s.core.cur.backendOK) then Some(ch) else None)
  {
    var step := SyncReply(reply, ch, session);
    var s1 := After(s, step);
    AnswerArrives(s, reply, ch, session);
    var note := if reply.Answer? && Decodable(reply.md) && !Quiet(ch, s.core.cur.backendOK) then Some(ch) else None;
    if reply.Failed? {
      steps, t := FromRefused(s1);
    } else if !Decodable(reply.md) {
      LeadsOnce(s1, Degrade);
      steps, t := [Degrade], After(s1, Degrade);
    } else {
      steps, t := FromAnswered(s1, probe);
    }
    ToldAlike(s, s1, t, note);
    LeadsOn(s, step, steps, t);
    steps := [step] + steps;
  }

  lemma FromAnswered(s: Sys, probe: bool) returns (steps: seq<Step>, t: Sys)
    requires (s.cycle.ProbingApp? || s.cycle.Ready?) && s.core.backend in s.servers && s.core.epoch == s.cycle.k.epoch
    ensures Leads(s, steps, t) && t.cycle.Idle?
    ensures var srv, c := s.servers[s.core.backend], s.cycle;
            t.core == if c.ProbingApp? && probe then
                        CommittedCore(s.core.(ver := true), c.k.epoch, c.next.(appVersion := srv.app, webApi := srv.api), c.rid)
                      else CommittedCore(s.core, c.k.epoch, c.next, c.rid)
    ensures Told(s, t, if Quiet(s.cycle.ch, s.cycle.k.prev.backendOK) then None else Some(s.cycle.ch))
  {
    if s.cycle.Ready? {
      steps, t := FromReady(s);
    } else {
      steps, t := FromProbing(s, probe);
    }
  }
}
