/** The lock-protected sections of state/syncer.go as functions on values. The class in
    Syncer.dfy is proved against them; SyncRuns.dfy interleaves them. */
module SyncSpec {
  import opened Options
  import opened Torrents

  type BackendId = nat
  type SubId = nat

  const STICKY_AUTH_FAILS := 3
  const SUBSCRIBER_BUFFER := 64

  /** Adapter errors the syncer distinguishes. */
  datatype Fault = BadCredentials | Banned | CredentialsUnavailable
                 | TlsUntrusted | TlsHostname | Unauthorized | Unreachable | OtherFault

  /** The LastError token: what classify makes of a fault, or one of the two fixed tokens. */
  datatype Token = NoToken | Loading | Class(fault: Fault)

  datatype Committed = Committed(
    backendOK: bool, appVersion: string, webApi: string, dlSpeed: int, upSpeed: int,
    connection: string, torrents: map<Hash, Torrent>, lastError: Token, freeSpace: Option<int>, generation: nat)

  datatype Change = Change(seqNo: nat, changed: seq<Torrent>, removed: seq<Hash>)

  /** The fields guarded by Syncer.mu. */
  datatype Core = Core(
    backend: BackendId, epoch: nat, cur: Committed, rid: int, ver: bool, authFails: nat, sticky: bool)

  datatype Entry = Entry(fields: Partial) | Garbled

  datatype ServerState = ServerState(
    dlSpeed: Option<int>, upSpeed: Option<int>, connection: Option<string>, freeSpace: Option<int>)

  datatype Maindata = Maindata(
    rid: int, fullUpdate: bool, torrents: map<Hash, Entry>, removed: seq<Hash>, server: Option<ServerState>)

  const START := Committed(false, "", "", 0, 0, "", map[], Loading, None, 0)

  // ---- errors ----

  predicate IsAuth(f: Fault) {
    f.BadCredentials? || f.Banned? || f.CredentialsUnavailable?
  }

  function AuthNoted(c: Core, f: Fault): Core {
    if !IsAuth(f) then c
    else c.(authFails := c.authFails + 1, sticky := c.sticky || c.authFails + 1 >= STICKY_AUTH_FAILS)
  }

  function LoginNoted(c: Core, epoch: nat): Core {
    if c.epoch == epoch then c.(authFails := 0) else c
  }

  function DegradedState(cur: Committed, f: Fault): Committed {
    cur.(backendOK := false, dlSpeed := 0, upSpeed := 0, freeSpace := None, lastError := Class(f))
  }

  function Degraded(c: Core, epoch: nat, f: Fault): Core {
    if c.epoch != epoch then c
    else c.(cur := DegradedState(c.cur, f), rid := 0, ver := false)
  }

  // ---- a successful cycle ----

  predicate Decodable(md: Maindata) {
    forall h :: h in md.torrents ==> ValidHash(h) && md.torrents[h].Entry?
  }

  function Rebuilt(md: Maindata): map<Hash, Torrent>
    requires Decodable(md)
  {
    map h | h in md.torrents :: Merge(ZERO, md.torrents[h].fields).(hash := h)
  }

  function PatchedOne(prev: map<Hash, Torrent>, h: Hash, p: Partial): Torrent {
    Merge(if h in prev then prev[h] else ZERO, p).(hash := h)
  }

  /** The entries in `done` merged over the map they were sent against. */
  function OverlayOn(prev: map<Hash, Torrent>, entries: map<Hash, Entry>, done: set<Hash>): map<Hash, Torrent>
    requires forall h :: h in done ==> h in entries && entries[h].Entry?
  {
    prev + map h | h in done :: PatchedOne(prev, h, entries[h].fields)
  }

  function Overlay(prev: map<Hash, Torrent>, md: Maindata): map<Hash, Torrent>
    requires Decodable(md)
  {
    OverlayOn(prev, md.torrents, md.torrents.Keys)
  }

  function Patched(prev: map<Hash, Torrent>, md: Maindata): map<Hash, Torrent>
    requires Decodable(md)
  {
    Overlay(prev, md) - (set h | h in md.removed)
  }

  function NextTorrents(prev: map<Hash, Torrent>, md: Maindata): map<Hash, Torrent>
    requires Decodable(md)
  {
    if md.fullUpdate then Rebuilt(md) else Patched(prev, md)
  }

  /** The draft a cycle builds from the state it captured, versions not yet probed. */
  function Draft(prev: Committed, md: Maindata): Committed
    requires Decodable(md)
  {
    var ss := md.server.GetOr(ServerState(None, None, None, None));
    Committed(true, prev.appVersion, prev.webApi,
              ss.dlSpeed.GetOr(prev.dlSpeed), ss.upSpeed.GetOr(prev.upSpeed), ss.connection.GetOr(prev.connection),
              NextTorrents(prev.torrents, md), NoToken,
              if ss.freeSpace.Some? then ss.freeSpace else prev.freeSpace, prev.generation + 1)
  }

  function CommittedCore(c: Core, epoch: nat, next: Committed, rid: int): Core {
    if c.epoch != epoch then c else c.(cur := next, rid := rid)
  }

  /** The state a switch leaves: nothing of the old backend, one generation on. */
  function Emptied(cur: Committed): Committed {
    cur.(torrents := map[], backendOK := false, dlSpeed := 0, upSpeed := 0, freeSpace := None,
         appVersion := "", webApi := "", connection := "", lastError := Loading,
         generation := cur.generation + 1)
  }

  function Switched(c: Core, b: BackendId): Core {
    Core(b, c.epoch + 1, Emptied(c.cur), 0, false, 0, false)
  }

  // ---- a whole cycle, undisturbed ----

  datatype Reply = Failed(fault: Fault) | Answer(md: Maindata)

  predicate Succeeds(c: Core, login: Option<Fault>, reply: Reply) {
    !c.sticky && (c.cur.backendOK || login.None?) && reply.Answer? && Decodable(reply.md)
  }

  /** The effect of an undisturbed cycle, from the section functions. */
  function CycleAlone(c: Core, login: Option<Fault>, reply: Reply, versions: Option<(string, string)>): Core {
    if c.sticky then Degraded(c, c.epoch, OtherFault)
    else if !c.cur.backendOK && login.Some? then Degraded(AuthNoted(c, login.value), c.epoch, login.value)
    else
      var c1 := if c.cur.backendOK then c else LoginNoted(c, c.epoch);
      if reply.Failed? then Degraded(AuthNoted(c1, reply.fault), c.epoch, reply.fault)
      else Finished(c1, c.ver, reply.md, versions)
  }

  /** The rest of it, once the backend answered `md`. */
  function Finished(c: Core, kVer: bool, md: Maindata, versions: Option<(string, string)>): Core {
    if !Decodable(md) then Degraded(c, c.epoch, OtherFault)
    else if NeedsProbe(kVer, c.cur) && versions.Some? then
      CommittedCore(c.(ver := true), c.epoch,
                    Draft(c.cur, md).(appVersion := versions.value.0, webApi := versions.value.1), md.rid)
    else CommittedCore(c, c.epoch, Draft(c.cur, md), md.rid)
  }

  /** Version probes run once per backend epoch and whenever the versions are unknown. */
  predicate NeedsProbe(ver: bool, prev: Committed) {
    !ver || !prev.backendOK || prev.appVersion == ""
  }

  // ---- what a cycle leaves, read on the fields ----

  /** A state the daemon shows after the fault `f`: down, nothing it could still claim to know. */
  predicate ShowsFault(cur: Committed, f: Fault) {
    !cur.backendOK && cur.dlSpeed == 0 && cur.upSpeed == 0 && cur.freeSpace.None? && cur.lastError == Class(f)
  }

  /** The last good data survives a fault. */
  predicate KeepsLastGood(was: Committed, cur: Committed) {
    && cur.torrents == was.torrents && cur.generation == was.generation
    && cur.appVersion == was.appVersion && cur.webApi == was.webApi && cur.connection == was.connection
  }

  /** Every hash is 40 or 64 hexadecimal digits, and every object decodes. */
  predicate Readable(md: Maindata) {
    forall h :: h in md.torrents ==>
      && md.torrents[h] != Garbled && (|h| == 40 || |h| == 64)
      && forall i :: 0 <= i < |h| ==> '0' <= h[i] <= '9' || 'a' <= h[i] <= 'f' || 'A' <= h[i] <= 'F'
  }

  /** A state made of an answer: up, without an error, one generation on, each number from
      the answer when it is there and from before when not. */
  predicate ShowsAnswer(cur: Committed, was: Committed, md: Maindata) {
    && cur.backendOK && cur.lastError == NoToken && cur.generation == was.generation + 1
    && (if md.server.Some? && md.server.value.dlSpeed.Some? then Some(cur.dlSpeed) == md.server.value.dlSpeed else cur.dlSpeed == was.dlSpeed)
    && (if md.server.Some? && md.server.value.upSpeed.Some? then Some(cur.upSpeed) == md.server.value.upSpeed else cur.upSpeed == was.upSpeed)
    && (if md.server.Some? && md.server.value.connection.Some? then Some(cur.connection) == md.server.value.connection
        else cur.connection == was.connection)
    && (if md.server.Some? && md.server.value.freeSpace.Some? then cur.freeSpace == md.server.value.freeSpace else cur.freeSpace == was.freeSpace)
  }

  /** Versions are asked for on the first success of an epoch, on recovery and while unknown;
      then the answer is shown, and otherwise the old ones stay. */
  predicate ShowsVersions(cur: Committed, was: Committed, ver: bool, wasVer: bool, versions: Option<(string, string)>) {
    if (!wasVer || !was.backendOK || was.appVersion == "") && versions.Some? then
      ver && cur.appVersion == versions.value.0 && cur.webApi == versions.value.1
    else ver == wasVer && cur.appVersion == was.appVersion && cur.webApi == was.webApi
  }

  /** The fault a failing cycle ends with. */
  function EndingFault(c: Core, login: Option<Fault>, reply: Reply): Fault {
    if c.sticky then OtherFault
    else if !c.cur.backendOK && login.Some? then login.value
    else if reply.Failed? then reply.fault
    else OtherFault
  }

  predicate EndsInAuth(c: Core, login: Option<Fault>, reply: Reply) {
    var f := EndingFault(c, login, reply);
    f.BadCredentials? || f.Banned? || f.CredentialsUnavailable?
  }

  /** The count a cycle's own fault is added to: a login that works clears it. */
  function FailsSince(c: Core, login: Option<Fault>): nat {
    if !c.sticky && !c.cur.backendOK && login.None? then 0 else c.authFails
  }

  /** What a cycle makes of the guarded fields. */
  predicate CycleLeaves(c: Core, r: Core, ok: bool, login: Option<Fault>, reply: Reply, versions: Option<(string, string)>) {
    && (if ok then
          && reply.Answer? && ShowsAnswer(r.cur, c.cur, reply.md) && r.rid == reply.md.rid
          && ShowsVersions(r.cur, c.cur, r.ver, c.ver, versions)
        else ShowsFault(r.cur, EndingFault(c, login, reply)) && r.rid == 0 && !r.ver && KeepsLastGood(c.cur, r.cur))
    && r.authFails == FailsSince(c, login) + (if !ok && EndsInAuth(c, login, reply) then 1 else 0)
    && r.backend == c.backend && r.epoch == c.epoch
  }

  lemma CycleShows(c: Core, login: Option<Fault>, reply: Reply, versions: Option<(string, string)>)
    ensures CycleLeaves(c, CycleAlone(c, login, reply, versions), Succeeds(c, login, reply), login, reply, versions)
    ensures Succeeds(c, login, reply) <==> !c.sticky && (c.cur.backendOK || login.None?) && reply.Answer? && Readable(reply.md)
  {
    SucceedsPlainly(c, login, reply);
    if Succeeds(c, login, reply) {
      GoodCycleShows(c, login, reply, versions);
    } else {
      FailedCycleShows(c, login, reply, versions);
    }
  }

  lemma SucceedsPlainly(c: Core, login: Option<Fault>, reply: Reply)
    ensures Succeeds(c, login, reply) <==> !c.sticky && (c.cur.backendOK || login.None?) && reply.Answer? && Readable(reply.md)
  {
  }

  lemma GoodCycleShows(c: Core, login: Option<Fault>, reply: Reply, versions: Option<(string, string)>)
    requires Succeeds(c, login, reply)
    ensures CycleLeaves(c, CycleAlone(c, login, reply, versions), true, login, reply, versions)
  {
    FinishedShows(if c.cur.backendOK then c else LoginNoted(c, c.epoch), c.ver, reply.md, versions);
  }

  lemma FinishedShows(c: Core, kVer: bool, md: Maindata, versions: Option<(string, string)>)
    requires Decodable(md)
    ensures var r := Finished(c, kVer, md, versions);
            && ShowsAnswer(r.cur, c.cur, md) && r.rid == md.rid && r.authFails == c.authFails
            && r.backend == c.backend && r.epoch == c.epoch
            && (kVer == c.ver ==> ShowsVersions(r.cur, c.cur, r.ver, c.ver, versions))
  {
  }

  lemma FailedCycleShows(c: Core, login: Option<Fault>, reply: Reply, versions: Option<(string, string)>)
    requires !Succeeds(c, login, reply)
    ensures CycleLeaves(c, CycleAlone(c, login, reply, versions), false, login, reply, versions)
  {
  }

  // ---- change events ----

  function ApplyChanged(m: map<Hash, Torrent>, ts: seq<Torrent>): map<Hash, Torrent> {
    if ts == [] then m
    else ApplyChanged(m, ts[..|ts| - 1])[ts[|ts| - 1].hash := ts[|ts| - 1]]
  }

  /** What a subscriber does with one event: changed items first, then removals. */
  function Replay(m: map<Hash, Torrent>, ch: Change): map<Hash, Torrent> {
    ApplyChanged(m, ch.changed) - (set h | h in ch.removed)
  }

  function ReplayAll(m: map<Hash, Torrent>, chs: seq<Change>): map<Hash, Torrent> {
    if chs == [] then m else Replay(ReplayAll(m, chs[..|chs| - 1]), chs[|chs| - 1])
  }

  /** publishToSubs: a subscriber whose channel is full is dropped. */
  function Announced(subs: map<SubId, seq<Change>>, ch: Change): map<SubId, seq<Change>> {
    map id | id in subs && |subs[id]| < SUBSCRIBER_BUFFER :: subs[id] + [ch]
  }

  function Noted(subs: map<SubId, seq<Change>>, note: Option<Change>): map<SubId, seq<Change>> {
    if note.None? then subs else Announced(subs, note.value)
  }

  /** A section that replaces the torrent map publishes an event taking the old map to
      the new one, numbered with the new generation; it may stay silent only when the
      map did not move. */
  predicate Announces(was: map<Hash, Torrent>, next: Committed, note: Option<Change>) {
    if note.Some? then note.value.seqNo == next.generation && Replay(was, note.value) == next.torrents
    else was == next.torrents
  }

  /** An event that describes what an answer makes of the state it was asked in. */
  predicate Describes(prev: Committed, md: Maindata, ch: Change) {
    Decodable(md) && ch.seqNo == prev.generation + 1 && Replay(prev.torrents, ch) == NextTorrents(prev.torrents, md)
  }

  /** What an undisturbed cycle publishes: nothing when it fails or has nothing to say. */
  function NoteOf(c: Core, login: Option<Fault>, reply: Reply, ch: Change): Option<Change> {
    if Succeeds(c, login, reply) && !Quiet(ch, c.cur.backendOK) then Some(ch) else None
  }

  predicate Quiet(ch: Change, wasOK: bool) {
    ch.changed == [] && ch.removed == [] && wasOK
  }

  // ---- replay ----

  function HashesOf(ts: seq<Torrent>): set<Hash> {
    set t | t in ts :: t.hash
  }

  /** Replaying items that all agree with one target map overlays that part of it,
      whatever their order. */
  lemma {:induction false} ApplyChangedIs(m: map<Hash, Torrent>, ts: seq<Torrent>, target: map<Hash, Torrent>)
    requires forall t :: t in ts ==> t.hash in target && target[t.hash] == t
    ensures ApplyChanged(m, ts) == m + map h | h in target && h in HashesOf(ts) :: target[h]
  {
    if ts != [] {
      var front, last := ts[..|ts| - 1], ts[|ts| - 1];
      assert ts == front + [last];
      ApplyChangedIs(m, front, target);
      assert HashesOf(ts) == HashesOf(front) + {last.hash};
      PartGrows(target, HashesOf(front), last.hash);
    }
  }

  lemma PartGrows(target: map<Hash, Torrent>, hashes: set<Hash>, h: Hash)
    requires h in target
    ensures (map k | k in target && k in hashes + {h} :: target[k]) == (map k | k in target && k in hashes :: target[k])[h := target[h]]
  {
  }

  lemma {:induction false} ReplayAllAppend(m: map<Hash, Torrent>, xs: seq<Change>, ys: seq<Change>)
    ensures ReplayAll(m, xs + ys) == ReplayAll(ReplayAll(m, xs), ys)
  {
    if ys == [] {
      assert xs + ys == xs;
    } else {
      var front := ys[..|ys| - 1];
      assert (xs + ys)[..|xs + ys| - 1] == xs + front;
      ReplayAllAppend(m, xs, front);
    }
  }
}
