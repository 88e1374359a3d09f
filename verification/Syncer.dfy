/** state.Syncer: the object whose fields the sections update. */
module Syncing {
  import opened Options
  import opened Torrents
  import opened SyncSpec

  class Syncer {
    var backend: BackendId
    var epoch: nat
    var cur: Committed
    var rid: int
    var ver: bool
    var authFails: nat
    var stickyAuthFail: bool
    var subs: map<SubId, seq<Change>>
    var nextSub: SubId

    ghost function Guarded(): Core
      reads this
    {
      Core(backend, epoch, cur, rid, ver, authFails, stickyAuthFail)
    }

    ghost predicate Valid()
      reads this
    {
      && (forall id :: id in subs ==> id < nextSub && |subs[id]| <= SUBSCRIBER_BUFFER)
      && (stickyAuthFail <==> authFails >= STICKY_AUTH_FAILS)
    }

    constructor (b: BackendId)
      ensures Valid()
      ensures Guarded() == Core(b, 0, START, 0, false, 0, false)
      ensures subs == map[]
    {
      backend, epoch, cur, rid, ver := b, 0, START, 0, false;
      authFails, stickyAuthFail := 0, false;
      subs, nextSub := map[], 0;
    }

    /** One event into every open channel; a full channel is closed and forgotten. */
    method PublishToSubs(ch: Change)
      requires Valid()
      modifies this`subs
      ensures Valid()
      ensures subs == Announced(old(subs), ch)
    {
      var todo := subs.Keys;
      while todo != {}
        invariant todo <= old(subs).Keys
        invariant subs.Keys == set id | id in old(subs) && (id in todo || |old(subs)[id]| < SUBSCRIBER_BUFFER)
        invariant forall id :: id in todo ==> subs[id] == old(subs)[id]
        invariant forall id :: id in subs && id !in todo ==> subs[id] == old(subs)[id] + [ch]
        decreases todo
      {
        var id :| id in todo;
        if |subs[id]| < SUBSCRIBER_BUFFER {
          subs := subs[id := subs[id] + [ch]];
        } else {
          subs := subs - {id};
        }
        todo := todo - {id};
      }
    }

    method SwitchBackend(b: BackendId) returns (ghost note: Option<Change>)
      requires Valid()
      modifies this
      ensures Valid()
      ensures Guarded() == Switched(old(Guarded()), b)
      ensures Announces(old(cur.torrents), cur, note)
      ensures note.Some? ==> note.value.changed == []
      ensures subs == Noted(old(subs), note)
      ensures backend == b && epoch == old(epoch) + 1 && rid == 0 && !ver && authFails == 0 && !stickyAuthFail
      ensures cur.torrents == map[] && !cur.backendOK && cur.dlSpeed == cur.upSpeed == 0 && cur.freeSpace.None?
      ensures cur.appVersion == cur.webApi == cur.connection == "" && cur.lastError == Loading
      ensures cur.generation == old(cur.generation) + 1
    {
      var removed := Listed(cur.torrents);
      ghost var was := cur.torrents;
      backend := b;
      epoch := epoch + 1;
      rid, ver := 0, false;
      authFails, stickyAuthFail := 0, false;
      cur := cur.(torrents := map[], backendOK := false, dlSpeed := 0, upSpeed := 0, freeSpace := None,
                  appVersion := "", webApi := "", connection := "", lastError := Loading,
                  generation := cur.generation + 1);
      note := None;
      RemovalsEmpty(was, removed, cur.generation);
      if |removed| > 0 {
        var ch := Change(cur.generation, [], removed);
        note := Some(ch);
        PublishToSubs(ch);
      }
    }

    /** The hashes of a map, in whatever order it is ranged over. */
    static method Listed(m: map<Hash, Torrent>) returns (hashes: seq<Hash>)
      ensures forall h :: h in hashes <==> h in m
    {
      hashes := [];
      var todo := m.Keys;
      while todo != {}
        invariant todo <= m.Keys
        invariant forall h :: h in hashes <==> h in m.Keys - todo
        decreases todo
      {
        var h :| h in todo;
        hashes := hashes + [h];
        todo := todo - {h};
      }
    }

    method Subscribe() returns (snapshot: Committed, id: SubId)
      requires Valid()
      modifies this`subs, this`nextSub
      ensures Valid()
      ensures snapshot == cur && id !in old(subs) && subs == old(subs)[id := []]
    {
      snapshot, id := cur, nextSub;
      nextSub := nextSub + 1;
      subs := subs[id := []];
    }

    method Cancel(id: SubId)
      requires Valid()
      modifies this`subs
      ensures Valid()
      ensures subs == old(subs) - {id}
    {
      if id in subs {
        subs := subs - {id};
      }
    }

    method NoteAuthFailure(f: Fault) returns (auth: bool)
      requires Valid()
      modifies this`authFails, this`stickyAuthFail
      ensures Valid()
      ensures auth == IsAuth(f)
      ensures Guarded() == AuthNoted(old(Guarded()), f)
      ensures auth <==> f.BadCredentials? || f.Banned? || f.CredentialsUnavailable?
      ensures authFails == old(authFails) + (if auth then 1 else 0)
    {
      auth := IsAuth(f);
      if !auth {
        return;
      }
      authFails := authFails + 1;
      if authFails >= STICKY_AUTH_FAILS {
        stickyAuthFail := true;
      }
    }

    method CommitDegradedEpoch(e: nat, f: Fault)
      requires Valid()
      modifies this`cur, this`rid, this`ver
      ensures Valid()
      ensures Guarded() == Degraded(old(Guarded()), e, f)
      ensures epoch == e ==> ShowsFault(cur, f) && rid == 0 && !ver && KeepsLastGood(old(cur), cur)
      ensures epoch != e ==> cur == old(cur) && rid == old(rid) && ver == old(ver)
    {
      if epoch != e {
        return;
      }
      cur := cur.(backendOK := false, dlSpeed := 0, upSpeed := 0, freeSpace := None, lastError := Class(f));
      rid, ver := 0, false;
    }

    /** The final section of a cycle: the epoch is checked again, and the event goes out
        under the same lock as the new state. */
    method CommitCycle(e: nat, prevOK: bool, next: Committed, nextRid: int, changed: seq<Torrent>, removed: seq<Hash>)
      returns (ok: bool, ghost note: Option<Change>)
      requires Valid()
      requires epoch == e ==> Replay(cur.torrents, Change(next.generation, changed, removed)) == next.torrents
      modifies this`cur, this`rid, this`subs
      ensures Valid()
      ensures ok == (old(epoch) == e)
      ensures Guarded() == CommittedCore(old(Guarded()), e, next, nextRid)
      ensures if ok then Announces(old(cur.torrents), next, note) else note == None
      ensures ok ==> note == var ch := Change(next.generation, changed, removed); if Quiet(ch, prevOK) then None else Some(ch)
      ensures subs == Noted(old(subs), note)
    {
      note := None;
      if epoch != e {
        return false, None;
      }
      ghost var was := cur.torrents;
      cur, rid := next, nextRid;
      if |changed| > 0 || |removed| > 0 || !prevOK {
        var ch := Change(next.generation, changed, removed);
        note := Some(ch);
        PublishToSubs(ch);
      } else {
        assert Replay(was, Change(next.generation, changed, removed)) == was;
      }
      ok := true;
    }

    /** One whole cycle with nothing running beside it: `login`, `reply` and `versions` are
        what the backend answers, should it be asked. */
    method Cycle(login: Option<Fault>, reply: Reply, versions: Option<(string, string)>)
      returns (ok: bool, auth: bool, ghost ch: Change, ghost note: Option<Change>)
      requires Valid()
      modifies this
      ensures Valid()
      ensures Guarded() == CycleAlone(old(Guarded()), login, reply, versions)
      ensures ok == Succeeds(old(Guarded()), login, reply)
      ensures ok ==> Describes(old(cur), reply.md, ch) && Announces(old(cur.torrents), cur, note)
      ensures ok <==> !old(stickyAuthFail) && (old(cur.backendOK) || login.None?) && reply.Answer? && Readable(reply.md)
      ensures !ok ==> !cur.backendOK && cur.dlSpeed == 0 && cur.upSpeed == 0 && cur.freeSpace.None? && rid == 0 && !ver
      ensures CycleLeaves(old(Guarded()), Guarded(), ok, login, reply, versions)
      ensures auth == (!ok && (old(stickyAuthFail) || EndsInAuth(old(Guarded()), login, reply)))
      ensures note.Some? <==> ok && (ch.changed != [] || ch.removed != [] || !old(cur.backendOK))
      ensures note == NoteOf(old(Guarded()), login, reply, ch) && subs == Noted(old(subs), note)
    {
      CycleShows(Guarded(), login, reply, versions);
      auth, note, ok, ch := false, None, false, Change(0, [], []);
      var k, kVer, prev, kEpoch := rid, ver, cur, epoch;
      if stickyAuthFail {
        auth := true;
        CommitDegradedEpoch(kEpoch, OtherFault);
        return;
      }
      if !prev.backendOK {
        if login.Some? {
          auth := NoteAuthFailure(login.value);
          CommitDegradedEpoch(kEpoch, login.value);
          return;
        }
        if epoch == kEpoch {
          authFails := 0;
        }
      }
      if reply.Failed? {
        auth := NoteAuthFailure(reply.fault);
        CommitDegradedEpoch(kEpoch, reply.fault);
        return;
      }
      ok, ch, note := FinishCycle(kEpoch, kVer, prev, reply.md, versions);
    }

    /** The part of a cycle after the backend answered, undisturbed. */
    method FinishCycle(e: nat, kVer: bool, prev: Committed, md: Maindata, versions: Option<(string, string)>)
      returns (ok: bool, ghost ch: Change, ghost note: Option<Change>)
      requires Valid() && epoch == e && cur == prev
      modifies this
      ensures Valid()
      ensures Guarded() == Finished(old(Guarded()), kVer, md, versions)
      ensures ok == Decodable(md)
      ensures ok ==> Describes(prev, md, ch) && Announces(prev.torrents, cur, note)
      ensures !ok ==> cur.torrents == prev.torrents && cur.generation == prev.generation
      ensures note == (if ok && !Quiet(ch, prev.backendOK) then Some(ch) else None) && subs == Noted(old(subs), note)
    {
      var decoded, torrents, changed, removed := BuildNext(prev.torrents, md, prev.generation + 1);
      if !decoded {
        CommitDegradedEpoch(e, OtherFault);
        return false, Change(0, [], []), None;
      }
      ch := Change(prev.generation + 1, changed, removed);
      var next := MergeServerState(prev, torrents, md);
      if !kVer || !prev.backendOK || prev.appVersion == "" {
        if versions.Some? {
          next := next.(appVersion := versions.value.0, webApi := versions.value.1);
          ver := true;
        }
      }
      ok, note := CommitCycle(e, prev.backendOK, next, md.rid, changed, removed);
    }
  }

  method MergeServerState(prev: Committed, torrents: map<Hash, Torrent>, md: Maindata) returns (next: Committed)
    requires Decodable(md) && torrents == NextTorrents(prev.torrents, md)
    ensures next == Draft(prev, md)
  {
    var dl, up, conn, free := prev.dlSpeed, prev.upSpeed, prev.connection, prev.freeSpace;
    if md.server.Some? {
      var ss := md.server.value;
      if ss.dlSpeed.Some? { dl := ss.dlSpeed.value; }
      if ss.upSpeed.Some? { up := ss.upSpeed.value; }
      if ss.connection.Some? { conn := ss.connection.value; }
      if ss.freeSpace.Some? { free := Some(ss.freeSpace.value); }
    }
    next := Committed(true, prev.appVersion, prev.webApi, dl, up, conn, torrents, NoToken, free, prev.generation + 1);
  }

  lemma RemovalsEmpty(was: map<Hash, Torrent>, removed: seq<Hash>, seqNo: nat)
    requires forall h :: h in removed <==> h in was
    ensures Replay(was, Change(seqNo, [], removed)) == map[]
    ensures removed == [] ==> was == map[]
  {
    assert removed == [] ==> forall h :: h in was ==> h in removed;
  }

  /** Decode the payload into the next torrent map together with the event describing it;
      any bad hash or undecodable entry discards the whole payload. */
  method BuildNext(prev: map<Hash, Torrent>, md: Maindata, seqNo: nat)
    returns (ok: bool, next: map<Hash, Torrent>, changed: seq<Torrent>, removed: seq<Hash>)
    ensures ok <==> Decodable(md)
    ensures ok ==> next == NextTorrents(prev, md)
    ensures ok ==> Replay(prev, Change(seqNo, changed, removed)) == next
    ensures ok && md.fullUpdate ==> IsDifference(prev, next, changed, removed)
    ensures ok && !md.fullUpdate ==>
              HashesOf(changed) == md.torrents.Keys &&
              forall h :: h in removed <==> h in Overlay(prev, md) && h in md.removed
  {
    if md.fullUpdate {
      ok, next := DecodeFull(md);
      removed := Missing(prev, next);
      changed := [];
      if ok {
        changed := Differing(prev, next);
        DifferenceReplays(prev, next, changed, removed, seqNo);
      }
    } else {
      ok, next, changed := DecodeDelta(prev, md);
      removed := [];
      if ok {
        ghost var merged := next;
        next, removed := DeleteListed(next, md.removed);
        DeltaReplays(prev, merged, md.removed, changed, removed, seqNo);
      }
    }
  }

  /** Exactly the items that are new or differ, and exactly the hashes that are gone. */
  ghost predicate IsDifference(prev: map<Hash, Torrent>, next: map<Hash, Torrent>, changed: seq<Torrent>, removed: seq<Hash>) {
    && (forall t :: t in changed <==> t in next.Values && (t.hash !in prev || prev[t.hash] != t))
    && (forall h :: h in removed <==> h in prev && h !in next)
  }

  method DecodeFull(md: Maindata) returns (ok: bool, next: map<Hash, Torrent>)
    ensures ok <==> Decodable(md)
    ensures ok ==> next == Rebuilt(md)
  {
    next := map[];
    var todo := md.torrents.Keys;
    while todo != {}
      invariant todo <= md.torrents.Keys
      invariant next.Keys == md.torrents.Keys - todo
      invariant forall h :: h in next ==> ValidHash(h) && md.torrents[h].Entry?
      invariant forall h :: h in next ==> next[h] == Merge(ZERO, md.torrents[h].fields).(hash := h)
      decreases todo
    {
      var h :| h in todo;
      if !ValidHash(h) || md.torrents[h].Garbled? {
        return false, map[];
      }
      var t := ApplyPartial(md.torrents[h].fields, ZERO);
      next := next[h := t.(hash := h)];
      todo := todo - {h};
    }
    ok := true;
  }

  method DecodeDelta(prev: map<Hash, Torrent>, md: Maindata)
    returns (ok: bool, next: map<Hash, Torrent>, changed: seq<Torrent>)
    ensures ok <==> Decodable(md)
    ensures ok ==> next == Overlay(prev, md) && HashesOf(changed) == md.torrents.Keys
    ensures ok ==> forall t :: t in changed ==> t.hash in next && next[t.hash] == t
  {
    next, changed := prev, [];
    var todo := md.torrents.Keys;
    ghost var done: set<Hash> := {};
    assert next == OverlayOn(prev, md.torrents, done);
    while todo != {}
      invariant done !! todo && done + todo == md.torrents.Keys
      invariant forall h :: h in done ==> ValidHash(h) && md.torrents[h].Entry?
      invariant next == OverlayOn(prev, md.torrents, done)
      invariant HashesOf(changed) == done
      invariant forall t :: t in changed ==> t.hash in next && next[t.hash] == t
      decreases todo
    {
      var h :| h in todo;
      if !ValidHash(h) || md.torrents[h].Garbled? {
        return false, prev, [];
      }
      var t := PatchItem(next, h, md.torrents[h].fields);
      OverlayStep(prev, md.torrents, done, h);
      KeepAgreeing(next, changed, t);
      HashesOfAppend(changed, t);
      next := next[h := t];
      changed := changed + [t];
      todo, done := todo - {h}, done + {h};
    }
    ok := true;
  }

  lemma OverlayStep(prev: map<Hash, Torrent>, entries: map<Hash, Entry>, done: set<Hash>, h: Hash)
    requires forall x :: x in done + {h} ==> x in entries && entries[x].Entry?
    requires h !in done
    ensures var m := OverlayOn(prev, entries, done);
            OverlayOn(prev, entries, done + {h}) == m[h := PatchedOne(m, h, entries[h].fields)]
  {
    var m := OverlayOn(prev, entries, done);
    var after, p := OverlayOn(prev, entries, done + {h}), PatchedOne(prev, h, entries[h].fields);
    SamePatch(prev, m, h, entries[h].fields);
    assert after.Keys == m.Keys + {h};
    forall x | x in after ensures after[x] == m[h := p][x] {
      OverlayAt(prev, entries, done, x);
      OverlayAt(prev, entries, done + {h}, x);
    }
  }

  lemma OverlayAt(prev: map<Hash, Torrent>, entries: map<Hash, Entry>, done: set<Hash>, x: Hash)
    requires forall y :: y in done ==> y in entries && entries[y].Entry?
    ensures x in done ==> x in OverlayOn(prev, entries, done) && OverlayOn(prev, entries, done)[x] == PatchedOne(prev, x, entries[x].fields)
    ensures x !in done && x in prev ==> x in OverlayOn(prev, entries, done) && OverlayOn(prev, entries, done)[x] == prev[x]
    ensures x !in done && x !in prev ==> x !in OverlayOn(prev, entries, done)
  {
  }

  lemma SamePatch(prev: map<Hash, Torrent>, m: map<Hash, Torrent>, h: Hash, p: Partial)
    requires (h in m <==> h in prev) && (h in m ==> m[h] == prev[h])
    ensures PatchedOne(m, h, p) == PatchedOne(prev, h, p)
  {
  }

  lemma KeepAgreeing(m: map<Hash, Torrent>, ts: seq<Torrent>, t: Torrent)
    requires forall x :: x in ts ==> x.hash in m && m[x.hash] == x
    requires t.hash !in HashesOf(ts)
    ensures forall x :: x in ts + [t] ==> x.hash in m[t.hash := t] && m[t.hash := t][x.hash] == x
  {
    forall x | x in ts ensures x.hash != t.hash {
      assert x.hash in HashesOf(ts);
    }
  }

  method PatchItem(prev: map<Hash, Torrent>, h: Hash, p: Partial) returns (t: Torrent)
    ensures t == PatchedOne(prev, h, p) && t.hash == h
  {
    t := ApplyPartial(p, if h in prev then prev[h] else ZERO);
    t := t.(hash := h);
  }

  lemma HashesOfAppend(ts: seq<Torrent>, t: Torrent)
    ensures HashesOf(ts + [t]) == HashesOf(ts) + {t.hash}
  {
    assert forall x :: x in ts + [t] <==> x in ts || x == t;
    assert t in ts + [t];
  }

  method DeleteListed(merged: map<Hash, Torrent>, listed: seq<Hash>)
    returns (next: map<Hash, Torrent>, removed: seq<Hash>)
    ensures next == merged - (set h | h in listed)
    ensures forall h :: h in removed <==> h in merged && h in listed
  {
    next, removed := merged, [];
    for i := 0 to |listed|
      invariant next == merged - (set h | h in listed[..i])
      invariant forall h :: h in removed <==> h in merged && h in listed[..i]
    {
      assert listed[..i + 1] == listed[..i] + [listed[i]];
      if listed[i] in next {
        next := next - {listed[i]};
        removed := removed + [listed[i]];
      }
    }
    assert listed[..|listed|] == listed;
  }

  method Missing(prev: map<Hash, Torrent>, next: map<Hash, Torrent>) returns (removed: seq<Hash>)
    ensures forall h :: h in removed <==> h in prev && h !in next
  {
    removed := [];
    var todo := prev.Keys;
    while todo != {}
      invariant todo <= prev.Keys
      invariant forall h :: h in removed <==> h in prev && h !in todo && h !in next
      decreases todo
    {
      var h :| h in todo;
      if h !in next {
        removed := removed + [h];
      }
      todo := todo - {h};
    }
  }

  method Differing(prev: map<Hash, Torrent>, next: map<Hash, Torrent>) returns (changed: seq<Torrent>)
    requires forall h :: h in next ==> next[h].hash == h
    ensures forall t :: t in changed <==> t in next.Values && (t.hash !in prev || prev[t.hash] != t)
  {
    changed := [];
    var todo := next.Keys;
    while todo != {}
      invariant todo <= next.Keys
      invariant forall t :: t in changed ==> t.hash in next && t.hash !in todo && next[t.hash] == t
      invariant forall h :: h in next && h !in todo ==> (next[h] in changed <==> h !in prev || prev[h] != next[h])
      decreases todo
    {
      var h :| h in todo;
      var t := next[h];
      if t.hash !in prev || prev[t.hash] != t {
        changed := changed + [t];
      }
      todo := todo - {h};
    }
  }

  lemma DifferenceReplays(
    prev: map<Hash, Torrent>, next: map<Hash, Torrent>, changed: seq<Torrent>, removed: seq<Hash>, seqNo: nat)
    requires forall h :: h in next ==> next[h].hash == h
    requires IsDifference(prev, next, changed, removed)
    ensures Replay(prev, Change(seqNo, changed, removed)) == next
  {
    ApplyChangedIs(prev, changed, next);
    forall h | h in next && (h !in prev || prev[h] != next[h]) ensures h in HashesOf(changed) {
      assert next[h] in next.Values;
      assert next[h] in changed;
    }
  }

  lemma DeltaReplays(
    prev: map<Hash, Torrent>, merged: map<Hash, Torrent>, listed: seq<Hash>,
    changed: seq<Torrent>, removed: seq<Hash>, seqNo: nat)
    requires prev.Keys <= merged.Keys == prev.Keys + HashesOf(changed)
    requires forall h :: h in prev && h !in HashesOf(changed) ==> merged[h] == prev[h]
    requires forall t :: t in changed ==> t.hash in merged && merged[t.hash] == t
    requires forall h :: h in removed <==> h in merged && h in listed
    ensures Replay(prev, Change(seqNo, changed, removed)) == merged - (set h | h in listed)
  {
    ApplyChangedIs(prev, changed, merged);
    assert ApplyChanged(prev, changed) == merged;
  }
}
