/** connection.Manager.Configure over the objects it switches. */
module Managing {
  import opened Options
  import opened ConnectionSpec
  import SyncSpec
  import Syncing
  import MutateSpec
  import Mutating

  /** The profile file as one cell: a write happens entirely or not at all. */
  class StoreFile {
    var contents: Contents

    constructor (c: Contents)
      ensures contents == c
    {
      contents := c;
    }

    method Write(c: Contents, ok: bool) returns (done: bool)
      modifies this
      ensures done == ok && contents == if ok then c else old(contents)
    {
      if ok {
        contents := c;
      }
      done := ok;
    }
  }

  /** The secret provider as one cell; an existing secret is never empty. */
  class SecretCell {
    var value: Option<string>

    constructor (v: Option<string>)
      ensures value == v
    {
      value := v;
    }

    method Set(v: Option<string>, ok: bool) returns (done: bool)
      modifies this
      ensures done == ok && value == if ok then v else old(value)
    {
      if ok {
        value := v;
      }
      done := ok;
    }
  }

  datatype ConfigureResult = Activated(epoch: nat) | Refused(rejection: Rejection)

  /** Everything a Configure may touch, as one value. */
  datatype Everything = Everything(
    store: Contents, secret: Option<string>, profile: Profile, endpoint: Option<Endpoint>, epoch: nat, client: ClientId,
    syncer: SyncSpec.Core, mutator: MutateSpec.Table)

  /** The effect of an accepted call. */
  function Activate(req: Request, was: Everything, offered: map<string, string>, client: ClientId): Everything
    requires req.endpoint.Some? && ResolveTls(req, offered, was.profile).Some?
  {
    var next := NextProfile(req, ResolveTls(req, offered, was.profile).value);
    Everything(Marshalled(next), SecretAfter(req, was.secret), next, req.endpoint, was.epoch + 1, client,
               SyncSpec.Switched(was.syncer, client),
               was.mutator.(draining := false, backend := client, epoch := was.mutator.epoch + 1))
  }

  class Manager {
    const store: StoreFile
    const secrets: SecretCell
    const syncer: Syncing.Syncer
    const mutator: Mutating.Mutator
    var profile: Profile
    var endpoint: Option<Endpoint>
    var epoch: nat
    var current: ClientId
    var offered: map<string, string>

    ghost predicate Valid()
      reads this, syncer, mutator
    {
      syncer.Valid() && mutator.Valid()
    }

    ghost function All(): Everything
      reads this, store, secrets, syncer, mutator, mutator.ring
      requires Valid()
    {
      Everything(store.contents, secrets.value, profile, endpoint, epoch, current, syncer.Guarded(), mutator.Guarded())
    }

    constructor (st: StoreFile, sec: SecretCell, sy: Syncing.Syncer, mu: Mutating.Mutator, p: Profile, ep: Endpoint, client: ClientId)
      requires sy.Valid() && mu.Valid()
      ensures Valid() && store == st && secrets == sec && syncer == sy && mutator == mu
      ensures profile == p && endpoint == Some(ep) && epoch == 0 && current == client && offered == map[]
    {
      store, secrets, syncer, mutator := st, sec, sy, mu;
      profile, endpoint, epoch, current, offered := p, Some(ep), 0, client, map[];
    }

    /** One call with no other Configure beside it: it activates exactly when nothing is in
        its way; otherwise, its undo writes succeeding, everything is as before. */
    method Configure(req: Request, luck: Luck, client: ClientId) returns (result: ConfigureResult)
      requires Valid()
      modifies this`profile, this`endpoint, this`epoch, this`current, store, secrets, syncer, mutator
      ensures Valid()
      ensures var obstacle := Obstacle(req, luck, old(mutator.draining) || old(mutator.inflight) != map[], old(profile), offered);
              if obstacle.None? then
                result == Activated(old(epoch) + 1) && All() == Activate(req, old(All()), offered, client)
              else
                && result == Refused(obstacle.value) && syncer.subs == old(syncer.subs)
                && (luck.undoSecret && luck.undoStore ==> All() == old(All()))
      ensures AnswersWhy(if result.Refused? then Some(result.rejection) else None, req, luck,
                         old(mutator.draining) || old(mutator.inflight) != map[], old(profile), offered)
      ensures result.Activated? ==> Admissible(req)
      ensures result == Refused(InsecureHTTP) <==> NeedsConsent(req)
      ensures result.Activated? ==>
                && Reflects(profile, req) && Certified(req, offered, old(profile), profile.pinCertPEM)
                && store.contents == Marshalled(profile) && SecretIs(req, old(secrets.value), secrets.value)
                && endpoint == req.endpoint && epoch == old(epoch) + 1
                && current == syncer.backend == mutator.backend == client && !mutator.draining
                && syncer.epoch == old(syncer.epoch) + 1 && mutator.epoch == old(mutator.epoch) + 1
    {
      ObstacleSaysWhy(req, luck, mutator.draining || mutator.inflight != map[], profile, offered);
      PureIsAdmissible(req);
      DecisionReflects(req, offered, profile);
      SecretAfterIs(req, secrets.value);
      var pure := PureRejection(req);
      if pure.Some? {
        return Refused(pure.value);
      }
      var begun := mutator.BeginSwitch();
      if !begun {
        return Refused(MutationsPending);
      }
      var failure, next := Prepare(req, luck);
      if failure.Some? {
        mutator.AbortSwitch();
        return Refused(failure.value);
      }
      Activation(req, next, client);
      result := Activated(epoch);
    }

    /** The commit order: syncer, then the manager's own fields, then the mutator, whose
        swap releases the drain. */
    method Activation(req: Request, next: Profile, client: ClientId)
      requires Valid()
      modifies this`profile, this`endpoint, this`epoch, this`current, syncer, mutator
      ensures Valid()
      ensures profile == next && endpoint == req.endpoint && epoch == old(epoch) + 1 && current == client
      ensures syncer.Guarded() == SyncSpec.Switched(old(syncer.Guarded()), client)
      ensures mutator.Guarded() == old(mutator.Guarded()).(draining := false, backend := client, epoch := old(mutator.epoch) + 1)
    {
      ghost var note := syncer.SwitchBackend(client);
      current := client;
      profile, endpoint := next, req.endpoint;
      epoch := epoch + 1;
      mutator.CommitSwap(client);
    }

    /** Phases C to E up to the point of no return: snapshots, trust resolution, secret,
        profile file, client; undone in full when a later one fails. */
    method Prepare(req: Request, luck: Luck) returns (failure: Option<Rejection>, next: Profile)
      requires Valid() && PureRejection(req).None?
      modifies store, secrets
      ensures Valid()
      ensures failure == PreparationObstacle(req, luck, profile, offered)
      ensures failure.None? ==>
                && next == NextProfile(req, ResolveTls(req, offered, profile).value)
                && store.contents == Marshalled(next) && secrets.value == SecretAfter(req, old(secrets.value))
      ensures failure.Some? && luck.undoSecret && luck.undoStore ==>
                store.contents == old(store.contents) && secrets.value == old(secrets.value)
    {
      next := profile;
      if !luck.readStore {
        return Some(StorageError), next;
      }
      var before := store.contents;
      var prev: Option<string> := None;
      if !req.secretAction.Keep? {
        if !luck.getSecret {
          return Some(SecretsUnavailable), next;
        }
        prev := secrets.value;
      }
      var pem := ResolveTls(req, offered, profile);
      if pem.None? {
        return Some(PinUnknown), next;
      }
      next := NextProfile(req, pem.value);
      var secretMutated := false;
      match req.secretAction {
        case Replace => secretMutated := secrets.Set(Some(req.password), luck.setSecret);
        case Delete => secretMutated := secrets.Set(None, luck.setSecret);
        case _ =>
      }
      if !req.secretAction.Keep? && !secretMutated {
        return Some(SecretsUnavailable), next;
      }
      var saved := store.Write(Marshalled(next), luck.saveStore && Savable(next));
      if !saved {
        Undo(secretMutated, prev, false, before, luck);
        return Some(StorageError), next;
      }
      if !luck.buildClient {
        Undo(secretMutated, prev, true, before, luck);
        return Some(InvalidURL), next;
      }
      failure := None;
    }

    /** rollbackSecret and rollbackStoreBytes: only what this call changed. */
    method Undo(secretMutated: bool, prev: Option<string>, storeMutated: bool, before: Contents, luck: Luck)
      modifies store, secrets
      ensures secrets.value == if secretMutated && luck.undoSecret then prev else old(secrets.value)
      ensures store.contents == if storeMutated && luck.undoStore then before else old(store.contents)
    {
      if secretMutated {
        var _ := secrets.Set(prev, luck.undoSecret);
      }
      if storeMutated {
        var _ := store.Write(before, luck.undoStore);
      }
    }
  }
}
