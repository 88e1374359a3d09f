/** The lock-protected sections of mutate/mutator.go as functions on values. */
module MutateSpec {
  import opened Options
  import opened Torrents
  import SyncSpec

  type Ref = string
  type BackendId = nat
  type Committed = SyncSpec.Committed

  datatype Action = Pause | Resume | Add | Remove | OtherAction

  datatype Code = StaleTorrent | InvalidUrl | Duplicate | BackendRejected | BackendUnavailable | Busy | RefConflict

  datatype Status = Confirmed | Timeout

  /** `magnet` is the infohash parsed from `url`, should there be one. */
  datatype Request = Request(action: Action, hash: Hash, url: string, magnet: Option<Hash>, deleteFiles: bool, ref: Ref)

  function LowerChar(c: char): char {
    if 'A' <= c <= 'Z' then (c as int + 32) as char else c
  }

  /** Submit lower-cases the hash it was sent, hexadecimal by the request grammar. */
  function Lowered(req: Request): Request {
    req.(hash := seq(|req.hash|, i requires 0 <= i < |req.hash| => LowerChar(req.hash[i])))
  }

  /** Upper-case letters give way to their lower-case ones; nothing else changes. */
  lemma LoweredIs(req: Request)
    ensures |Lowered(req).hash| == |req.hash| && Lowered(req).(hash := req.hash) == req
    ensures forall i :: 0 <= i < |req.hash| ==>
              var c, d := req.hash[i], Lowered(req).hash[i];
              if 'A' <= c <= 'Z' then 'a' <= d <= 'z' && d as int - 'a' as int == c as int - 'A' as int else d == c
  {
  }

  datatype Result = Result(mutation: nat, action: Action, hash: Hash, status: Status)

  datatype Stage1 = Accepted(mutation: nat, action: Action, hash: Hash) | Refused(code: Code) | Replayed(result: Result)

  datatype Pending = Pending(
    mutation: nat, action: Action, hash: Hash, url: string, delFiles: bool, deadline: int, epoch: nat)

  datatype Outcome = Rejected(code: Code) | Settled(status: Status)

  datatype RefRecord = RefRecord(
    ref: Ref, action: Action, hash: Hash, url: string, delFiles: bool, outcome: Outcome, mutation: nat)

  type Pos = n: nat | n > 0 witness 1

  datatype Limits = Limits(maxInFlight: nat, ringSize: Pos)

  /** The fields guarded by Mutator.mu. */
  datatype Table = Table(
    backend: BackendId, epoch: nat, draining: bool, nextMut: nat, inflight: map<Ref, Pending>, ring: seq<RefRecord>)

  predicate SameAttempt(action: Action, hash: Hash, url: string, delFiles: bool, req: Request) {
    action == req.action && delFiles == req.deleteFiles && (if action.Add? then url == req.url else hash == req.hash)
  }

  predicate PendingMatches(p: Pending, req: Request) {
    SameAttempt(p.action, p.hash, p.url, p.delFiles, req)
  }

  predicate RecordMatches(r: RefRecord, req: Request) {
    SameAttempt(r.action, r.hash, r.url, r.delFiles, req)
  }

  /** The oldest record of a ref. */
  function RingFind(ring: seq<RefRecord>, ref: Ref): (r: Option<RefRecord>)
    ensures r.Some? <==> exists i :: 0 <= i < |ring| && ring[i].ref == ref
    ensures r.Some? ==> r.value.ref == ref
  {
    if ring == [] then None
    else if ring[0].ref == ref then Some(ring[0])
    else
      var rest := RingFind(ring[1..], ref);
      assert forall i :: 0 <= i < |ring| - 1 ==> ring[1..][i] == ring[i + 1];
      assert rest.None? ==> forall i :: 1 <= i < |ring| ==> ring[i] == ring[1..][i - 1];
      rest
  }

  function RecordAnswer(r: RefRecord, req: Request): Stage1 {
    if !RecordMatches(r, req) then Refused(RefConflict)
    else match r.outcome
         case Rejected(code) => Refused(code)
         case Settled(status) => Replayed(Result(r.mutation, r.action, r.hash, status))
  }

  function Lookup(t: Table, req: Request): Option<Stage1> {
    if req.ref in t.inflight then
      var p := t.inflight[req.ref];
      Some(if PendingMatches(p, req) then Accepted(p.mutation, p.action, p.hash) else Refused(RefConflict))
    else
      var r := RingFind(t.ring, req.ref);
      if r.Some? then Some(RecordAnswer(r.value, req)) else None
  }

  predicate Known(t: Table, ref: Ref) {
    ref in t.inflight || exists i :: 0 <= i < |t.ring| && t.ring[i].ref == ref
  }

  function Appended(ring: seq<RefRecord>, size: Pos, rec: RefRecord): seq<RefRecord> {
    if |ring| >= size then ring[1..] + [rec] else ring + [rec]
  }

  function AppendedAll(ring: seq<RefRecord>, size: Pos, recs: seq<RefRecord>): seq<RefRecord> {
    if recs == [] then ring
    else Appended(AppendedAll(ring, size, recs[..|recs| - 1]), size, recs[|recs| - 1])
  }

  // ---- Submit ----

  /** The first section: a known ref or an early busy answers at once. */
  function EarlyAnswer(t: Table, lim: Limits, req: Request): Option<Stage1> {
    var known := Lookup(t, req);
    if known.Some? then known
    else if |t.inflight| >= lim.maxInFlight then Some(Refused(Busy))
    else None
  }

  datatype Verdict = Bad(code: Code) | Good(hash: Hash)

  /** Semantic validation against one committed state. */
  function Validate(req: Request, st: Committed): Verdict {
    match req.action
    case OtherAction => Bad(BackendRejected)
    case Add =>
      if req.magnet.None? then Bad(InvalidUrl)
      else if req.magnet.value in st.torrents then Bad(Duplicate)
      else if !st.backendOK then Bad(BackendUnavailable)
      else Good(req.magnet.value)
    case _ =>
      if req.hash !in st.torrents then Bad(StaleTorrent)
      else if !st.backendOK then Bad(BackendUnavailable)
      else Good(req.hash)
  }

  function RejectRecord(req: Request, hash: Hash, code: Code): RefRecord {
    RefRecord(req.ref, req.action, hash, req.url, req.deleteFiles, Rejected(code), 0)
  }

  /** What the registration section answers instead of registering, if anything. */
  function LateAnswer(t: Table, lim: Limits, req: Request): Option<Stage1> {
    if t.draining then Some(Refused(Busy)) else EarlyAnswer(t, lim, req)
  }

  function Registered(t: Table, req: Request, hash: Hash, deadline: int): Table {
    t.(nextMut := t.nextMut + 1,
       inflight := t.inflight[req.ref := Pending(t.nextMut + 1, req.action, hash, req.url, req.deleteFiles, deadline, t.epoch)])
  }

  function FailedSubmit(t: Table, lim: Limits, req: Request, hash: Hash, code: Code): Table {
    t.(inflight := t.inflight - {req.ref}, ring := Appended(t.ring, lim.ringSize, RejectRecord(req, hash, code)))
  }

  datatype Submitted = Submitted(table: Table, answer: Stage1, called: Option<BackendId>)

  /** A whole Submit with nothing beside it, from the section functions; `failure` is how
      its backend call would fail. */
  function SubmitAlone(t: Table, lim: Limits, req: Request, st: Committed, deadline: int, failure: Option<Code>): Submitted {
    var early, late := EarlyAnswer(t, lim, req), LateAnswer(t, lim, req);
    if early.Some? then Submitted(t, early.value, None)
    else match Validate(req, st)
         case Bad(code) =>
           Submitted(t.(ring := Appended(t.ring, lim.ringSize, RejectRecord(req, req.hash, code))), Refused(code), None)
         case Good(hash) =>
           if late.Some? then Submitted(t, late.value, None)
           else
             var r := Registered(t, req, hash, deadline);
             if failure.Some? then Submitted(FailedSubmit(r, lim, req, hash, failure.value), Refused(failure.value), Some(t.backend))
             else Submitted(r, Accepted(r.nextMut, req.action, hash), Some(t.backend))
  }

  lemma LookupKnows(t: Table, req: Request)
    ensures Lookup(t, req).Some? <==> Known(t, req.ref)
  {
  }

  /** A request reaches a backend exactly when its ref is unknown, no drain is held, the
      table has room and the state validates it; then it is the current backend. */
  lemma SubmitIsGuarded(t: Table, lim: Limits, req: Request, st: Committed, deadline: int, failure: Option<Code>)
    ensures var r := SubmitAlone(t, lim, req, st, deadline, failure);
            && (r.called.Some? <==> !Known(t, req.ref) && !t.draining && |t.inflight| < lim.maxInFlight && Validate(req, st).Good?)
            && (r.called.Some? ==> r.called.value == t.backend)
            && (Known(t, req.ref) ==> r.table == t)
  {
    LookupKnows(t, req);
  }

  /** It leaves exactly its own trace: a number and an entry when accepted, a number and a
      record when the backend refused, no entry and no number when it never got there. */
  lemma SubmitLeavesItsTrace(t: Table, lim: Limits, req: Request, st: Committed, deadline: int, failure: Option<Code>)
    ensures var r := SubmitAlone(t, lim, req, st, deadline, failure);
            && r.table.backend == t.backend && r.table.epoch == t.epoch && r.table.draining == t.draining
            && (if r.called.None? then r.table.nextMut == t.nextMut && r.table.inflight == t.inflight
                else r.table.nextMut == t.nextMut + 1
                     && r.table.inflight - {req.ref} == t.inflight
                     && (req.ref in r.table.inflight <==> failure.None?))
  {
    LookupKnows(t, req);
    if EarlyAnswer(t, lim, req).None? {
      assert req.ref !in t.inflight;
    }
  }

  // ---- reconcile ----

  predicate IntentMet(action: Action, hash: Hash, st: Committed) {
    match action
    case Pause => hash in st.torrents && st.torrents[hash].state == Paused
    case Resume => hash in st.torrents && st.torrents[hash].state != Paused
    case Add => hash in st.torrents
    case Remove => hash !in st.torrents
    case OtherAction => false
  }

  function Settlement(p: Pending, st: Committed, epoch: nat, now: int): Option<Status> {
    if p.epoch != epoch then Some(Timeout)
    else if st.backendOK && IntentMet(p.action, p.hash, st) then Some(Confirmed)
    else if now > p.deadline then Some(Timeout)
    else None
  }

  function Survivors(t: Table, st: Committed, now: int): map<Ref, Pending> {
    map ref | ref in t.inflight && Settlement(t.inflight[ref], st, t.epoch, now).None? :: t.inflight[ref]
  }

  /** `order` lists each settled ref exactly once. */
  ghost predicate SettlesInOrder(t: Table, st: Committed, now: int, order: seq<Ref>) {
    && (forall i, j :: 0 <= i < j < |order| ==> order[i] != order[j])
    && (forall ref :: ref in order <==> ref in t.inflight && Settlement(t.inflight[ref], st, t.epoch, now).Some?)
  }

  function SettledRecord(ref: Ref, p: Pending, status: Status): RefRecord {
    RefRecord(ref, p.action, p.hash, p.url, p.delFiles, Settled(status), p.mutation)
  }

  function SettledResult(p: Pending, status: Status): Result {
    Result(p.mutation, p.action, p.hash, status)
  }

  predicate AllSettle(t: Table, st: Committed, now: int, order: seq<Ref>) {
    forall i :: 0 <= i < |order| ==> order[i] in t.inflight && Settlement(t.inflight[order[i]], st, t.epoch, now).Some?
  }

  function RecordsFor(t: Table, st: Committed, now: int, order: seq<Ref>): (recs: seq<RefRecord>)
    requires AllSettle(t, st, now, order)
  {
    seq(|order|, i requires 0 <= i < |order| =>
      SettledRecord(order[i], t.inflight[order[i]], Settlement(t.inflight[order[i]], st, t.epoch, now).value))
  }

  function ResultsFor(t: Table, st: Committed, now: int, order: seq<Ref>): (results: seq<Result>)
    requires AllSettle(t, st, now, order)
  {
    seq(|order|, i requires 0 <= i < |order| =>
      SettledResult(t.inflight[order[i]], Settlement(t.inflight[order[i]], st, t.epoch, now).value))
  }

  function Reconciled(t: Table, lim: Limits, st: Committed, now: int, order: seq<Ref>): Table
    requires AllSettle(t, st, now, order)
  {
    t.(inflight := Survivors(t, st, now), ring := AppendedAll(t.ring, lim.ringSize, RecordsFor(t, st, now, order)))
  }

  // ---- the ring is the tail of its append history ----

  function Tail(hist: seq<RefRecord>, size: Pos): seq<RefRecord> {
    if |hist| <= size then hist else hist[|hist| - size..]
  }

  lemma AppendKeepsTail(hist: seq<RefRecord>, size: Pos, rec: RefRecord)
    ensures Appended(Tail(hist, size), size, rec) == Tail(hist + [rec], size)
  {
  }

  /** However many records were appended, the ring holds the last min(n, RingSize) of them,
      oldest first. */
  lemma {:induction false} RingIsTail(hist: seq<RefRecord>, size: Pos, recs: seq<RefRecord>)
    ensures AppendedAll(Tail(hist, size), size, recs) == Tail(hist + recs, size)
  {
    if recs == [] {
      assert hist + recs == hist;
    } else {
      var front := recs[..|recs| - 1];
      RingIsTail(hist, size, front);
      AppendKeepsTail(hist + front, size, recs[|recs| - 1]);
      assert hist + front + [recs[|recs| - 1]] == hist + recs;
    }
  }

  /** One pass splits the in-flight table into survivors and settled entries. A survivor is
      of the current epoch, unsatisfied and within its deadline; every settled entry has
      exactly one result and one record; confirmed means the state read was backend-OK and
      meets the action's intent. */
  lemma ReconcilePartition(t: Table, lim: Limits, st: Committed, now: int, order: seq<Ref>)
    requires SettlesInOrder(t, st, now, order)
    ensures AllSettle(t, st, now, order)
    ensures var t' := Reconciled(t, lim, st, now, order);
            && t.inflight.Keys == t'.inflight.Keys + (set ref | ref in order)
            && t'.inflight.Keys !! (set ref | ref in order)
            && (forall ref :: ref in t'.inflight ==>
                  var p := t'.inflight[ref];
                  && p == t.inflight[ref] && p.epoch == t.epoch && now <= p.deadline
                  && !(st.backendOK && IntentMet(p.action, p.hash, st)))
    ensures var results := ResultsFor(t, st, now, order);
            && |results| == |order| == |t.inflight| - |Survivors(t, st, now)|
            && (forall i :: 0 <= i < |order| ==>
                  && results[i].mutation == t.inflight[order[i]].mutation
                  && (results[i].status.Confirmed? ==>
                        st.backendOK && IntentMet(results[i].action, results[i].hash, st)))
  {
    var settled := set ref | ref in order;
    assert t.inflight.Keys == Survivors(t, st, now).Keys + settled;
    DistinctCount(order);
  }

  lemma {:induction false} DistinctCount(order: seq<Ref>)
    requires forall i, j :: 0 <= i < j < |order| ==> order[i] != order[j]
    ensures |(set ref | ref in order)| == |order|
  {
    if order != [] {
      var front, last := order[..|order| - 1], order[|order| - 1];
      DistinctCount(front);
      assert (set ref | ref in order) == (set ref | ref in front) + {last};
      assert last !in front;
    }
  }

  // ---- the answers, read on requests and states ----

  /** The same wish as one made before with these fields: a magnet for an add, else a torrent. */
  predicate Repeats(action: Action, hash: Hash, url: string, delFiles: bool, req: Request) {
    && req.action == action && req.deleteFiles == delFiles
    && (req.action == Add ==> req.url == url)
    && (req.action != Add ==> req.hash == hash)
  }

  predicate SameWish(first: Request, again: Request) {
    Repeats(first.action, first.hash, first.url, first.deleteFiles, again)
  }

  /** The torrent a request is about. */
  function Target(req: Request): Hash {
    if req.action == Add then req.magnet.GetOr("") else req.hash
  }

  /** The state allows the request. */
  predicate Fit(req: Request, st: Committed) {
    && st.backendOK && req.action != OtherAction
    && (req.action == Add ==> req.magnet.Some? && req.magnet.value !in st.torrents)
    && (req.action != Add ==> req.hash in st.torrents)
  }

  /** Why it does not; what the state lacks is named before the backend's absence. */
  predicate Unfit(req: Request, st: Committed, code: Code) {
    && (req.action == OtherAction ==> code == BackendRejected)
    && (req.action == Add && req.magnet.None? ==> code == InvalidUrl)
    && (req.action == Add && req.magnet.Some? && req.magnet.value in st.torrents ==> code == Duplicate)
    && (req.action in {Pause, Resume, Remove} && req.hash !in st.torrents ==> code == StaleTorrent)
    && (req.action in {Pause, Resume, Remove} && req.hash in st.torrents ==> code == BackendUnavailable)
    && (req.action == Add && req.magnet.Some? && req.magnet.value !in st.torrents ==> code == BackendUnavailable)
  }

  lemma ValidateIsFit(req: Request, st: Committed)
    ensures Validate(req, st).Good? <==> Fit(req, st)
    ensures Validate(req, st).Good? ==> Validate(req, st).hash == Target(req)
    ensures Validate(req, st).Bad? ==> Unfit(req, st, Validate(req, st).code)
  {
  }

  predicate OldestAt(ring: seq<RefRecord>, ref: Ref, k: nat) {
    k < |ring| && ring[k].ref == ref && forall j :: 0 <= j < k ==> ring[j].ref != ref
  }

  /** What a recorded outcome answers to a request under its ref. */
  predicate Recalls(rec: RefRecord, req: Request, answer: Stage1) {
    if !Repeats(rec.action, rec.hash, rec.url, rec.delFiles, req) then answer == Refused(RefConflict)
    else
      && (rec.outcome.Rejected? ==> answer == Refused(rec.outcome.code))
      && (rec.outcome.Settled? ==> answer == Replayed(Result(rec.mutation, rec.action, rec.hash, rec.outcome.status)))
  }

  /** What a known ref is answered: the acceptance it had while in flight, else what its oldest
      record says; another wish under it is a conflict. */
  ghost predicate AnswersKnown(t: Table, req: Request, answer: Stage1) {
    && (req.ref in t.inflight ==>
          var p := t.inflight[req.ref];
          answer == if Repeats(p.action, p.hash, p.url, p.delFiles, req) then Accepted(p.mutation, p.action, p.hash) else Refused(RefConflict))
    && (req.ref !in t.inflight ==> forall k: nat :: OldestAt(t.ring, req.ref, k) ==> Recalls(t.ring[k], req, answer))
  }

  lemma {:induction false} RingFindIs(ring: seq<RefRecord>, ref: Ref, k: nat)
    requires OldestAt(ring, ref, k)
    ensures RingFind(ring, ref) == Some(ring[k])
  {
    if k > 0 {
      RingFindIs(ring[1..], ref, k - 1);
    }
  }

  lemma {:induction false} HasOldest(ring: seq<RefRecord>, ref: Ref) returns (k: nat)
    requires exists i :: 0 <= i < |ring| && ring[i].ref == ref
    ensures OldestAt(ring, ref, k)
  {
    if ring[0].ref == ref {
      k := 0;
    } else {
      k := HasOldest(ring[1..], ref);
      k := k + 1;
    }
  }

  lemma LookupAnswers(t: Table, req: Request)
    ensures Lookup(t, req).Some? <==> Known(t, req.ref)
    ensures Lookup(t, req).Some? ==> AnswersKnown(t, req, Lookup(t, req).value)
  {
    if req.ref !in t.inflight {
      forall k: nat | OldestAt(t.ring, req.ref, k) ensures Recalls(t.ring[k], req, Lookup(t, req).value) {
        RingFindIs(t.ring, req.ref, k);
      }
    }
  }

  /** What a new ref is answered, with the code's order of tests, and what the table keeps of
      it: an entry when accepted, a record of the refusal when refused for good, nothing when
      turned away as busy. */
  predicate AnswersNew(t: Table, lim: Limits, req: Request, st: Committed, deadline: int, failure: Option<Code>, r: Submitted) {
    if |t.inflight| >= lim.maxInFlight then r == Submitted(t, Refused(Busy), None)
    else if !Fit(req, st) then
      r.called.None? && r.answer.Refused? && Unfit(req, st, r.answer.code) && Keeps(t, r.table, req, r.answer.code) && r.table.nextMut == t.nextMut
    else if t.draining then r == Submitted(t, Refused(Busy), None)
    else
      && r.called == Some(t.backend) && r.table.nextMut == t.nextMut + 1
      && (failure.Some? ==> r.answer == Refused(failure.value) && Keeps(t, r.table, req, failure.value))
      && (failure.None? ==>
            && r.answer == Accepted(t.nextMut + 1, req.action, Target(req)) && r.table.ring == t.ring
            && r.table.inflight == t.inflight[req.ref :=
                 Pending(t.nextMut + 1, req.action, Target(req), req.url, req.deleteFiles, deadline, t.epoch)])
  }

  /** The refusal is the ring's newest record, under the wish it refused. */
  predicate Keeps(t: Table, t': Table, req: Request, code: Code) {
    && t'.inflight == t.inflight && |t'.ring| > 0
    && var rec := t'.ring[|t'.ring| - 1];
    && rec.ref == req.ref && Repeats(rec.action, rec.hash, rec.url, rec.delFiles, req) && rec.outcome == Rejected(code)
    && (t'.ring == t.ring + [rec] || (t.ring != [] && t'.ring == t.ring[1..] + [rec]))
  }

  /** A known ref changes nothing and is answered from memory; a new one is decided. */
  ghost predicate SubmitLeaves(t: Table, lim: Limits, req: Request, st: Committed, deadline: int, failure: Option<Code>, r: Submitted) {
    if Known(t, req.ref) then r.table == t && r.called.None? && AnswersKnown(t, req, r.answer)
    else AnswersNew(t, lim, req, st, deadline, failure, r)
  }

  lemma SubmitAnswers(t: Table, lim: Limits, req: Request, st: Committed, deadline: int, failure: Option<Code>)
    ensures SubmitLeaves(t, lim, req, st, deadline, failure, SubmitAlone(t, lim, req, st, deadline, failure))
  {
    LookupAnswers(t, req);
    ValidateIsFit(req, st);
    if !Known(t, req.ref) {
      NewSubmit(t, lim, req, st, deadline, failure);
    }
  }

  lemma NewSubmit(t: Table, lim: Limits, req: Request, st: Committed, deadline: int, failure: Option<Code>)
    requires !Known(t, req.ref)
    ensures AnswersNew(t, lim, req, st, deadline, failure, SubmitAlone(t, lim, req, st, deadline, failure))
  {
    LookupAnswers(t, req);
    ValidateIsFit(req, st);
    if failure.Some? {
      assert t.inflight[req.ref := Pending(t.nextMut + 1, req.action, Target(req), req.url, req.deleteFiles, deadline, t.epoch)] - {req.ref} == t.inflight;
    }
  }

  /** The same request sent once more gets the same answer, as long as nothing came between
      and the first was not turned away as busy; another wish under its ref is a conflict.
      Neither reaches the backend nor changes the table. */
  lemma SubmitTwice(
    t: Table, lim: Limits, req: Request, st: Committed, deadline: int, failure: Option<Code>,
    again: Request, st': Committed, deadline': int, failure': Option<Code>)
    requires again.ref == req.ref && !Known(t, req.ref)
    requires SubmitAlone(t, lim, req, st, deadline, failure).answer != Refused(Busy)
    ensures var r := SubmitAlone(t, lim, req, st, deadline, failure);
            SubmitAlone(r.table, lim, again, st', deadline', failure')
              == Submitted(r.table, if SameWish(req, again) then r.answer else Refused(RefConflict), None)
  {
    var r := SubmitAlone(t, lim, req, st, deadline, failure);
    SubmitAnswers(t, lim, req, st, deadline, failure);
    SubmitAnswers(r.table, lim, again, st', deadline', failure');
    if req.ref !in r.table.inflight {
      assert OldestAt(r.table.ring, req.ref, |r.table.ring| - 1);
    }
  }

  /** What a torrent map must show for an action to count as done. */
  predicate Evident(action: Action, hash: Hash, torrents: map<Hash, Torrent>) {
    && action != OtherAction
    && (action == Pause ==> hash in torrents && torrents[hash].state == Paused)
    && (action == Resume ==> hash in torrents && torrents[hash].state != Paused)
    && (action == Add ==> hash in torrents)
    && (action == Remove ==> hash !in torrents)
  }

  lemma IntentIsEvident(action: Action, hash: Hash, st: Committed)
    ensures IntentMet(action, hash, st) <==> Evident(action, hash, st.torrents)
  {
  }

  /** An entry is confirmed in a pass exactly when it is of the epoch, the state shows a live
      backend, and its map shows the action done; it times out exactly when it is not
      confirmed and is of another epoch or past its deadline. */
  predicate Confirms(p: Pending, st: Committed, epoch: nat) {
    p.epoch == epoch && st.backendOK && Evident(p.action, p.hash, st.torrents)
  }

  predicate TimesOut(p: Pending, st: Committed, epoch: nat, now: int) {
    !Confirms(p, st, epoch) && (p.epoch != epoch || p.deadline < now)
  }

  lemma SettlementIs(p: Pending, st: Committed, epoch: nat, now: int)
    ensures Settlement(p, st, epoch, now) == Some(Confirmed) <==> Confirms(p, st, epoch)
    ensures Settlement(p, st, epoch, now) == Some(Timeout) <==> TimesOut(p, st, epoch, now)
  {
    IntentIsEvident(p.action, p.hash, st);
  }

  /** One pass, entry by entry: it stays, or it leaves with exactly the result it deserves. */
  ghost predicate PassLeaves(t: Table, t': Table, st: Committed, now: int, order: seq<Ref>, results: seq<Result>) {
    && |results| == |order|
    && (forall i, j :: 0 <= i < j < |order| ==> order[i] != order[j])
    && (forall ref :: ref in order <==> ref in t.inflight && (Confirms(t.inflight[ref], st, t.epoch) || TimesOut(t.inflight[ref], st, t.epoch, now)))
    && (forall ref :: ref in t'.inflight <==> ref in t.inflight && ref !in order)
    && (forall ref :: ref in t'.inflight ==> ref in t.inflight && t'.inflight[ref] == t.inflight[ref])
    && (forall i :: 0 <= i < |order| ==>
          && order[i] in t.inflight
          && var p := t.inflight[order[i]];
          results[i] == Result(p.mutation, p.action, p.hash, if Confirms(p, st, t.epoch) then Confirmed else Timeout))
  }

  lemma ReconcileLeaves(t: Table, lim: Limits, st: Committed, now: int, order: seq<Ref>)
    requires SettlesInOrder(t, st, now, order) && AllSettle(t, st, now, order)
    ensures PassLeaves(t, Reconciled(t, lim, st, now, order), st, now, order, ResultsFor(t, st, now, order))
  {
    forall ref | ref in t.inflight
      ensures Settlement(t.inflight[ref], st, t.epoch, now) == Some(Confirmed) <==> Confirms(t.inflight[ref], st, t.epoch)
      ensures Settlement(t.inflight[ref], st, t.epoch, now) == Some(Timeout) <==> TimesOut(t.inflight[ref], st, t.epoch, now)
    {
      SettlementIs(t.inflight[ref], st, t.epoch, now);
    }
  }
}
