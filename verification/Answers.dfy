/** What clients are told, over every run of MutateRuns: a known ref is answered by what
    became of the request that made it known, and a result by what a state showed. */
module Answers {
  import opened Options
  import opened Torrents
  import opened MutateSpec
  import opened MutateRuns

  // ---- every entry, record and result goes back to a request ----

  predicate TaskMade(t: Task) {
    t.Registering? || t.Calling? || t.CallFailed? ==> t.hash == Target(t.req)
  }

  predicate EntryFrom(p: Pending, req: Request) {
    p.action == req.action && p.hash == Target(req) && p.url == req.url && p.delFiles == req.deleteFiles
  }

  ghost predicate EntryMade(s: Sys, ref: Ref)
    requires ref in s.table.inflight
  {
    var m := s.table.inflight[ref].mutation;
    0 < m <= |s.regs| && s.regs[m - 1].req.ref == ref && EntryFrom(s.table.inflight[ref], s.regs[m - 1].req)
  }

  predicate RecordFrom(rec: RefRecord, req: Request) {
    && rec.ref == req.ref && rec.action == req.action && rec.url == req.url && rec.delFiles == req.deleteFiles
    && (req.action != Add ==> rec.hash == req.hash)
  }

  /** The mutation with this number was settled with this result. */
  ghost predicate WasSettled(s: Sys, r: Result) {
    exists j :: 0 <= j < |s.settled| && s.settled[j].result == r
  }

  ghost predicate RecordMade(s: Sys, k: nat)
    requires k < |s.hist|
  {
    var rec := s.hist[k];
    if rec.outcome.Rejected? then k in s.refused && s.refused[k].code == rec.outcome.code && RecordFrom(rec, s.refused[k].req)
    else
      && k !in s.refused && 0 < rec.mutation <= |s.regs| && RecordFrom(rec, s.regs[rec.mutation - 1].req)
      && WasSettled(s, Result(rec.mutation, rec.action, rec.hash, rec.outcome.status))
  }

  ghost predicate ResultMade(s: Sys, j: nat)
    requires j < |s.settled|
  {
    var r := s.settled[j].result;
    0 < r.mutation <= |s.regs| && r.action == s.regs[r.mutation - 1].req.action && r.hash == Target(s.regs[r.mutation - 1].req)
  }

  ghost predicate TasksMade(s: Sys) {
    forall id :: id in s.tasks ==> TaskMade(s.tasks[id])
  }

  ghost predicate EntriesMade(s: Sys) {
    forall ref :: ref in s.table.inflight ==> EntryMade(s, ref)
  }

  ghost predicate RecordsMade(s: Sys) {
    && (forall k :: 0 <= k < |s.hist| ==> RecordMade(s, k))
    && (forall k :: k in s.refused ==> k < |s.hist|)
  }

  ghost predicate ResultsMade(s: Sys) {
    forall j :: 0 <= j < |s.settled| ==> ResultMade(s, j)
  }

  ghost predicate Made(s: Sys) {
    TasksMade(s) && EntriesMade(s) && RecordsMade(s) && ResultsMade(s)
  }

  lemma TasksStep(s: Sys, lim: Limits, step: Step)
    requires TasksMade(s) && Enabled(s, step)
    ensures TasksMade(After(s, lim, step))
  {
    var t := After(s, lim, step);
    if step.ReadState? {
      ValidateIsFit(s.tasks[step.id].req, s.committed[|s.committed| - 1]);
    }
    forall id | id in t.tasks ensures TaskMade(t.tasks[id]) {
      if id in s.tasks {
        assert TaskMade(s.tasks[id]);
      }
    }
  }

  lemma EntryKept(s: Sys, t: Sys, ref: Ref)
    requires ref in s.table.inflight && EntryMade(s, ref) && s.regs <= t.regs
    requires ref in t.table.inflight && t.table.inflight[ref] == s.table.inflight[ref]
    ensures EntryMade(t, ref)
  {
  }

  lemma EntriesRegistered(s: Sys, lim: Limits, step: Step)
    requires s.table.nextMut == |s.regs| && TasksMade(s) && EntriesMade(s) && Enabled(s, step) && step.RegisterSection?
    ensures EntriesMade(After(s, lim, step))
  {
    var t := After(s, lim, step);
    assert TaskMade(s.tasks[step.id]);
    forall ref | ref in t.table.inflight ensures EntryMade(t, ref) {
      if ref in s.table.inflight && t.table.inflight[ref] == s.table.inflight[ref] {
        EntryKept(s, t, ref);
      }
    }
  }

  lemma EntriesStep(s: Sys, lim: Limits, step: Step)
    requires s.table.nextMut == |s.regs| && TasksMade(s) && EntriesMade(s) && Enabled(s, step)
    ensures EntriesMade(After(s, lim, step))
  {
    if step.RegisterSection? {
      EntriesRegistered(s, lim, step);
    } else {
      var t := After(s, lim, step);
      assert t.regs == s.regs;
      forall ref | ref in t.table.inflight ensures EntryMade(t, ref) {
        EntryKept(s, t, ref);
      }
    }
  }

  lemma ResultsStep(s: Sys, lim: Limits, step: Step)
    requires EntriesMade(s) && ResultsMade(s) && Enabled(s, step)
    ensures ResultsMade(After(s, lim, step))
  {
    var t := After(s, lim, step);
    forall j | 0 <= j < |t.settled| ensures ResultMade(t, j) {
      assert s.regs <= t.regs;
      if j < |s.settled| {
        assert ResultMade(s, j) && t.settled[j] == s.settled[j];
      } else {
        assert EntryMade(s, step.order[j - |s.settled|]);
      }
    }
  }

  lemma RecordKept(s: Sys, lim: Limits, step: Step, k: nat)
    requires k < |s.hist| && RecordMade(s, k) && Enabled(s, step)
    ensures k < |After(s, lim, step).hist| && RecordMade(After(s, lim, step), k)
  {
    var t := After(s, lim, step);
    assert s.regs <= t.regs && s.settled <= t.settled && s.hist <= t.hist;
    StillMade(s, t, k);
  }

  lemma StillMade(s: Sys, t: Sys, k: nat)
    requires k < |s.hist| && RecordMade(s, k)
    requires s.regs <= t.regs && s.settled <= t.settled && s.hist <= t.hist
    requires (k in t.refused <==> k in s.refused) && (k in s.refused ==> t.refused[k] == s.refused[k])
    ensures RecordMade(t, k)
  {
    var rec := s.hist[k];
    assert t.hist[k] == rec;
    if rec.outcome.Settled? {
      var j :| 0 <= j < |s.settled| && s.settled[j].result == Result(rec.mutation, rec.action, rec.hash, rec.outcome.status);
      assert t.settled[j] == s.settled[j];
    }
  }

  lemma RecordsReconciled(s: Sys, lim: Limits, order: seq<Ref>, k: nat)
    requires EntriesMade(s) && RecordsMade(s) && Enabled(s, ReconcileSection(order))
    requires |s.hist| <= k < |After(s, lim, ReconcileSection(order)).hist|
    ensures RecordMade(After(s, lim, ReconcileSection(order)), k)
  {
    var t, n := After(s, lim, ReconcileSection(order)), k - |s.hist|;
    assert EntryMade(s, order[n]);
    assert k !in s.refused;
    assert t.settled[|s.settled| + n].result == Result(t.hist[k].mutation, t.hist[k].action, t.hist[k].hash, t.hist[k].outcome.status);
  }

  lemma RecordsStep(s: Sys, lim: Limits, step: Step)
    requires TasksMade(s) && EntriesMade(s) && RecordsMade(s) && Enabled(s, step)
    ensures RecordsMade(After(s, lim, step))
  {
    var t := After(s, lim, step);
    forall k | 0 <= k < |t.hist| ensures RecordMade(t, k) {
      if k < |s.hist| {
        RecordKept(s, lim, step, k);
      } else if step.ReconcileSection? {
        RecordsReconciled(s, lim, step.order, k);
      } else {
        assert TaskMade(s.tasks[step.id]);
      }
    }
  }

  lemma {:induction false} ReachableMade(states: seq<Sys>, lim: Limits, steps: seq<Step>, i: nat)
    requires IsRun(states, lim, steps) && i < |states|
    ensures Made(states[i])
  {
    if i > 0 {
      ReachableMade(states, lim, steps, i - 1);
      assert TableOk(states[i - 1], lim) by { Reachable(states, lim, steps, i - 1); }
      assert StepAt(states, lim, steps, i - 1);
      TasksStep(states[i - 1], lim, steps[i - 1]);
      EntriesStep(states[i - 1], lim, steps[i - 1]);
      ResultsStep(states[i - 1], lim, steps[i - 1]);
      RecordsStep(states[i - 1], lim, steps[i - 1]);
    }
  }

  // ---- a known ref ----

  /** Told again, or told that the ref is taken. */
  predicate ToldAgain(first: Request, again: Request, was: Stage1, answer: Stage1) {
    first.ref == again.ref && answer == if SameWish(first, again) then was else Refused(RefConflict)
  }

  /** The oldest append about a ref that the ring still holds. */
  ghost predicate OldestHeld(s: Sys, ref: Ref, k: nat) {
    && |s.table.ring| <= |s.hist| && |s.hist| - |s.table.ring| <= k < |s.hist| && s.hist[k].ref == ref
    && forall j :: |s.hist| - |s.table.ring| <= j < k ==> s.hist[j].ref != ref
  }

  /** In flight: the request that registered it is told its number again. */
  ghost predicate ToldInFlight(s: Sys, req: Request, answer: Stage1) {
    req.ref in s.table.inflight &&
    var m := s.table.inflight[req.ref].mutation;
    0 < m <= |s.regs| && ToldAgain(s.regs[m - 1].req, req, Accepted(m, s.regs[m - 1].req.action, Target(s.regs[m - 1].req)), answer)
  }

  /** Refused before: that request is told the code again. */
  ghost predicate ToldRefusal(s: Sys, k: nat, req: Request, answer: Stage1) {
    k in s.refused && ToldAgain(s.refused[k].req, req, Refused(s.refused[k].code), answer)
  }

  /** Settled: the request that registered it is told its own mutation's result. */
  ghost predicate ToldResult(s: Sys, k: nat, req: Request, answer: Stage1) {
    k < |s.hist| && exists j ::
      && 0 <= j < |s.settled| && s.settled[j].result.mutation == s.hist[k].mutation && 0 < s.hist[k].mutation <= |s.regs|
      && ToldAgain(s.regs[s.hist[k].mutation - 1].req, req, Replayed(s.settled[j].result), answer)
  }

  lemma AnsweredInFlight(s: Sys, req: Request, answer: Stage1)
    requires EntriesMade(s) && req.ref in s.table.inflight && AnswersKnown(s.table, req, answer)
    ensures ToldInFlight(s, req, answer)
  {
    assert EntryMade(s, req.ref);
  }

  lemma AnsweredFromRing(s: Sys, lim: Limits, req: Request, answer: Stage1) returns (k: nat)
    requires s.table.ring == Tail(s.hist, lim.ringSize) && RecordsMade(s)
    requires Known(s.table, req.ref) && req.ref !in s.table.inflight && AnswersKnown(s.table, req, answer)
    ensures OldestHeld(s, req.ref, k) && (ToldRefusal(s, k, req, answer) || ToldResult(s, k, req, answer))
  {
    var n := HasOldest(s.table.ring, req.ref);
    PlaceInHistory(s, lim, req.ref, n);
    k := |s.hist| - |s.table.ring| + n;
    assert Recalls(s.hist[k], req, answer);
    assert RecordMade(s, k);
    RecalledAsTold(s, k, req, answer);
  }

  lemma PlaceInHistory(s: Sys, lim: Limits, ref: Ref, n: nat)
    requires s.table.ring == Tail(s.hist, lim.ringSize) && OldestAt(s.table.ring, ref, n)
    ensures var k := |s.hist| - |s.table.ring| + n;
            0 <= k && OldestHeld(s, ref, k) && s.hist[k] == s.table.ring[n]
  {
    var from := |s.hist| - |s.table.ring|;
    assert s.table.ring == s.hist[from..];
    forall j | from <= j < from + n ensures s.hist[j].ref != ref {
      assert s.hist[j] == s.table.ring[j - from];
    }
  }

  lemma RecalledAsTold(s: Sys, k: nat, req: Request, answer: Stage1)
    requires k < |s.hist| && RecordMade(s, k) && s.hist[k].ref == req.ref && Recalls(s.hist[k], req, answer)
    ensures ToldRefusal(s, k, req, answer) || ToldResult(s, k, req, answer)
  {
    var rec := s.hist[k];
    if rec.outcome.Rejected? {
      SameAsRecord(rec, s.refused[k].req, req);
    } else {
      SameAsRecord(rec, s.regs[rec.mutation - 1].req, req);
      var j :| 0 <= j < |s.settled| && s.settled[j].result == Result(rec.mutation, rec.action, rec.hash, rec.outcome.status);
      assert ToldAgain(s.regs[rec.mutation - 1].req, req, Replayed(s.settled[j].result), answer);
    }
  }

  lemma SameAsRecord(rec: RefRecord, first: Request, again: Request)
    requires RecordFrom(rec, first)
    ensures Repeats(rec.action, rec.hash, rec.url, rec.delFiles, again) <==> SameWish(first, again)
  {
  }

  /** Whichever section finds a ref known, its request is answered by the history of the ref:
      the same wish gets the same answer again, another wish a conflict. */
  lemma KnownRefIsToldAgain(states: seq<Sys>, lim: Limits, steps: seq<Step>, i: nat) returns (k: nat)
    requires IsRun(states, lim, steps) && i < |steps| && StepAt(states, lim, steps, i)
    requires steps[i].EarlySection? || (steps[i].RegisterSection? && !states[i].table.draining)
    requires Known(states[i].table, states[i].tasks[steps[i].id].req.ref)
    ensures var s, req, task := states[i], states[i].tasks[steps[i].id].req, states[i + 1].tasks[steps[i].id];
            && task.Done? && states[i + 1].calls == s.calls && states[i + 1].table == s.table
            && (if req.ref in s.table.inflight then ToldInFlight(s, req, task.answer)
                else OldestHeld(s, req.ref, k) && (ToldRefusal(s, k, req, task.answer) || ToldResult(s, k, req, task.answer)))
  {
    var s, req := states[i], states[i].tasks[steps[i].id].req;
    LookupAnswers(s.table, req);
    ReachableMade(states, lim, steps, i);
    assert TableOk(s, lim) by { Reachable(states, lim, steps, i); }
    k := 0;
    if req.ref in s.table.inflight {
      AnsweredInFlight(s, req, states[i + 1].tasks[steps[i].id].answer);
    } else {
      k := AnsweredFromRing(s, lim, req, states[i + 1].tasks[steps[i].id].answer);
    }
  }

  // ---- results ----

  /** A published confirmation is about the torrent and action of its own request, and some
      committed state of a live backend showed that action done. */
  lemma ConfirmedWasShown(states: seq<Sys>, lim: Limits, steps: seq<Step>, i: nat, a: nat) returns (at: nat)
    requires IsRun(states, lim, steps) && i < |states| && a < |states[i].published| && states[i].published[a].status == Confirmed
    ensures var s, r := states[i], states[i].published[a];
            && 0 < r.mutation <= |s.regs| && r.action == s.regs[r.mutation - 1].req.action && r.hash == Target(s.regs[r.mutation - 1].req)
            && at < |s.committed| && s.committed[at].backendOK && Evident(r.action, r.hash, s.committed[at].torrents)
  {
    at := ConfirmedIsJustified(states, lim, steps, i, a);
    ReachableMade(states, lim, steps, i);
    var s, r := states[i], states[i].published[a];
    assert PublishedOk(s) by { Reachable(states, lim, steps, i); }
    var todo := if s.recon.Publishing? then s.recon.rest else [];
    assert (s.published + todo)[a] == s.settled[a].result;
    assert ResultMade(s, a);
    IntentIsEvident(r.action, r.hash, s.committed[at]);
  }

  /** And the other way round: every entry a pass meets is confirmed in that very pass exactly
      when the state it reads shows a live backend and the action done; otherwise it times
      out exactly when its deadline has passed, and is left as it is when not. */
  lemma ShownIsConfirmed(states: seq<Sys>, lim: Limits, steps: seq<Step>, i: nat, ref: Ref)
    requires IsRun(states, lim, steps) && i < |steps| && steps[i].ReconcileSection? && StepAt(states, lim, steps, i)
    requires ref in states[i].table.inflight
    ensures var s, t, p := states[i], states[i + 1], states[i].table.inflight[ref];
            var st := s.committed[s.recon.at];
            var done := st.backendOK && Evident(p.action, p.hash, st.torrents);
            && t.recon.Publishing?
            && (Result(p.mutation, p.action, p.hash, Confirmed) in t.recon.rest <==> done)
            && (Result(p.mutation, p.action, p.hash, Timeout) in t.recon.rest <==> !done && p.deadline < s.recon.now)
            && (ref in t.table.inflight <==> !done && s.recon.now <= p.deadline)
            && (ref in t.table.inflight ==> t.table.inflight[ref] == p)
  {
    var s := states[i];
    assert TableOk(s, lim) by { Reachable(states, lim, steps, i); }
    assert EntryOk(s, ref);
    var st, order := s.committed[s.recon.at], steps[i].order;
    ReconcileLeaves(s.table, lim, st, s.recon.now, order);
    ResultsOfPass(s, lim, order, ref);
  }

  /** A pass publishes one result under the number of an entry, and only if it settles it. */
  lemma ResultsOfPass(s: Sys, lim: Limits, order: seq<Ref>, ref: Ref)
    requires TableOk(s, lim) && Enabled(s, ReconcileSection(order)) && ref in s.table.inflight
    requires PassLeaves(s.table, After(s, lim, ReconcileSection(order)).table, s.committed[s.recon.at], s.recon.now, order,
                        After(s, lim, ReconcileSection(order)).recon.rest)
    ensures var p, rest := s.table.inflight[ref], After(s, lim, ReconcileSection(order)).recon.rest;
            var deserved := Result(p.mutation, p.action, p.hash, if Confirms(p, s.committed[s.recon.at], s.table.epoch) then Confirmed else Timeout);
            && (ref in order ==> deserved in rest)
            && (forall r :: r in rest && r.mutation == p.mutation ==> ref in order && r == deserved)
  {
    var rest := After(s, lim, ReconcileSection(order)).recon.rest;
    if ref in order {
      var n :| 0 <= n < |order| && order[n] == ref;
      assert rest[n] in rest;
    }
    var p := s.table.inflight[ref];
    forall r | r in rest && r.mutation == p.mutation
      ensures ref in order
      ensures r == Result(p.mutation, p.action, p.hash, if Confirms(p, s.committed[s.recon.at], s.table.epoch) then Confirmed else Timeout)
    {
      var n :| 0 <= n < |rest| && rest[n] == r;
      assert order[n] in order;
      SameEntry(s, lim, ref, order[n]);
    }
  }

  /** In-flight numbers tell entries apart. */
  lemma SameEntry(s: Sys, lim: Limits, a: Ref, b: Ref)
    requires TableOk(s, lim) && a in s.table.inflight && b in s.table.inflight
    requires s.table.inflight[a].mutation == s.table.inflight[b].mutation
    ensures a == b
  {
    assert EntryOk(s, a) && EntryOk(s, b);
  }
}
