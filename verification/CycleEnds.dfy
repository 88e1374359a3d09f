/** How the last cycle ended, read off the state shown, over every run of SyncRuns. */
module CycleEnds {
  import opened Options
  import opened Torrents
  import opened SyncSpec
  import opened SyncRuns

  /** The last ending in the present epoch: none since the switch, a fault, or a commit. */
  datatype Ending = NotYet | Faulted(fault: Fault) | Updated(rid: int)

  function EndingOf(s: Sys, step: Step, before: Ending): Ending
    requires Fits(s, step)
  {
    match step
    case SwitchTo(_, _) => NotYet
    case Degrade => if s.cycle.k.epoch == s.core.epoch then Faulted(s.cycle.fault) else before
    case Commit(_) => if s.cycle.k.epoch == s.core.epoch then Updated(s.cycle.rid) else before
    case _ => before
  }

  ghost function LastEnding(states: seq<Sys>, steps: seq<Step>, i: nat): Ending
    requires IsRun(states, steps) && i < |states|
  {
    if i == 0 then NotYet
    else
      assert StepAt(states, steps, i - 1);
      EndingOf(states[i - 1], steps[i - 1], LastEnding(states, steps, i - 1))
  }

  /** What the guarded fields show of it. */
  predicate Shows(core: Core, e: Ending) {
    match e
    case NotYet => !core.cur.backendOK && core.rid == 0 && core.cur.torrents == map[] && core.cur.lastError == Loading
    case Faulted(f) =>
      !core.cur.backendOK && core.rid == 0 && core.cur.dlSpeed == 0 && core.cur.upSpeed == 0 && core.cur.freeSpace.None?
      && core.cur.lastError == Class(f)
    case Updated(rid) => core.cur.backendOK && core.rid == rid && core.cur.lastError == NoToken
  }

  /** A draft waiting to be committed claims a live backend and no error. */
  predicate DraftIsLive(s: Sys) {
    Answered(s.cycle) ==> s.cycle.next.backendOK && s.cycle.next.lastError == NoToken
  }

  lemma DraftStaysLive(s: Sys, step: Step)
    requires DraftIsLive(s) && Fits(s, step)
    ensures DraftIsLive(After(s, step))
  {
  }

  predicate Ends(step: Step) {
    step.SwitchTo? || step.Degrade? || step.Commit?
  }

  lemma StateKept(s: Sys, step: Step)
    requires Fits(s, step) && !Ends(step)
    ensures After(s, step).core.cur == s.core.cur && After(s, step).core.rid == s.core.rid
  {
  }

  lemma ShowsStep(s: Sys, step: Step, e: Ending)
    requires DraftIsLive(s) && Shows(s.core, e) && Fits(s, step)
    ensures Shows(After(s, step).core, EndingOf(s, step, e))
  {
    if !Ends(step) {
      StateKept(s, step);
    }
  }

  /** In every reachable state the shown fields tell how the last cycle of the epoch ended:
      the backend is shown as up if and only if that was a commit. */
  lemma {:induction false} ShowsLastEnding(states: seq<Sys>, steps: seq<Step>, i: nat)
    requires IsRun(states, steps) && i < |states|
    ensures Shows(states[i].core, LastEnding(states, steps, i)) && DraftIsLive(states[i])
    ensures states[i].core.cur.backendOK <==> LastEnding(states, steps, i).Updated?
  {
    if i > 0 {
      ShowsLastEnding(states, steps, i - 1);
      assert StepAt(states, steps, i - 1);
      ShowsStep(states[i - 1], steps[i - 1], LastEnding(states, steps, i - 1));
      DraftStaysLive(states[i - 1], steps[i - 1]);
    }
  }

  /** A cycle that begins unparked logs in first, unless the last one of the epoch committed;
      then it asks at once, and asks for changes since the rid of that very answer. */
  lemma LoginUnlessCommitted(states: seq<Sys>, steps: seq<Step>, i: nat)
    requires IsRun(states, steps) && i < |steps| && steps[i].Begin? && !states[i].core.sticky
    ensures var e := LastEnding(states, steps, i);
            if e.Updated? then states[i + 1].cycle.Syncing? && states[i + 1].cycle.k.rid == e.rid
            else states[i + 1].cycle.LoggingIn? && states[i + 1].cycle.k.rid == 0
  {
    assert StepAt(states, steps, i);
    ShowsLastEnding(states, steps, i);
  }
}
