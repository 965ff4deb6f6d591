/** The token map over time: who puts an entry in, who takes one out, and when the claimant's is gone. */
module TokenMap {
  import opened Wrappers
  import opened Runs
  import opened Engine
  import opened Ownership
  import opened EngineInvariant
  import opened EngineSteps
  import opened EngineTheorems
  import Locks = ProjectLocks

  /** The next step removes the entry of the call's run, whoever's it is. */
  predicate Unregisters(pc: Pc) {
    pc.Withdraw? || pc.Deregister? || (pc.Finalise? && (pc.res.Done? || pc.res.NotPending?))
  }

  /** What a step does to the token map, and how a call comes to the two points around its claim. */
  ghost predicate OnTokens(s: State, s': State, e: ExecId)
    requires e < |s.execs|
  {
    var Executor(r, _, pc) := s.execs[e];
    && e < |s'.execs|
    && s'.running == (if pc.Register? && r !in s.running then s.running[r := e]
                      else if Unregisters(pc) then s.running - {r} else s.running)
    && (s'.execs[e].pc.Claim? ==> pc.Register? && r !in s.running)
    && (s'.execs[e].pc.Withdraw? ==> pc.Claim?)
    && (s'.execs[e].pc.Deregister? ==> pc.Finalise? && pc.res == s'.execs[e].pc.res && !pc.res.Done?
                                       && !pc.res.NotPending?)
  }

  lemma EnterOnTokens(s: State, e: ExecId)
    requires e < |s.execs| && CanStep(s, e, Go) && Entering(s.execs[e].pc)
    ensures OnTokens(s, Enter(s, e), e)
  {
    hide Locks.Take, Locks.Acquire, Locks.CanAcquire;
  }

  lemma LeaveOnTokens(s: State, e: ExecId)
    requires e < |s.execs| && CanStep(s, e, Go) && !s.execs[e].pc.Inside? && !Entering(s.execs[e].pc)
    ensures OnTokens(s, Leave(s, e), e)
  {
    hide Finish, Locks.Release;
  }

  lemma StepOnTokens(s: State, e: ExecId, c: Choice)
    requires e < |s.execs| && CanStep(s, e, c)
    ensures OnTokens(s, Step(s, e, c), e)
  {
    var Executor(r, git, pc) := s.execs[e];
    hide Fits, InRange, Enter, Leave, Advance;
    if pc.Inside? {
      AdvanceStaysOrLeaves(pc.at, s.runs[r], git, e in s.cancelled, c);
    } else {
      hide OnTokens;
      if Entering(pc) {
        EnterOnTokens(s, e);
      } else {
        LeaveOnTokens(s, e);
      }
    }
  }

  /** A call at its claim has its run's entry, unless the run has none; and only some outcomes deregister. */
  ghost predicate TokensOk(s: State) {
    && (forall y: ExecId :: y < |s.execs| && (s.execs[y].pc.Claim? || s.execs[y].pc.Withdraw?)
                            && s.execs[y].run in s.running ==>
                              s.running[s.execs[y].run] == y)
    && (forall y: ExecId :: y < |s.execs| && s.execs[y].pc.Deregister? ==> !s.execs[y].pc.res.Done?
                                                                           && !s.execs[y].pc.res.NotPending?)
  }

  lemma ApplyKeepsTokens(s: State, ev: Event)
    requires Inv(s) && TokensOk(s) && Enabled(s, ev)
    ensures TokensOk(Apply(s, ev))
  {
    hide Inv, Step, CanStep;
    if ev.Do? {
      var e := ev.e;
      StepFrame(s, e, ev.c);
      StepOnTokens(s, e, ev.c);
      if s.execs[e].pc.Register? {
        forall y: ExecId | y < |s.execs| && y != e && (s.execs[y].pc.Claim? || s.execs[y].pc.Withdraw?)
          ensures s.execs[y].run != s.execs[e].run
        {
          if s.execs[y].run == s.execs[e].run {
            LockFacts(s, e);
            OneInside(s, e, y);
          }
        }
      }
    }
  }

  lemma {:induction false} TokensAfter(s: State, evs: seq<Event>)
    requires Inv(s) && TokensOk(s) && Valid(s, evs)
    ensures TokensOk(After(s, evs))
    decreases |evs|
  {
    hide Inv, TokensOk, Apply, Enabled;
    if evs != [] {
      ApplyKeepsTokens(s, evs[0]);
      ApplyKeepsInv(s, evs[0]);
      TokensAfter(Apply(s, evs[0]), evs[1..]);
    }
  }

  lemma ReachableTokens(s: State)
    requires Reachable(s)
    ensures TokensOk(s)
  {
    var n: nat, evs: seq<Event> :| Valid(Initial(n), evs) && s == After(Initial(n), evs);
    InitialInv(n);
    hide Inv, Valid, After;
    TokensAfter(Initial(n), evs);
  }

  // ---- The claimant's entry ----

  /** `e` has claimed `r`. */
  ghost predicate Claimant(s: State, r: RunId, e: ExecId) {
    r in s.runs && s.runs[r].owner == Some(e) && e < |s.execs| && s.execs[e].run == r && Claimed(s.execs[e].pc)
  }

  /** The token of `e` is the one in the map for `r`. */
  predicate Registered(s: State, r: RunId, e: ExecId) {
    r in s.running && s.running[r] == e
  }

  lemma OwnerIsClaimant(s: State, r: RunId, e: ExecId)
    requires Inv(s) && r in s.runs && s.runs[r].owner == Some(e)
    ensures Claimant(s, r, e)
  {
    hide Inv, Known, Unclaimed;
    RunFact(s, r);
  }

  lemma StaysClaimant(s: State, ev: Event, r: RunId, e: ExecId)
    requires Inv(s) && Enabled(s, ev) && Claimant(s, r, e)
    ensures Claimant(Apply(s, ev), r, e)
    ensures s.execs[e].pc.Returned? ==> Apply(s, ev).execs[e].pc.Returned?
  {
    hide Inv, Apply, Enabled;
    ApplyEvolves(s, ev, r);
    ApplyKeepsInv(s, ev);
    OwnerIsClaimant(Apply(s, ev), r, e);
    if s.execs[e].pc.Returned? {
      ReturnedStays(s, ev, e);
    }
  }

  lemma ReturnedStays(s: State, ev: Event, e: ExecId)
    requires Enabled(s, ev) && e < |s.execs| && s.execs[e].pc.Returned?
    ensures e < |Apply(s, ev).execs| && Apply(s, ev).execs[e].pc.Returned?
  {
    hide Step, Fits, InRange;
    if ev.Do? {
      StepFrame(s, ev.e, ev.c);
    }
  }

  /** Another call of the run takes its last step: it was told NotPending, or AlreadyRunning. */
  predicate RemovesToken(s: State, ev: Event, r: RunId, e: ExecId) {
    && ev.Do? && ev.e != e && ev.e < |s.execs| && s.execs[ev.e].run == r
    && (s.execs[ev.e].pc == Finalise(NotPending) || s.execs[ev.e].pc == Deregister(AlreadyRunning))
  }

  /** Somewhere in the stretch it does. */
  ghost predicate RemovedByAnother(s: State, evs: seq<Event>, r: RunId, e: ExecId)
    requires Valid(s, evs)
    decreases |evs|
  {
    evs != [] && (RemovesToken(s, evs[0], r, e) || RemovedByAnother(Apply(s, evs[0]), evs[1..], r, e))
  }

  /** One event: the claimant's entry goes by its own last step or by such a step of another call of its run. */
  lemma EventOnToken(s: State, ev: Event, r: RunId, e: ExecId)
    requires Inv(s) && TokensOk(s) && Enabled(s, ev) && Claimant(s, r, e)
    ensures e < |Apply(s, ev).execs|
    ensures !Registered(s, r, e) ==> !Registered(Apply(s, ev), r, e)
    ensures Registered(s, r, e) && !Apply(s, ev).execs[e].pc.Returned? ==>
              (Registered(Apply(s, ev), r, e) <==> !RemovesToken(s, ev, r, e))
  {
    hide Inv, Step, CanStep;
    if ev.Do? {
      var y := ev.e;
      StepFrame(s, y, ev.c);
      StepOnTokens(s, y, ev.c);
      Facts(s, y);
      hide RunOk, TokenOk;
      if y == e && Unregisters(s.execs[e].pc) {
        LastStepReturns(s, e, ev.c);
      }
    }
  }

  lemma LastStepReturns(s: State, e: ExecId, c: Choice)
    requires e < |s.execs| && CanStep(s, e, c) && Unregisters(s.execs[e].pc) && !s.execs[e].pc.Withdraw?
    ensures e < |Step(s, e, c).execs| && Step(s, e, c).execs[e].pc.Returned?
  {
    hide Locks.Take, Locks.Acquire, Locks.Release, Enter, Advance, Fits, Finish;
  }

  lemma {:induction false} NeverBack(s: State, evs: seq<Event>, r: RunId, e: ExecId)
    requires Inv(s) && TokensOk(s) && Valid(s, evs) && Claimant(s, r, e) && !Registered(s, r, e)
    ensures !Registered(After(s, evs), r, e)
    decreases |evs|
  {
    hide Inv, TokensOk, Apply, Enabled, Claimant, Registered;
    if evs != [] {
      EventOnToken(s, evs[0], r, e);
      StaysClaimant(s, evs[0], r, e);
      ApplyKeepsInv(s, evs[0]);
      ApplyKeepsTokens(s, evs[0]);
      NeverBack(Apply(s, evs[0]), evs[1..], r, e);
    }
  }

  lemma {:induction false} ReturnedForGood(s: State, evs: seq<Event>, e: ExecId)
    requires Valid(s, evs) && e < |s.execs| && s.execs[e].pc.Returned?
    ensures e < |After(s, evs).execs| && After(s, evs).execs[e].pc.Returned?
    decreases |evs|
  {
    hide Apply, Enabled;
    if evs != [] {
      ReturnedStays(s, evs[0], e);
      ReturnedForGood(Apply(s, evs[0]), evs[1..], e);
    }
  }

  lemma {:induction false} TokenOverTime(s: State, evs: seq<Event>, r: RunId, e: ExecId)
    requires Inv(s) && TokensOk(s) && Valid(s, evs) && Claimant(s, r, e) && Registered(s, r, e)
    requires e < |After(s, evs).execs| && !After(s, evs).execs[e].pc.Returned?
    ensures Registered(After(s, evs), r, e) <==> !RemovedByAnother(s, evs, r, e)
    decreases |evs|
  {
    hide Inv, TokensOk, Apply, Enabled, Claimant, Registered, RemovesToken;
    if evs != [] {
      var s' := Apply(s, evs[0]);
      EventOnToken(s, evs[0], r, e);
      StaysClaimant(s, evs[0], r, e);
      ApplyKeepsInv(s, evs[0]);
      ApplyKeepsTokens(s, evs[0]);
      if s'.execs[e].pc.Returned? {
        ReturnedForGood(s', evs[1..], e);
      } else if Registered(s', r, e) {
        TokenOverTime(s', evs[1..], r, e);
      } else {
        NeverBack(s', evs[1..], r, e);
      }
    }
  }

  /** While a claimant has not returned, its registered token is still in the map if and only if no other call
      of its run was told NotPending or AlreadyRunning and came to its end. */
  lemma TokenStaysExactlyWhen(s: State, evs: seq<Event>, r: RunId, e: ExecId)
    requires Reachable(s) && Valid(s, evs) && r in s.runs && s.runs[r].owner == Some(e) && Registered(s, r, e)
    requires e < |After(s, evs).execs| && !After(s, evs).execs[e].pc.Returned?
    ensures Registered(After(s, evs), r, e) <==> !RemovedByAnother(s, evs, r, e)
  {
    ReachableInv(s);
    ReachableTokens(s);
    hide Reachable, Inv, TokensOk, Valid, After, RemovedByAnother, Claimant, Registered;
    OwnerIsClaimant(s, r, e);
    TokenOverTime(s, evs, r, e);
  }
}
