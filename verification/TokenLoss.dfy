/** When a claimant's token can go from the map before the claimant returns, told from the state alone. */
module TokenLoss {
  import opened Wrappers
  import opened Runs
  import opened Engine
  import opened Ownership
  import opened EngineInvariant
  import opened EngineSteps
  import opened EngineTheorems
  import opened EngineProgress
  import opened TokenMap
  import opened Arrival
  import opened Continuations

  /** No new call for the run. */
  predicate NoCallsOf(evs: seq<Event>, r: RunId) {
    forall ev :: ev in evs ==> !(ev.Call? && ev.run == r)
  }

  /** Some continuation without a new call for the run has the token gone while the claimant has not returned. */
  ghost predicate MayLoseToken(s: State, r: RunId, e: ExecId) {
    exists evs: seq<Event> :: Valid(s, evs) && NoCallsOf(evs, r) && TokenGone(After(s, evs), r, e)
  }

  predicate TokenGone(s: State, r: RunId, e: ExecId) {
    e < |s.execs| && !s.execs[e].pc.Returned? && !Registered(s, r, e)
  }

  /** Another call of the run that has not returned. */
  predicate Company(s: State, r: RunId, e: ExecId, x: ExecId) {
    x < |s.execs| && x != e && s.execs[x].run == r && !s.execs[x].pc.Returned?
  }

  // ---- Alone, the claimant keeps its token ----

  lemma NoNewCompany(s: State, ev: Event, r: RunId, e: ExecId, x: ExecId)
    requires Enabled(s, ev) && !(ev.Call? && ev.run == r) && e < |s.execs| && Company(Apply(s, ev), r, e, x)
    ensures Company(s, r, e, x)
  {
    hide Step, CanStep;
    if ev.Do? {
      StepFrame(s, ev.e, ev.c);
      if x == ev.e && s.execs[x].pc.Returned? {
        ReturnedStays(s, ev, x);
      }
    }
  }

  lemma {:induction false} AloneKeepsToken(s: State, evs: seq<Event>, r: RunId, e: ExecId)
    requires Valid(s, evs) && NoCallsOf(evs, r) && e < |s.execs| && forall x :: !Company(s, r, e, x)
    ensures !RemovedByAnother(s, evs, r, e)
    decreases |evs|
  {
    hide Apply, Enabled;
    if evs != [] {
      assert evs[0] in evs;
      if evs[0].Do? {
        assert !Company(s, r, e, evs[0].e);
      }
      forall x ensures !Company(Apply(s, evs[0]), r, e, x) {
        if Company(Apply(s, evs[0]), r, e, x) {
          NoNewCompany(s, evs[0], r, e, x);
        }
      }
      ExecutorStays(s, evs[0], e);
      AloneKeepsToken(Apply(s, evs[0]), evs[1..], r, e);
    }
  }

  // ---- In company it can lose it ----

  lemma LosesLater(s: State, ev: Event, r: RunId, e: ExecId)
    requires Enabled(s, ev) && !(ev.Call? && ev.run == r) && MayLoseToken(Apply(s, ev), r, e)
    ensures MayLoseToken(s, r, e)
  {
    hide Apply, Enabled, TokenGone;
    var s' := Apply(s, ev);
    var evs: seq<Event> :| Valid(s', evs) && NoCallsOf(evs, r) && TokenGone(After(s', evs), r, e);
    assert ([ev] + evs)[1..] == evs;
    assert Valid(s, [ev] + evs) && After(s, [ev] + evs) == After(s', evs) && NoCallsOf([ev] + evs, r);
  }

  lemma {:induction false} LosesAfter(s: State, evs: seq<Event>, r: RunId, e: ExecId)
    requires Valid(s, evs) && NoCallsOf(evs, r) && MayLoseToken(After(s, evs), r, e)
    ensures MayLoseToken(s, r, e)
    decreases |evs|
  {
    hide MayLoseToken, Apply, Enabled;
    if evs != [] {
      assert evs[0] in evs;
      LosesAfter(Apply(s, evs[0]), evs[1..], r, e);
      LosesLater(s, evs[0], r, e);
    }
  }

  lemma LostNow(s: State, r: RunId, e: ExecId)
    requires TokenGone(s, r, e)
    ensures MayLoseToken(s, r, e)
  {
    hide TokenGone;
    assert Valid(s, []) && After(s, []) == s && NoCallsOf([], r);
  }

  /** A registered claimant that has not returned, beside another call `x` of its run. */
  ghost predicate Beside(s: State, r: RunId, e: ExecId, x: ExecId) {
    && Inv(s) && TokensOk(s) && Claimant(s, r, e) && Registered(s, r, e) && !s.execs[e].pc.Returned?
    && Company(s, r, e, x)
  }

  /** How far the other call is from its last step, once it cannot wait any more. */
  function Remaining(pc: Pc): nat {
    if pc.Lookup? then 5 else if pc.Register? then 4 else if pc.DropGlobal? then 3 else if pc.DropProject? then 2
    else if pc.Finalise? then 1 else 0
  }

  /** Where another call of a claimed run can be that does not wait for a permit. */
  lemma CompanyIsBrief(s: State, r: RunId, e: ExecId, x: ExecId)
    requires Beside(s, r, e, x) && !Queueing(s.execs[x].pc)
    ensures var pc := s.execs[x].pc;
            || pc.Lookup? || pc.Register?
            || ((pc.DropGlobal? || pc.DropProject? || pc.Finalise?) && (pc.res.AlreadyRunning? || pc.res.NotPending?))
            || pc == Deregister(AlreadyRunning)
  {
    hide Inv, Known, Unclaimed;
    Facts(s, x);
  }

  /** A step of such a call: it comes nearer to its end, or removes the token. */
  lemma BriefStep(s: State, r: RunId, e: ExecId, x: ExecId) returns (c: Choice)
    requires Beside(s, r, e, x) && !Queueing(s.execs[x].pc)
    ensures CanStep(s, x, c)
    ensures RemovesToken(s, Do(x, c), r, e) ||
            (Beside(Step(s, x, c), r, e, x) && !Queueing(Step(s, x, c).execs[x].pc)
             && Remaining(Step(s, x, c).execs[x].pc) < Remaining(s.execs[x].pc))
  {
    hide Inv, TokensOk, CanStep, Step, Known, Unclaimed;
    CompanyIsBrief(s, r, e, x);
    c := RunnableCanStep(s, x);
    StepFrame(s, x, c);
    ApplyKeepsInv(s, Do(x, c));
    ApplyKeepsTokens(s, Do(x, c));
    StaysClaimant(s, Do(x, c), r, e);
    EventOnToken(s, Do(x, c), r, e);
    if !RemovesToken(s, Do(x, c), r, e) {
      RunFact(s, r);
      KnownIsClaimed(s.execs[e].pc, s.runs[r]);
      BriefGoesOn(s, r, e, x, c);
    }
  }

  lemma BriefGoesOn(s: State, r: RunId, e: ExecId, x: ExecId, c: Choice)
    requires x < |s.execs| && s.execs[x].run == r && CanStep(s, x, c) && Registered(s, r, e) && r in s.runs
    requires s.runs[r].status != Pending
    requires var pc := s.execs[x].pc;
             || pc.Lookup? || pc.Register?
             || ((pc.DropGlobal? || pc.DropProject? || pc.Finalise?) && (pc.res.AlreadyRunning? || pc.res.NotPending?))
    requires s.execs[x].pc != Finalise(NotPending)
    ensures x < |Step(s, x, c).execs|
    ensures var pc := Step(s, x, c).execs[x].pc;
            !Queueing(pc) && !pc.Returned? && Remaining(pc) < Remaining(s.execs[x].pc)
  {
    hide Finish, Locks.Release, Locks.Take, Locks.Acquire, Locks.CanAcquire, Advance, Fits, InRange;
    if Entering(s.execs[x].pc) {
      hide Leave;
    } else {
      hide Enter;
    }
  }

  lemma {:induction false} BriefCompanyLoses(s: State, r: RunId, e: ExecId, x: ExecId)
    requires Beside(s, r, e, x) && !Queueing(s.execs[x].pc)
    ensures MayLoseToken(s, r, e)
    decreases Remaining(s.execs[x].pc)
  {
    hide MayLoseToken, Step, CanStep, Inv, TokensOk;
    var c := BriefStep(s, r, e, x);
    if RemovesToken(s, Do(x, c), r, e) {
      EventOnToken(s, Do(x, c), r, e);
      StepFrame(s, x, c);
      LostNow(Apply(s, Do(x, c)), r, e);
    } else {
      BriefCompanyLoses(Step(s, x, c), r, e, x);
    }
    LosesLater(s, Do(x, c), r, e);
  }

  /** On the way of the other call to its registration nobody takes the token away, and the claimant does not
      return. */
  lemma MoveKeepsBeside(s: State, ev: Event, r: RunId, e: ExecId, x: ExecId)
    requires Enabled(s, ev) && MovesFor(s, ev, x) && Beside(s, r, e, x)
    ensures Beside(Apply(s, ev), r, e, x) && ev.Do?
  {
    hide Inv, TokensOk, Step, CanStep;
    StepFrame(s, ev.e, ev.c);
    ApplyKeepsInv(s, ev);
    ApplyKeepsTokens(s, ev);
    StaysClaimant(s, ev, r, e);
    QueueingStays(s, ev, x);
    if ev.e == e {
      HolderStays(s, e, ev.c);
    }
    EventOnToken(s, ev, r, e);
  }

  /** Whoever holds its project does not return in one step. */
  lemma HolderStays(s: State, e: ExecId, c: Choice)
    requires e < |s.execs| && CanStep(s, e, c) && HoldsProject(s.execs[e].pc)
    ensures e < |Step(s, e, c).execs| && !Step(s, e, c).execs[e].pc.Returned?
  {
    hide Finish, Locks.Release, Locks.Take, Locks.Acquire, Locks.CanAcquire, Advance, Fits, InRange;
    if s.execs[e].pc.Inside? {
      AdvanceStaysOrLeaves(s.execs[e].pc.at, s.runs[s.execs[e].run], s.execs[e].git, e in s.cancelled, c);
      hide Enter, Leave;
    } else if Entering(s.execs[e].pc) {
      hide Leave;
    } else {
      hide Enter;
    }
  }

  lemma {:induction false} ForwardKeepsBeside(s: State, evs: seq<Event>, r: RunId, e: ExecId, x: ExecId)
    requires Forward(s, evs, x) && Valid(s, evs) && Beside(s, r, e, x)
    ensures Beside(After(s, evs), r, e, x) && NoCallsOf(evs, r)
    decreases |evs|
  {
    hide Apply, Enabled, MovesFor, Beside;
    if evs != [] {
      MoveKeepsBeside(s, evs[0], r, e, x);
      ForwardKeepsBeside(Apply(s, evs[0]), evs[1..], r, e, x);
    }
  }

  lemma CompanyLoses(s: State, r: RunId, e: ExecId, x: ExecId)
    requires Beside(s, r, e, x)
    ensures MayLoseToken(s, r, e)
  {
    hide MayLoseToken, Inv, TokensOk;
    if Queueing(s.execs[x].pc) {
      var evs := ReachesRegister(s, x);
      ForwardKeepsBeside(s, evs, r, e, x);
      BriefCompanyLoses(After(s, evs), r, e, x);
      LosesAfter(s, evs, r, e);
    } else {
      BriefCompanyLoses(s, r, e, x);
    }
  }

  /** Without new calls for the run, the registered token of a claimant that has not returned can go before it
      returns if and only if another call of the run has not returned. */
  lemma TokenMayGoExactlyWhen(s: State, r: RunId, e: ExecId)
    requires Reachable(s) && r in s.runs && s.runs[r].owner == Some(e) && Registered(s, r, e)
    requires e < |s.execs| && !s.execs[e].pc.Returned?
    ensures MayLoseToken(s, r, e) <==> exists x :: Company(s, r, e, x)
  {
    ReachableInv(s);
    ReachableTokens(s);
    hide Reachable, Inv, TokensOk, Company;
    OwnerIsClaimant(s, r, e);
    if x :| Company(s, r, e, x) {
      CompanyLoses(s, r, e, x);
    } else if MayLoseToken(s, r, e) {
      hide Valid, After, NoCallsOf, RemovedByAnother;
      var evs: seq<Event> :| Valid(s, evs) && NoCallsOf(evs, r) && TokenGone(After(s, evs), r, e);
      AloneKeepsToken(s, evs, r, e);
      TokenStaysExactlyWhen(s, evs, r, e);
    }
  }

  /** With new calls it can always go. */
  lemma TokenMayAlwaysGo(s: State, r: RunId, e: ExecId) returns (evs: seq<Event>)
    requires Reachable(s) && r in s.runs && s.runs[r].owner == Some(e) && Registered(s, r, e)
    requires e < |s.execs| && !s.execs[e].pc.Returned?
    ensures Valid(s, evs) && TokenGone(After(s, evs), r, e)
  {
    ReachableInv(s);
    ReachableTokens(s);
    hide Reachable, Inv, TokensOk;
    OwnerIsClaimant(s, r, e);
    var called := Apply(s, Call(r, false));
    ApplyKeepsInv(s, Call(r, false));
    ApplyKeepsTokens(s, Call(r, false));
    StaysClaimant(s, Call(r, false), r, e);
    assert Company(called, r, e, |s.execs|);
    CompanyLoses(called, r, e, |s.execs|);
    hide Apply, Enabled, TokenGone, NoCallsOf;
    var more: seq<Event> :| Valid(called, more) && NoCallsOf(more, r) && TokenGone(After(called, more), r, e);
    OneEvent(s, Call(r, false)) by { CallsAreEnabled(s, r); }
    Concatenate(s, [Call(r, false)], more);
    evs := [Call(r, false)] + more;
  }

  lemma CallsAreEnabled(s: State, r: RunId)
    ensures Enabled(s, Call(r, false))
  {
  }
}
