/** What one executor may rely on while all the others run, and what its own steps guarantee. */
module Interference {
  import opened Wrappers
  import opened Runs
  import opened Engine
  import opened Ownership
  import opened EngineInvariant
  import opened EngineSteps
  import opened EngineTheorems
  import opened EngineSafety
  import opened Continuations

  /** A stretch of events in which executor `e` takes no step. */
  ghost predicate OthersOnly(evs: seq<Event>, e: ExecId) {
    forall ev :: ev in evs && ev.Do? ==> ev.e != e
  }

  /** Everybody but `e` ran for a while. */
  ghost predicate Interferes(s: State, s': State, e: ExecId) {
    exists evs: seq<Event> :: Valid(s, evs) && s' == After(s, evs) && OthersOnly(evs, e)
  }

  lemma OthersKeepExecutor(s: State, ev: Event, e: ExecId)
    requires Enabled(s, ev) && e < |s.execs| && (ev.Do? ==> ev.e != e)
    ensures e < |Apply(s, ev).execs| && Apply(s, ev).execs[e] == s.execs[e]
  {
    hide Step, CanStep;
    if ev.Do? {
      StepFrame(s, ev.e, ev.c);
    }
  }

  lemma {:induction false} OthersKeepAfter(s: State, evs: seq<Event>, e: ExecId)
    requires Inv(s) && Valid(s, evs) && OthersOnly(evs, e) && e < |s.execs|
    ensures e < |After(s, evs).execs| && After(s, evs).execs[e] == s.execs[e]
    ensures s.execs[e].pc.Inside? ==>
              var r := s.execs[e].run;
              r in s.runs && r in After(s, evs).runs && After(s, evs).runs[r] == s.runs[r]
    decreases |evs|
  {
    hide Inv, Apply, Enabled;
    if evs == [] {
      Facts(s, e);
    } else {
      assert evs[0] in evs;
      OthersKeepExecutor(s, evs[0], e);
      if s.execs[e].pc.Inside? {
        ClaimantIsAlone(s, evs[0], e);
      }
      ApplyKeepsInv(s, evs[0]);
      OthersKeepAfter(Apply(s, evs[0]), evs[1..], e);
    }
  }

  lemma {:induction false} TokensStayCancelled(s: State, evs: seq<Event>)
    requires Valid(s, evs)
    ensures s.cancelled <= After(s, evs).cancelled
    decreases |evs|
  {
    if evs != [] {
      hide Step, CanStep;
      if evs[0].Do? {
        StepFrame(s, evs[0].e, evs[0].c);
      }
      TokensStayCancelled(Apply(s, evs[0]), evs[1..]);
    }
  }

  /** However long the others run: the state stays reachable, cancelled tokens stay cancelled, `e` is where it
      was, and if it is inside `execute_inner`, no row of its run has changed. */
  lemma Rely(s: State, s': State, e: ExecId)
    requires Reachable(s) && Interferes(s, s', e) && e < |s.execs|
    ensures Reachable(s') && Continues(s, s') && s.cancelled <= s'.cancelled
    ensures e < |s'.execs| && s'.execs[e] == s.execs[e]
    ensures s.execs[e].pc.Inside? ==>
              var r := s.execs[e].run;
              r in s.runs && r in s'.runs && s'.runs[r] == s.runs[r]
  {
    var evs: seq<Event> :| Valid(s, evs) && s' == After(s, evs) && OthersOnly(evs, e);
    ReachableInv(s);
    hide Inv, Valid, After, OthersOnly, Reachable;
    assert Continues(s, s');
    StaysReachable(s, s');
    TokensStayCancelled(s, evs);
    OthersKeepAfter(s, evs, e);
  }

  lemma {:induction false} HandlesGrow(s: State, evs: seq<Event>)
    requires Valid(s, evs)
    ensures s.handles <= After(s, evs).handles
    decreases |evs|
  {
    if evs != [] {
      hide Step, CanStep;
      if evs[0].Do? {
        StepFrame(s, evs[0].e, evs[0].c);
      }
      HandlesGrow(Apply(s, evs[0]), evs[1..]);
    }
  }

  /** What anybody may rely on: the state stays reachable, and a cloned token stays at hand. */
  lemma AnybodyMayRely(s: State, s': State)
    requires Reachable(s) && Continues(s, s')
    ensures Reachable(s') && s.handles <= s'.handles
  {
    hide Reachable, Valid, After;
    StaysReachable(s, s');
    var evs: seq<Event> :| Valid(s, evs) && s' == After(s, evs);
    HandlesGrow(s, evs);
  }

  lemma PendingIsUnclaimed(s: State, r: RunId)
    requires Reachable(s) && r in s.runs && s.runs[r].status == Pending
    ensures s.runs[r].owner.None?
  {
    ReachableInv(s);
    if s.runs[r].owner.Some? {
      KnownIsClaimed(s.execs[s.runs[r].owner.value].pc, s.runs[r]);
    }
  }

  /** Executor `e` took one step. */
  ghost predicate Took(s: State, s': State, e: ExecId, c: Choice) {
    e < |s.execs| && CanStep(s, e, c) && s' == Step(s, e, c)
  }

  lemma Then(s0: State, s: State, s': State, e: ExecId, c: Choice)
    requires Continues(s0, s) && Took(s, s', e, c)
    ensures Continues(s0, s')
  {
    hide Continues, CanStep, Step;
    Happens(s, Do(e, c));
    GoesOn(s0, s, s');
  }

  /** From `s0` on: steps of one executor and stretches of events can be put one after another. */
  lemma Chain(s0: State)
    ensures Continues(s0, s0)
    ensures forall s, s', e, c :: Continues(s0, s) && Took(s, s', e, c) ==> Continues(s0, s')
    ensures forall s, s' :: Continues(s0, s) && Continues(s, s') ==> Continues(s0, s')
  {
    hide Continues, Took;
    Stays(s0);
    forall s, s', e, c | Continues(s0, s) && Took(s, s', e, c) ensures Continues(s0, s') {
      Then(s0, s, s', e, c);
    }
    forall s, s' | Continues(s0, s) && Continues(s, s') ensures Continues(s0, s') {
      GoesOn(s0, s, s');
    }
  }

  lemma SoundStep(s: State, e: ExecId, c: Choice)
    requires Reachable(s) && e < |s.execs| && CanStep(s, e, c)
    ensures Reachable(Step(s, e, c))
  {
    hide Reachable, CanStep, Step;
    ReachableStep(s, Do(e, c), Step(s, e, c));
  }

  /** What a claimant may assume at any of its statements. */
  lemma InsideFacts(s: State, e: ExecId)
    requires Reachable(s) && e < |s.execs| && s.execs[e].pc.Inside?
    ensures var Executor(r, _, pc) := s.execs[e];
            && r in s.runs && InRange(pc.at, s.runs[r]) && s.runs[r].status == Running
            && (pc.at.ClaimStage? ==> s.runs[r].cells[pc.at.i].status == Pending)
            && s.runs == s.runs[r := s.runs[r]]
  {
    ReachableInv(s);
    ClaimantMeetsNobody(s, e);
  }

  /** A step of a claimant leads to a reachable state and keeps the stages of its run. */
  lemma InsideStep(s: State, e: ExecId, c: Choice)
    requires Reachable(s) && e < |s.execs| && s.execs[e].pc.Inside? && CanStep(s, e, c)
    ensures Reachable(Step(s, e, c))
    ensures var r := s.execs[e].run; r in Step(s, e, c).runs && Step(s, e, c).runs[r].defs == s.runs[r].defs
  {
    hide Reachable, Advance, Fits;
    SoundStep(s, e, c);
    AdvanceKeepsSkeleton(s.execs[e].pc.at, s.runs[s.execs[e].run], s.execs[e].git, e in s.cancelled, c);
  }

  /** What the return of a call means. */
  lemma ReturnFacts(s: State, e: ExecId)
    requires Reachable(s) && e < |s.execs| && s.execs[e].pc.Returned?
    ensures forall q :: q in s.running ==> s.running[q] != e
    ensures OwnersOutcome(s.execs[e].pc.res) ==>
              var r := s.execs[e].run;
              && r in s.runs && s.runs[r].owner == Some(e) && Terminal(s.runs[r].status)
              && forall i :: 0 <= i < |s.runs[r].cells| ==> !s.runs[r].cells[i].status.Pending?
                                                            && !s.runs[r].cells[i].status.Running?
  {
    ReachableInv(s);
    ReturnLeavesTerminal(s, e);
  }
}
