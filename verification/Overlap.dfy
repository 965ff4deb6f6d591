/** When two runs of one project are running in the database at the same time. */
module Overlap {
  import opened Wrappers
  import opened Runs
  import opened Engine
  import opened Ownership
  import opened EngineInvariant
  import opened EngineSteps
  import opened EngineTheorems
  import opened EngineProgress
  import opened Continuations
  import opened Interference
  import opened TokenMap
  import opened Arrival
  import opened Cancellation
  import opened LogListing

  /** The claimant is out of `execute_inner`, and its finaliser is its next step. */
  predicate AwaitsFinaliser(pc: Pc) {
    pc == Finalise(WasCancelled) || pc == Finalise(Fault)
  }

  /** Two rows of one project are running only while the claimant of one of them waits for its finaliser. */
  lemma OneOfTwoAwaitsItsFinaliser(s: State, q: RunId, r: RunId)
    requires Reachable(s) && q in s.runs && r in s.runs && q != r && s.runs[q].project == s.runs[r].project
    requires s.runs[q].status == Running && s.runs[r].status == Running
    ensures s.runs[q].owner.Some? && s.runs[q].owner.value < |s.execs|
    ensures s.runs[r].owner.Some? && s.runs[r].owner.value < |s.execs|
    ensures AwaitsFinaliser(s.execs[s.runs[q].owner.value].pc) || AwaitsFinaliser(s.execs[s.runs[r].owner.value].pc)
  {
    ReachableInv(s);
    hide Reachable, Inv;
    RunningHasClaimant(s, q);
    RunningHasClaimant(s, r);
    var x, y := s.runs[q].owner.value, s.runs[r].owner.value;
    RunningClaimant(s, q, x);
    RunningClaimant(s, r, y);
    if HoldsProject(s.execs[x].pc) && HoldsProject(s.execs[y].pc) {
      OneInside(s, x, y);
    }
  }

  lemma RunningHasClaimant(s: State, r: RunId)
    requires Inv(s) && r in s.runs && s.runs[r].status == Running
    ensures s.runs[r].owner.Some?
  {
    hide Inv;
    RunFact(s, r);
  }

  // ---- When a second row can join a running one ----

  /** Another run of the project is running. */
  ghost predicate Joined(s: State, r: RunId)
    requires r in s.runs
  {
    exists q :: q in s.runs && q != r && s.runs[q].project == s.runs[r].project && s.runs[q].status == Running
  }

  /** Some continuation in which the claimant `e` of `r` does nothing has `r` and another run of its project
      running. */
  ghost predicate MayBeJoined(s: State, r: RunId, e: ExecId) {
    exists evs: seq<Event> ::
      Valid(s, evs) && OthersOnly(evs, e) && r in After(s, evs).runs && After(s, evs).runs[r].status == Running
      && Joined(After(s, evs), r)
  }

  /** While `e` holds its project, no run of the project starts to run. */
  lemma NobodyJoins(s: State, ev: Event, r: RunId, e: ExecId)
    requires Inv(s) && Enabled(s, ev) && Claimant(s, r, e) && HoldsProject(s.execs[e].pc) && (ev.Do? ==> ev.e != e)
    requires !Joined(s, r)
    ensures Claimant(Apply(s, ev), r, e) && Apply(s, ev).execs[e] == s.execs[e] && !Joined(Apply(s, ev), r)
  {
    hide Inv, Step, CanStep, Known, Unclaimed, Finish, CancelUnstarted;
    StaysClaimant(s, ev, r, e);
    OthersKeepExecutor(s, ev, e);
    ApplyEvolves(s, ev, r);
    var s' := Apply(s, ev);
    forall q | q in s'.runs && q != r && s'.runs[q].project == s'.runs[r].project ensures s'.runs[q].status != Running {
      if q in s.runs {
        ApplyEvolves(s, ev, q);
        assert s.runs[q].status != Running;
        if s'.runs[q].status == Running {
          StartsByClaim(s, ev, q);
          OneInside(s, ev.e, e);
        }
      } else {
        NewIsPending(s, ev, q);
      }
    }
  }

  lemma NewIsPending(s: State, ev: Event, q: RunId)
    requires Enabled(s, ev) && q !in s.runs && q in Apply(s, ev).runs
    ensures Apply(s, ev).runs[q].status == Pending
  {
    hide Step, CanStep;
    if ev.Do? {
      StepKeepsKeys(s, ev.e, ev.c);
    }
  }

  /** A row becomes running only when a call claims it. */
  lemma StartsByClaim(s: State, ev: Event, q: RunId)
    requires Inv(s) && Enabled(s, ev) && q in s.runs && q in Apply(s, ev).runs
    requires s.runs[q].status != Running && Apply(s, ev).runs[q].status == Running
    ensures ev.Do? && ev.e < |s.execs| && s.execs[ev.e].run == q && s.execs[ev.e].pc.Claim?
  {
    hide Inv, Known, Unclaimed, Step, CanStep, Rewrite, FullListing;
    if ev.Do? {
      StepWritesOnlyOwnRun(s, ev.e, ev.c, q);
      Facts(s, ev.e);
      if s.execs[ev.e].pc.Inside? {
        InsideIsRunning(s.execs[ev.e].pc.at, s.runs[q]);
      }
    }
  }

  lemma {:induction false} NobodyJoinsAfter(s: State, evs: seq<Event>, r: RunId, e: ExecId)
    requires Inv(s) && Valid(s, evs) && OthersOnly(evs, e) && Claimant(s, r, e) && HoldsProject(s.execs[e].pc)
    requires !Joined(s, r)
    ensures r in After(s, evs).runs && !Joined(After(s, evs), r)
    decreases |evs|
  {
    hide Inv, Apply, Enabled, Joined;
    if evs != [] {
      assert evs[0] in evs;
      NobodyJoins(s, evs[0], r, e);
      ApplyKeepsInv(s, evs[0]);
      NobodyJoinsAfter(Apply(s, evs[0]), evs[1..], r, e);
    }
  }

  /** A run nobody has claimed, and the only call for it that is past its lookup. */
  ghost predicate Waits(s: State, q: RunId, x: ExecId) {
    && q in s.runs && s.runs[q].status == Pending && q !in s.running
    && x < |s.execs| && s.execs[x].run == q
    && forall y: ExecId :: y < |s.execs| && y != x && s.execs[y].run == q ==> !HoldsProject(s.execs[y].pc)
  }

  /** A new run of the project and a call for it can come at once. */
  lemma NewRunQueues(s: State, r: RunId, e: ExecId, q: RunId) returns (evs: seq<Event>)
    requires Inv(s) && TokensOk(s) && Claimant(s, r, e) && Gone(s.execs[e].pc) && q !in s.runs
    ensures Valid(s, evs) && OthersOnly(evs, e)
    ensures var s', x := After(s, evs), |s.execs|;
            && Inv(s') && TokensOk(s') && Aside(s', r, e, x) && s'.execs[e] == s.execs[e] && s'.runs[r] == s.runs[r]
            && x < |s'.execs| && s'.execs[x].pc.TakeLock? && Waits(s', q, x) && s'.runs[q].project == s.runs[r].project
  {
    hide Inv, TokensOk, FreshCells;
    var x := |s.execs|;
    var s1 := Apply(s, Create(q, s.runs[r].project, ""));
    ApplyKeepsInv(s, Create(q, s.runs[r].project, ""));
    ApplyKeepsTokens(s, Create(q, s.runs[r].project, ""));
    var s2 := Apply(s1, Call(q, false));
    ApplyKeepsInv(s1, Call(q, false));
    ApplyKeepsTokens(s1, Call(q, false));
    ApplyKeepsInv(s2, Do(x, Go));
    ApplyKeepsTokens(s2, Do(x, Go));
    OneEvent(s2, Do(x, Go));
    var last := [Do(x, Go)];
    var middle := [Call(q, false)] + last;
    assert middle[1..] == last;
    evs := [Create(q, s.runs[r].project, "")] + middle;
    assert evs[1..] == middle;
    assert Valid(s1, middle) && After(s1, middle) == Apply(s2, Do(x, Go));
    NewRunIsAlone(s, q);
  }

  lemma NewRunIsAlone(s: State, q: RunId)
    requires Inv(s) && q !in s.runs
    ensures q !in s.running
    ensures forall y: ExecId :: y < |s.execs| && s.execs[y].run == q ==> !HoldsProject(s.execs[y].pc)
  {
    forall y: ExecId | y < |s.execs| && s.execs[y].run == q ensures !HoldsProject(s.execs[y].pc) {
      assert ExecOk(s.runs, s.execs, y);
    }
    assert q in s.running ==> TokenOk(s.runs, s.execs, s.running, q);
  }

  lemma MoveLeavesWaiting(s: State, ev: Event, x: ExecId, q: RunId)
    requires Inv(s) && Enabled(s, ev) && MovesFor(s, ev, x) && Waits(s, q, x)
    ensures Waits(Apply(s, ev), q, x) && Apply(s, ev).runs[q].project == s.runs[q].project
  {
    hide Inv, Step, CanStep;
    StepFrame(s, ev.e, ev.c);
    StepOnTokens(s, ev.e, ev.c);
    StepWritesOnlyOwnRun(s, ev.e, ev.c, q);
  }

  lemma {:induction false} ForwardLeavesWaiting(s: State, evs: seq<Event>, x: ExecId, q: RunId)
    requires Inv(s) && Forward(s, evs, x) && Valid(s, evs) && Waits(s, q, x)
    ensures Waits(After(s, evs), q, x) && After(s, evs).runs[q].project == s.runs[q].project
    decreases |evs|
  {
    hide Inv, Apply, Enabled, MovesFor;
    if evs != [] {
      MoveLeavesWaiting(s, evs[0], x, q);
      ApplyKeepsInv(s, evs[0]);
      ForwardLeavesWaiting(Apply(s, evs[0]), evs[1..], x, q);
    }
  }

  lemma JoinsAfter(s: State, evs: seq<Event>, r: RunId, e: ExecId)
    requires Valid(s, evs) && OthersOnly(evs, e) && MayBeJoined(After(s, evs), r, e)
    ensures MayBeJoined(s, r, e)
  {
    hide Valid, After, Joined;
    var t := After(s, evs);
    var more: seq<Event> :|
      Valid(t, more) && OthersOnly(more, e) && r in After(t, more).runs && After(t, more).runs[r].status == Running
      && Joined(After(t, more), r);
    Concatenate(s, evs, more);
    assert OthersOnly(evs + more, e);
  }

  lemma JoinedNow(s: State, r: RunId, e: ExecId)
    requires r in s.runs && s.runs[r].status == Running && Joined(s, r)
    ensures MayBeJoined(s, r, e)
  {
    hide Joined;
    assert Valid(s, []) && After(s, []) == s && OthersOnly([], e);
  }

  /** At its registration, alone with its token and its run: two steps and the run is running. */
  lemma RegistersAndClaims(s: State, r: RunId, e: ExecId, q: RunId, x: ExecId)
    requires Inv(s) && Aside(s, r, e, x) && s.runs[r].status == Running && Waits(s, q, x)
    requires s.execs[x].pc.Register? && s.runs[q].project == s.runs[r].project
    ensures MayBeJoined(s, r, e)
  {
    hide Inv, MayBeJoined;
    var s1 := Apply(s, Do(x, Go));
    ApplyKeepsInv(s, Do(x, Go));
    var s2 := Apply(s1, Do(x, Go));
    assert Joined(s2, r) by {
      assert s2.runs[q].status == Running;
    }
    JoinedNow(s2, r, e);
    OneEvent(s1, Do(x, Go));
    JoinsAfter(s1, [Do(x, Go)], r, e);
    OneEvent(s, Do(x, Go));
    JoinsAfter(s, [Do(x, Go)], r, e);
  }

  lemma AsideIsJoined(s: State, r: RunId, e: ExecId)
    requires Inv(s) && TokensOk(s) && Claimant(s, r, e) && Gone(s.execs[e].pc) && s.runs[r].status == Running
    ensures MayBeJoined(s, r, e)
  {
    hide Inv, TokensOk, MayBeJoined, OthersOnly, Claimant;
    assert r in s.runs by { ClaimantIs(s, r, e); }
    var x := |s.execs|;
    var q := FreshRun(s.runs);
    var start := NewRunQueues(s, r, e, q);
    var s1 := After(s, start);
    var evs := ReachesRegister(s1, x);
    ForwardLeavesAside(s1, evs, x, r, e);
    ForwardLeavesWaiting(s1, evs, x, q);
    RegistersAndClaims(After(s1, evs), r, e, q, x);
    assert OthersOnly(evs, e) by { OnlyOthers(evs, e); }
    JoinsAfter(s1, evs, r, e);
    JoinsAfter(s, start, r, e);
  }

  lemma OnlyOthers(evs: seq<Event>, e: ExecId)
    requires forall ev :: ev in evs ==> ev.Do? && ev.e != e
    ensures OthersOnly(evs, e)
  {
  }

  /** For a running run: while its claimant does nothing, another run of the project can be running beside it if
      and only if one already is, or the claimant waits for its finaliser. */
  lemma TwoRowsRunExactlyWhen(s: State, r: RunId, e: ExecId)
    requires Reachable(s) && r in s.runs && s.runs[r].status == Running && s.runs[r].owner == Some(e)
    ensures MayBeJoined(s, r, e) <==> Joined(s, r) || (e < |s.execs| && AwaitsFinaliser(s.execs[e].pc))
  {
    ReachableInv(s);
    ReachableTokens(s);
    hide Reachable, Inv, TokensOk, Joined, Valid, After, OthersOnly;
    RunningClaimant(s, r, e);
    if Joined(s, r) {
      hide MayBeJoined;
      JoinedNow(s, r, e);
    } else if AwaitsFinaliser(s.execs[e].pc) {
      hide MayBeJoined;
      AsideIsJoined(s, r, e);
    } else {
      forall evs: seq<Event> | Valid(s, evs) && OthersOnly(evs, e) && r in After(s, evs).runs
        ensures !Joined(After(s, evs), r)
      {
        NobodyJoinsAfter(s, evs, r, e);
      }
    }
  }

  lemma FreshRun(runs: map<RunId, Run>) returns (q: RunId)
    ensures q !in runs
  {
    q := Unused(runs.Keys);
  }

  lemma {:induction false} Unused(ids: set<RunId>) returns (q: RunId)
    ensures forall k :: k in ids ==> k < q
    decreases ids
  {
    if ids == {} {
      q := 0;
    } else {
      var k :| k in ids;
      var rest := Unused(ids - {k});
      q := if k >= rest then k + 1 else rest;
      forall j | j in ids ensures j < q {
        assert j == k || j in ids - {k};
      }
    }
  }
}
