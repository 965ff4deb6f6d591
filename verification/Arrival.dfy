/** How a call gets past its permits: only calls that hold a project permit have to move for it, and what
    their moves leave as it is. */
module Arrival {
  import opened Runs
  import opened Engine
  import opened Ownership
  import opened EngineInvariant
  import opened EngineSteps
  import opened EngineTheorems
  import opened EngineProgress
  import opened TokenMap

  /** Past its lookup, not past its permits. */
  predicate Queueing(pc: Pc) {
    pc.TakeLock? || pc.WaitProject? || pc.WaitGlobal?
  }

  /** A step of the queueing call `x`, or of one that holds a project permit. */
  ghost predicate MovesFor(s: State, ev: Event, x: ExecId) {
    && ev.Do? && ev.e < |s.execs| && CanStep(s, ev.e, ev.c)
    && x < |s.execs| && Queueing(s.execs[x].pc)
    && (ev.e == x || HoldsProject(s.execs[ev.e].pc))
  }

  ghost predicate Forward(s: State, evs: seq<Event>, x: ExecId)
    decreases |evs|
  {
    evs == [] || (Enabled(s, evs[0]) && MovesFor(s, evs[0], x) && Forward(Apply(s, evs[0]), evs[1..], x))
  }

  lemma {:induction false} ForwardIsValid(s: State, evs: seq<Event>, x: ExecId)
    requires Forward(s, evs, x)
    ensures Valid(s, evs)
    decreases |evs|
  {
    hide Apply, Enabled, MovesFor;
    if evs != [] {
      ForwardIsValid(Apply(s, evs[0]), evs[1..], x);
    }
  }

  lemma QueueingCanMove(s: State, x: ExecId) returns (ev: Event)
    requires Inv(s) && x < |s.execs| && Queueing(s.execs[x].pc)
    ensures Enabled(s, ev) && MovesFor(s, ev, x)
  {
    hide Inv, CanStep;
    var y, c := x, Go;
    if s.execs[x].pc.WaitProject? {
      y, c := ProjectWaiterCanStep(s, x);
    } else if s.execs[x].pc.WaitGlobal? {
      y, c := GlobalWaiterCanStep(s, x);
    } else {
      c := RunnableCanStep(s, x);
    }
    ev := Do(y, c);
  }

  /** A queueing call stays queueing or comes to the point where it registers. */
  lemma QueueingStays(s: State, ev: Event, x: ExecId)
    requires Inv(s) && Enabled(s, ev) && MovesFor(s, ev, x)
    ensures x < |Apply(s, ev).execs| && Apply(s, ev).execs[x].run == s.execs[x].run
    ensures Queueing(Apply(s, ev).execs[x].pc) || Apply(s, ev).execs[x].pc.Register?
  {
    hide Inv, Fits, InRange, Advance;
    StepFrame(s, ev.e, ev.c);
    if ev.e == x {
      QueueingStep(s, x);
    }
  }

  lemma QueueingStep(s: State, x: ExecId)
    requires x < |s.execs| && CanStep(s, x, Go) && Queueing(s.execs[x].pc)
    ensures x < |Step(s, x, Go).execs|
    ensures Queueing(Step(s, x, Go).execs[x].pc) || Step(s, x, Go).execs[x].pc.Register?
  {
    hide Leave, Advance, Fits;
  }

  /** From a queueing call's place there is a way to its registration on which nobody else but holders of project
      permits moves. */
  lemma {:induction false} ReachesRegister(s: State, x: ExecId) returns (evs: seq<Event>)
    requires Inv(s) && x < |s.execs| && (Queueing(s.execs[x].pc) || s.execs[x].pc.Register?)
    ensures Forward(s, evs, x) && Valid(s, evs)
    ensures Inv(After(s, evs)) && x < |After(s, evs).execs|
    ensures After(s, evs).execs[x].pc.Register? && After(s, evs).execs[x].run == s.execs[x].run
    decreases Total(s)
  {
    hide Inv, Apply, Enabled, MovesFor, Total;
    if s.execs[x].pc.Register? {
      evs := [];
    } else {
      var ev := QueueingCanMove(s, x);
      QueueingStays(s, ev, x);
      assert ev.Do? by { MoverSteps(s, ev, x); }
      TotalDescends(s, ev);
      ApplyKeepsInv(s, ev);
      TotalNotNegative(s);
      TotalNotNegative(Apply(s, ev));
      var rest := ReachesRegister(Apply(s, ev), x);
      evs := [ev] + rest;
      assert evs[1..] == rest;
    }
  }

  lemma MoverSteps(s: State, ev: Event, x: ExecId)
    requires MovesFor(s, ev, x)
    ensures ev.Do?
  {
  }

  /** The claimant `e` of `r` is out of `execute_inner`, and `x` is another call. */
  ghost predicate Aside(s: State, r: RunId, e: ExecId, x: ExecId) {
    Claimant(s, r, e) && Gone(s.execs[e].pc) && x != e
  }

  /** What the moves leave alone: the claimant that is aside, the rows of its run, and its token. */
  lemma MoveLeavesAside(s: State, ev: Event, x: ExecId, r: RunId, e: ExecId)
    requires Inv(s) && TokensOk(s) && Enabled(s, ev) && MovesFor(s, ev, x) && Aside(s, r, e, x)
    ensures Aside(Apply(s, ev), r, e, x)
    ensures Apply(s, ev).execs[e] == s.execs[e] && Apply(s, ev).runs[r] == s.runs[r]
    ensures Registered(s, r, e) ==> Registered(Apply(s, ev), r, e)
    ensures ev.Do? && ev.e != e
  {
    hide Inv, Step, CanStep, Known, Unclaimed;
    var y := ev.e;
    StepFrame(s, y, ev.c);
    StepOnTokens(s, y, ev.c);
    StepWritesOnlyOwnRun(s, y, ev.c, r);
    Facts(s, y);
    RunFact(s, r);
    KnownIsClaimed(s.execs[e].pc, s.runs[r]);
  }

  lemma {:induction false} ForwardLeavesAside(s: State, evs: seq<Event>, x: ExecId, r: RunId, e: ExecId)
    requires Inv(s) && TokensOk(s) && Forward(s, evs, x) && Valid(s, evs) && Aside(s, r, e, x)
    ensures Aside(After(s, evs), r, e, x)
    ensures After(s, evs).execs[e] == s.execs[e] && After(s, evs).runs[r] == s.runs[r]
    ensures Registered(s, r, e) ==> Registered(After(s, evs), r, e)
    ensures forall ev :: ev in evs ==> ev.Do? && ev.e != e
    decreases |evs|
  {
    hide Inv, TokensOk, Apply, Enabled, MovesFor;
    if evs != [] {
      MoveLeavesAside(s, evs[0], x, r, e);
      ApplyKeepsInv(s, evs[0]);
      ApplyKeepsTokens(s, evs[0]);
      ForwardLeavesAside(Apply(s, evs[0]), evs[1..], x, r, e);
    }
  }
}
