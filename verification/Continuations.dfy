/** How stretches of events compose: what a state may lead to, and that it stays reachable on the way. */
module Continuations {
  import opened Engine

  /** Some stretch of events leads from `s` to `s'`. */
  ghost predicate Continues(s: State, s': State) {
    exists evs: seq<Event> :: Valid(s, evs) && s' == After(s, evs)
  }

  lemma {:induction false} Concatenate(s: State, a: seq<Event>, b: seq<Event>)
    requires Valid(s, a) && Valid(After(s, a), b)
    ensures Valid(s, a + b) && After(s, a + b) == After(After(s, a), b)
    decreases |a|
  {
    hide Apply, Enabled;
    if a == [] {
      assert a + b == b;
    } else {
      assert (a + b)[1..] == a[1..] + b;
      Concatenate(Apply(s, a[0]), a[1..], b);
    }
  }

  lemma Stays(s: State)
    ensures Continues(s, s)
  {
    assert Valid(s, []) && After(s, []) == s;
  }

  lemma Happens(s: State, ev: Event)
    requires Enabled(s, ev)
    ensures Continues(s, Apply(s, ev))
  {
    hide Apply, Enabled;
    OneEvent(s, ev);
  }

  lemma GoesOn(s: State, t: State, u: State)
    requires Continues(s, t) && Continues(t, u)
    ensures Continues(s, u)
  {
    hide Valid, After;
    var a: seq<Event> :| Valid(s, a) && t == After(s, a);
    var b: seq<Event> :| Valid(t, b) && u == After(t, b);
    Concatenate(s, a, b);
  }

  lemma StaysReachable(s: State, t: State)
    requires Reachable(s) && Continues(s, t)
    ensures Reachable(t)
  {
    hide Valid, After, Initial;
    var n: nat, a: seq<Event> :| Valid(Initial(n), a) && s == After(Initial(n), a);
    var b: seq<Event> :| Valid(s, b) && t == After(s, b);
    Concatenate(Initial(n), a, b);
  }

  lemma StartsReachable(maxConcurrency: nat)
    ensures Reachable(Initial(maxConcurrency))
  {
    assert Valid(Initial(maxConcurrency), []) && After(Initial(maxConcurrency), []) == Initial(maxConcurrency);
  }

  lemma ReachableStep(s: State, ev: Event, s': State)
    requires Reachable(s) && Enabled(s, ev) && s' == Apply(s, ev)
    ensures Reachable(s')
  {
    hide Apply, Enabled, Reachable, Continues;
    Happens(s, ev);
    StaysReachable(s, s');
  }
}
