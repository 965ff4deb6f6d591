/** The limiter's bound is exact: a run that records ten failures of one key in one span. Five attempts begin
    at time 0 and fail at the last moment of the window; five more begin and fail right after it. */
module LimiterBound {
  import opened LoginLimiter

  const KEY := LoginKey(0, "user")
  const LATE: nat := LOGIN_FAILURE_WINDOW - 1

  lemma {:induction false} RunExtends(evs: seq<Event>, ev: Event, s: State)
    requires Valid(evs, s) && Enabled(After(evs, s), ev)
    ensures Valid(evs + [ev], s) && After(evs + [ev], s) == Apply(After(evs, s), ev)
    decreases |evs|
  {
    hide Apply, Enabled;
    if evs == [] {
      assert [] + [ev] == [ev] && [ev][1..] == [];
    } else {
      RunExtends(evs[1..], ev, Apply(s, evs[0]));
      assert (evs + [ev])[1..] == evs[1..] + [ev];
    }
  }

  function At(time: nat): Readings {
    Readings(time, _ => time, time, time, time)
  }

  /** `n` tickets of the key, all live or all settled. */
  function Tickets(n: nat, live: bool): (r: seq<Ticket>)
    ensures |r| == n && forall k :: 0 <= k < n ==> r[k] == Ticket(KEY, live)
  {
    seq(n, _ => Ticket(KEY, live))
  }

  function Failures(n: nat, time: nat): (r: seq<Failure>)
    ensures |r| == n && forall k :: 0 <= k < n ==> r[k] == Failure(KEY, time)
  {
    seq(n, _ => Failure(KEY, time))
  }

  /** Of the attempts of a window that began at `start`, `done` have failed and `open` are still in flight;
      `settled` attempts came before. */
  ghost predicate Round(s: State, start: nat, settled: nat, done: nat, open: nat, log: seq<Failure>) {
    && done <= U8_MAX && open <= U8_MAX
    && KEY in s.entries && s.entries == map[KEY := LoginEntry(done, open, start)]
    && s.tickets == Tickets(settled + done, false) + Tickets(open, true)
    && s.log == log
    && Windows(s.past, KEY) != []
  }

  lemma OneBegins(s: State, start: nat, settled: nat, open: nat, log: seq<Failure>)
    requires Round(s, start, settled, 0, open, log) && 0 < open < LOGIN_FAILURE_LIMIT && s.clock == start
    ensures Enabled(s, Begin(KEY, At(start)))
    ensures var s' := Apply(s, Begin(KEY, At(start))); Round(s', start, settled, 0, open + 1, log) && s'.clock == start
  {
    assert Retained(s.entries, At(start).retain) == s.entries;
    assert Tickets(open, true) + [Ticket(KEY, true)] == Tickets(open + 1, true);
  }

  lemma OneFails(s: State, start: nat, settled: nat, done: nat, open: nat, log: seq<Failure>, at: nat)
    requires Round(s, start, settled, done, open, log) && open > 0 && done + open <= LOGIN_FAILURE_LIMIT
    requires s.clock <= at
    ensures Enabled(s, Settle(settled + done, true, at))
    ensures var s' := Apply(s, Settle(settled + done, true, at));
            Round(s', start, settled, done + 1, open - 1, log + [Failure(KEY, at)]) && s'.clock == at
  {
    var id := settled + done;
    assert (Tickets(id, false) + Tickets(open, true))[id := Ticket(KEY, false)] ==
           Tickets(id + 1, false) + Tickets(open - 1, true);
  }

  lemma {:induction false} AllBegin(evs: seq<Event>, start: nat, settled: nat, open: nat, log: seq<Failure>)
    returns (more: seq<Event>)
    requires Valid(evs, Initial) && Round(After(evs, Initial), start, settled, 0, open, log)
    requires 0 < open <= LOGIN_FAILURE_LIMIT && After(evs, Initial).clock == start
    ensures Valid(more, Initial) && Round(After(more, Initial), start, settled, 0, LOGIN_FAILURE_LIMIT, log)
    ensures After(more, Initial).clock == start
    decreases LOGIN_FAILURE_LIMIT - open
  {
    hide Round, Apply, Enabled, Valid, After;
    if open == LOGIN_FAILURE_LIMIT {
      more := evs;
    } else {
      var s := After(evs, Initial);
      OneBegins(s, start, settled, open, log);
      RunExtends(evs, Begin(KEY, At(start)), Initial);
      more := AllBegin(evs + [Begin(KEY, At(start))], start, settled, open + 1, log);
    }
  }

  lemma {:induction false} AllFail(evs: seq<Event>, start: nat, settled: nat, done: nat, open: nat, log: seq<Failure>,
                                   at: nat)
    returns (more: seq<Event>)
    requires Valid(evs, Initial) && Round(After(evs, Initial), start, settled, done, open, log + Failures(done, at))
    requires done + open == LOGIN_FAILURE_LIMIT && After(evs, Initial).clock <= at
    ensures Valid(more, Initial) && After(more, Initial).clock <= at
    ensures Round(After(more, Initial), start, settled, LOGIN_FAILURE_LIMIT, 0, log + Failures(LOGIN_FAILURE_LIMIT, at))
    decreases open
  {
    hide Round, Apply, Enabled, Valid, After;
    if open == 0 {
      more := evs;
    } else {
      var s := After(evs, Initial);
      OneFails(s, start, settled, done, open, log + Failures(done, at), at);
      assert log + Failures(done, at) + [Failure(KEY, at)] == log + Failures(done + 1, at);
      RunExtends(evs, Settle(settled + done, true, at), Initial);
      more := AllFail(evs + [Settle(settled + done, true, at)], start, settled, done + 1, open - 1, log, at);
    }
  }

  /** The first attempt of a window, when no entry of the key is worth keeping. */
  lemma FirstBegins(s: State, at: nat)
    requires s.entries == map[]
             || (s.entries.Keys == {KEY} && s.entries[KEY].inFlight == 0 && Elapsed(s.entries[KEY], at))
    requires s.clock <= at && s.tickets == Tickets(|s.tickets|, false)
    ensures Enabled(s, Begin(KEY, At(at)))
    ensures var s' := Apply(s, Begin(KEY, At(at))); Round(s', at, |s.tickets|, 0, 1, s.log) && s'.clock == at
  {
    assert Retained(s.entries, At(at).retain) == map[];
    assert [Ticket(KEY, true)] == Tickets(1, true);
  }

  lemma {:induction false} LoggedAppend(log: seq<Failure>, n: nat, at: nat, from: nat)
    ensures LoggedWithin(log + Failures(n, at), KEY, from)
         == LoggedWithin(log, KEY, from) + if from <= at < from + LOGIN_FAILURE_WINDOW then n else 0
    decreases n
  {
    if n == 0 {
      assert log + Failures(0, at) == log;
    } else {
      assert (log + Failures(n, at))[..|log| + n - 1] == log + Failures(n - 1, at);
      LoggedAppend(log, n - 1, at, from);
    }
  }

  /** A whole round: the limit's worth of attempts begins at `start` and fails at `at`. */
  lemma WholeRound(evs: seq<Event>, start: nat, at: nat) returns (more: seq<Event>)
    requires Valid(evs, Initial) && start <= at
    requires var s := After(evs, Initial);
             && (s.entries == map[]
                 || (s.entries.Keys == {KEY} && s.entries[KEY].inFlight == 0 && Elapsed(s.entries[KEY], start)))
             && s.clock <= start && s.tickets == Tickets(|s.tickets|, false)
    ensures Valid(more, Initial)
    ensures var s, s' := After(evs, Initial), After(more, Initial);
            && s'.clock <= at && s'.log == s.log + Failures(LOGIN_FAILURE_LIMIT, at)
            && s'.entries == map[KEY := LoginEntry(LOGIN_FAILURE_LIMIT, 0, start)]
            && s'.tickets == Tickets(|s'.tickets|, false)
  {
    var s := After(evs, Initial);
    FirstBegins(s, start);
    hide Apply, Enabled, Valid, After;
    RunExtends(evs, Begin(KEY, At(start)), Initial);
    more := AllBegin(evs + [Begin(KEY, At(start))], start, |s.tickets|, 1, s.log);
    assert s.log + Failures(0, at) == s.log;
    more := AllFail(more, start, |s.tickets|, 0, LOGIN_FAILURE_LIMIT, s.log, at);
  }

  /** Some run does record twice the limit within one span as long as the window. */
  lemma BoundIsReached() returns (evs: seq<Event>)
    ensures Valid(evs, Initial) && LoggedWithin(After(evs, Initial).log, KEY, LATE) == 2 * LOGIN_FAILURE_LIMIT
  {
    assert Valid([], Initial) && After([], Initial) == Initial;
    assert LoggedWithin([], KEY, LATE) == 0 by { NothingLogged(); }
    hide Valid, After, LoggedWithin;
    var n := LOGIN_FAILURE_LIMIT;
    evs := WholeRound([], 0, LATE);
    evs := WholeRound(evs, LOGIN_FAILURE_WINDOW, LOGIN_FAILURE_WINDOW);
    LoggedAppend([], n, LATE, LATE);
    LoggedAppend([] + Failures(n, LATE), n, LOGIN_FAILURE_WINDOW, LATE);
  }

  lemma NothingLogged()
    ensures LoggedWithin([], KEY, LATE) == 0
  {
  }
}
