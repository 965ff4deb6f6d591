/** The login limiter: failures and attempts in flight by key, within a window that starts with the first
    attempt; and what the windows add up to over time. Times are readings of one monotone clock. */
module LoginLimiter {
  import opened Wrappers

  const LOGIN_FAILURE_LIMIT: nat := 5
  const LOGIN_FAILURE_WINDOW: nat := 5 * 60
  const MAX_LIMITER_ENTRIES: nat := 4096
  const U8_MAX: nat := 255

  /** u8 */
  type U8 = n: nat | n <= U8_MAX

  /** The user name is already in lower case. */
  datatype LoginKey = LoginKey(ip: nat, username: string)

  datatype LoginEntry = LoginEntry(failures: U8, inFlight: U8, windowStarted: nat)

  type Entries = map<LoginKey, LoginEntry>

  /** u8::saturating_add and u8::saturating_sub */
  function SatAdd(x: nat, y: nat): U8 {
    if x + y > U8_MAX then U8_MAX else x + y
  }

  function SatSub(x: nat, y: nat): nat {
    if x < y then 0 else x - y
  }

  /** The readings one `begin` takes: when it starts, one for every entry that `retain` looks at, for a new entry,
      for the second look, for a new window. */
  datatype Readings = Readings(start: nat, retain: LoginKey -> nat, insert: nat, look: nat, restart: nat)

  ghost predicate Ordered(t: Readings) {
    t.start <= t.insert <= t.look <= t.restart && forall key :: t.start <= t.retain(key) <= t.insert
  }

  predicate Elapsed(entry: LoginEntry, at: nat) {
    SatSub(at, entry.windowStarted) >= LOGIN_FAILURE_WINDOW
  }

  function Retained(entries: Entries, at: LoginKey -> nat): Entries {
    map k | k in entries && (entries[k].inFlight != 0 || !Elapsed(entries[k], at(k))) :: entries[k]
  }

  predicate Full(entries: Entries, key: LoginKey, t: Readings) {
    var kept := Retained(entries, t.retain);
    key !in kept && |kept| >= MAX_LIMITER_ENTRIES
  }

  /** The entry found or inserted. */
  function Found(entries: Entries, key: LoginKey, t: Readings): LoginEntry {
    var kept := Retained(entries, t.retain);
    if key in kept then kept[key] else LoginEntry(0, 0, t.insert)
  }

  /** The entry `begin` decides on. */
  function Current(entries: Entries, key: LoginKey, t: Readings): LoginEntry {
    var entry := Found(entries, key, t);
    if entry.inFlight == 0 && Elapsed(entry, t.look) then LoginEntry(0, 0, t.restart) else entry
  }

  /** A window starts: there was no entry, or an idle one whose window is over. */
  predicate Restarts(entries: Entries, key: LoginKey, t: Readings) {
    key !in Retained(entries, t.retain) || Current(entries, key, t) != Found(entries, key, t)
  }

  predicate Accepts(entries: Entries, key: LoginKey, t: Readings) {
    !Full(entries, key, t)
    && SatAdd(Current(entries, key, t).failures, Current(entries, key, t).inFlight) < LOGIN_FAILURE_LIMIT
  }

  /** The map after `begin`, whether it accepts or not. */
  function AfterBegin(entries: Entries, key: LoginKey, t: Readings): Entries {
    var kept := Retained(entries, t.retain);
    if Full(entries, key, t) then kept
    else
      var entry := Current(entries, key, t);
      kept[key := if Accepts(entries, key, t) then entry.(inFlight := SatAdd(entry.inFlight, 1)) else entry]
  }

  function AfterFinish(entries: Entries, key: LoginKey, failed: bool): Entries
    requires key in entries
  {
    var entry := entries[key];
    var failures := if failed then SatAdd(entry.failures, 1) else entry.failures;
    entries[key := LoginEntry(failures, SatSub(entry.inFlight, 1), entry.windowStarted)]
  }

  /** The keys with an attempt in flight or a window that is not over at its reading. */
  function Live(entries: Entries, at: LoginKey -> nat): (live: set<LoginKey>)
    ensures forall k :: k in live <==>
                        k in entries && (entries[k].inFlight > 0 || at(k) - entries[k].windowStarted < 5 * 60)
  {
    set k | k in entries && (entries[k].inFlight > 0 || at(k) - entries[k].windowStarted < 5 * 60)
  }

  /** What `begin` comes to, key by key. Another key keeps its entry, unchanged, if it is live, and else loses it. A key
      that is not live is accepted if and only if fewer than 4096 keys are; a live one, if and only if its window can
      start anew or its failures and attempts are below 5. */
  lemma BeginMeans(entries: Entries, key: LoginKey, t: Readings)
    ensures var live, after := Live(entries, t.retain), AfterBegin(entries, key, t);
            && (forall k :: k != key ==> (k in after <==> k in live) && (k in live ==> after[k] == entries[k]))
            && (key !in live ==> (Accepts(entries, key, t) <==> |live| < 4096) && (key in after <==> |live| < 4096))
            && (key !in live && |live| < 4096 ==>
                  after[key] == LoginEntry(0, 1, if t.look - t.insert < 5 * 60 then t.insert else t.restart))
    ensures key in Live(entries, t.retain) ==>
              var entry, after := entries[key], AfterBegin(entries, key, t);
              var anew := entry.inFlight == 0 && t.look - entry.windowStarted >= 5 * 60;
              && (Accepts(entries, key, t) <==> anew || entry.failures + entry.inFlight < 5)
              && key in after
              && after[key] == if anew then LoginEntry(0, 1, t.restart)
                               else if entry.failures + entry.inFlight < 5 then entry.(inFlight := entry.inFlight + 1)
                               else entry
  {
    var live := Live(entries, t.retain);
    assert Retained(entries, t.retain).Keys == live;
    assert |Retained(entries, t.retain)| == |live|;
  }

  // ---- The objects ----

  class Limiter {
    var entries: Entries

    constructor ()
      ensures entries == map[]
    {
      entries := map[];
    }

    /** The part of `begin` after the look at the size of the map: the entry is found or made, its window may start
        anew, and the attempt is counted or refused. */
    method Admit(key: LoginKey, t: Readings) returns (ok: bool)
      modifies this
      ensures var entry := if key in old(entries) then old(entries)[key] else LoginEntry(0, 0, t.insert);
              var anew := entry.inFlight == 0 && Elapsed(entry, t.look);
              var current := if anew then LoginEntry(0, 0, t.restart) else entry;
              && (ok <==> SatAdd(current.failures, current.inFlight) < LOGIN_FAILURE_LIMIT)
              && entries == old(entries)[key := if !ok then current
                            else current.(inFlight := SatAdd(current.inFlight, 1))]
    {
      if key !in entries {
        entries := entries[key := LoginEntry(0, 0, t.insert)];
      }
      if entries[key].inFlight == 0 && Elapsed(entries[key], t.look) {
        entries := entries[key := LoginEntry(0, 0, t.restart)];
      }
      ok := SatAdd(entries[key].failures, entries[key].inFlight) < LOGIN_FAILURE_LIMIT;
      if ok {
        entries := entries[key := entries[key].(inFlight := SatAdd(entries[key].inFlight, 1))];
      }
    }

    /** `LoginLimiter::begin` */
    method Begin(key: LoginKey, t: Readings) returns (attempt: Attempt?)
      requires Ordered(t)
      modifies this
      ensures entries == AfterBegin(old(entries), key, t)
      ensures attempt != null <==> Accepts(old(entries), key, t)
      ensures var live := Live(old(entries), t.retain);
              && (forall k :: k != key ==>
                                (k in entries <==> k in live) && (k in live ==> entries[k] == old(entries)[k]))
              && (key !in live ==> (attempt != null <==> |live| < 4096) && (key in entries <==> |live| < 4096))
              && (key !in live && |live| < 4096 ==>
                    entries[key] == LoginEntry(0, 1, if t.look - t.insert < 5 * 60 then t.insert else t.restart))
      ensures key in Live(old(entries), t.retain) ==>
                var entry := old(entries)[key];
                var anew := entry.inFlight == 0 && t.look - entry.windowStarted >= 5 * 60;
                && (attempt != null <==> anew || entry.failures + entry.inFlight < 5)
                && key in entries
                && entries[key] == if anew then LoginEntry(0, 1, t.restart)
                                   else if entry.failures + entry.inFlight >= 5 then entry
                                   else entry.(inFlight := entry.inFlight + 1)
      ensures attempt != null ==> fresh(attempt) && attempt.limiter == this && attempt.key == key && !attempt.finished
    {
      ghost var before := entries;
      BeginMeans(before, key, t);
      hide Live, Elapsed, SatAdd;
      entries := map k | k in entries && (entries[k].inFlight != 0 || !Elapsed(entries[k], t.retain(k))) :: entries[k];
      assert entries == Retained(before, t.retain);
      hide Retained;
      if key !in entries && |entries| >= MAX_LIMITER_ENTRIES {
        return null;
      }
      var ok := Admit(key, t);
      if !ok {
        return null;
      }
      attempt := new Attempt(this, key);
    }

    /** `LoginLimiter::finish` */
    method Finish(key: LoginKey, failed: bool) returns (ok: bool)
      modifies this
      ensures ok <==> key in old(entries)
      ensures entries == if ok then AfterFinish(old(entries), key, failed) else old(entries)
      ensures ok ==>
                var was := old(entries)[key];
                var failures := if failed && was.failures < 255 then was.failures + 1 else was.failures;
                var inFlight := if was.inFlight > 0 then was.inFlight - 1 else 0;
                entries == old(entries)[key := LoginEntry(failures, inFlight, was.windowStarted)]
    {
      if key !in entries {
        return false;
      }
      var entry := entries[key].(inFlight := SatSub(entries[key].inFlight, 1));
      if failed {
        entry := entry.(failures := SatAdd(entry.failures, 1));
      }
      entries := entries[key := entry];
      ok := true;
    }
  }

  class Attempt {
    const limiter: Limiter
    const key: LoginKey
    var finished: bool

    constructor (limiter: Limiter, key: LoginKey)
      ensures this.limiter == limiter && this.key == key && !finished
    {
      this.limiter := limiter;
      this.key := key;
      finished := false;
    }

    /** `LoginAttempt::finish`, up to the drop at its end. */
    method Finish(failed: bool) returns (ok: bool)
      modifies this, limiter
      ensures ok <==> key in old(limiter.entries)
      ensures limiter.entries == if ok then AfterFinish(old(limiter.entries), key, failed) else old(limiter.entries)
      ensures finished == (ok || old(finished))
    {
      ok := limiter.Finish(key, failed);
      if ok {
        finished := true;
      }
    }

    /** `Drop` */
    method Drop()
      modifies limiter
      ensures limiter.entries ==
              if !finished && key in old(limiter.entries) then AfterFinish(old(limiter.entries), key, true)
              else old(limiter.entries)
    {
      if !finished {
        var _ := limiter.Finish(key, true);
      }
    }

    /** The whole end of an attempt: `login` finishes it, or an early return just drops it. Either way it is
        settled exactly once, and as a failure if it was dropped. */
    method End(finish: Option<bool>)
      requires !finished && key in limiter.entries
      modifies this, limiter
      ensures limiter.entries == AfterFinish(old(limiter.entries), key, finish.None? || finish.value)
    {
      if finish.Some? {
        var _ := Finish(finish.value);
      }
      Drop();
    }
  }

  // ---- All attempts of all clients ----

  /** One window of a key, and when failures were recorded in it. */
  datatype Window = Window(start: nat, failedAt: seq<nat>)

  datatype Ticket = Ticket(key: LoginKey, live: bool)

  /** A failure that was recorded, and when. */
  datatype Failure = Failure(key: LoginKey, at: nat)

  /** tickets: every attempt ever begun, live until settled. clock: the last reading. log: every failure ever
      recorded. past: the windows of every key, oldest first, with their share of the log. */
  datatype State = State(entries: Entries, tickets: seq<Ticket>, clock: nat, log: seq<Failure>,
                         past: map<LoginKey, seq<Window>>)

  const Initial := State(map[], [], 0, [], map[])

  datatype Event =
    | Begin(key: LoginKey, t: Readings)
    | Settle(id: nat, failed: bool, at: nat)

  ghost predicate Enabled(s: State, ev: Event) {
    match ev
    case Begin(_, t) => s.clock <= t.start && Ordered(t)
    case Settle(id, _, at) => id < |s.tickets| && s.tickets[id].live && s.clock <= at && s.tickets[id].key in s.entries
  }

  function Windows(past: map<LoginKey, seq<Window>>, key: LoginKey): seq<Window> {
    if key in past then past[key] else []
  }

  function Apply(s: State, ev: Event): State
    requires Enabled(s, ev)
  {
    match ev
    case Begin(key, t) =>
      State(AfterBegin(s.entries, key, t),
            if Accepts(s.entries, key, t) then s.tickets + [Ticket(key, true)] else s.tickets,
            t.restart,
            s.log,
            if !Full(s.entries, key, t) && Restarts(s.entries, key, t)
            then s.past[key := Windows(s.past, key) + [Window(Current(s.entries, key, t).windowStarted, [])]]
            else s.past)
    case Settle(id, failed, at) =>
      var key := s.tickets[id].key;
      var ws := Windows(s.past, key);
      State(AfterFinish(s.entries, key, failed),
            s.tickets[id := Ticket(key, false)],
            at,
            s.log + if failed then [Failure(key, at)] else [],
            if failed && ws != []
            then s.past[key := ws[|ws| - 1 := ws[|ws| - 1].(failedAt := ws[|ws| - 1].failedAt + [at])]] else s.past)
  }

  /** The attempts of a key that are not settled yet. */
  function Unsettled(tickets: seq<Ticket>, key: LoginKey): nat {
    if tickets == [] then 0
    else Unsettled(tickets[..|tickets| - 1], key)
         + if tickets[|tickets| - 1].live && tickets[|tickets| - 1].key == key then 1 else 0
  }

  /** Windows of one key start at least a window apart; each has at most five failures, all between its own
      start and the next. */
  ghost predicate Spaced(ws: seq<Window>) {
    && (forall i :: 0 <= i < |ws| ==> |ws[i].failedAt| <= LOGIN_FAILURE_LIMIT)
    && (forall i, j :: 0 <= i < |ws| && 0 <= j < |ws[i].failedAt| ==> ws[i].start <= ws[i].failedAt[j])
    && (forall i, j :: 0 <= i < |ws| - 1 && 0 <= j < |ws[i].failedAt| ==> ws[i].failedAt[j] <= ws[i + 1].start)
    && (forall i :: 0 <= i < |ws| - 1 ==> ws[i].start + LOGIN_FAILURE_WINDOW <= ws[i + 1].start)
  }

  /** Nothing in the windows lies in the future. */
  ghost predicate Elder(ws: seq<Window>, clock: nat) {
    forall i :: 0 <= i < |ws| ==> ws[i].start <= clock && forall j :: 0 <= j < |ws[i].failedAt| ==>
                                                                        ws[i].failedAt[j] <= clock
  }

  ghost predicate KeyOk(s: State, key: LoginKey) {
    var ws := Windows(s.past, key);
    && Spaced(ws) && Elder(ws, s.clock)
    && if key in s.entries then
         var e := s.entries[key];
         && e.inFlight == Unsettled(s.tickets, key)
         && e.failures + e.inFlight <= LOGIN_FAILURE_LIMIT
         && ws != [] && ws[|ws| - 1].start == e.windowStarted && |ws[|ws| - 1].failedAt| == e.failures
       else
         && Unsettled(s.tickets, key) == 0
         && (ws != [] ==> ws[|ws| - 1].start + LOGIN_FAILURE_WINDOW <= s.clock)
  }

  ghost predicate Inv(s: State) {
    && |s.entries| <= MAX_LIMITER_ENTRIES
    && forall key :: KeyOk(s, key)
  }

  lemma {:induction false} SettleCounts(tickets: seq<Ticket>, id: nat, key: LoginKey)
    requires id < |tickets| && tickets[id].live
    ensures Unsettled(tickets[id := Ticket(tickets[id].key, false)], key) ==
            Unsettled(tickets, key) - if tickets[id].key == key then 1 else 0
    ensures tickets[id].key == key ==> Unsettled(tickets, key) > 0
  {
    var n := |tickets| - 1;
    var after := tickets[id := Ticket(tickets[id].key, false)];
    if id == n {
      assert after[..n] == tickets[..n];
    } else {
      assert after[..n] == tickets[..n][id := Ticket(tickets[id].key, false)];
      SettleCounts(tickets[..n], id, key);
    }
  }

  lemma BeginCounts(tickets: seq<Ticket>, begun: LoginKey, key: LoginKey)
    ensures Unsettled(tickets + [Ticket(begun, true)], key) == Unsettled(tickets, key) + if begun == key then 1 else 0
  {
    assert (tickets + [Ticket(begun, true)])[..|tickets|] == tickets;
  }

  /** A live attempt keeps its key's entry in the map: `finish` always finds it. */
  lemma FinishFindsItsEntry(s: State, id: nat)
    requires Inv(s) && id < |s.tickets| && s.tickets[id].live
    ensures s.tickets[id].key in s.entries
    ensures s.entries[s.tickets[id].key].inFlight > 0
  {
    SettleCounts(s.tickets, id, s.tickets[id].key);
    assert KeyOk(s, s.tickets[id].key);
  }

  /** A window may start once the last one is a window old. */
  lemma OpenWindow(ws: seq<Window>, clock: nat, start: nat, later: nat)
    requires Spaced(ws) && Elder(ws, clock) && clock <= start <= later
    requires ws != [] ==> ws[|ws| - 1].start + LOGIN_FAILURE_WINDOW <= start
    ensures Spaced(ws + [Window(start, [])]) && Elder(ws + [Window(start, [])], later)
  {
  }

  lemma RecordFailure(ws: seq<Window>, clock: nat, at: nat)
    requires Spaced(ws) && Elder(ws, clock) && clock <= at && ws != [] && |ws[|ws| - 1].failedAt| < LOGIN_FAILURE_LIMIT
    ensures var n := |ws| - 1;
            var after := ws[n := ws[n].(failedAt := ws[n].failedAt + [at])];
            Spaced(after) && Elder(after, at)
  {
  }

  lemma TimePasses(ws: seq<Window>, clock: nat, later: nat)
    requires Elder(ws, clock) && clock <= later
    ensures Elder(ws, later)
  {
  }

  lemma BeginKeepsWindows(s: State, key: LoginKey, t: Readings)
    requires KeyOk(s, key) && Enabled(s, Begin(key, t))
    ensures var s' := Apply(s, Begin(key, t)); Spaced(Windows(s'.past, key)) && Elder(Windows(s'.past, key), s'.clock)
  {
    hide Spaced, Elder, Unsettled;
    var ws := Windows(s.past, key);
    TimePasses(ws, s.clock, t.restart);
    assert t.start <= t.retain(key) <= t.insert;
    if !Full(s.entries, key, t) && Restarts(s.entries, key, t) {
      OpenWindow(ws, s.clock, Current(s.entries, key, t).windowStarted, t.restart);
    }
  }

  lemma BeginKeepsOwnKey(s: State, key: LoginKey, t: Readings)
    requires KeyOk(s, key) && Enabled(s, Begin(key, t))
    ensures KeyOk(Apply(s, Begin(key, t)), key)
  {
    hide Spaced, Elder, Unsettled;
    BeginCounts(s.tickets, key, key);
    BeginKeepsWindows(s, key, t);
    assert t.start <= t.retain(key) <= t.insert;
  }

  /** What `begin` does to another key: at most it evicts it. */
  lemma BeginOnOther(entries: Entries, begun: LoginKey, t: Readings, key: LoginKey)
    requires key != begun
    ensures var after := AfterBegin(entries, begun, t);
            if key in after then key in entries && after[key] == entries[key]
            else key in entries ==> entries[key].inFlight == 0 && Elapsed(entries[key], t.retain(key))
  {
    hide Current, Accepts, Elapsed;
  }

  lemma BeginKeepsOtherKey(s: State, begun: LoginKey, t: Readings, key: LoginKey)
    requires KeyOk(s, key) && Enabled(s, Begin(begun, t)) && key != begun
    ensures KeyOk(Apply(s, Begin(begun, t)), key)
  {
    hide Spaced, Elder, Unsettled, Current, Accepts, Restarts, Full, AfterBegin;
    BeginCounts(s.tickets, begun, key);
    assert t.start <= t.retain(key) <= t.insert;
    TimePasses(Windows(s.past, key), s.clock, t.restart);
    BeginOnOther(s.entries, begun, t, key);
  }

  lemma SettleKeepsWindows(s: State, id: nat, failed: bool, at: nat, key: LoginKey)
    requires KeyOk(s, key) && Enabled(s, Settle(id, failed, at))
    ensures var s' := Apply(s, Settle(id, failed, at)); Spaced(Windows(s'.past, key))
                                                        && Elder(Windows(s'.past, key), s'.clock)
  {
    hide Spaced, Elder;
    SettleCounts(s.tickets, id, key);
    hide Unsettled;
    var ws := Windows(s.past, key);
    TimePasses(ws, s.clock, at);
    if s.tickets[id].key == key && failed {
      RecordFailure(ws, s.clock, at);
    }
  }

  lemma SettleKeepsKey(s: State, id: nat, failed: bool, at: nat, key: LoginKey)
    requires KeyOk(s, key) && Enabled(s, Settle(id, failed, at))
    ensures KeyOk(Apply(s, Settle(id, failed, at)), key)
  {
    hide Spaced, Elder;
    SettleCounts(s.tickets, id, key);
    SettleKeepsWindows(s, id, failed, at, key);
    hide Unsettled;
  }

  lemma ApplyKeepsInv(s: State, ev: Event)
    requires Inv(s) && Enabled(s, ev)
    ensures Inv(Apply(s, ev))
  {
    hide KeyOk;
    var s' := Apply(s, ev);
    forall key ensures KeyOk(s', key) {
      assert KeyOk(s, key);
      match ev
      case Begin(begun, t) =>
        if key == begun {
          BeginKeepsOwnKey(s, key, t);
        } else {
          BeginKeepsOtherKey(s, begun, t, key);
        }
      case Settle(id, failed, at) => SettleKeepsKey(s, id, failed, at, key);
    }
    BoundedEntries(s, ev);
  }

  lemma BoundedEntries(s: State, ev: Event)
    requires |s.entries| <= MAX_LIMITER_ENTRIES && Enabled(s, ev)
    ensures |Apply(s, ev).entries| <= MAX_LIMITER_ENTRIES
  {
    match ev
    case Begin(key, t) =>
      var kept := Retained(s.entries, t.retain);
      assert kept.Keys <= s.entries.Keys;
      SubsetSize(kept.Keys, s.entries.Keys);
      assert |kept| == |kept.Keys| && |s.entries| == |s.entries.Keys|;
      assert !Full(s.entries, key, t) ==> AfterBegin(s.entries, key, t).Keys == kept.Keys + {key};
    case Settle(id, failed, at) =>
      assert Apply(s, ev).entries.Keys == s.entries.Keys;
  }

  lemma {:induction false} SubsetSize(a: set<LoginKey>, b: set<LoginKey>)
    requires a <= b
    ensures |a| <= |b|
  {
    assert |b| == |a| + |b - a| by { assert b == a + (b - a); }
  }

  // ---- Any run ----

  ghost predicate Valid(evs: seq<Event>, s: State)
    decreases |evs|
  {
    evs == [] || (Enabled(s, evs[0]) && Valid(evs[1..], Apply(s, evs[0])))
  }

  function After(evs: seq<Event>, s: State): State
    requires Valid(evs, s)
    decreases |evs|
  {
    if evs == [] then s else After(evs[1..], Apply(s, evs[0]))
  }

  lemma {:induction false} InvAfter(evs: seq<Event>, s: State)
    requires Inv(s) && Valid(evs, s)
    ensures Inv(After(evs, s))
    decreases |evs|
  {
    hide Inv, Apply, Enabled;
    if evs != [] {
      ApplyKeepsInv(s, evs[0]);
      InvAfter(evs[1..], Apply(s, evs[0]));
    }
  }

  /** After any run: an entry's in_flight is the number of unsettled attempts of its key, no counter ever
      saturates, no unsettled attempt has lost its entry, and the map is bounded. */
  lemma Accounting(evs: seq<Event>, key: LoginKey)
    requires Valid(evs, Initial)
    ensures var s := After(evs, Initial);
            && |s.entries| <= 4096
            && (key in s.entries ==> s.entries[key].inFlight == Unsettled(s.tickets, key)
                                     && s.entries[key].failures + s.entries[key].inFlight <= 5)
            && (key !in s.entries ==> Unsettled(s.tickets, key) == 0)
            && forall id :: 0 <= id < |s.tickets| && s.tickets[id].live ==> s.tickets[id].key in s.entries
  {
    InvAfter(evs, Initial);
    var s := After(evs, Initial);
    assert KeyOk(s, key);
    forall id | 0 <= id < |s.tickets| && s.tickets[id].live ensures s.tickets[id].key in s.entries {
      FinishFindsItsEntry(s, id);
    }
  }

  // ---- The bound over time ----

  /** How many of the times lie in [from, from + window). */
  function CountWithin(times: seq<nat>, from: nat): nat {
    if times == [] then 0
    else CountWithin(times[..|times| - 1], from)
         + if from <= times[|times| - 1] < from + LOGIN_FAILURE_WINDOW then 1 else 0
  }

  function FailuresWithin(ws: seq<Window>, from: nat): nat {
    if ws == [] then 0 else FailuresWithin(ws[..|ws| - 1], from) + CountWithin(ws[|ws| - 1].failedAt, from)
  }

  lemma {:induction false} CountAtMostLength(times: seq<nat>, from: nat)
    ensures CountWithin(times, from) <= |times|
    ensures CountWithin(times, from) > 0 ==> exists j :: 0 <= j < |times|
                                                         && from <= times[j] < from + LOGIN_FAILURE_WINDOW
  {
    if times != [] {
      CountAtMostLength(times[..|times| - 1], from);
    }
  }

  lemma {:induction false} NoneWithin(ws: seq<Window>, from: nat)
    requires forall i, j :: 0 <= i < |ws| && 0 <= j < |ws[i].failedAt| ==> ws[i].failedAt[j] < from
    ensures FailuresWithin(ws, from) == 0
  {
    if ws != [] {
      CountAtMostLength(ws[|ws| - 1].failedAt, from);
      NoneWithin(ws[..|ws| - 1], from);
    }
  }

  lemma {:induction false} StartsIncrease(ws: seq<Window>, i: nat, k: nat)
    requires Spaced(ws) && i <= k < |ws|
    ensures ws[i].start <= ws[k].start
  {
    if i < k {
      StartsIncrease(ws, i, k - 1);
    }
  }

  /** A failure in the last of three windows is a full window later than any failure in the first. */
  lemma TwoWindowsApart(ws: seq<Window>, from: nat)
    requires Spaced(ws) && |ws| >= 2 && CountWithin(ws[|ws| - 1].failedAt, from) > 0
    ensures FailuresWithin(ws[..|ws| - 2], from) == 0
  {
    var n := |ws| - 1;
    CountAtMostLength(ws[n].failedAt, from);
    var z :| 0 <= z < |ws[n].failedAt| && from <= ws[n].failedAt[z] < from + LOGIN_FAILURE_WINDOW;
    forall i, j | 0 <= i < n - 1 && 0 <= j < |ws[i].failedAt| ensures ws[i].failedAt[j] < from {
      assert ws[i].failedAt[j] <= ws[i + 1].start;
      StartsIncrease(ws, i + 1, n - 1);
    }
    NoneWithin(ws[..n - 1], from);
  }

  lemma {:induction false} AtMostTwoWindows(ws: seq<Window>, from: nat)
    requires Spaced(ws)
    ensures FailuresWithin(ws, from) <= 2 * LOGIN_FAILURE_LIMIT
  {
    if ws != [] {
      var n := |ws| - 1;
      CountAtMostLength(ws[n].failedAt, from);
      if CountWithin(ws[n].failedAt, from) == 0 {
        AtMostTwoWindows(ws[..n], from);
      } else if n > 0 {
        TwoWindowsApart(ws, from);
        CountAtMostLength(ws[n - 1].failedAt, from);
        assert ws[..n][..n - 1] == ws[..n - 1];
      }
    }
  }

  /** How many failures of a key were recorded in [from, from + window). */
  function LoggedWithin(log: seq<Failure>, key: LoginKey, from: nat): nat {
    if log == [] then 0
    else
      var last := log[|log| - 1];
      var counted := last.key == key && from <= last.at < from + LOGIN_FAILURE_WINDOW;
      LoggedWithin(log[..|log| - 1], key, from) + if counted then 1 else 0
  }

  lemma {:induction false} WindowsAppend(ws: seq<Window>, w: Window, from: nat)
    ensures FailuresWithin(ws + [w], from) == FailuresWithin(ws, from) + CountWithin(w.failedAt, from)
  {
    assert (ws + [w])[..|ws|] == ws;
  }

  lemma RecordCounts(ws: seq<Window>, at: nat, from: nat)
    requires ws != []
    ensures var n := |ws| - 1;
            FailuresWithin(ws[n := ws[n].(failedAt := ws[n].failedAt + [at])], from)
            == FailuresWithin(ws, from) + if from <= at < from + LOGIN_FAILURE_WINDOW then 1 else 0
  {
    var n := |ws| - 1;
    var times := ws[n].failedAt;
    assert (times + [at])[..|times|] == times;
    assert ws[n := ws[n].(failedAt := times + [at])][..n] == ws[..n];
  }

  lemma BeginKeepsAccount(s: State, begun: LoginKey, t: Readings, key: LoginKey, from: nat)
    requires Enabled(s, Begin(begun, t))
    ensures FailuresWithin(Windows(Apply(s, Begin(begun, t)).past, key), from) ==
            FailuresWithin(Windows(s.past, key), from)
  {
    var ws, w := Windows(s.past, key), Window(Current(s.entries, key, t).windowStarted, []);
    WindowsAppend(ws, w, from);
    hide FailuresWithin, AfterBegin, Current, Restarts, Full, Accepts;
    if begun == key && !Full(s.entries, key, t) && Restarts(s.entries, key, t) {
      assert Windows(Apply(s, Begin(begun, t)).past, key) == ws + [w];
    } else {
      assert Windows(Apply(s, Begin(begun, t)).past, key) == ws;
    }
  }

  lemma SettleKeepsAccount(s: State, id: nat, failed: bool, at: nat, key: LoginKey, from: nat)
    requires Inv(s) && Enabled(s, Settle(id, failed, at))
    ensures LoggedWithin(Apply(s, Settle(id, failed, at)).log, key, from) - LoggedWithin(s.log, key, from) ==
            FailuresWithin(Windows(Apply(s, Settle(id, failed, at)).past, key), from)
            - FailuresWithin(Windows(s.past, key), from)
  {
    hide Inv, AfterFinish, FailuresWithin, CountWithin;
    var ws := Windows(s.past, key);
    var settled := s.tickets[id].key;
    SettledKeyHasWindow(s, settled);
    if failed {
      assert (s.log + [Failure(settled, at)])[..|s.log|] == s.log;
      if settled == key {
        RecordCounts(ws, at, from);
      }
    } else {
      assert Apply(s, Settle(id, failed, at)).log == s.log;
    }
  }

  /** The windows account for the whole log. */
  lemma ApplyKeepsAccount(s: State, ev: Event, key: LoginKey, from: nat)
    requires Inv(s) && Enabled(s, ev)
    requires LoggedWithin(s.log, key, from) == FailuresWithin(Windows(s.past, key), from)
    ensures LoggedWithin(Apply(s, ev).log, key, from) == FailuresWithin(Windows(Apply(s, ev).past, key), from)
  {
    hide Inv, LoggedWithin, FailuresWithin, AfterBegin, AfterFinish;
    match ev
    case Begin(begun, t) => BeginKeepsAccount(s, begun, t, key, from);
    case Settle(id, failed, at) => SettleKeepsAccount(s, id, failed, at, key, from);
  }

  lemma SettledKeyHasWindow(s: State, key: LoginKey)
    requires Inv(s) && key in s.entries
    ensures Windows(s.past, key) != []
  {
    assert KeyOk(s, key);
  }

  lemma {:induction false} AccountAfter(evs: seq<Event>, s: State, key: LoginKey, from: nat)
    requires Inv(s) && Valid(evs, s)
    requires LoggedWithin(s.log, key, from) == FailuresWithin(Windows(s.past, key), from)
    ensures LoggedWithin(After(evs, s).log, key, from) == FailuresWithin(Windows(After(evs, s).past, key), from)
    decreases |evs|
  {
    hide Inv, Apply, Enabled, LoggedWithin, FailuresWithin;
    if evs != [] {
      ApplyKeepsInv(s, evs[0]);
      ApplyKeepsAccount(s, evs[0], key, from);
      AccountAfter(evs[1..], Apply(s, evs[0]), key, from);
    }
  }

  /** Over any run and any half-open time span as long as the window, at most ten failures of one key are
      recorded, whatever other keys do and however long attempts take. */
  lemma TenFailuresPerWindow(evs: seq<Event>, key: LoginKey, from: nat)
    requires Valid(evs, Initial)
    ensures LoggedWithin(After(evs, Initial).log, key, from) <= 10
  {
    InvAfter(evs, Initial);
    AccountAfter(evs, Initial, key, from);
    assert KeyOk(After(evs, Initial), key);
    AtMostTwoWindows(Windows(After(evs, Initial).past, key), from);
  }
}
