/** Run numbers, retries and log reading over the whole life of the engine. */
module RunHistory {
  import opened Wrappers
  import opened Runs
  import opened Engine
  import opened EngineInvariant
  import opened EngineSteps
  import opened EngineTheorems
  import opened EngineProgress
  import opened LogListing

  // ---- Numbers ----

  ghost predicate HasNumber(runs: map<RunId, Run>, p: ProjectId, k: nat, r: RunId) {
    r in runs && runs[r].project == p && runs[r].number == k
  }

  ghost predicate Taken(runs: map<RunId, Run>, p: ProjectId, k: nat) {
    exists r :: HasNumber(runs, p, k, r)
  }

  /** The numbers of a project's runs are exactly 1..last_run_number, each once. */
  ghost predicate Numbered(runs: map<RunId, Run>, counters: map<ProjectId, nat>) {
    && (forall r :: r in runs ==> runs[r].project in counters && 1 <= runs[r].number <= counters[runs[r].project])
    && (forall p, k, q, r :: HasNumber(runs, p, k, q) && HasNumber(runs, p, k, r) ==> q == r)
    && (forall p, k :: p in counters && 1 <= k <= counters[p] ==> Taken(runs, p, k))
  }

  // ---- Retries ----

  predicate Retryable(status: Status) {
    status.Failed? || status.Cancelled?
  }

  /** A retry points to a finished run of its project with a smaller number and has its branch and stages. */
  ghost predicate LineageOk(runs: map<RunId, Run>, r: RunId)
    requires r in runs
  {
    runs[r].retryOf.Some? ==>
      var src := runs[r].retryOf.value;
      && src in runs && Retryable(runs[src].status)
      && runs[src].project == runs[r].project && runs[src].number < runs[r].number
      && runs[src].branch == runs[r].branch && runs[src].defs == runs[r].defs
  }

  /** What a `retry` call read before its transaction still holds when the transaction runs. */
  ghost predicate TicketOk(runs: map<RunId, Run>, t: Ticket) {
    && t.source in runs && Retryable(runs[t.source].status)
    && runs[t.source].project == t.project && runs[t.source].branch == t.branch && runs[t.source].commit == t.commit
  }

  ghost predicate History(s: State) {
    && Numbered(s.runs, s.counters)
    && (forall r :: r in s.runs ==> LineageOk(s.runs, r))
    && (forall t :: t in s.tickets ==> TicketOk(s.runs, t))
  }

  /** The rows only evolved and no run was added. */
  ghost predicate OnlyEvolved(a: map<RunId, Run>, b: map<RunId, Run>) {
    b.Keys == a.Keys && forall r :: r in a ==> Evolves(a[r], b[r])
  }

  lemma EvolvedNumbers(a: map<RunId, Run>, b: map<RunId, Run>, counters: map<ProjectId, nat>)
    requires OnlyEvolved(a, b) && Numbered(a, counters)
    ensures Numbered(b, counters)
  {
    hide FullListing;
    forall p: ProjectId, k: nat, r: RunId ensures HasNumber(b, p, k, r) <==> HasNumber(a, p, k, r) {
    }
    forall p: ProjectId, k: nat | p in counters && 1 <= k <= counters[p] ensures Taken(b, p, k) {
      assert Taken(a, p, k);
      var r :| HasNumber(a, p, k, r);
      assert HasNumber(b, p, k, r);
    }
  }

  lemma EvolvedLineage(a: map<RunId, Run>, b: map<RunId, Run>, r: RunId)
    requires OnlyEvolved(a, b) && r in a && LineageOk(a, r)
    ensures LineageOk(b, r)
  {
    hide FullListing;
  }

  lemma EvolvedTicket(a: map<RunId, Run>, b: map<RunId, Run>, t: Ticket)
    requires OnlyEvolved(a, b) && TicketOk(a, t)
    ensures TicketOk(b, t)
  {
    hide FullListing;
  }

  lemma InsertKeepsNumbers(runs: map<RunId, Run>, counters: map<ProjectId, nat>, id: RunId, run: Run)
    requires Numbered(runs, counters) && id !in runs && run.number == NextNumber(counters, run.project)
    ensures Numbered(runs[id := run], counters[run.project := run.number])
  {
    var runs', counters' := runs[id := run], counters[run.project := run.number];
    forall p: ProjectId, k: nat, r: RunId | r != id ensures HasNumber(runs', p, k, r) <==> HasNumber(runs, p, k, r) {
    }
    forall p: ProjectId, k: nat | p in counters' && 1 <= k <= counters'[p] ensures Taken(runs', p, k) {
      if p == run.project && k == run.number {
        assert HasNumber(runs', p, k, id);
      } else {
        assert Taken(runs, p, k);
        var r :| HasNumber(runs, p, k, r);
        assert HasNumber(runs', p, k, r);
      }
    }
  }

  lemma InsertKeepsHistory(s: State, id: RunId, p: ProjectId, branch: string, commit: Option<string>,
                           retryOf: Option<RunId>,
                           defs: seq<StageDef>)
    requires History(s) && id !in s.runs
    requires retryOf.Some? ==>
               var src := retryOf.value;
               src in s.runs && Retryable(s.runs[src].status) && s.runs[src].project == p
               && s.runs[src].branch == branch && s.runs[src].defs == defs
    ensures History(Insert(s, id, p, branch, commit, retryOf, defs))
  {
    var s' := Insert(s, id, p, branch, commit, retryOf, defs);
    InsertKeepsNumbers(s.runs, s.counters, id, s'.runs[id]);
    hide Numbered, FreshCells;
    forall r | r in s'.runs ensures LineageOk(s'.runs, r) {
      if r != id {
        assert LineageOk(s.runs, r);
      } else if retryOf.Some? {
        NumbersAreBelowNext(s, retryOf.value);
      }
    }
    forall t | t in s'.tickets ensures TicketOk(s'.runs, t) {
      assert TicketOk(s.runs, t);
    }
  }

  lemma NumbersAreBelowNext(s: State, r: RunId)
    requires Numbered(s.runs, s.counters) && r in s.runs
    ensures s.runs[r].number < NextNumber(s.counters, s.runs[r].project)
  {
  }

  lemma EvolvedHistory(s: State, s': State)
    requires History(s) && OnlyEvolved(s.runs, s'.runs) && s'.counters == s.counters
    requires forall t :: t in s'.tickets ==> t in s.tickets || TicketOk(s.runs, t)
    ensures History(s')
  {
    hide LineageOk, TicketOk, Numbered, OnlyEvolved;
    EvolvedNumbers(s.runs, s'.runs, s.counters);
    forall r | r in s'.runs ensures LineageOk(s'.runs, r) {
      assert s'.runs.Keys == s.runs.Keys by { SameKeys(s.runs, s'.runs); }
      EvolvedLineage(s.runs, s'.runs, r);
    }
    forall t | t in s'.tickets ensures TicketOk(s'.runs, t) {
      EvolvedTicket(s.runs, s'.runs, t);
    }
  }

  lemma SameKeys(a: map<RunId, Run>, b: map<RunId, Run>)
    requires OnlyEvolved(a, b)
    ensures b.Keys == a.Keys
  {
  }

  lemma ApplyKeepsHistory(s: State, ev: Event)
    requires Inv(s) && History(s) && Enabled(s, ev)
    ensures History(Apply(s, ev))
  {
    hide Inv, Step, CanStep, Evolves, CancelUnstarted, LineageOk, Numbered;
    if ev.Create? {
      InsertKeepsHistory(s, ev.id, ev.project, ev.branch, None, None, Configured(s.config, ev.project));
    } else if ev.RetryCommit? {
      assert TicketOk(s.runs, ev.ticket);
      InsertKeepsHistory(s, ev.id, ev.ticket.project, ev.ticket.branch, ev.ticket.commit, Some(ev.ticket.source),
                         s.runs[ev.ticket.source].defs);
    } else {
      var s' := Apply(s, ev);
      if ev.Do? {
        StepFrame(s, ev.e, ev.c);
        StepKeepsKeys(s, ev.e, ev.c);
      }
      forall r | r in s.runs ensures Evolves(s.runs[r], s'.runs[r]) {
        ApplyEvolves(s, ev, r);
      }
      EvolvedHistory(s, s');
    }
  }

  lemma {:induction false} HistoryAfter(s: State, evs: seq<Event>)
    requires Inv(s) && History(s) && Valid(s, evs)
    ensures History(After(s, evs))
    decreases |evs|
  {
    hide Inv, History, Apply, Enabled;
    if evs != [] {
      ApplyKeepsHistory(s, evs[0]);
      ApplyKeepsInv(s, evs[0]);
      HistoryAfter(Apply(s, evs[0]), evs[1..]);
    }
  }

  lemma ReachableHistory(s: State)
    requires Reachable(s)
    ensures History(s)
  {
    var n: nat, evs: seq<Event> :| Valid(Initial(n), evs) && s == After(Initial(n), evs);
    HistoryAfter(Initial(n), evs);
  }

  /** In every reachable state the runs of a project are numbered 1..last_run_number without a gap or a repeat. */
  lemma NumbersAreExact(s: State, p: ProjectId)
    requires Reachable(s) && p in s.counters
    ensures forall k: nat :: 1 <= k <= s.counters[p] <==> Taken(s.runs, p, k)
    ensures forall k: nat, q, r :: HasNumber(s.runs, p, k, q) && HasNumber(s.runs, p, k, r) ==> q == r
  {
    ReachableHistory(s);
    hide Reachable;
  }

  // ---- Names ----

  /** The stages of every configuration and of every run have different names. */
  ghost predicate AllNamesOk(s: State) {
    NamesOk(s.config) && forall r :: r in s.runs ==> DistinctNames(s.runs[r].defs)
  }

  lemma ApplyKeepsNames(s: State, ev: Event)
    requires Inv(s) && AllNamesOk(s) && Enabled(s, ev) && (ev.Put? ==> DistinctNames(ev.defs))
    ensures AllNamesOk(Apply(s, ev))
  {
    hide Inv, Step, CanStep, DistinctNames, CancelUnstarted, FullListing;
    var s' := Apply(s, ev);
    if ev.Do? {
      StepFrame(s, ev.e, ev.c);
      StepKeepsKeys(s, ev.e, ev.c);
    }
    assert DistinctNames([]) by { NoNames(); }
    forall r | r in s'.runs ensures DistinctNames(s'.runs[r].defs) {
      if r in s.runs {
        ApplyEvolves(s, ev, r);
      }
    }
  }

  lemma NoNames()
    ensures DistinctNames([])
  {
  }

  /** As `put` only stores configurations with different names, the stages of every run have different names. */
  lemma {:induction false} NamesStayDistinct(s: State, evs: seq<Event>)
    requires Inv(s) && AllNamesOk(s) && Valid(s, evs)
    requires forall ev :: ev in evs && ev.Put? ==> DistinctNames(ev.defs)
    ensures AllNamesOk(After(s, evs))
    decreases |evs|
  {
    hide Inv, AllNamesOk, Apply, Enabled, DistinctNames;
    if evs != [] {
      assert evs[0] in evs;
      ApplyKeepsNames(s, evs[0]);
      ApplyKeepsInv(s, evs[0]);
      NamesStayDistinct(Apply(s, evs[0]), evs[1..]);
    }
  }

  // ---- Chains of retries ----

  /** The run a chain of retries began with. */
  ghost function Root(runs: map<RunId, Run>, r: RunId): (root: RunId)
    requires r in runs && forall q :: q in runs ==> LineageOk(runs, q)
    ensures root in runs && runs[root].retryOf.None?
    ensures runs[root].project == runs[r].project && runs[root].branch == runs[r].branch
    ensures runs[root].defs == runs[r].defs
    ensures runs[root].number <= runs[r].number
    decreases runs[r].number
  {
    assert LineageOk(runs, r);
    if runs[r].retryOf.None? then r else Root(runs, runs[r].retryOf.value)
  }

  /** Retry chains are well-founded, and every run of a chain has the project, branch and stage
      definitions its root had when it was created, whatever was configured since. */
  lemma RetriesKeepTheSnapshot(s: State, evs: seq<Event>, r: RunId)
    requires Reachable(s) && Valid(s, evs) && r in After(s, evs).runs
    ensures forall q :: q in After(s, evs).runs ==> LineageOk(After(s, evs).runs, q)
    ensures var later := After(s, evs).runs;
            var root := Root(later, r);
            && later[root].retryOf.None? && later[r].branch == later[root].branch && later[r].defs == later[root].defs
            && (root in s.runs ==> s.runs[root].defs == later[r].defs && s.runs[root].branch == later[r].branch)
  {
    ReachableInv(s);
    ReachableHistory(s);
    HistoryAfter(s, evs);
    hide Reachable, Inv, FullListing;
    var root := Root(After(s, evs).runs, r);
    if root in s.runs {
      RunsEvolve(s, evs, root);
    }
  }

  /** The transaction of a retry: whatever happened since the check outside it, the new run copies the
      source's present branch, commit and stages, gets the next number, and starts from `enabled` alone. */
  lemma RetryCopiesItsSource(s: State, t: Ticket, id: RunId)
    requires Reachable(s) && Enabled(s, RetryCommit(t, id))
    ensures var src, run := s.runs[t.source], Apply(s, RetryCommit(t, id)).runs[id];
            && (src.status == Failed || src.status == Cancelled)
            && run.project == src.project && run.branch == src.branch && run.commit == src.commit
            && run.defs == src.defs
            && run.retryOf == Some(t.source) && run.number == NextNumber(s.counters, src.project) > src.number
            && run.status == Pending && run.cells == FreshCells(src.defs)
            && |run.cells| == |src.defs|
            && forall i :: 0 <= i < |src.defs| ==>
                             run.cells[i] == Cell(if src.defs[i].enabled then Pending else Skipped, [], false)
  {
    ReachableHistory(s);
    hide Reachable;
    assert TicketOk(s.runs, t);
    NumbersAreBelowNext(s, t.source);
  }

  /** `create`: one new row, with the next number of its project, the branch asked for, and a stage row for every
      configured stage, which is pending if it is enabled and skipped if not; nothing else changes. */
  lemma CreateTakesTheConfiguration(s: State, id: RunId, p: ProjectId, branch: string)
    requires Enabled(s, Create(id, p, branch))
    ensures var s' := Apply(s, Create(id, p, branch));
            var stages := if p in s.config then s.config[p] else [];
            var number := if p in s.counters then s.counters[p] + 1 else 1;
            && id !in s.runs && id in s'.runs && s'.counters == s.counters[p := number]
            && s' == s.(runs := s.runs[id := s'.runs[id]], counters := s'.counters)
            && var run := s'.runs[id];
            && run.project == p && run.number == number && run.branch == branch
            && run.commit == None && run.retryOf == None && run.status == Pending
            && run.defs == stages && |run.cells| == |stages| && run.owner == None && run.spawned == []
            && forall i :: 0 <= i < |stages| ==>
                             run.cells[i] == Cell(if stages[i].enabled then Pending else Skipped, [], false)
  {
  }

  // ---- Reading the log of a live run ----

  /** The listing of a run after each of several stretches of events. */
  ghost function ListingsRead(s: State, stretches: seq<seq<Event>>, r: RunId): seq<seq<Entry>>
    requires ValidStretches(s, stretches) && r in s.runs && Inv(s)
    decreases |stretches|
  {
    if stretches == [] then []
    else
      InvAfter(s, stretches[0]); RunsEvolve(s, stretches[0], r);
      var s' := After(s, stretches[0]);
      [FullListing(s'.runs[r])] + ListingsRead(s', stretches[1..], r)
  }

  ghost predicate ValidStretches(s: State, stretches: seq<seq<Event>>)
    decreases |stretches|
  {
    stretches == [] || (Valid(s, stretches[0]) && ValidStretches(After(s, stretches[0]), stretches[1..]))
  }

  lemma {:induction false} ListingsOnlyGrow(s: State, stretches: seq<seq<Event>>, r: RunId)
    requires Inv(s) && ValidStretches(s, stretches) && r in s.runs
    ensures var ls := ListingsRead(s, stretches, r);
            && |ls| == |stretches|
            && (ls != [] ==> FullListing(s.runs[r]) <= ls[0])
            && forall j :: 0 <= j < |ls| - 1 ==> ls[j] <= ls[j + 1]
    decreases |stretches|
  {
    hide Inv, FullListing, Valid, After;
    if stretches != [] {
      InvAfter(s, stretches[0]);
      RunsEvolve(s, stretches[0], r);
      ListingsOnlyGrow(After(s, stretches[0]), stretches[1..], r);
    }
  }

  /** Paging by offset through the log of a run while it executes, with anything happening between the
      requests: no row is read twice or missed, and rows come in the order of the final listing. */
  lemma LivePagingIsExact(s: State, stretches: seq<seq<Event>>, r: RunId, limit: nat)
    requires Reachable(s) && ValidStretches(s, stretches) && r in s.runs && stretches != []
    ensures Inv(s)
    ensures var ls := ListingsRead(s, stretches, r);
            && ls != []
            && var last := ls[|ls| - 1];
            var before := ReadAll(ls[..|ls| - 1], limit);
            && ReadAll(ls, limit) <= last
            && (|Page(last, limit, |before|)| < limit ==> ReadAll(ls, limit) == last)
  {
    ReachableInv(s);
    hide Reachable, Inv, ListingsRead, ValidStretches, ReadAll, Page;
    ListingsOnlyGrow(s, stretches, r);
    PagingIsExact(ListingsRead(s, stretches, r), limit);
  }
}
