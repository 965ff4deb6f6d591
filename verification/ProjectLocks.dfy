/** The per-project lock table of the engine: a map of weak references to one-permit semaphores,
    pruned whenever somebody asks for a lock. The point of the module is that this table, whose
    semaphores come and go, cannot be told apart from one permanent mutex for every project. */
module ProjectLocks {
  type ProjectId = nat
  type Actor = nat
  type LockId = nat

  /** A live strong reference: `acquire_owned` keeps one while it waits, the permit keeps one while it is held. */
  datatype Handle = Handle(project: ProjectId, lock: LockId, holds: bool)

  /** entries: the weak references, by project. permits: free permits of every semaphore ever allocated.
      refs: who holds a strong reference to what. */
  datatype LockTable = LockTable(entries: map<ProjectId, LockId>, permits: seq<nat>, refs: map<Actor, Handle>)

  const EmptyTable := LockTable(map[], [], map[])

  /** A semaphore's strong count is positive. */
  predicate Live(refs: map<Actor, Handle>, lock: LockId) {
    exists a :: a in refs && refs[a].lock == lock
  }

  /** `retain(|_, lock| lock.strong_count() > 0)` */
  function Pruned(t: LockTable): map<ProjectId, LockId> {
    map p | p in t.entries && Live(t.refs, t.entries[p]) :: t.entries[p]
  }

  /** The mutex section of `project_permit`, first half: prune, then keep the entry or install a new semaphore. */
  function Installed(t: LockTable, p: ProjectId): (t': LockTable)
    ensures p in t'.entries && t'.refs == t.refs
  {
    var kept := Pruned(t);
    if p in kept then t.(entries := kept)
    else t.(entries := kept[p := |t.permits|], permits := t.permits + [1])
  }

  /** Second half: the caller takes a strong reference to the semaphore of the entry. */
  function Take(t: LockTable, p: ProjectId, a: Actor): LockTable {
    var t' := Installed(t, p);
    t'.(refs := t.refs[a := Handle(p, t'.entries[p], false)])
  }

  predicate Waits(t: LockTable, a: Actor) {
    a in t.refs && !t.refs[a].holds
  }

  predicate Holds(t: LockTable, a: Actor) {
    a in t.refs && t.refs[a].holds
  }

  predicate CanAcquire(t: LockTable, a: Actor) {
    Waits(t, a) && t.refs[a].lock < |t.permits| && t.permits[t.refs[a].lock] > 0
  }

  function Acquire(t: LockTable, a: Actor): LockTable
    requires CanAcquire(t, a)
  {
    var h := t.refs[a];
    t.(permits := t.permits[h.lock := t.permits[h.lock] - 1], refs := t.refs[a := h.(holds := true)])
  }

  /** Dropping an owned permit returns it and then gives up the strong reference. */
  function Release(t: LockTable, a: Actor): LockTable
    requires Holds(t, a) && t.refs[a].lock < |t.permits|
  {
    var h := t.refs[a];
    t.(permits := t.permits[h.lock := t.permits[h.lock] + 1], refs := t.refs - {a})
  }

  /** No two projects share a semaphore. */
  ghost predicate Separate(entries: map<ProjectId, LockId>, bound: nat) {
    && (forall p :: p in entries ==> entries[p] < bound)
    && (forall p, q :: p in entries && q in entries && entries[p] == entries[q] ==> p == q)
  }

  /** Every strong reference is to the semaphore its project's entry upgrades to. */
  ghost predicate Upgrades(entries: map<ProjectId, LockId>, refs: map<Actor, Handle>) {
    forall a :: a in refs ==> refs[a].project in entries && entries[refs[a].project] == refs[a].lock
  }

  ghost predicate HeldBy(refs: map<Actor, Handle>, l: LockId, a: Actor) {
    a in refs && refs[a].holds && refs[a].lock == l
  }

  ghost predicate InUse(refs: map<Actor, Handle>, l: LockId) {
    exists a :: HeldBy(refs, l, a)
  }

  /** A semaphore has its one permit exactly when nobody holds it, and at most one actor ever does. */
  ghost predicate Counted(permits: seq<nat>, refs: map<Actor, Handle>) {
    && (forall l: LockId, a: Actor, b: Actor :: HeldBy(refs, l, a) && HeldBy(refs, l, b) ==> a == b)
    && (forall l: LockId, a: Actor :: HeldBy(refs, l, a) ==> l < |permits|)
    && (forall l: LockId :: l < |permits| ==> permits[l] == if InUse(refs, l) then 0 else 1)
  }

  ghost predicate Inv(t: LockTable) {
    Separate(t.entries, |t.permits|) && Upgrades(t.entries, t.refs) && Counted(t.permits, t.refs)
  }

  lemma InstallKeepsInv(t: LockTable, p: ProjectId)
    requires Inv(t)
    ensures Inv(Installed(t, p))
  {
    var t' := Installed(t, p);
    forall b | b in t.refs ensures t.refs[b].project in Pruned(t) {
      assert Live(t.refs, t.refs[b].lock);
    }
    assert Upgrades(t'.entries, t.refs);
    assert Separate(t'.entries, |t'.permits|);
    if p !in Pruned(t) {
      AllocateKeepsCount(t.permits, t.refs);
    }
  }

  lemma AllocateKeepsCount(permits: seq<nat>, refs: map<Actor, Handle>)
    requires Counted(permits, refs)
    ensures Counted(permits + [1], refs)
  {
  }

  lemma TakeKeepsInv(t: LockTable, p: ProjectId, a: Actor)
    requires Inv(t) && a !in t.refs
    ensures Inv(Take(t, p, a))
  {
    InstallKeepsInv(t, p);
    var t0 := Installed(t, p);
    WaitKeepsCount(t0.permits, t.refs, a, Handle(p, t0.entries[p], false));
  }

  /** Seen from the references, taking a lock adds a waiting one. */
  lemma TakeAddsWaiter(t: LockTable, p: ProjectId, a: Actor)
    ensures a in Take(t, p, a).refs && Take(t, p, a).refs[a].project == p && !Take(t, p, a).refs[a].holds
    ensures Take(t, p, a).refs == t.refs[a := Take(t, p, a).refs[a]]
  {
  }

  lemma WaitKeepsCount(permits: seq<nat>, refs: map<Actor, Handle>, a: Actor, h: Handle)
    requires Counted(permits, refs) && a !in refs && !h.holds
    ensures Counted(permits, refs[a := h])
  {
    var refs' := refs[a := h];
    forall l: LockId, b: Actor ensures HeldBy(refs', l, b) <==> HeldBy(refs, l, b) {
    }
    forall l: LockId | l < |permits| ensures InUse(refs', l) <==> InUse(refs, l) {
    }
  }

  /** The map does not outgrow the references: after the mutex section every entry has a holder or a waiter. */
  lemma TakePrunes(t: LockTable, p: ProjectId, a: Actor)
    requires Inv(t) && a !in t.refs
    ensures var t' := Take(t, p, a);
            forall q :: q in t'.entries ==> exists b :: b in t'.refs && t'.refs[b].lock == t'.entries[q]
  {
    var t' := Take(t, p, a);
    forall q | q in t'.entries ensures exists b :: b in t'.refs && t'.refs[b].lock == t'.entries[q] {
      if q == p {
        assert t'.refs[a].lock == t'.entries[q];
      } else {
        var b :| b in t.refs && t.refs[b].lock == t.entries[q];
        assert t'.refs[b] == t.refs[b];
      }
    }
  }

  lemma AcquireKeepsInv(t: LockTable, a: Actor)
    requires Inv(t) && CanAcquire(t, a)
    ensures Inv(Acquire(t, a))
  {
    var h := t.refs[a];
    var refs := t.refs[a := h.(holds := true)];
    assert Upgrades(t.entries, refs);
    assert HeldBy(refs, h.lock, a);
    assert forall l: LockId, b: Actor :: b != a ==> (HeldBy(refs, l, b) <==> HeldBy(t.refs, l, b));
    assert Counted(Acquire(t, a).permits, refs);
  }

  lemma ReleaseKeepsInv(t: LockTable, a: Actor)
    requires Inv(t) && Holds(t, a)
    ensures t.refs[a].lock < |t.permits| && Inv(Release(t, a))
  {
    var h := t.refs[a];
    var refs := t.refs - {a};
    assert HeldBy(t.refs, h.lock, a);
    assert Upgrades(t.entries, refs);
    assert forall l: LockId, b: Actor :: HeldBy(refs, l, b) <==> b != a && HeldBy(t.refs, l, b);
    assert Counted(Release(t, a).permits, refs);
  }

  // ---- The permanent mutexes the table stands for ----

  /** One mutex per project, there from the beginning and for ever: who queues and who is inside. */
  datatype Mutexes = Mutexes(queued: map<Actor, ProjectId>, inside: map<Actor, ProjectId>)

  ghost predicate Free(m: Mutexes, p: ProjectId) {
    forall b :: b in m.inside ==> m.inside[b] != p
  }

  function Queue(m: Mutexes, p: ProjectId, a: Actor): Mutexes {
    m.(queued := m.queued[a := p])
  }

  ghost predicate CanEnter(m: Mutexes, a: Actor) {
    a in m.queued && Free(m, m.queued[a])
  }

  function Enter(m: Mutexes, a: Actor): Mutexes
    requires a in m.queued
  {
    Mutexes(m.queued - {a}, m.inside[a := m.queued[a]])
  }

  function Exit(m: Mutexes, a: Actor): Mutexes {
    m.(inside := m.inside - {a})
  }

  /** The projects of the references that hold, or do not hold, their permit. */
  ghost function Projects(refs: map<Actor, Handle>, holds: bool): map<Actor, ProjectId> {
    map a | a in refs && refs[a].holds == holds :: refs[a].project
  }

  /** What a lock table looks like from outside. */
  ghost function View(t: LockTable): Mutexes {
    Mutexes(Projects(t.refs, false), Projects(t.refs, true))
  }

  lemma SetReference(refs: map<Actor, Handle>, a: Actor, h: Handle)
    ensures Projects(refs[a := h], h.holds) == Projects(refs, h.holds)[a := h.project]
    ensures Projects(refs[a := h], !h.holds) == Projects(refs, !h.holds) - {a}
  {
  }

  lemma DropReference(refs: map<Actor, Handle>, a: Actor, holds: bool)
    ensures Projects(refs - {a}, holds) == Projects(refs, holds) - {a}
  {
  }

  /** Two references of one project are to one semaphore, and two of different projects never are. */
  lemma OneSemaphorePerProject(t: LockTable, a: Actor, b: Actor)
    requires Inv(t) && a in t.refs && b in t.refs
    ensures t.refs[a].project == t.refs[b].project <==> t.refs[a].lock == t.refs[b].lock
  {
  }

  lemma TakeRefinesQueue(t: LockTable, p: ProjectId, a: Actor)
    requires Inv(t) && a !in t.refs
    ensures View(Take(t, p, a)) == Queue(View(t), p, a)
  {
    SetReference(t.refs, a, Handle(p, Installed(t, p).entries[p], false));
    assert a !in Projects(t.refs, true);
  }

  /** A waiter can take the semaphore exactly when the project's permanent mutex is free, and then enters it. */
  lemma AcquireRefinesEnter(t: LockTable, a: Actor)
    requires Inv(t)
    ensures CanAcquire(t, a) <==> CanEnter(View(t), a)
    ensures CanAcquire(t, a) ==> View(Acquire(t, a)) == Enter(View(t), a)
  {
    if Waits(t, a) {
      AcquirableWhenFree(t, a);
      if CanAcquire(t, a) {
        var h := t.refs[a];
        SetReference(t.refs, a, h.(holds := true));
      }
    }
  }

  lemma AcquirableWhenFree(t: LockTable, a: Actor)
    requires Inv(t) && Waits(t, a)
    ensures CanAcquire(t, a) <==> Free(View(t), t.refs[a].project)
  {
    var m := View(t);
    var p := t.refs[a].project;
    assert t.refs[a].lock < |t.permits|;
    if !CanAcquire(t, a) {
      var b :| HeldBy(t.refs, t.refs[a].lock, b);
      OneSemaphorePerProject(t, a, b);
      assert b in m.inside && m.inside[b] == p;
    } else {
      forall b | b in m.inside ensures m.inside[b] != p {
        OneSemaphorePerProject(t, a, b);
        assert HeldBy(t.refs, t.refs[b].lock, b);
      }
    }
  }

  lemma ReleaseRefinesExit(t: LockTable, a: Actor)
    requires Inv(t) && Holds(t, a)
    ensures t.refs[a].lock < |t.permits| && View(Release(t, a)) == Exit(View(t), a)
  {
    assert HeldBy(t.refs, t.refs[a].lock, a);
    DropReference(t.refs, a, true);
    DropReference(t.refs, a, false);
    assert a !in Projects(t.refs, false);
  }

  /** Mutual exclusion: no two actors are inside one project. */
  lemma MutualExclusion(t: LockTable, a: Actor, b: Actor)
    requires Inv(t) && Holds(t, a) && Holds(t, b) && t.refs[a].project == t.refs[b].project
    ensures a == b
  {
    OneSemaphorePerProject(t, a, b);
    assert HeldBy(t.refs, t.refs[a].lock, a) && HeldBy(t.refs, t.refs[a].lock, b);
  }

  /** If nobody is inside a waiter's project, the waiter can go in. */
  lemma FreeProjectAdmits(t: LockTable, a: Actor)
    requires Inv(t) && Waits(t, a)
    requires forall b :: Holds(t, b) ==> t.refs[b].project != t.refs[a].project
    ensures CanAcquire(t, a)
  {
    AcquirableWhenFree(t, a);
    assert forall b :: b in View(t).inside ==> Holds(t, b);
  }
}
