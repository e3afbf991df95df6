/**
 What every reachable state of the scheduler keeps about its books: firings of a task never
 overlap, the pending counts are exact, version entries exist only while they are needed,
 and a captured version is out of date exactly when it is behind the current one.
 */
module SchedulerBooks {
  import opened Wrappers
  import opened Scheduler
  import opened SchedulerSteps

  function SpawnedOf(procs: map<Pid, Proc>, id: Id): set<Pid> {
    set p | p in procs && procs[p].spawned && procs[p].task == id
  }

  ghost predicate Fresh(s: State) {
    forall p :: p in s.procs ==> p < s.nextPid
  }

  ghost predicate LockOk(s: State) {
    && (forall p :: p in s.procs && Holds(s.procs[p].pc) ==> s.lock == Firing(p))
    && (s.lock.Firing? ==> s.lock.pid in s.procs && Holds(s.procs[s.lock.pid].pc))
  }

  /** The firing set names the tasks of the processes inside a firing, one process each. */
  ghost predicate FiringOk(s: State) {
    && (forall p :: p in s.procs && Inside(s.procs[p].pc) ==> s.procs[p].task in s.books.firing)
    && (forall p, q ::
          p in s.procs && q in s.procs && Inside(s.procs[p].pc) && Inside(s.procs[q].pc)
              && s.procs[p].task == s.procs[q].task
          ==> p == q)
    && (forall id :: id in s.books.firing ==>
          exists p :: p in s.procs && Inside(s.procs[p].pc) && s.procs[p].task == id)
    && (forall p :: p in s.procs && !s.procs[p].spawned ==> Inside(s.procs[p].pc))
  }

  ghost predicate PendingOk(s: State) {
    && (forall id :: Owed(s.books, id) == |SpawnedOf(s.procs, id)|)
    && (forall id :: id in s.books.pending ==> s.books.pending[id] > 0)
  }

  ghost predicate VersionsOk(s: State) {
    && (forall id :: id in s.books.versions ==> id in s.books.firing || id in s.books.pending)
    && (forall p :: p in s.procs && s.procs[p].pc != After ==>
          s.procs[p].version <= Version(s.books, s.procs[p].task)
          && (s.procs[p].stale <==> s.procs[p].version < Version(s.books, s.procs[p].task)))
  }

  ghost predicate BooksOk(s: State) {
    Fresh(s) && LockOk(s) && FiringOk(s) && PendingOk(s) && VersionsOk(s)
  }

  // ---- Changes of one process ----------------------------------------------------------

  lemma SameSpawned(procs: map<Pid, Proc>, procs': map<Pid, Proc>)
    requires procs.Keys == procs'.Keys
    requires forall p :: p in procs ==> procs'[p].spawned == procs[p].spawned && procs'[p].task == procs[p].task
    ensures forall id :: SpawnedOf(procs', id) == SpawnedOf(procs, id)
  {
    forall id ensures SpawnedOf(procs', id) == SpawnedOf(procs, id) {
      assert forall p :: p in SpawnedOf(procs', id) <==> p in SpawnedOf(procs, id);
    }
  }

  lemma SpawnedWith(procs: map<Pid, Proc>, p: Pid, q: Proc, id: Id)
    requires p !in procs
    ensures SpawnedOf(procs[p := q], id) == if q.spawned && q.task == id then SpawnedOf(procs, id) + {p}
            else SpawnedOf(procs, id)
  {
  }

  lemma AddedSpawned(procs: map<Pid, Proc>, p: Pid, q: Proc, procs': map<Pid, Proc>)
    requires p !in procs && procs' == procs[p := q]
    ensures forall id :: |SpawnedOf(procs', id)| == |SpawnedOf(procs, id)| + if q.spawned && q.task == id then 1 else 0
  {
    forall id ensures |SpawnedOf(procs', id)| == |SpawnedOf(procs, id)| + if q.spawned && q.task == id then 1 else 0 {
      SpawnedWith(procs, p, q, id);
      assert p !in SpawnedOf(procs, id);
    }
  }

  lemma DroppedSpawned(procs: map<Pid, Proc>, p: Pid, procs': map<Pid, Proc>)
    requires p in procs && procs' == procs - {p}
    ensures forall id ::
              |SpawnedOf(procs', id)|
              == |SpawnedOf(procs, id)| - if procs[p].spawned && procs[p].task == id then 1 else 0
  {
    forall id
      ensures |SpawnedOf(procs', id)|
              == |SpawnedOf(procs, id)| - if procs[p].spawned && procs[p].task == id then 1 else 0
    {
      assert SpawnedOf(procs', id) == SpawnedOf(procs, id) - if procs[p].spawned && procs[p].task == id then {p}
             else {};
    }
  }

  /** One process changes phase; its capture is as it was. */
  ghost predicate Moves(s: State, p: Pid, pc: Pc, s': State) {
    p in s.procs && s'.procs == s.procs[p := s.procs[p].(pc := pc)] && s'.nextPid == s.nextPid
  }

  lemma MovesLock(s: State, p: Pid, pc: Pc, s': State)
    requires Fresh(s) && LockOk(s) && Moves(s, p, pc, s')
    requires s'.lock == if Holds(pc) then Firing(p) else if Holds(s.procs[p].pc) then Free else s.lock
    requires Holds(pc) ==> s.lock == Free || s.lock == Firing(p)
    ensures Fresh(s') && LockOk(s')
  {
    forall q | q in s'.procs && Holds(s'.procs[q].pc) ensures s'.lock == Firing(q) {
      assert q != p ==> s'.procs[q] == s.procs[q];
    }
  }

  lemma MovesPending(s: State, p: Pid, pc: Pc, s': State)
    requires PendingOk(s) && Moves(s, p, pc, s') && s'.books.pending == s.books.pending
    ensures PendingOk(s')
  {
    SameSpawned(s.procs, s'.procs);
    assert forall id :: Owed(s'.books, id) == Owed(s.books, id);
  }

  lemma MovesVersions(s: State, p: Pid, pc: Pc, s': State)
    requires VersionsOk(s) && Moves(s, p, pc, s') && s.procs[p].pc != After
    requires s'.books.pending == s.books.pending && s'.books.versions == s.books.versions
             && s.books.firing <= s'.books.firing
    ensures VersionsOk(s')
  {
    assert forall id :: Version(s'.books, id) == Version(s.books, id);
    forall q | q in s'.procs && s'.procs[q].pc != After
      ensures q in s.procs && s.procs[q].pc != After && s'.procs[q] == s.procs[q].(pc := s'.procs[q].pc)
    {
    }
  }

  lemma MovesFiring(s: State, p: Pid, pc: Pc, s': State)
    requires FiringOk(s) && Moves(s, p, pc, s') && Inside(s.procs[p].pc) && Inside(pc)
             && s'.books.firing == s.books.firing
    ensures FiringOk(s')
  {
    forall id | id in s'.books.firing
      ensures exists q :: q in s'.procs && Inside(s'.procs[q].pc) && s'.procs[q].task == id {
      var q :| q in s.procs && Inside(s.procs[q].pc) && s.procs[q].task == id;
      assert q in s'.procs && s'.procs[q].task == id;
    }
  }

  /** A step that only moves a process on, inside its firing, and hands the lock over. */
  lemma Moved(s: State, p: Pid, pc: Pc, s': State)
    requires BooksOk(s) && Moves(s, p, pc, s') && Inside(s.procs[p].pc) && Inside(pc) && s'.books == s.books
    requires s'.lock == if Holds(pc) then Firing(p) else if Holds(s.procs[p].pc) then Free else s.lock
    requires Holds(pc) ==> s.lock == Free || s.lock == Firing(p)
    ensures BooksOk(s')
  {
    MovesLock(s, p, pc, s');
    MovesFiring(s, p, pc, s');
    MovesPending(s, p, pc, s');
    MovesVersions(s, p, pc, s');
  }

  /** The state after process `p` ends its firing, as far as the books are concerned. */
  ghost predicate Leaves(s: State, p: Pid, s': State) {
    && p in s.procs && Inside(s.procs[p].pc)
    && s'.procs == Leave(s, p).procs && s'.books == Left(s.books, s.procs[p].task) && s'.nextPid == s.nextPid
    && s'.lock == if Holds(s.procs[p].pc) then Free else s.lock
  }

  lemma LeavesOthers(s: State, p: Pid, s': State)
    requires Leaves(s, p, s')
    ensures forall q :: q in s'.procs ==> q in s.procs
    ensures forall q :: q in s.procs && q != p ==> q in s'.procs && s'.procs[q] == s.procs[q]
    ensures p in s'.procs <==> s.procs[p].spawned
    ensures p in s'.procs ==> s'.procs[p] == s.procs[p].(pc := After)
  {
  }

  lemma LeavesLock(s: State, p: Pid, s': State)
    requires Fresh(s) && LockOk(s) && Leaves(s, p, s')
    ensures Fresh(s') && LockOk(s')
  {
    LeavesOthers(s, p, s');
  }

  lemma LeavesFiring(s: State, p: Pid, s': State)
    requires FiringOk(s) && Leaves(s, p, s')
    ensures FiringOk(s')
  {
    LeavesOthers(s, p, s');
    forall id | id in s'.books.firing
      ensures exists q :: q in s'.procs && Inside(s'.procs[q].pc) && s'.procs[q].task == id {
      var q :| q in s.procs && Inside(s.procs[q].pc) && s.procs[q].task == id;
      assert q != p;
    }
  }

  lemma LeavesPending(s: State, p: Pid, s': State)
    requires PendingOk(s) && Leaves(s, p, s')
    ensures PendingOk(s')
  {
    if s.procs[p].spawned {
      SameSpawned(s.procs, s'.procs);
    } else {
      DroppedSpawned(s.procs, p, s'.procs);
    }
  }

  /** A task with another process waiting to fire is still owed firings. */
  lemma OthersPending(s: State, p: Pid, q: Pid)
    requires FiringOk(s) && PendingOk(s) && p in s.procs && Inside(s.procs[p].pc)
    requires q in s.procs && q != p && s.procs[q].pc != After && s.procs[q].task == s.procs[p].task
    ensures s.procs[p].task in s.books.pending
  {
    assert q in SpawnedOf(s.procs, s.procs[p].task);
  }

  lemma LeavesVersions(s: State, p: Pid, s': State)
    requires FiringOk(s) && PendingOk(s) && VersionsOk(s) && Leaves(s, p, s')
    ensures VersionsOk(s')
  {
    LeavesOthers(s, p, s');
    forall q | q in s'.procs && s'.procs[q].pc != After
      ensures Version(s'.books, s.procs[q].task) == Version(s.books, s.procs[q].task)
    {
      if s.procs[q].task == s.procs[p].task {
        OthersPending(s, p, q);
      }
    }
  }

  /** Ending a firing frees its task, and its version once nothing else needs it. */
  lemma LeavesKeeps(s: State, p: Pid, s': State)
    requires BooksOk(s) && Leaves(s, p, s')
    ensures BooksOk(s')
  {
    LeavesLock(s, p, s');
    LeavesFiring(s, p, s');
    LeavesPending(s, p, s');
    LeavesVersions(s, p, s');
  }

  /** The state after the done-callback of `p`. */
  ghost predicate Ends(s: State, p: Pid, s': State) {
    && p in s.procs && s.procs[p].pc == After && s.procs[p].spawned
    && s'.procs == s.procs - {p} && s'.books == Discarded(s.books, s.procs[p].task)
    && s'.lock == s.lock && s'.nextPid == s.nextPid
  }

  lemma EndsLock(s: State, p: Pid, s': State)
    requires Fresh(s) && LockOk(s) && Ends(s, p, s')
    ensures Fresh(s') && LockOk(s')
  {
  }

  lemma EndsFiring(s: State, p: Pid, s': State)
    requires FiringOk(s) && Ends(s, p, s')
    ensures FiringOk(s')
  {
    assert s'.books.firing == s.books.firing;
    SameInside(s, s');
  }

  lemma EndsPending(s: State, p: Pid, s': State)
    requires PendingOk(s) && Ends(s, p, s')
    ensures PendingOk(s')
  {
    var id := s.procs[p].task;
    DroppedSpawned(s.procs, p, s'.procs);
    assert p in SpawnedOf(s.procs, id);
    forall i ensures Owed(s'.books, i) == |SpawnedOf(s'.procs, i)| {
      assert Owed(s.books, i) == |SpawnedOf(s.procs, i)|;
    }
  }

  /** While another process of the task is live its version entry stays. */
  lemma EndsVersion(s: State, p: Pid, s': State, q: Pid)
    requires FiringOk(s) && PendingOk(s) && Ends(s, p, s') && q in s.procs && q != p && s.procs[q].pc != After
    ensures Version(s'.books, s.procs[q].task) == Version(s.books, s.procs[q].task)
  {
    if s.procs[q].task == s.procs[p].task && s.procs[p].task !in s.books.firing {
      TwoAtLeast(SpawnedOf(s.procs, s.procs[p].task), p, q);
    }
  }

  lemma EndsVersions(s: State, p: Pid, s': State)
    requires FiringOk(s) && PendingOk(s) && VersionsOk(s) && Ends(s, p, s')
    ensures VersionsOk(s')
  {
    forall q | q in s'.procs && s'.procs[q].pc != After
      ensures q in s.procs && s'.procs[q] == s.procs[q]
              && Version(s'.books, s.procs[q].task) == Version(s.books, s.procs[q].task)
    {
      EndsVersion(s, p, s', q);
    }
  }

  /** The done-callback: the last one of a task drops its version unless it is firing. */
  lemma AfterKeeps(s: State, p: Pid)
    requires BooksOk(s) && p in s.procs && s.procs[p].pc == After
    ensures BooksOk(RunAfter(s, p))
  {
    assert s.procs[p].spawned;
    var s' := RunAfter(s, p);
    EndsLock(s, p, s');
    EndsFiring(s, p, s');
    EndsPending(s, p, s');
    EndsVersions(s, p, s');
  }

  lemma TwoAtLeast(ps: set<Pid>, p: Pid, q: Pid)
    requires p in ps && q in ps && p != q
    ensures |ps| >= 2
  {
    assert |ps - {p}| >= 1 by {
      assert q in ps - {p};
    }
  }

  /** Starting a firing: a process of a stale version, or of a task already firing, stands down. */
  lemma ReadyKeeps(s: State, p: Pid)
    requires BooksOk(s) && p in s.procs && s.procs[p].pc == Ready
    ensures BooksOk(RunReady(s, p))
  {
    if MayEnter(s.books, s.procs[p].task, s.procs[p].version) {
      EnterKeeps(s, p, RunReady(s, p));
    } else {
      EndKeeps(s, p, RunReady(s, p));
    }
  }

  /** A process that has not started, or has been cancelled before it did, just ends. */
  lemma EndKeeps(s: State, p: Pid, s': State)
    requires BooksOk(s) && p in s.procs && s.procs[p].pc == Ready && s' == At(s, p, After)
    ensures BooksOk(s')
  {
    assert Moves(s, p, After, s');
    MovesLock(s, p, After, s');
    EndFiring(s, p, s');
    MovesPending(s, p, After, s');
    MovesVersions(s, p, After, s');
  }

  lemma EndFiring(s: State, p: Pid, s': State)
    requires FiringOk(s) && Moves(s, p, After, s') && s.procs[p].pc == Ready && s'.books.firing == s.books.firing
    ensures FiringOk(s')
  {
    assert s.procs[p].spawned;
    SameInside(s, s');
  }

  /** Processes inside a firing are untouched, and so is the firing set. */
  lemma SameInside(s: State, s': State)
    requires FiringOk(s) && s'.books.firing == s.books.firing
    requires forall q :: q in s.procs && Inside(s.procs[q].pc) ==> q in s'.procs && s'.procs[q] == s.procs[q]
    requires forall q :: q in s'.procs && (Inside(s'.procs[q].pc) || !s'.procs[q].spawned) ==>
               q in s.procs && s'.procs[q] == s.procs[q]
    ensures FiringOk(s')
  {
    forall id | id in s'.books.firing
      ensures exists q :: q in s'.procs && Inside(s'.procs[q].pc) && s'.procs[q].task == id {
      var q :| q in s.procs && Inside(s.procs[q].pc) && s.procs[q].task == id;
      assert q in s'.procs;
    }
  }

  /** One more process is inside, for a task that was not firing. */
  lemma OneInside(s: State, s': State, p: Pid)
    requires FiringOk(s) && p in s'.procs && Inside(s'.procs[p].pc)
    requires s'.procs[p].task !in s.books.firing && s'.books.firing == s.books.firing + {s'.procs[p].task}
    requires p in s.procs ==> !Inside(s.procs[p].pc)
    requires forall q :: q in s.procs && q != p ==> q in s'.procs && s'.procs[q] == s.procs[q]
    requires forall q :: q in s'.procs && q != p ==> q in s.procs
    ensures FiringOk(s')
  {
    forall id | id in s'.books.firing
      ensures exists q :: q in s'.procs && Inside(s'.procs[q].pc) && s'.procs[q].task == id {
      if id in s.books.firing {
        var q :| q in s.procs && Inside(s.procs[q].pc) && s.procs[q].task == id;
        assert q != p && q in s'.procs;
      } else {
        assert s'.procs[p].task == id;
      }
    }
  }

  lemma EnterKeeps(s: State, p: Pid, s': State)
    requires BooksOk(s) && p in s.procs && s.procs[p].pc == Ready
    requires MayEnter(s.books, s.procs[p].task, s.procs[p].version)
    requires s' == At(s.(books := Entered(s.books, s.procs[p].task)), p, WaitMark)
    ensures BooksOk(s')
  {
    assert Moves(s, p, WaitMark, s');
    MovesLock(s, p, WaitMark, s');
    EnterFiring(s, p, s');
    MovesPending(s, p, WaitMark, s');
    MovesVersions(s, p, WaitMark, s');
  }

  lemma EnterFiring(s: State, p: Pid, s': State)
    requires FiringOk(s) && Moves(s, p, WaitMark, s') && s.procs[p].pc == Ready
    requires s.procs[p].task !in s.books.firing && s'.books.firing == s.books.firing + {s.procs[p].task}
    ensures FiringOk(s')
  {
    assert forall q :: q in s.procs && q != p ==> s'.procs[q] == s.procs[q];
    OneInside(s, s', p);
  }

  /** A new process, of whichever kind. */
  ghost predicate Adds(s: State, q: Proc, s': State) {
    && s'.procs == s.procs[s.nextPid := q] && s'.nextPid == s.nextPid + 1 && s'.lock == s.lock
    && s'.books.versions == s.books.versions && q.version == Version(s.books, q.task) && !q.stale && !Holds(q.pc)
  }

  lemma AddsLock(s: State, q: Proc, s': State)
    requires Fresh(s) && LockOk(s) && Adds(s, q, s')
    ensures Fresh(s') && LockOk(s')
  {
  }

  lemma AddsVersions(s: State, q: Proc, s': State)
    requires Fresh(s) && VersionsOk(s) && Adds(s, q, s')
    requires s.books.firing <= s'.books.firing && s.books.pending.Keys <= s'.books.pending.Keys
    ensures VersionsOk(s')
  {
    assert forall id :: Version(s'.books, id) == Version(s.books, id);
  }

  lemma AddsPending(s: State, q: Proc, s': State)
    requires Fresh(s) && PendingOk(s) && Adds(s, q, s')
    requires s'.books.pending == if q.spawned then s.books.pending[q.task := Owed(s.books, q.task) + 1]
             else s.books.pending
    ensures PendingOk(s')
  {
    AddedSpawned(s.procs, s.nextPid, q, s'.procs);
    forall i ensures Owed(s'.books, i) == |SpawnedOf(s'.procs, i)| {
      assert Owed(s.books, i) == |SpawnedOf(s.procs, i)|;
    }
  }

  lemma SpawnKeeps(s: State, id: Id, s': State)
    requires BooksOk(s) && s' == Spawn1(s, id)
    ensures BooksOk(s')
  {
    var q := Proc(id, Version(s.books, id), true, Ready, false);
    assert Adds(s, q, s');
    AddsLock(s, q, s');
    SpawnFiring(s, q, s');
    AddsPending(s, q, s');
    AddsVersions(s, q, s');
  }

  lemma SpawnFiring(s: State, q: Proc, s': State)
    requires Fresh(s) && FiringOk(s) && Adds(s, q, s') && q.spawned && !Inside(q.pc)
             && s'.books.firing == s.books.firing
    ensures FiringOk(s')
  {
    SameInside(s, s');
  }

  lemma TimerFiring(s: State, q: Proc, s': State)
    requires Fresh(s) && FiringOk(s) && Adds(s, q, s') && Inside(q.pc)
    requires q.task !in s.books.firing && s'.books.firing == s.books.firing + {q.task}
    ensures FiringOk(s')
  {
    OneInside(s, s', s.nextPid);
  }

  lemma TimerKeeps(s: State, id: Id, s': State)
    requires BooksOk(s) && s' == Do(s, TimerFire(id))
    ensures BooksOk(s')
  {
    if id !in s.books.firing {
      var q := Proc(id, Version(s.books, id), false, WaitMark, false);
      assert Adds(s, q, s');
      AddsLock(s, q, s');
      TimerFiring(s, q, s');
      AddsPending(s, q, s');
      AddsVersions(s, q, s');
    }
  }

  // ---- Versions go stale ---------------------------------------------------------------

  lemma LiveIsKept(s: State, p: Pid)
    requires FiringOk(s) && PendingOk(s) && p in s.procs && s.procs[p].pc != After
    ensures s.procs[p].task in s.books.firing || s.procs[p].task in s.books.pending
  {
    if s.procs[p].spawned {
      assert p in SpawnedOf(s.procs, s.procs[p].task);
    }
  }

  lemma StaleProcs(s: State, id: Id)
    ensures Stale(s, id).procs.Keys == s.procs.Keys
    ensures forall p :: p in s.procs ==>
              Stale(s, id).procs[p] == s.procs[p].(stale := s.procs[p].stale || s.procs[p].task == id)
  {
  }

  lemma StaleLock(s: State, id: Id)
    requires Fresh(s) && LockOk(s)
    ensures Fresh(Stale(s, id)) && LockOk(Stale(s, id))
  {
    StaleProcs(s, id);
  }

  lemma StalePending(s: State, id: Id)
    requires PendingOk(s)
    ensures PendingOk(Stale(s, id))
  {
    StaleProcs(s, id);
    SameSpawned(s.procs, Stale(s, id).procs);
    assert forall i :: Owed(Stale(s, id).books, i) == Owed(s.books, i);
  }

  lemma StaleKeeps(s: State, id: Id)
    requires BooksOk(s)
    ensures BooksOk(Stale(s, id))
  {
    StaleLock(s, id);
    StaleFiring(s, id);
    StalePending(s, id);
    StaleVersions(s, id);
  }

  lemma StaleFiring(s: State, id: Id)
    requires FiringOk(s)
    ensures FiringOk(Stale(s, id))
  {
    var s' := Stale(s, id);
    forall i | i in s'.books.firing
      ensures exists p :: p in s'.procs && Inside(s'.procs[p].pc) && s'.procs[p].task == i {
      var p :| p in s.procs && Inside(s.procs[p].pc) && s.procs[p].task == i;
      assert p in s'.procs;
    }
  }

  lemma StaleVersion(s: State, id: Id, p: Pid)
    requires FiringOk(s) && PendingOk(s) && VersionsOk(s) && p in s.procs && s.procs[p].pc != After
    ensures var q, b := s.procs[p], Invalidated(s.books, id);
            q.version <= Version(b, q.task) && ((q.stale || q.task == id) <==> q.version < Version(b, q.task))
  {
    LiveIsKept(s, p);
  }

  lemma StaleVersions(s: State, id: Id)
    requires FiringOk(s) && PendingOk(s) && VersionsOk(s)
    ensures VersionsOk(Stale(s, id))
  {
    var s' := Stale(s, id);
    StaleProcs(s, id);
    forall p | p in s'.procs && s'.procs[p].pc != After
      ensures s'.procs[p].version <= Version(s'.books, s'.procs[p].task)
      ensures s'.procs[p].stale <==> s'.procs[p].version < Version(s'.books, s'.procs[p].task)
    {
      StaleVersion(s, id, p);
    }
  }

  // ---- Every step keeps the books ------------------------------------------------------

  /** The books do not depend on the rows. */
  lemma SameBooks(s: State, s': State)
    requires BooksOk(s) && s'.procs == s.procs && s'.books == s.books && s'.nextPid == s.nextPid
    requires s'.lock == s.lock || (!s'.lock.Firing? && !s.lock.Firing?)
    ensures BooksOk(s')
  {
  }

  lemma BeginKeeps(s: State, op: AdminOp)
    requires BooksOk(s) && s.lock == Free
    ensures BooksOk(BeginStep(s, op))
  {
    var s' := s.(lock := Admin(op));
    SameBooks(s, s');
    StaleKeeps(s', op.id);
    StaleKeeps(Stale(s', op.id), op.id);
  }

  lemma CommitKeeps(s: State, cut: bool)
    requires BooksOk(s) && s.lock.Admin? && s.lock.op.id in s.rows
    ensures BooksOk(CommitStep(s, cut))
  {
    var id := s.lock.op.id;
    if s.lock.op.Trigger? && !Exhausted(s.rows[id]) && !cut {
      var s' := SetRow(Unlock(s), id, Triggered(s.rows[id]));
      SameBooks(s, s');
      SpawnKeeps(s', id, CommitStep(s, cut));
    } else {
      SameBooks(s, CommitStep(s, cut));
    }
  }

  lemma RunMarkKeeps(s: State, p: Pid)
    requires BooksOk(s) && p in s.procs && s.procs[p].pc == InMark
    ensures BooksOk(RunMark(s, p))
  {
    if s.procs[p].task in s.rows && Markable(s.rows[s.procs[p].task]) {
      Moved(s, p, Starting, RunMark(s, p));
    } else {
      LeavesKeeps(s, p, RunMark(s, p));
    }
  }

  lemma RunStartingKeeps(s: State, p: Pid, outcome: Outcome)
    requires BooksOk(s) && p in s.procs && s.procs[p].pc == Starting
    ensures BooksOk(RunStarting(s, p, outcome))
  {
    if Version(s.books, s.procs[p].task) != s.procs[p].version {
      LeavesKeeps(s, p, RunStarting(s, p, outcome));
    } else {
      Moved(s, p, match outcome case Good => Dispatching case Busy => WaitYield case Bad => WaitCount(true),
            RunStarting(s, p, outcome));
    }
  }

  lemma RunAcquireKeeps(s: State, p: Pid)
    requires BooksOk(s) && CanRun(s, p) && Awaits(s.procs[p].pc)
    ensures BooksOk(RunAcquire(s, p))
  {
    Moved(s, p, RunAcquire(s, p).procs[p].pc, RunAcquire(s, p));
  }

  lemma RunDispatchingKeeps(s: State, p: Pid, outcome: Outcome)
    requires BooksOk(s) && p in s.procs && s.procs[p].pc == Dispatching
    ensures BooksOk(RunDispatching(s, p, outcome))
  {
    Moved(s, p, match outcome case Good => Stamping case Busy => WaitDefer case Bad => WaitCount(true),
          RunDispatching(s, p, outcome));
  }

  lemma RunRescheduleKeeps(s: State, p: Pid)
    requires BooksOk(s) && p in s.procs && (s.procs[p].pc == InYield || s.procs[p].pc == InDefer)
    ensures BooksOk(RunReschedule(s, p))
  {
    LeavesKeeps(s, p, RunReschedule(s, p));
  }

  lemma RunCountKeeps(s: State, p: Pid)
    requires BooksOk(s) && p in s.procs && s.procs[p].pc.InCount?
    ensures BooksOk(RunCount(s, p))
  {
    LeavesKeeps(s, p, RunCount(s, p));
  }

  lemma RunRestoreKeeps(s: State, p: Pid)
    requires BooksOk(s) && p in s.procs && s.procs[p].pc == InRestore
    ensures BooksOk(RunRestore(s, p))
  {
    LeavesKeeps(s, p, RunRestore(s, p));
  }

  lemma RunKeeps(s: State, p: Pid, outcome: Outcome)
    requires BooksOk(s) && CanRun(s, p)
    ensures BooksOk(RunStep(s, p, outcome))
  {
    match s.procs[p].pc
    case Ready => ReadyKeeps(s, p);
    case After => AfterKeeps(s, p);
    case InMark => RunMarkKeeps(s, p);
    case Starting => RunStartingKeeps(s, p, outcome);
    case Dispatching => RunDispatchingKeeps(s, p, outcome);
    case Stamping => Moved(s, p, WaitCount(false), RunStep(s, p, outcome));
    case InYield => RunRescheduleKeeps(s, p);
    case InDefer => RunRescheduleKeeps(s, p);
    case InCount(_) => RunCountKeeps(s, p);
    case InRestore => RunRestoreKeeps(s, p);
    case _ => RunAcquireKeeps(s, p);
  }

  lemma CancelInside(s: State, p: Pid)
    requires BooksOk(s) && p in s.procs && Inside(s.procs[p].pc) && s.procs[p].pc !in {WaitRestore, InRestore}
    ensures BooksOk(CancelStep(s, p))
  {
    var s' := CancelStep(s, p);
    assert s'.procs == At(s, p, WaitRestore).procs && s'.books == s.books && s'.nextPid == s.nextPid;
    Moved(s, p, WaitRestore, s');
  }

  lemma CancelKeeps(s: State, p: Pid)
    requires BooksOk(s) && p in s.procs
    ensures BooksOk(CancelStep(s, p))
  {
    match s.procs[p].pc
    case Ready => EndKeeps(s, p, CancelStep(s, p));
    case After =>
    case WaitRestore => LeavesKeeps(s, p, CancelStep(s, p));
    case InRestore => LeavesKeeps(s, p, CancelStep(s, p));
    case _ => CancelInside(s, p);
  }

  lemma BooksKept(s: State, a: Action)
    requires BooksOk(s) && Enabled(s, a)
    ensures BooksOk(Do(s, a))
  {
    match a
    case Create(row) => SameBooks(s, Do(s, a));
    case Spawn(id) => SpawnKeeps(s, id, Do(s, a));
    case TimerFire(id) => TimerKeeps(s, id, Do(s, a));
    case Begin(op) => BeginKeeps(s, op);
    case Commit(cut) => CommitKeeps(s, cut);
    case Abort => SameBooks(s, Do(s, a));
    case Run(p, outcome) => RunKeeps(s, p, outcome);
    case Cancel(p) => CancelKeeps(s, p);
  }

  lemma InitBooks()
    ensures BooksOk(Init())
  {
  }

  /** In every reachable state the books are in order. */
  lemma {:induction false} BooksAlways(s: State, actions: seq<Action>, end: State)
    requires BooksOk(s) && Reaches(s, actions, end)
    ensures BooksOk(end)
    decreases |actions|
  {
    if actions != [] {
      BooksKept(s, actions[0]);
      BooksAlways(Do(s, actions[0]), actions[1..], end);
    }
  }

  // ---- What follows --------------------------------------------------------------------

  /** Two firings of one task are never inside at once, whatever brought them there. */
  lemma FiringsNeverOverlap(actions: seq<Action>, end: State, p: Pid, q: Pid)
    requires Reaches(Init(), actions, end)
    requires p in end.procs && q in end.procs && Inside(end.procs[p].pc) && Inside(end.procs[q].pc)
    requires end.procs[p].task == end.procs[q].task
    ensures p == q
  {
    InitBooks();
    BooksAlways(Init(), actions, end);
  }

  /** Some action of the run is an administrative call on the task, which then existed. */
  ghost predicate CalledOn(s: State, actions: seq<Action>, id: Id)
    decreases |actions|
  {
    actions != [] && Enabled(s, actions[0]) && (CallOn(s, actions[0], id)
                                                || CalledOn(Do(s, actions[0]), actions[1..], id))
  }

  /** Process `r` of the new state is the old one, as far as its capture is concerned. */
  ghost predicate Carried(s: State, s': State, r: Pid, called: bool) {
    r in s'.procs ==>
      && r in s.procs
      && s'.procs[r].task == s.procs[r].task && s'.procs[r].version == s.procs[r].version
      && (s'.procs[r].stale <==> (s.procs[r].stale || called))
  }

  ghost predicate CallOn(s: State, a: Action, id: Id) {
    a.Begin? && a.op.id == id && id in s.rows && Bumps(a.op)
  }

  lemma LeaveCarries(s: State, p: Pid, r: Pid)
    requires p in s.procs
    ensures Carried(s, Leave(s, p), r, false)
  {
  }

  lemma RunCarries(s: State, p: Pid, outcome: Outcome, r: Pid)
    requires CanRun(s, p)
    ensures Carried(s, RunStep(s, p, outcome), r, false)
  {
    match s.procs[p].pc
    case InMark => LeaveCarries(s, p, r);
    case Starting => LeaveCarries(s, p, r);
    case InCount(_) => LeaveCarries(s, p, r);
    case InYield => LeaveCarries(s, p, r);
    case InDefer => LeaveCarries(s, p, r);
    case InRestore => LeaveCarries(s, p, r);
    case _ =>
  }

  lemma CancelCarries(s: State, p: Pid, r: Pid)
    requires p in s.procs
    ensures Carried(s, CancelStep(s, p), r, false)
  {
    LeaveCarries(s, p, r);
  }

  lemma BeginCarries(s: State, op: AdminOp, r: Pid)
    ensures r in s.procs ==> Carried(s, BeginStep(s, op), r, op.id == s.procs[r].task && op.id in s.rows && Bumps(op))
    ensures r !in s.procs ==> r !in BeginStep(s, op).procs
  {
  }

  /** Pids are not reused, and a firing keeps its task, its version and its history. */
  lemma ProcSteps(s: State, a: Action, r: Pid)
    requires Enabled(s, a) && r < s.nextPid
    ensures r in s.procs ==> Carried(s, Do(s, a), r, CallOn(s, a, s.procs[r].task))
    ensures r !in s.procs ==> r !in Do(s, a).procs
  {
    match a
    case Run(p, outcome) => RunCarries(s, p, outcome, r);
    case Cancel(p) => CancelCarries(s, p, r);
    case Begin(op) => BeginCarries(s, op, r);
    case _ =>
  }

  lemma RunPid(s: State, p: Pid, outcome: Outcome)
    requires CanRun(s, p)
    ensures RunStep(s, p, outcome).nextPid == s.nextPid
  {
    match s.procs[p].pc
    case Ready =>
    case InMark =>
    case Starting =>
    case InCount(_) =>
    case InYield =>
    case InDefer =>
    case _ =>
  }

  lemma CancelPid(s: State, p: Pid)
    requires p in s.procs
    ensures CancelStep(s, p).nextPid == s.nextPid
  {
  }

  lemma NextPidGrows(s: State, a: Action)
    requires Enabled(s, a)
    ensures s.nextPid <= Do(s, a).nextPid
  {
    match a
    case Run(p, outcome) => RunPid(s, p, outcome);
    case Cancel(p) => CancelPid(s, p);
    case Commit(cut) => assert CommitStep(s, cut).nextPid >= s.nextPid;
    case _ =>
  }

  /** A firing is stale exactly when such a call came after it captured its version. */
  lemma {:induction false} StaleIff(s: State, actions: seq<Action>, end: State, p: Pid)
    requires BooksOk(s) && Reaches(s, actions, end) && p in s.procs && p in end.procs
    ensures end.procs[p].task == s.procs[p].task && end.procs[p].version == s.procs[p].version
    ensures end.procs[p].stale <==> (s.procs[p].stale || CalledOn(s, actions, s.procs[p].task))
    decreases |actions|
  {
    if actions != [] {
      var t := Do(s, actions[0]);
      BooksKept(s, actions[0]);
      ProcSteps(s, actions[0], p);
      NextPidGrows(s, actions[0]);
      StillThere(t, actions[1..], end, p);
      StaleIff(t, actions[1..], end, p);
    }
  }

  lemma {:induction false} StillThere(s: State, actions: seq<Action>, end: State, p: Pid)
    requires BooksOk(s) && Reaches(s, actions, end) && p < s.nextPid && p in end.procs
    ensures p in s.procs
    decreases |actions|
  {
    if actions != [] {
      BooksKept(s, actions[0]);
      ProcSteps(s, actions[0], p);
      NextPidGrows(s, actions[0]);
      StillThere(Do(s, actions[0]), actions[1..], end, p);
    }
  }

  /**
   From the moment `s` a firing captured its version, its dispatch begins exactly when no
   administrative call has come since: version entries that are collected and begun again
   neither hide such a call nor feign one.
   */
  lemma DispatchIffCurrent(before: seq<Action>, s: State, since: seq<Action>, end: State, p: Pid)
    requires Reaches(Init(), before, s) && Reaches(s, since, end)
    requires p in s.procs && !s.procs[p].stale && p in end.procs && end.procs[p].pc == Starting
    ensures (p in RunStarting(end, p, Good).procs && RunStarting(end, p, Good).procs[p].pc == Dispatching)
            <==> !CalledOn(s, since, s.procs[p].task)
  {
    InitBooks();
    BooksAlways(Init(), before, s);
    BooksAlways(s, since, end);
    StaleIff(s, since, end, p);
  }

  lemma OwedProc(s: State, id: Id)
    requires PendingOk(s) && id in s.books.pending
    ensures exists p :: p in s.procs && s.procs[p].task == id
  {
    assert |SpawnedOf(s.procs, id)| > 0 by {
      assert Owed(s.books, id) == |SpawnedOf(s.procs, id)|;
    }
    var p :| p in SpawnedOf(s.procs, id);
    assert p in s.procs;
  }

  lemma KeptForProc(s: State, id: Id)
    requires FiringOk(s) && PendingOk(s) && VersionsOk(s) && id in s.books.versions
    ensures exists p :: p in s.procs && s.procs[p].task == id
  {
    if id in s.books.pending {
      OwedProc(s, id);
    } else {
      var p :| p in s.procs && Inside(s.procs[p].pc) && s.procs[p].task == id;
      assert p in s.procs;
    }
  }

  lemma NothingKept(s: State)
    requires FiringOk(s) && PendingOk(s) && VersionsOk(s) && s.procs == map[]
    ensures s.books == Books({}, map[], map[])
  {
    assert s.books.firing == {};
    forall id | id in s.books.pending ensures false {
      OwedProc(s, id);
    }
    assert s.books.pending == map[];
    assert s.books.versions == map[];
  }

  /** A version entry is kept only for a task that is firing or owed a firing. */
  lemma VersionsCollected(actions: seq<Action>, s: State, id: Id)
    requires Reaches(Init(), actions, s)
    ensures id in s.books.versions ==> exists p :: p in s.procs && s.procs[p].task == id
    ensures s.procs == map[] ==> s.books == Books({}, map[], map[])
  {
    InitBooks();
    BooksAlways(Init(), actions, s);
    if id in s.books.versions {
      KeptForProc(s, id);
    }
    if s.procs == map[] {
      NothingKept(s);
    }
  }
}
