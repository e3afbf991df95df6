/**
 Runs from the initial state that show what the laws of the scheduler leave open: four runs
 that strand a row, and one that counts past a lowered limit. Administrative calls cancel
 the timers they find, so a firing that outlives one here is always a spawned one.
 */
module SchedulerCases {
  import opened Wrappers
  import opened Scheduler
  import opened SchedulerSteps
  import opened SchedulerBooks
  import opened SchedulerTask
  import opened SchedulerLimits
  import opened SchedulerRunning

  const NO_CHANGE := Change(None, None, None, false)

  const FRESH := TaskRow(true, Pending, 0, None, false)

  /** One task, and one triggered firing of it. */
  function One(status: Status, versions: map<Id, nat>, lock: Lock, pc: Pc, stale: bool): State {
    State(map[0 := FRESH.(status := status)], Books(if Inside(pc) then {0} else {}, versions, map[0 := 1]), lock,
          map[0 := Proc(0, 0, true, pc, stale)], 1, 1)
  }

  /** All firings have ended. */
  function Quiet(status: Status): State {
    State(map[0 := FRESH.(status := status)], Books({}, map[], map[]), Free, map[], 1, 1)
  }

  /** The task has just been created. */
  function Created(lock: Lock): State {
    State(map[0 := FRESH], Books({}, map[], map[]), lock, map[], 0, 1)
  }

  /** The task is created and triggered. */
  lemma Triggered1()
    ensures From(Init(), One(Pending, map[], Free, Ready, false))
  {
    assert Reaches(Init(), [], Init());
    Next(Init(), Init(), Create(FRESH), Created(Free));
    Next(Init(), Created(Free), Begin(Trigger(0)), Created(Admin(Trigger(0))));
    Next(Init(), Created(Admin(Trigger(0))), Commit(false), One(Pending, map[], Free, Ready, false));
  }

  /** Its firing waits for the lock. */
  lemma Waiting()
    ensures From(Init(), One(Pending, map[], Free, WaitMark, false))
  {
    Triggered1();
    Next(Init(), One(Pending, map[], Free, Ready, false), Run(0, Good), One(Pending, map[], Free, WaitMark, false));
  }

  lemma AtMark()
    ensures From(Init(), One(Pending, map[], Firing(0), InMark, false))
  {
    Waiting();
    Next(Init(), One(Pending, map[], Free, WaitMark, false), Run(0, Good),
         One(Pending, map[], Firing(0), InMark, false));
  }

  /** It has marked its row. */
  lemma Marking()
    ensures From(Init(), One(Running, map[], Free, Starting, false))
  {
    AtMark();
    Next(Init(), One(Pending, map[], Firing(0), InMark, false), Run(0, Good),
         One(Running, map[], Free, Starting, false));
  }

  /** A firing that has ended owes only its callback. */
  lemma EndsRunning(versions: map<Id, nat>, stale: bool)
    requires versions.Keys <= {0}
    ensures From(One(Running, versions, Free, After, stale), Quiet(Running))
  {
    var s := One(Running, versions, Free, After, stale);
    assert Reaches(s, [], s);
    assert versions - {0} == map[];
    Next(s, s, Run(0, Good), Quiet(Running));
  }

  /** A stale firing stands down before its dispatch. */
  lemma StandsDown()
    ensures From(One(Running, map[0 := 1], Free, Starting, true), Quiet(Running))
  {
    var s := One(Running, map[0 := 1], Free, Starting, true);
    assert Reaches(s, [], s);
    Next(s, s, Run(0, Good), One(Running, map[0 := 1], Free, After, true));
    EndsRunning(map[0 := 1], true);
    Onwards(s, One(Running, map[0 := 1], Free, After, true), Quiet(Running));
  }

  /** An update makes the firing stale; its own row is not running yet. */
  lemma MadeStale()
    ensures From(Init(), One(Pending, map[0 := 1], Firing(0), InMark, true))
  {
    var s4 := One(Pending, map[], Free, WaitMark, false);
    var s5 := One(Pending, map[0 := 1], Admin(Update(0, NO_CHANGE)), WaitMark, true);
    var s6 := One(Pending, map[0 := 1], Free, WaitMark, true);
    Waiting();
    Next(Init(), s4, Begin(Update(0, NO_CHANGE)), s5);
    Next(Init(), s5, Commit(false), s6);
    Next(Init(), s6, Run(0, Good), One(Pending, map[0 := 1], Firing(0), InMark, true));
  }

  /** The mark does not check the version. */
  lemma MarksStaleHappens()
    ensures exists s, a ::
              From(Init(), s) && Enabled(s, a) && !Stranded(s, 0) && MarksStale(s, a, 0)
              && From(Do(s, a), Quiet(Running))
  {
    var s := One(Pending, map[0 := 1], Firing(0), InMark, true);
    MadeStale();
    assert MarksStale(s, Run(0, Good), 0) && Do(s, Run(0, Good)) == One(Running, map[0 := 1], Free, Starting, true);
    StandsDown();
  }

  /** The call fails between making the firing stale and writing the row. */
  lemma GivesUpHappens()
    ensures exists s, a ::
              From(Init(), s) && Enabled(s, a) && !Stranded(s, 0) && GivesUp(s, a, 0)
              && From(Do(s, a), Quiet(Running))
  {
    var s6 := One(Running, map[], Free, Starting, false);
    var s7 := One(Running, map[0 := 1], Admin(Update(0, NO_CHANGE)), Starting, true);
    Marking();
    Next(Init(), s6, Begin(Update(0, NO_CHANGE)), s7);
    forall p ensures !Settler(s7, p, 0) {
    }
    assert GivesUp(s7, Abort, 0) && Do(s7, Abort) == One(Running, map[0 := 1], Free, Starting, true);
    StandsDown();
  }

  lemma Restoring()
    ensures From(Init(), One(Running, map[], Free, WaitRestore, false))
  {
    Marking();
    Next(Init(), One(Running, map[], Free, Starting, false), Cancel(0), One(Running, map[], Free, WaitRestore, false));
  }

  /** The shutdown cancels a firing that is already restoring its row. */
  lemma CancelledAgainHappens()
    ensures exists s, a ::
              From(Init(), s) && Enabled(s, a) && !Stranded(s, 0) && CancelledAgain(s, a, 0)
              && From(Do(s, a), Quiet(Running))
  {
    var s := One(Running, map[], Free, WaitRestore, false);
    Restoring();
    assert Settler(s, 0, 0);
    assert CancelledAgain(s, Cancel(0), 0) && Do(s, Cancel(0)) == One(Running, map[], Free, After, false);
    EndsRunning(map[], false);
  }

  /** A call that failed has made the firing stale during its dispatch. */
  lemma DispatchStale()
    ensures From(Init(), One(Running, map[0 := 1], Free, Dispatching, true))
  {
    var s6 := One(Running, map[], Free, Starting, false);
    var s7 := One(Running, map[], Free, Dispatching, false);
    var s8 := One(Running, map[0 := 1], Admin(Update(0, NO_CHANGE)), Dispatching, true);
    Marking();
    Next(Init(), s6, Run(0, Good), s7);
    Next(Init(), s7, Begin(Update(0, NO_CHANGE)), s8);
    Next(Init(), s8, Abort, One(Running, map[0 := 1], Free, Dispatching, true));
  }

  /** A stale firing that was refused does not put its row back. */
  lemma DefersStale()
    ensures From(One(Running, map[0 := 1], Free, WaitDefer, true), Quiet(Running))
  {
    var s := One(Running, map[0 := 1], Free, WaitDefer, true);
    assert Reaches(s, [], s);
    Next(s, s, Run(0, Good), One(Running, map[0 := 1], Firing(0), InDefer, true));
    LeavesStale(s);
    EndsRunning(map[0 := 1], true);
    Onwards(s, One(Running, map[0 := 1], Free, After, true), Quiet(Running));
  }

  lemma LeavesStale(s: State)
    requires From(s, One(Running, map[0 := 1], Firing(0), InDefer, true))
    ensures From(s, One(Running, map[0 := 1], Free, After, true))
  {
    Next(s, One(Running, map[0 := 1], Firing(0), InDefer, true), Run(0, Good),
         One(Running, map[0 := 1], Free, After, true));
  }

  /** The dispatch is refused after a failed call has made the firing stale. */
  lemma RefusedStaleHappens()
    ensures exists s, a ::
              From(Init(), s) && Enabled(s, a) && !Stranded(s, 0) && RefusedStale(s, a, 0)
              && From(Do(s, a), Quiet(Running))
  {
    var s := One(Running, map[0 := 1], Free, Dispatching, true);
    DispatchStale();
    assert Settler(s, 0, 0);
    assert RefusedStale(s, Run(0, Busy), 0) && Do(s, Run(0, Busy)) == One(Running, map[0 := 1], Free, WaitDefer, true);
    DefersStale();
  }

  // ---- A limit lowered during a firing -------------------------------------------------

  const LOWERED := Update(0, Change(None, Some(Some(1)), None, false))

  /** A timer's firing of the task. */
  function Timed(status: Status, lock: Lock, pc: Pc): State {
    State(map[0 := FRESH.(status := status)], Books({0}, map[], map[]), lock, map[0 := Proc(0, 0, false, pc, false)],
          1, 1)
  }

  /** One run is counted, and a triggered firing is under way. */
  function Second(status: Status, maxRuns: Option<nat>, versions: map<Id, nat>, lock: Lock, pc: Pc,
                  stale: bool): State {
    State(map[0 := TaskRow(true, status, 1, maxRuns, false)],
          Books(if Inside(pc) then {0} else {}, versions, map[0 := 1]), lock,
          map[1 := Proc(0, 0, true, pc, stale)], 2, 1)
  }

  function Idle1(): State {
    State(map[0 := TaskRow(true, Failed, 1, None, false)], Books({}, map[], map[]), Free, map[], 1, 1)
  }

  lemma FirstWaits()
    ensures From(Init(), Timed(Pending, Free, WaitMark))
  {
    assert Reaches(Init(), [], Init());
    Next(Init(), Init(), Create(FRESH), Created(Free));
    Next(Init(), Created(Free), TimerFire(0), Timed(Pending, Free, WaitMark));
  }

  lemma FirstMarks()
    ensures From(Init(), Timed(Running, Free, Starting))
  {
    FirstWaits();
    Next(Init(), Timed(Pending, Free, WaitMark), Run(0, Good), Timed(Pending, Firing(0), InMark));
    Next(Init(), Timed(Pending, Firing(0), InMark), Run(0, Good), Timed(Running, Free, Starting));
  }

  lemma FirstCounts()
    ensures From(Init(), Timed(Running, Firing(0), InCount(true)))
  {
    FirstMarks();
    Next(Init(), Timed(Running, Free, Starting), Run(0, Bad), Timed(Running, Free, WaitCount(true)));
    Next(Init(), Timed(Running, Free, WaitCount(true)), Run(0, Good), Timed(Running, Firing(0), InCount(true)));
  }

  lemma FirstRun()
    ensures From(Init(), Idle1())
  {
    FirstCounts();
    Next(Init(), Timed(Running, Firing(0), InCount(true)), Run(0, Good), Idle1());
  }

  lemma Spawned2()
    ensures From(Init(), Second(Failed, None, map[], Free, Ready, false))
  {
    FirstRun();
    var t := Idle1().(lock := Admin(Trigger(0)));
    Next(Init(), Idle1(), Begin(Trigger(0)), t);
    Next(Init(), t, Commit(false), Second(Failed, None, map[], Free, Ready, false));
  }

  lemma Triggered2()
    ensures From(Init(), Second(Failed, None, map[], Free, WaitMark, false))
  {
    Spawned2();
    Next(Init(), Second(Failed, None, map[], Free, Ready, false), Run(1, Good),
         Second(Failed, None, map[], Free, WaitMark, false));
  }

  lemma SecondWaits()
    ensures From(Init(), Second(Failed, None, map[], Firing(1), InMark, false))
  {
    Triggered2();
    Next(Init(), Second(Failed, None, map[], Free, WaitMark, false), Run(1, Good),
         Second(Failed, None, map[], Firing(1), InMark, false));
  }

  lemma SecondUnderWay()
    ensures From(Init(), Second(Running, None, map[], Free, Dispatching, false))
  {
    SecondWaits();
    Next(Init(), Second(Failed, None, map[], Firing(1), InMark, false), Run(1, Good),
         Second(Running, None, map[], Free, Starting, false));
    Next(Init(), Second(Running, None, map[], Free, Starting, false), Run(1, Good),
         Second(Running, None, map[], Free, Dispatching, false));
  }

  /** The limit is lowered to the run already counted: the row completes, the firing goes on. */
  function Lowered(): State {
    State(map[0 := TaskRow(false, Completed, 1, Some(1), false)], Books({0}, map[0 := 1], map[0 := 1]), Free,
          map[1 := Proc(0, 0, true, Dispatching, true)], 2, 1)
  }

  lemma Lowering()
    ensures From(Init(), Second(Running, None, map[0 := 1], Admin(LOWERED), Dispatching, true))
  {
    SecondUnderWay();
    Next(Init(), Second(Running, None, map[], Free, Dispatching, false), Begin(LOWERED),
         Second(Running, None, map[0 := 1], Admin(LOWERED), Dispatching, true));
  }

  lemma LoweredIsReached()
    ensures From(Init(), Lowered())
  {
    Lowering();
    Next(Init(), Second(Running, None, map[0 := 1], Admin(LOWERED), Dispatching, true), Commit(false), Lowered());
  }

  /** A task counts two runs of a limit lowered to the one already counted. */
  lemma LimitPassed()
    ensures exists end ::
              From(Init(), end) && 0 in end.rows && end.rows[0].runCount == 2 && end.rows[0].maxRuns == Some(1)
  {
    LoweredIsReached();
    var before :| Reaches(Init(), before, Lowered());
    Reachable(before, Lowered(), 0);
    var actions, end := RipeCounts(Lowered(), 1, 0);
    Onwards(Init(), Lowered(), end);
  }

  // ---- Updates that leave a status behind ----------------------------------------------

  /** One task and no firing. */
  function Still(row: TaskRow, lock: Lock, nextPid: Pid): State {
    State(map[0 := row], Books({}, map[], map[]), lock, map[], nextPid, 1)
  }

  const ENABLED := Update(0, Change(Some(true), None, None, false))
  const RECURRING := Update(0, Change(None, None, Some(false), false))

  lemma PausedTask()
    ensures From(Init(), Still(PausedRow(FRESH), Free, 0))
  {
    assert Reaches(Init(), [], Init());
    Next(Init(), Init(), Create(FRESH), Still(FRESH, Free, 0));
    Next(Init(), Still(FRESH, Free, 0), Begin(Pause(0)), Still(FRESH, Admin(Pause(0)), 0));
    Next(Init(), Still(FRESH, Admin(Pause(0)), 0), Commit(false), Still(PausedRow(FRESH), Free, 0));
  }

  /** A paused task that an update enables stays paused, and enabled. */
  lemma PausedEnabledHappens()
    ensures exists s :: From(Init(), s) && 0 in s.rows && s.rows[0].status == Paused && s.rows[0].enabled
  {
    var t := Still(PausedRow(FRESH), Admin(ENABLED), 0);
    PausedTask();
    Next(Init(), Still(PausedRow(FRESH), Free, 0), Begin(ENABLED), t);
    Next(Init(), t, Commit(false), Still(PausedRow(FRESH).(enabled := true), Free, 0));
  }

  const ONCE := TaskRow(true, Pending, 0, None, true)

  /** A timer's firing of the one-shot task. */
  function Once(status: Status, lock: Lock, pc: Pc): State {
    State(map[0 := ONCE.(status := status)], Books({0}, map[], map[]), lock, map[0 := Proc(0, 0, false, pc, false)],
          1, 1)
  }

  lemma OnceWaits()
    ensures From(Init(), Once(Pending, Free, WaitMark))
  {
    assert Reaches(Init(), [], Init());
    Next(Init(), Init(), Create(ONCE), Still(ONCE, Free, 0));
    Next(Init(), Still(ONCE, Free, 0), TimerFire(0), Once(Pending, Free, WaitMark));
  }

  lemma OnceMarks()
    ensures From(Init(), Once(Running, Free, Starting))
  {
    OnceWaits();
    Next(Init(), Once(Pending, Free, WaitMark), Run(0, Good), Once(Pending, Firing(0), InMark));
    Next(Init(), Once(Pending, Firing(0), InMark), Run(0, Good), Once(Running, Free, Starting));
  }

  lemma OnceDispatches()
    ensures From(Init(), Once(Running, Free, WaitCount(false)))
  {
    OnceMarks();
    Next(Init(), Once(Running, Free, Starting), Run(0, Good), Once(Running, Free, Dispatching));
    Next(Init(), Once(Running, Free, Dispatching), Run(0, Good), Once(Running, Free, Stamping));
    Next(Init(), Once(Running, Free, Stamping), Run(0, Good), Once(Running, Free, WaitCount(false)));
  }

  /** It has run once, and well. */
  lemma OnceCounts()
    ensures From(Init(), Still(ONCE.(status := Completed, runCount := 1), Free, 1))
  {
    OnceDispatches();
    Next(Init(), Once(Running, Free, WaitCount(false)), Run(0, Good), Once(Running, Firing(0), InCount(false)));
    Next(Init(), Once(Running, Firing(0), InCount(false)), Run(0, Good),
         Still(ONCE.(status := Completed, runCount := 1), Free, 1));
  }

  /** A one-shot task that has run and is made recurring stays completed. */
  lemma CompletedRecurringHappens()
    ensures exists s ::
              From(Init(), s) && 0 in s.rows && s.rows[0].status == Completed && !s.rows[0].oneShot
                  && s.rows[0].maxRuns == None
  {
    var r := ONCE.(status := Completed, runCount := 1);
    OnceCounts();
    Next(Init(), Still(r, Free, 1), Begin(RECURRING), Still(r, Admin(RECURRING), 1));
    Next(Init(), Still(r, Admin(RECURRING), 1), Commit(false), Still(r.(oneShot := false), Free, 1));
  }
}
