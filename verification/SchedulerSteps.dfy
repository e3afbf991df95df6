/**
 The scheduler as a step system. A step is the code between two awaits; the state lock is
 explicit, any firing or administrative call may be cancelled wherever it awaits, timers
 may fire any task at any time, and agents may answer in any way.
 */
module SchedulerSteps {
  import opened Wrappers
  import opened Scheduler

  type Pid = nat

  /**
   Where a firing stands. `Wait…` awaits the lock, `In…` holds it. `Deferring` follows a
   refused dispatch, `Yielding` a busy session. `After` has ended and owes its callback.
   */
  datatype Pc =
    | Ready
    | WaitMark | InMark
    | Starting
    | WaitYield | InYield
    | Dispatching
    | WaitDefer | InDefer
    | Stamping
    | WaitCount(error: bool) | InCount(error: bool)
    | WaitRestore | InRestore
    | After

  /**
   One firing: its task, the version it captured, whether it was spawned (a timer's firing
   is not), and, for the proofs, whether an administrative call came after the capture.
   */
  datatype Proc = Proc(task: Id, version: nat, spawned: bool, pc: Pc, stale: bool)

  datatype AdminOp =
    | Update(id: Id, change: Change)
    | Pause(id: Id)
    | Resume(id: Id)
    | Remove(id: Id)
    | Trigger(id: Id)

  datatype Lock = Free | Firing(pid: Pid) | Admin(op: AdminOp)

  datatype State = State(
    rows: map<Id, TaskRow>,
    books: Books,
    lock: Lock,
    procs: map<Pid, Proc>,
    nextPid: Pid,
    nextId: Id)

  function Init(): State {
    State(map[], Books({}, map[], map[]), Free, map[], 0, 0)
  }

  /** How the awaited agent call turned out. */
  datatype Outcome = Good | Busy | Bad

  datatype Action =
    | Create(row: TaskRow)
    | Spawn(task: Id)
    | TimerFire(task: Id)
    | Begin(op: AdminOp)
    | Commit(cut: bool)
    | Abort
    | Run(pid: Pid, outcome: Outcome)
    | Cancel(pid: Pid)

  // ---- Phases --------------------------------------------------------------------------

  predicate Inside(pc: Pc) {
    pc != Ready && pc != After
  }

  predicate Holds(pc: Pc) {
    pc.InMark? || pc.InYield? || pc.InDefer? || pc.InCount? || pc.InRestore?
  }

  predicate Awaits(pc: Pc) {
    pc.WaitMark? || pc.WaitYield? || pc.WaitDefer? || pc.WaitCount? || pc.WaitRestore?
  }

  /** A dispatch has begun, or failed to begin, and is not settled. */
  predicate Unsettled(pc: Pc) {
    pc.Dispatching? || pc.Stamping? || pc.WaitCount? || pc.InCount?
  }

  // ---- Small state changes -------------------------------------------------------------

  function At(s: State, p: Pid, pc: Pc): State
    requires p in s.procs
  {
    s.(procs := s.procs[p := s.procs[p].(pc := pc)])
  }

  function SetRow(s: State, id: Id, r: TaskRow): State {
    s.(rows := s.rows[id := r])
  }

  function Unlock(s: State): State {
    s.(lock := Free)
  }

  /** The `finally` of a firing, and the end of its coroutine. */
  function Leave(s: State, p: Pid): State
    requires p in s.procs
  {
    var s' := s.(books := Left(s.books, s.procs[p].task));
    if s.procs[p].spawned then At(s', p, After) else s'.(procs := s'.procs - {p})
  }

  function Spawn1(s: State, id: Id): State {
    s.(books := Spawned(s.books, id),
       procs := s.procs[s.nextPid := Proc(id, Version(s.books, id), true, Ready, false)],
       nextPid := s.nextPid + 1)
  }

  /** Every version captured for the task is stale from now on. */
  function Stale(s: State, id: Id): State {
    s.(books := Invalidated(s.books, id),
       procs := map p | p in s.procs :: if s.procs[p].task == id then s.procs[p].(stale := true) else s.procs[p])
  }

  // ---- One firing ----------------------------------------------------------------------

  function RunReady(s: State, p: Pid): State
    requires p in s.procs
  {
    var q := s.procs[p];
    if MayEnter(s.books, q.task, q.version) then At(s.(books := Entered(s.books, q.task)), p, WaitMark)
    else At(s, p, After)
  }

  function RunAcquire(s: State, p: Pid): State
    requires p in s.procs && Awaits(s.procs[p].pc)
  {
    var pc := match s.procs[p].pc
      case WaitMark => InMark
      case WaitYield => InYield
      case WaitDefer => InDefer
      case WaitCount(error) => InCount(error)
      case WaitRestore => InRestore;
    At(s, p, pc).(lock := Firing(p))
  }

  function RunMark(s: State, p: Pid): State
    requires p in s.procs
  {
    var q := s.procs[p];
    if q.task in s.rows && Markable(s.rows[q.task]) then
      Unlock(At(SetRow(s, q.task, s.rows[q.task].(status := Running)), p, Starting))
    else Unlock(Leave(s, p))
  }

  /** The version check stands right before the dispatch: no await lies between them. */
  function RunStarting(s: State, p: Pid, outcome: Outcome): State
    requires p in s.procs
  {
    var q := s.procs[p];
    if Version(s.books, q.task) != q.version then Leave(s, p)
    else match outcome
      case Good => At(s, p, Dispatching)
      case Busy => At(s, p, WaitYield)
      case Bad => At(s, p, WaitCount(true))
  }

  function RunReschedule(s: State, p: Pid): State
    requires p in s.procs
  {
    var q := s.procs[p];
    Unlock(Leave(
      if q.task in s.rows
      then SetRow(s, q.task, Rescheduled(s.rows[q.task], Version(s.books, q.task) == q.version))
      else s, p))
  }

  function RunDispatching(s: State, p: Pid, outcome: Outcome): State
    requires p in s.procs
  {
    match outcome
    case Good => At(s, p, Stamping)
    case Busy => At(s, p, WaitDefer)
    case Bad => At(s, p, WaitCount(true))
  }

  function RunCount(s: State, p: Pid): State
    requires p in s.procs && s.procs[p].pc.InCount?
  {
    var q := s.procs[p];
    Unlock(Leave(if q.task in s.rows then SetRow(s, q.task, Counted(s.rows[q.task], q.pc.error)) else s, p))
  }

  function RunRestore(s: State, p: Pid): State
    requires p in s.procs
  {
    var q := s.procs[p];
    Unlock(Leave(if q.task in s.rows then SetRow(s, q.task, Restored(s.rows[q.task])) else s, p))
  }

  function RunAfter(s: State, p: Pid): State
    requires p in s.procs
  {
    s.(books := Discarded(s.books, s.procs[p].task), procs := s.procs - {p})
  }

  predicate CanRun(s: State, p: Pid) {
    p in s.procs && (Awaits(s.procs[p].pc) ==> s.lock == Free)
  }

  function RunStep(s: State, p: Pid, outcome: Outcome): State
    requires CanRun(s, p)
  {
    match s.procs[p].pc
    case Ready => RunReady(s, p)
    case InMark => RunMark(s, p)
    case Starting => RunStarting(s, p, outcome)
    case InYield => RunReschedule(s, p)
    case InDefer => RunReschedule(s, p)
    case Dispatching => RunDispatching(s, p, outcome)
    case Stamping => At(s, p, WaitCount(false))
    case InCount(error) => RunCount(s, p)
    case InRestore => RunRestore(s, p)
    case After => RunAfter(s, p)
    case _ => RunAcquire(s, p)
  }

  function Released(s: State, p: Pid): State {
    if s.lock == Firing(p) then Unlock(s) else s
  }

  /** Cancellation: a firing not yet started just ends; one inside goes to restore its row. */
  function CancelStep(s: State, p: Pid): State
    requires p in s.procs
  {
    match s.procs[p].pc
    case Ready => At(s, p, After)
    case After => s
    case WaitRestore => Leave(s, p)
    case InRestore => Unlock(Leave(s, p))
    case _ => Released(At(s, p, WaitRestore), p)
  }

  // ---- Administration ------------------------------------------------------------------

  predicate Bumps(op: AdminOp) {
    !op.Trigger?
  }

  /** The call takes the lock; for a task that exists, the versions captured so far go stale. */
  function BeginStep(s: State, op: AdminOp): State {
    var s' := s.(lock := Admin(op));
    if op.id !in s.rows || !Bumps(op) then s'
    else if op.Update? && op.change.renames then Stale(Stale(s', op.id), op.id)
    else Stale(s', op.id)
  }

  /** The row is written and the lock released; `cut` is a cancellation before the spawn. */
  function CommitStep(s: State, cut: bool): State
    requires s.lock.Admin? && s.lock.op.id in s.rows
  {
    var id := s.lock.op.id;
    var r := s.rows[id];
    var s' := Unlock(s);
    match s.lock.op
    case Update(_, c) => SetRow(s', id, Updated(r, c))
    case Pause(_) => SetRow(s', id, PausedRow(r))
    case Resume(_) => SetRow(s', id, Resumed(r))
    case Remove(_) => s'.(rows := s'.rows - {id})
    case Trigger(_) =>
      var s'' := SetRow(s', id, Triggered(r));
      if Exhausted(r) || cut then s'' else Spawn1(s'', id)
  }

  /** The call fails or is cancelled before it writes; a bumped version stays bumped. */
  function AbortStep(s: State): State {
    Unlock(s)
  }

  // ---- Runs ----------------------------------------------------------------------------

  predicate Enabled(s: State, a: Action) {
    match a
    case Create(row) => row.runCount == 0 && row.status == Pending
    case Begin(op) => s.lock == Free
    case Commit(cut) => s.lock.Admin? && s.lock.op.id in s.rows
    case Abort => s.lock.Admin?
    case Run(p, _) => CanRun(s, p)
    case Cancel(p) => p in s.procs
    case _ => true
  }

  function Do(s: State, a: Action): State
    requires Enabled(s, a)
  {
    match a
    case Create(row) => SetRow(s, s.nextId, Stopped(row)).(nextId := s.nextId + 1)
    case Spawn(id) => Spawn1(s, id)
    case TimerFire(id) =>
      if id in s.books.firing then s
      else s.(books := Entered(s.books, id),
              procs := s.procs[s.nextPid := Proc(id, Version(s.books, id), false, WaitMark, false)],
              nextPid := s.nextPid + 1)
    case Begin(op) => BeginStep(s, op)
    case Commit(cut) => CommitStep(s, cut)
    case Abort => AbortStep(s)
    case Run(p, outcome) => RunStep(s, p, outcome)
    case Cancel(p) => CancelStep(s, p)
  }

  /** The states a run of actions passes through, when every action was enabled. */
  ghost predicate Reaches(s: State, actions: seq<Action>, end: State)
    decreases |actions|
  {
    if actions == [] then s == end
    else Enabled(s, actions[0]) && Reaches(Do(s, actions[0]), actions[1..], end)
  }

  ghost predicate From(s: State, end: State) {
    exists actions :: Reaches(s, actions, end)
  }

  lemma {:induction false} Joined(s: State, actions: seq<Action>, t: State, more: seq<Action>, end: State)
    requires Reaches(s, actions, t) && Reaches(t, more, end)
    ensures Reaches(s, actions + more, end)
    decreases |actions|
  {
    if actions == [] {
      assert actions + more == more;
    } else {
      Joined(Do(s, actions[0]), actions[1..], t, more, end);
      assert (actions + more)[1..] == actions[1..] + more;
    }
  }

  lemma Onwards(s: State, t: State, end: State)
    requires From(s, t) && From(t, end)
    ensures From(s, end)
  {
    var actions :| Reaches(s, actions, t);
    var more :| Reaches(t, more, end);
    Joined(s, actions, t, more, end);
  }

  /** One more step of a run from `s`. */
  lemma Next(s: State, t: State, a: Action, end: State)
    requires From(s, t) && Enabled(t, a) && Do(t, a) == end
    ensures From(s, end)
  {
    assert Reaches(end, [], end);
    assert [a][1..] == [];
    assert Reaches(t, [a], end);
    Onwards(s, t, end);
  }
}
