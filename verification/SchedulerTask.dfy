/**
 The scheduler as one task sees it: its row, the one firing inside it, and whether an
 administrative call is rewriting it. Every step of the whole system is one step of this
 small machine or leaves it alone.
 */
module SchedulerTask {
  import opened Wrappers
  import opened Scheduler
  import opened SchedulerSteps
  import opened SchedulerBooks

  datatype Active = Active(pc: Pc, stale: bool)

  /** `born` once the task has been created; ids are not used again. */
  datatype Task = Task(row: Option<TaskRow>, active: Option<Active>, rewriting: bool, born: bool)

  datatype Event =
    | Idle
    | Born(row: TaskRow, rewriting: bool)
    | Enter
    | Step(outcome: Outcome)
    | Stop
    | Bump
    | Write(op: AdminOp)
    | GiveUp

  // ---- The small machine ---------------------------------------------------------------

  function Moved(t: Task, pc: Pc): Task
    requires t.active.Some?
  {
    t.(active := Some(t.active.value.(pc := pc)))
  }

  function Ended(t: Task, row: Option<TaskRow>): Task {
    t.(row := row, active := None)
  }

  function Stepped(t: Task, outcome: Outcome): Task
    requires t.active.Some?
  {
    var q := t.active.value;
    match q.pc
    case WaitMark => Moved(t, InMark)
    case WaitYield => Moved(t, InYield)
    case WaitDefer => Moved(t, InDefer)
    case WaitCount(error) => Moved(t, InCount(error))
    case WaitRestore => Moved(t, InRestore)
    case InMark =>
      if t.row.Some? && Markable(t.row.value) then Moved(t, Starting).(row := Some(t.row.value.(status := Running)))
      else Ended(t, t.row)
    case Starting =>
      if q.stale then Ended(t, t.row)
      else Moved(t, match outcome case Good => Dispatching case Busy => WaitYield case Bad => WaitCount(true))
    case Dispatching =>
      Moved(t, match outcome case Good => Stamping case Busy => WaitDefer case Bad => WaitCount(true))
    case Stamping => Moved(t, WaitCount(false))
    case InCount(error) => Ended(t, if t.row.Some? then Some(Counted(t.row.value, error)) else None)
    case InRestore => Ended(t, if t.row.Some? then Some(Restored(t.row.value)) else None)
    case _ => Ended(t, if t.row.Some? then Some(Rescheduled(t.row.value, !q.stale)) else None)
  }

  function Outdated(active: Option<Active>): Option<Active> {
    if active.Some? then Some(active.value.(stale := true)) else None
  }

  function Written(r: TaskRow, op: AdminOp): Option<TaskRow> {
    match op
    case Update(_, c) => Some(Updated(r, c))
    case Pause(_) => Some(PausedRow(r))
    case Resume(_) => Some(Resumed(r))
    case Remove(_) => None
    case Trigger(_) => Some(Triggered(r))
  }

  function After1(t: Task, e: Event): Task {
    match e
    case Idle => t
    case Born(row, rewriting) => Task(Some(Stopped(row)), t.active, rewriting, true)
    case Enter => t.(active := Some(Active(WaitMark, false)))
    case Step(outcome) => if t.active.Some? then Stepped(t, outcome) else t
    case Stop =>
      if t.active.None? then t
      else if t.active.value.pc in {WaitRestore, InRestore} then Ended(t, t.row)
      else Moved(t, WaitRestore)
    case Bump => Task(t.row, Outdated(t.active), true, t.born)
    case Write(op) => Task(if t.row.Some? then Written(t.row.value, op) else None, t.active, false, t.born)
    case GiveUp => t.(rewriting := false)
  }

  /** Which events can come. */
  predicate May(t: Task, e: Event) {
    match e
    case Idle => true
    case Born(row, _) => !t.born && row.runCount == 0 && row.status == Pending
    case Enter => t.active.None?
    case Step(_) => t.active.Some? && (t.rewriting ==> !Holds(t.active.value.pc) && !Awaits(t.active.value.pc))
    case Stop => t.active.Some?
    case Bump => t.row.Some? && !t.rewriting
    case Write(op) => t.row.Some? && t.rewriting == Bumps(op)
    case GiveUp => t.rewriting
  }

  /** Nothing is known of a task before it is created, and a running row is enabled. */
  predicate TaskOk(t: Task) {
    && (t.row.Some? ==> t.born && (t.row.value.status == Running ==> t.row.value.enabled))
    && (t.active.Some? ==> Inside(t.active.value.pc))
    && (t.active.Some? && !t.born ==> t.active.value.pc in {WaitMark, InMark, WaitRestore, InRestore})
  }

  lemma TaskOkKept(t: Task, e: Event)
    requires TaskOk(t) && May(t, e)
    ensures TaskOk(After1(t, e))
  {
  }

  // ---- What of a state one task sees ---------------------------------------------------

  ghost predicate InsideOf(s: State, p: Pid, id: Id) {
    p in s.procs && Inside(s.procs[p].pc) && s.procs[p].task == id
  }

  ghost function ActiveOf(s: State, id: Id): Option<Active> {
    if exists p :: InsideOf(s, p, id) then
      var p :| InsideOf(s, p, id);
      Some(Active(s.procs[p].pc, s.procs[p].stale))
    else None
  }

  predicate Called(s: State, id: Id) {
    s.lock.Admin? && s.lock.op.id == id && Bumps(s.lock.op)
  }

  /** A call that will rewrite the row holds the lock. */
  predicate Rewriting(s: State, id: Id) {
    Called(s, id) && id in s.rows
  }

  function RowOf(s: State, id: Id): Option<TaskRow> {
    if id in s.rows then Some(s.rows[id]) else None
  }

  ghost function TaskOf(s: State, id: Id): Task {
    Task(RowOf(s, id), ActiveOf(s, id), Rewriting(s, id), id < s.nextId)
  }

  /** What an action is to one task. */
  function EventOf(s: State, a: Action, id: Id): Event
    requires Enabled(s, a)
  {
    match a
    case Create(row) => if id == s.nextId then Born(row, Called(s, id)) else Idle
    case Spawn(_) => Idle
    case TimerFire(task) => if task == id && id !in s.books.firing then Enter else Idle
    case Begin(op) => if op.id == id && id in s.rows && Bumps(op) then Bump else Idle
    case Commit(_) => if s.lock.op.id == id then Write(s.lock.op) else Idle
    case Abort => if Rewriting(s, id) then GiveUp else Idle
    case Run(p, outcome) =>
      var q := s.procs[p];
      if q.task != id || q.pc == After then Idle
      else if q.pc == Ready then if MayEnter(s.books, id, q.version) then Enter else Idle
      else Step(outcome)
    case Cancel(p) => if s.procs[p].task == id && Inside(s.procs[p].pc) then Stop else Idle
  }

  // ---- Every step is one of the small machine's ----------------------------------------

  lemma ActiveIs(s: State, p: Pid, id: Id)
    requires FiringOk(s) && InsideOf(s, p, id)
    ensures ActiveOf(s, id) == Some(Active(s.procs[p].pc, s.procs[p].stale))
  {
    forall q | InsideOf(s, q, id) ensures q == p {
      assert q in s.procs && p in s.procs && s.procs[q].task == s.procs[p].task;
    }
  }

  lemma NoneActive(s: State, id: Id)
    requires forall p :: !InsideOf(s, p, id)
    ensures ActiveOf(s, id) == None
  {
  }

  /** Processes inside the task are the same, up to staleness. */
  lemma SameActive(s: State, s': State, id: Id)
    requires FiringOk(s) && FiringOk(s')
    requires forall p :: InsideOf(s, p, id) <==> InsideOf(s', p, id)
    requires forall p :: InsideOf(s, p, id) ==> p in s'.procs && s'.procs[p] == s.procs[p]
    ensures ActiveOf(s', id) == ActiveOf(s, id)
  {
    if p :| InsideOf(s, p, id) {
      ActiveIs(s, p, id);
      ActiveIs(s', p, id);
    } else {
      NoneActive(s, id);
      NoneActive(s', id);
    }
  }

  /** Every other process is as before. */
  ghost predicate Others(s: State, s': State, p: Pid) {
    && (forall q :: q in s.procs && q != p ==> q in s'.procs && s'.procs[q] == s.procs[q])
    && (forall q :: q in s'.procs && q != p ==> q in s.procs)
    && (p in s.procs && p in s'.procs ==> s'.procs[p].task == s.procs[p].task && s'.procs[p].stale == s.procs[p].stale)
  }

  lemma LeaveOthers(s: State, p: Pid)
    requires p in s.procs
    ensures Others(s, Leave(s, p), p) && (p in Leave(s, p).procs ==> Leave(s, p).procs[p].pc == After)
    ensures Leave(s, p).rows == s.rows && Leave(s, p).lock == s.lock && Leave(s, p).nextId == s.nextId
  {
  }

  lemma RunOthers(s: State, p: Pid, outcome: Outcome)
    requires CanRun(s, p)
    ensures Others(s, RunStep(s, p, outcome), p)
  {
    match s.procs[p].pc
    case Ready =>
    case InMark => LeaveOthers(s, p);
    case Starting => LeaveOthers(s, p);
    case InCount(_) =>
    case InYield =>
    case InDefer =>
    case _ =>
  }

  lemma CancelOthers(s: State, p: Pid)
    requires p in s.procs
    ensures Others(s, CancelStep(s, p), p)
  {
    match s.procs[p].pc
    case WaitRestore => LeaveOthers(s, p);
    case InRestore => LeaveOthers(s, p);
    case _ =>
  }

  /** A step of another task's process. */
  lemma OthersActive(s: State, s': State, p: Pid, id: Id)
    requires FiringOk(s) && FiringOk(s') && Others(s, s', p) && p in s.procs && s.procs[p].task != id
    ensures ActiveOf(s', id) == ActiveOf(s, id)
  {
    SameActive(s, s', id);
  }

  /** A step of the process inside the task. */
  lemma OwnActive(s: State, s': State, p: Pid, id: Id)
    requires FiringOk(s) && FiringOk(s') && Others(s, s', p) && InsideOf(s, p, id)
    ensures ActiveOf(s, id) == Some(Active(s.procs[p].pc, s.procs[p].stale))
    ensures p in s'.procs && Inside(s'.procs[p].pc) ==>
            ActiveOf(s', id) == Some(Active(s'.procs[p].pc, s.procs[p].stale))
    ensures p !in s'.procs || !Inside(s'.procs[p].pc) ==> ActiveOf(s', id) == None
  {
    ActiveIs(s, p, id);
    if p in s'.procs && Inside(s'.procs[p].pc) {
      ActiveIs(s', p, id);
    } else {
      forall q ensures !InsideOf(s', q, id) {
        assert q != p && q in s'.procs ==> q in s.procs && s'.procs[q] == s.procs[q];
      }
      NoneActive(s', id);
    }
  }

  lemma RunRewriting(s: State, p: Pid, outcome: Outcome, id: Id)
    requires LockOk(s) && CanRun(s, p)
    ensures Rewriting(RunStep(s, p, outcome), id) == Rewriting(s, id)
    ensures RunStep(s, p, outcome).nextId == s.nextId
  {
    match s.procs[p].pc
    case InMark => LeaveOthers(s, p);
    case Starting => LeaveOthers(s, p);
    case InCount(_) =>
    case InYield =>
    case InDefer =>
    case InRestore =>
    case _ =>
  }

  lemma RunRowElsewhere(s: State, p: Pid, outcome: Outcome, id: Id)
    requires CanRun(s, p) && s.procs[p].task != id
    ensures RowOf(RunStep(s, p, outcome), id) == RowOf(s, id)
  {
    match s.procs[p].pc
    case InMark => LeaveOthers(s, p);
    case Starting => LeaveOthers(s, p);
    case InCount(_) =>
    case InYield =>
    case InDefer =>
    case InRestore =>
    case _ =>
  }

  ghost predicate Sees(s: State, s': State, id: Id, e: Event) {
    TaskOf(s', id) == After1(TaskOf(s, id), e)
  }

  lemma SeenAlike(s: State, s': State, id: Id)
    requires RowOf(s', id) == RowOf(s, id) && ActiveOf(s', id) == ActiveOf(s, id)
    requires Rewriting(s', id) == Rewriting(s, id) && s'.nextId == s.nextId
    ensures TaskOf(s', id) == TaskOf(s, id)
  {
  }

  lemma RunElsewhere(s: State, p: Pid, outcome: Outcome, id: Id, s': State)
    requires BooksOk(s) && CanRun(s, p) && s.procs[p].task != id && s' == RunStep(s, p, outcome)
    ensures TaskOf(s', id) == TaskOf(s, id)
  {
    RunKeeps(s, p, outcome);
    RunOthers(s, p, outcome);
    OthersActive(s, s', p, id);
    RunRowElsewhere(s, p, outcome, id);
    RunRewriting(s, p, outcome, id);
    SeenAlike(s, s', id);
  }

  lemma OutsideRow(s: State, p: Pid, outcome: Outcome)
    requires CanRun(s, p) && s.procs[p].pc in {Ready, After}
    ensures RunStep(s, p, outcome).rows == s.rows
    ensures p in RunStep(s, p, outcome).procs && Inside(RunStep(s, p, outcome).procs[p].pc) ==>
              s.procs[p].pc == Ready && MayEnter(s.books, s.procs[p].task, s.procs[p].version)
  {
  }

  /** A process that enters its firing. */
  lemma RunEnters(s: State, p: Pid, outcome: Outcome, s': State)
    requires BooksOk(s) && p in s.procs && s.procs[p].pc == Ready && s' == RunStep(s, p, outcome)
    requires MayEnter(s.books, s.procs[p].task, s.procs[p].version)
    ensures TaskOf(s', s.procs[p].task) == TaskOf(s, s.procs[p].task).(active := Some(Active(WaitMark, false)))
    ensures ActiveOf(s, s.procs[p].task) == None
  {
    var id := s.procs[p].task;
    RunKeeps(s, p, outcome);
    assert s'.procs[p] == s.procs[p].(pc := WaitMark);
    assert InsideOf(s', p, id);
    ActiveIs(s', p, id);
    NoneFiring(s, id);
  }

  lemma NoneFiring(s: State, id: Id)
    requires FiringOk(s) && id !in s.books.firing
    ensures ActiveOf(s, id) == None
  {
    NoneActive(s, id);
  }

  lemma RunStaysOut(s: State, p: Pid, outcome: Outcome, s': State)
    requires BooksOk(s) && CanRun(s, p) && s.procs[p].pc in {Ready, After} && s' == RunStep(s, p, outcome)
    requires s.procs[p].pc == Ready ==> !MayEnter(s.books, s.procs[p].task, s.procs[p].version)
    ensures TaskOf(s', s.procs[p].task) == TaskOf(s, s.procs[p].task)
  {
    var id := s.procs[p].task;
    RunKeeps(s, p, outcome);
    RunOthers(s, p, outcome);
    RunRewriting(s, p, outcome, id);
    OutsideRow(s, p, outcome);
    forall q ensures InsideOf(s, q, id) <==> InsideOf(s', q, id) {
      assert q != p && q in s.procs ==> s'.procs[q] == s.procs[q];
    }
    SameActive(s, s', id);
    SeenAlike(s, s', id);
  }

  /** A process outside its firing: it may enter, or owes only its callback. */
  lemma RunOutside(s: State, p: Pid, outcome: Outcome)
    requires BooksOk(s) && CanRun(s, p) && s.procs[p].pc in {Ready, After}
    ensures Sees(s, RunStep(s, p, outcome), s.procs[p].task, EventOf(s, Run(p, outcome), s.procs[p].task))
  {
    if s.procs[p].pc == Ready && MayEnter(s.books, s.procs[p].task, s.procs[p].version) {
      RunEnters(s, p, outcome, RunStep(s, p, outcome));
    } else {
      RunStaysOut(s, p, outcome, RunStep(s, p, outcome));
    }
  }

  /** The row and phase of a process inside its firing, after its step. */
  ghost predicate OwnStep(s: State, s': State, p: Pid, t: Task)
    requires p in s.procs
  {
    var id := s.procs[p].task;
    && t.row == RowOf(s', id)
    && (if p in s'.procs && Inside(s'.procs[p].pc) then t.active == Some(Active(s'.procs[p].pc, s.procs[p].stale))
        else t.active == None)
  }

  function Seen(s: State, p: Pid): Task
    requires p in s.procs
  {
    var id := s.procs[p].task;
    Task(RowOf(s, id), Some(Active(s.procs[p].pc, s.procs[p].stale)), Rewriting(s, id), id < s.nextId)
  }

  lemma OwnMark(s: State, p: Pid, outcome: Outcome)
    requires CanRun(s, p) && s.procs[p].pc == InMark
    ensures OwnStep(s, RunStep(s, p, outcome), p, Stepped(Seen(s, p), outcome))
  {
    LeaveOthers(s, p);
  }

  lemma OwnStarting(s: State, p: Pid, outcome: Outcome)
    requires VersionsOk(s) && CanRun(s, p) && s.procs[p].pc == Starting
    ensures OwnStep(s, RunStep(s, p, outcome), p, Stepped(Seen(s, p), outcome))
  {
    LeaveOthers(s, p);
  }

  lemma OwnCount(s: State, p: Pid, outcome: Outcome)
    requires CanRun(s, p) && s.procs[p].pc.InCount?
    ensures OwnStep(s, RunStep(s, p, outcome), p, Stepped(Seen(s, p), outcome))
  {
  }

  lemma OwnReschedule(s: State, p: Pid, outcome: Outcome)
    requires VersionsOk(s) && CanRun(s, p) && s.procs[p].pc in {InYield, InDefer}
    ensures OwnStep(s, RunStep(s, p, outcome), p, Stepped(Seen(s, p), outcome))
  {
  }

  lemma OwnRestore(s: State, p: Pid, outcome: Outcome)
    requires CanRun(s, p) && s.procs[p].pc == InRestore
    ensures OwnStep(s, RunStep(s, p, outcome), p, Stepped(Seen(s, p), outcome))
  {
  }

  lemma OwnMoves(s: State, p: Pid, outcome: Outcome)
    requires CanRun(s, p) && (Awaits(s.procs[p].pc) || s.procs[p].pc in {Dispatching, Stamping})
    ensures OwnStep(s, RunStep(s, p, outcome), p, Stepped(Seen(s, p), outcome))
  {
  }

  lemma OwnAny(s: State, p: Pid, outcome: Outcome)
    requires VersionsOk(s) && CanRun(s, p) && Inside(s.procs[p].pc)
    ensures OwnStep(s, RunStep(s, p, outcome), p, Stepped(Seen(s, p), outcome))
  {
    match s.procs[p].pc
    case InMark => OwnMark(s, p, outcome);
    case Starting => OwnStarting(s, p, outcome);
    case InCount(_) => OwnCount(s, p, outcome);
    case InYield => OwnReschedule(s, p, outcome);
    case InDefer => OwnReschedule(s, p, outcome);
    case InRestore => OwnRestore(s, p, outcome);
    case _ => OwnMoves(s, p, outcome);
  }

  lemma SeesOwn(s: State, s': State, p: Pid, t: Task)
    requires FiringOk(s) && FiringOk(s') && Others(s, s', p) && p in s.procs && Inside(s.procs[p].pc)
    requires OwnStep(s, s', p, t) && t.rewriting == Rewriting(s', s.procs[p].task)
             && t.born == (s.procs[p].task < s'.nextId)
    ensures TaskOf(s, s.procs[p].task) == Seen(s, p) && TaskOf(s', s.procs[p].task) == t
  {
    OwnActive(s, s', p, s.procs[p].task);
  }

  lemma SteppedKeepsRewriting(t: Task, outcome: Outcome)
    requires t.active.Some?
    ensures Stepped(t, outcome).rewriting == t.rewriting && Stepped(t, outcome).born == t.born
  {
  }

  lemma RunInside(s: State, p: Pid, outcome: Outcome)
    requires BooksOk(s) && CanRun(s, p) && Inside(s.procs[p].pc)
    ensures Sees(s, RunStep(s, p, outcome), s.procs[p].task, Step(outcome))
  {
    RunKeeps(s, p, outcome);
    RunOthers(s, p, outcome);
    RunRewriting(s, p, outcome, s.procs[p].task);
    OwnAny(s, p, outcome);
    SteppedKeepsRewriting(Seen(s, p), outcome);
    SeesOwn(s, RunStep(s, p, outcome), p, Stepped(Seen(s, p), outcome));
  }

  lemma RunSeen(s: State, p: Pid, outcome: Outcome, id: Id)
    requires BooksOk(s) && CanRun(s, p)
    ensures Sees(s, RunStep(s, p, outcome), id, EventOf(s, Run(p, outcome), id))
  {
    if s.procs[p].task != id {
      RunElsewhere(s, p, outcome, id, RunStep(s, p, outcome));
    } else if s.procs[p].pc in {Ready, After} {
      RunOutside(s, p, outcome);
    } else {
      RunInside(s, p, outcome);
    }
  }

  lemma CancelRest(s: State, p: Pid, id: Id)
    requires LockOk(s) && p in s.procs
    ensures CancelStep(s, p).rows == s.rows && Rewriting(CancelStep(s, p), id) == Rewriting(s, id)
    ensures CancelStep(s, p).nextId == s.nextId
  {
    match s.procs[p].pc
    case WaitRestore => LeaveOthers(s, p);
    case InRestore => LeaveOthers(s, p);
    case _ =>
  }

  lemma CancelInsideSeen(s: State, p: Pid)
    requires BooksOk(s) && p in s.procs && Inside(s.procs[p].pc)
    ensures Sees(s, CancelStep(s, p), s.procs[p].task, Stop)
  {
    var s', id := CancelStep(s, p), s.procs[p].task;
    CancelKeeps(s, p);
    CancelOthers(s, p);
    CancelRest(s, p, id);
    var t := Seen(s, p);
    CancelOwn(s, p);
    SeesOwn(s, s', p, if s.procs[p].pc in {WaitRestore, InRestore} then Ended(t, t.row) else Moved(t, WaitRestore));
  }

  lemma CancelOwn(s: State, p: Pid)
    requires LockOk(s) && p in s.procs && Inside(s.procs[p].pc)
    ensures var t := Seen(s, p);
            OwnStep(s, CancelStep(s, p), p, if s.procs[p].pc in {WaitRestore, InRestore} then Ended(t, t.row)
                    else Moved(t, WaitRestore))
  {
    CancelRest(s, p, s.procs[p].task);
    match s.procs[p].pc
    case WaitRestore => LeaveOthers(s, p);
    case InRestore => LeaveOthers(s, p);
    case _ =>
  }

  lemma CancelSeen(s: State, p: Pid, id: Id)
    requires BooksOk(s) && p in s.procs
    ensures Sees(s, CancelStep(s, p), id, EventOf(s, Cancel(p), id))
  {
    var s' := CancelStep(s, p);
    if s.procs[p].task == id && Inside(s.procs[p].pc) {
      CancelInsideSeen(s, p);
    } else {
      CancelKeeps(s, p);
      CancelOthers(s, p);
      CancelRest(s, p, id);
      CancelOutside(s, p, id);
    }
  }

  lemma CancelOutside(s: State, p: Pid, id: Id)
    requires p in s.procs && BooksOk(s) && BooksOk(CancelStep(s, p))
             && (s.procs[p].task != id || !Inside(s.procs[p].pc))
    ensures ActiveOf(CancelStep(s, p), id) == ActiveOf(s, id)
  {
    CancelOthers(s, p);
    if s.procs[p].task != id {
      OthersActive(s, CancelStep(s, p), p, id);
    } else {
      SameActive(s, CancelStep(s, p), id);
    }
  }

  // ---- Administration ------------------------------------------------------------------

  /** Making versions stale marks the process inside. */
  lemma StaleActive(s: State, id: Id, task: Id)
    requires BooksOk(s)
    ensures ActiveOf(Stale(s, task), id) == if task == id then Outdated(ActiveOf(s, id)) else ActiveOf(s, id)
  {
    var s' := Stale(s, task);
    StaleKeeps(s, task);
    StaleProcs(s, task);
    if p :| InsideOf(s, p, id) {
      ActiveIs(s, p, id);
      assert InsideOf(s', p, id);
      ActiveIs(s', p, id);
    } else {
      NoneActive(s, id);
      StaleKeepsNone(s, id, task);
    }
  }

  lemma StaleKeepsNone(s: State, id: Id, task: Id)
    requires forall p :: !InsideOf(s, p, id)
    ensures ActiveOf(Stale(s, task), id) == None
  {
    var s' := Stale(s, task);
    StaleProcs(s, task);
    forall p ensures !InsideOf(s', p, id) {
      assert !InsideOf(s, p, id);
    }
    NoneActive(s', id);
  }

  /** Taking the lock makes the process inside stale, for a call that bumps the version. */
  lemma BeginActive(s: State, op: AdminOp, id: Id)
    requires BooksOk(s) && s.lock == Free
    ensures ActiveOf(BeginStep(s, op), id)
            == if op.id == id && id in s.rows && Bumps(op) then Outdated(ActiveOf(s, id)) else ActiveOf(s, id)
  {
    var s1 := s.(lock := Admin(op));
    SameBooks(s, s1);
    ActiveByBooks(s, s1, id);
    if op.id in s.rows && Bumps(op) {
      StaleActive(s1, id, op.id);
      if op.Update? && op.change.renames {
        StaleKeeps(s1, op.id);
        StaleActive(Stale(s1, op.id), id, op.id);
      }
    }
  }

  lemma BeginRest(s: State, op: AdminOp)
    ensures BeginStep(s, op).rows == s.rows && BeginStep(s, op).lock == Admin(op) && BeginStep(s, op).nextId == s.nextId
  {
  }

  lemma BeginSeen(s: State, op: AdminOp, id: Id)
    requires BooksOk(s) && s.lock == Free
    ensures Sees(s, BeginStep(s, op), id, EventOf(s, Begin(op), id))
  {
    BeginActive(s, op, id);
    BeginRest(s, op);
  }

  /** Equal processes are seen equally. */
  lemma ActiveByBooks(s: State, s': State, id: Id)
    requires FiringOk(s) && FiringOk(s') && s'.procs == s.procs
    ensures ActiveOf(s', id) == ActiveOf(s, id)
  {
    SameActive(s, s', id);
  }

  lemma AddedActive(s: State, s': State, id: Id)
    requires FiringOk(s) && FiringOk(s')
    requires forall p :: p in s.procs ==> p in s'.procs && s'.procs[p] == s.procs[p]
    requires forall p :: p in s'.procs && p !in s.procs ==> !Inside(s'.procs[p].pc) || s'.procs[p].task != id
    ensures ActiveOf(s', id) == ActiveOf(s, id)
  {
    SameActive(s, s', id);
  }

  lemma CommitProcs(s: State, cut: bool)
    requires Fresh(s) && s.lock.Admin? && s.lock.op.id in s.rows
    ensures forall q :: q in s.procs ==> q in CommitStep(s, cut).procs && CommitStep(s, cut).procs[q] == s.procs[q]
    ensures forall q :: q in CommitStep(s, cut).procs && q !in s.procs ==> CommitStep(s, cut).procs[q].pc == Ready
  {
  }

  lemma CommitRow(s: State, cut: bool, id: Id)
    requires s.lock.Admin? && s.lock.op.id in s.rows
    ensures RowOf(CommitStep(s, cut), id) == if s.lock.op.id == id then Written(s.rows[id], s.lock.op) else RowOf(s, id)
    ensures CommitStep(s, cut).lock == Free && CommitStep(s, cut).nextId == s.nextId
  {
  }

  lemma CommitSeen(s: State, cut: bool, id: Id)
    requires BooksOk(s) && s.lock.Admin? && s.lock.op.id in s.rows
    ensures Sees(s, CommitStep(s, cut), id, EventOf(s, Commit(cut), id))
  {
    CommitKeeps(s, cut);
    CommitProcs(s, cut);
    AddedActive(s, CommitStep(s, cut), id);
    CommitRow(s, cut, id);
  }

  lemma AbortSeen(s: State, id: Id)
    requires BooksOk(s) && s.lock.Admin?
    ensures Sees(s, AbortStep(s), id, EventOf(s, Abort, id))
  {
    SameBooks(s, AbortStep(s));
    ActiveByBooks(s, AbortStep(s), id);
  }

  lemma CreateSeen(s: State, row: TaskRow, id: Id)
    requires BooksOk(s) && Enabled(s, Create(row)) && (id == s.nextId ==> id !in s.rows)
    ensures Sees(s, Do(s, Create(row)), id, EventOf(s, Create(row), id))
  {
    SameBooks(s, Do(s, Create(row)));
    ActiveByBooks(s, Do(s, Create(row)), id);
  }

  lemma SpawnSeen(s: State, task: Id, id: Id)
    requires BooksOk(s)
    ensures Sees(s, Spawn1(s, task), id, Idle)
  {
    SpawnKeeps(s, task, Spawn1(s, task));
    AddedActive(s, Spawn1(s, task), id);
  }

  lemma TimerSeen(s: State, task: Id, id: Id)
    requires BooksOk(s)
    ensures Sees(s, Do(s, TimerFire(task)), id, EventOf(s, TimerFire(task), id))
  {
    var s' := Do(s, TimerFire(task));
    TimerKeeps(s, task, s');
    if task == id && id !in s.books.firing {
      assert InsideOf(s', s.nextPid, id);
      ActiveIs(s', s.nextPid, id);
      assert s'.procs[s.nextPid] == Proc(id, Version(s.books, id), false, WaitMark, false);
    } else {
      AddedActive(s, s', id);
    }
  }

  lemma RunMay(s: State, p: Pid, outcome: Outcome, id: Id)
    requires BooksOk(s) && CanRun(s, p)
    ensures May(TaskOf(s, id), EventOf(s, Run(p, outcome), id))
  {
    if s.procs[p].task == id && Inside(s.procs[p].pc) {
      assert InsideOf(s, p, id);
      ActiveIs(s, p, id);
    } else if s.procs[p].task == id && s.procs[p].pc == Ready && id !in s.books.firing {
      NoneFiring(s, id);
    }
  }

  lemma OtherMay(s: State, a: Action, id: Id)
    requires BooksOk(s) && Enabled(s, a) && !a.Run?
    ensures May(TaskOf(s, id), EventOf(s, a, id))
  {
    match a
    case TimerFire(task) =>
      if id !in s.books.firing {
        NoneFiring(s, id);
      }
    case Cancel(p) =>
      if s.procs[p].task == id && Inside(s.procs[p].pc) {
        assert InsideOf(s, p, id);
        ActiveIs(s, p, id);
      }
    case _ =>
  }

  lemma EventMay(s: State, a: Action, id: Id)
    requires BooksOk(s) && Enabled(s, a)
    ensures May(TaskOf(s, id), EventOf(s, a, id))
  {
    match a
    case Run(p, outcome) => RunMay(s, p, outcome, id);
    case _ => OtherMay(s, a, id);
  }

  /** Every step of the system is one event for each task. */
  lemma StepSeen(s: State, a: Action, id: Id)
    requires BooksOk(s) && Enabled(s, a) && TaskOk(TaskOf(s, id))
    ensures TaskOf(Do(s, a), id) == After1(TaskOf(s, id), EventOf(s, a, id))
    ensures May(TaskOf(s, id), EventOf(s, a, id))
  {
    EventMay(s, a, id);
    match a
    case Create(row) => CreateSeen(s, row, id);
    case Spawn(task) => SpawnSeen(s, task, id);
    case TimerFire(task) => TimerSeen(s, task, id);
    case Begin(op) => BeginSeen(s, op, id);
    case Commit(cut) => CommitSeen(s, cut, id);
    case Abort => AbortSeen(s, id);
    case Run(p, outcome) => RunSeen(s, p, outcome, id);
    case Cancel(p) => CancelSeen(s, p, id);
  }

  lemma InitTask(id: Id)
    ensures TaskOf(Init(), id) == Task(None, None, false, false)
  {
    NoneActive(Init(), id);
  }

  lemma StepOk(s: State, a: Action, id: Id)
    requires BooksOk(s) && Enabled(s, a) && TaskOk(TaskOf(s, id))
    ensures BooksOk(Do(s, a)) && TaskOk(TaskOf(Do(s, a), id))
  {
    BooksKept(s, a);
    StepSeen(s, a, id);
    TaskOkKept(TaskOf(s, id), EventOf(s, a, id));
  }

  lemma {:induction false} TaskOkAlways(s: State, actions: seq<Action>, end: State, id: Id)
    requires BooksOk(s) && TaskOk(TaskOf(s, id)) && Reaches(s, actions, end)
    ensures BooksOk(end) && TaskOk(TaskOf(end, id))
    decreases |actions|
  {
    if actions != [] {
      StepOk(s, actions[0], id);
      TaskOkAlways(Do(s, actions[0]), actions[1..], end, id);
    }
  }

  lemma Reachable(actions: seq<Action>, s: State, id: Id)
    requires Reaches(Init(), actions, s)
    ensures BooksOk(s) && TaskOk(TaskOf(s, id))
  {
    InitBooks();
    InitTask(id);
    TaskOkAlways(Init(), actions, s, id);
  }
}
