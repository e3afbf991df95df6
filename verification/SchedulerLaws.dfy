/**
 What the scheduler makes of a row, field by field: by a count, by an administrative call,
 and by a firing left alone; and what a completed and a paused row mean along any run.
 */
module SchedulerLaws {
  import opened Wrappers
  import opened Scheduler
  import opened SchedulerSteps
  import opened SchedulerBooks
  import opened SchedulerTask

  /** The count, the limit and the kind of schedule are the same. */
  ghost predicate SamePlan(r: TaskRow, r': TaskRow) {
    r'.runCount == r.runCount && r'.maxRuns == r.maxRuns && r'.oneShot == r.oneShot
  }

  ghost predicate UsedUp(r: TaskRow) {
    match r.maxRuns
    case None => false
    case Some(max) => r.runCount >= max
  }

  ghost predicate Is(r: TaskRow, enabled: bool, status: Status) {
    r.enabled == enabled && r.status == status
  }

  // ---- A count -------------------------------------------------------------------------

  /**
   One run more. A disabled or paused row otherwise stays as it is; an error fails the row;
   a good run completes it when it was the last one or the schedule is one-shot, and only
   the last one disables it.
   */
  lemma CountMeans(r: TaskRow, error: bool)
    ensures var n := Counted(r, error);
            var last := match r.maxRuns case None => false case Some(max) => r.runCount + 1 >= max;
            && n.runCount == r.runCount + 1 && n.maxRuns == r.maxRuns && n.oneShot == r.oneShot
            && (!r.enabled || r.status == Paused ==> Is(n, r.enabled, r.status))
            && (r.enabled && r.status != Paused && error ==> Is(n, true, Failed))
            && (r.enabled && r.status != Paused && !error && last ==> Is(n, false, Completed))
            && (r.enabled && r.status != Paused && !error && !last && r.oneShot ==> Is(n, true, Completed))
            && (r.enabled && r.status != Paused && !error && !last && !r.oneShot ==> Is(n, true, Pending))
  {
  }

  // ---- Administrative calls ------------------------------------------------------------

  /** A row that is stopped: disabled and completed when its runs are used up. */
  ghost predicate StopsOr(r': TaskRow, enabled: bool, status: Status) {
    if UsedUp(r') then Is(r', false, Completed) else Is(r', enabled, status)
  }

  /**
   What a call has made of its row when it lets go of the lock. An update puts a running row
   back to pending, or to paused when it disables it, and leaves any other status; a trigger
   enables a disabled or paused row.
   */
  lemma CallMeans(s: State, cut: bool)
    requires s.lock.Admin? && s.lock.op.id in s.rows
    ensures var id := s.lock.op.id; var r := s.rows[id]; var rows := CommitStep(s, cut).rows;
            match s.lock.op
            case Update(_, c) =>
              && id in rows && rows[id].runCount == r.runCount
              && rows[id].maxRuns == (match c.maxRuns case None => r.maxRuns case Some(m) => m)
              && rows[id].oneShot == (match c.oneShot case None => r.oneShot case Some(o) => o)
              && var enabled := match c.enabled case None => r.enabled case Some(e) => e;
                 StopsOr(rows[id], enabled, if r.status != Running then r.status else if enabled then Pending
                         else Paused)
            case Pause(_) => id in rows && SamePlan(r, rows[id]) && Is(rows[id], false, Paused)
            case Resume(_) => id in rows && SamePlan(r, rows[id]) && StopsOr(rows[id], true, Pending)
            case Remove(_) => id !in rows
            case Trigger(_) =>
              id in rows && SamePlan(r, rows[id])
              && StopsOr(rows[id], true, if !r.enabled || r.status == Paused then Pending else r.status)
    ensures forall id :: id in s.rows && id != s.lock.op.id ==>
              id in CommitStep(s, cut).rows && CommitStep(s, cut).rows[id] == s.rows[id]
  {
  }

  /** A new firing is owed exactly after a trigger of a row with runs left that is not cut off. */
  lemma CallSpawns(s: State, cut: bool)
    requires Fresh(s) && s.lock.Admin? && s.lock.op.id in s.rows
    ensures var id := s.lock.op.id; var s' := CommitStep(s, cut);
            if s.lock.op.Trigger? && !UsedUp(s.rows[id]) && !cut
            then s'.procs == s.procs[s.nextPid := Proc(id, Version(s.books, id), true, Ready, false)]
                 && Owed(s'.books, id) == Owed(s.books, id) + 1
            else s'.procs == s.procs && s'.books == s.books
  {
  }

  /** A task is stored as given, under a new id, unless its runs are used up from the start. */
  lemma CreateMeans(s: State, row: TaskRow)
    requires Enabled(s, Create(row))
    ensures var s' := Do(s, Create(row)); var id := s.nextId;
            && id in s'.rows && SamePlan(row, s'.rows[id]) && StopsOr(s'.rows[id], row.enabled, row.status)
            && s'.nextId == id + 1 && s'.procs == s.procs && s'.books == s.books && s'.lock == s.lock
  {
  }

  ghost predicate Kept(b: Books, task: Id) {
    task in b.firing || task in b.pending
  }

  lemma VersionMoves(b: Books, id: Id, task: Id)
    requires Kept(b, task)
    ensures Version(Invalidated(b, id), task) == Version(b, task) + if task == id then 1 else 0
    ensures Kept(Invalidated(b, id), task)
  {
  }

  lemma BeginBooks(s: State, op: AdminOp)
    ensures var s' := BeginStep(s, op); var b := Invalidated(s.books, op.id);
            && s'.lock == Admin(op) && s'.rows == s.rows && s'.procs.Keys == s.procs.Keys
            && (forall p :: p in s.procs ==> s'.procs[p].version == s.procs[p].version)
            && s'.books == if op.id !in s.rows || op.Trigger? then s.books
                           else if op.Update? && op.change.renames then Invalidated(b, op.id) else b
  {
  }

  /**
   What a call does when it takes the lock: an update, pause, resume or removal of a task that
   exists outdates every version captured for it so far, and no other; a trigger, or a call
   on a task that does not exist, outdates none.
   */
  lemma CallOutdates(s: State, op: AdminOp, p: Pid)
    requires BooksOk(s) && s.lock == Free && p in s.procs && s.procs[p].pc != After
    ensures var q := s.procs[p]; var s' := BeginStep(s, op);
            && p in s'.procs && s'.procs[p].version == q.version
            && (Version(s'.books, q.task) == q.version
                <==> Version(s.books, q.task) == q.version
                     && !(op.id in s.rows && q.task == op.id && (op.Update? || op.Pause? || op.Resume? || op.Remove?)))
  {
    var task := s.procs[p].task;
    LiveIsKept(s, p);
    BeginBooks(s, op);
    VersionMoves(s.books, op.id, task);
    VersionMoves(Invalidated(s.books, op.id), op.id, task);
  }

  // ---- How a firing begins and ends ----------------------------------------------------

  /** A spawned firing enters exactly when its version is current and the task is not firing; else it is over. */
  lemma EntryMeans(s: State, p: Pid, outcome: Outcome)
    requires p in s.procs && s.procs[p].pc == Ready
    ensures var q := s.procs[p]; var s' := Do(s, Run(p, outcome));
            && p in s'.procs && s'.rows == s.rows
            && if Version(s.books, q.task) == q.version && q.task !in s.books.firing
               then s'.procs[p].pc == WaitMark && s'.books.firing == s.books.firing + {q.task}
               else s'.procs[p].pc == After && s'.books == s.books
  {
  }

  /** A timer's firing enters at once, under the current version, exactly when the task is not firing. */
  lemma TimerMeans(s: State, id: Id)
    ensures var s' := Do(s, TimerFire(id));
            if id in s.books.firing then s' == s
            else s'.procs == s.procs[s.nextPid := Proc(id, Version(s.books, id), false, WaitMark, false)]
                 && s'.books.firing == s.books.firing + {id} && s'.rows == s.rows && s'.lock == s.lock
  {
  }

  /**
   A cancellation ends a firing that has not begun, and one that is already restoring its
   row; one that has ended it does not touch. It writes no row.
   */
  lemma CancelMeans(s: State, p: Pid)
    requires p in s.procs
    ensures var q := s.procs[p]; var s' := CancelStep(s, p);
            && s'.rows == s.rows
            && (q.pc == After ==> s' == s)
            && (q.pc == Ready ==> s'.procs == s.procs[p := q.(pc := After)] && s'.books == s.books)
            && (q.pc in {WaitRestore, InRestore} ==>
                  (p in s'.procs <==> q.spawned) && (p in s'.procs ==> s'.procs[p].pc == After)
                  && s'.books.firing == s.books.firing - {q.task})
            && (Inside(q.pc) && q.pc !in {WaitRestore, InRestore} ==> p in s'.procs && s'.procs[p].pc == WaitRestore)
  {
  }

  // ---- A firing left alone -------------------------------------------------------------

  /** The firing has the given phase, nobody holds the lock, and its row exists. */
  ghost predicate Alone(s: State, p: Pid, id: Id, pc: Pc) {
    p in s.procs && s.procs[p].task == id && s.procs[p].pc == pc && s.lock == Free && id in s.rows
  }

  lemma Starts(s: State)
    ensures From(s, s)
  {
    assert Reaches(s, [], s);
  }

  /** From its turn to count, it counts. */
  lemma Counts(s: State, p: Pid, id: Id, error: bool) returns (end: State)
    requires Alone(s, p, id, WaitCount(error))
    ensures From(s, end) && end.rows == s.rows[id := Counted(s.rows[id], error)]
  {
    var t := Do(s, Run(p, Good));
    Starts(s);
    Next(s, s, Run(p, Good), t);
    end := Do(t, Run(p, Good));
    Next(s, t, Run(p, Good), end);
  }

  /** Whatever the agent answers, the row is counted: as a good run exactly when nothing failed. */
  lemma DispatchCounts(s: State, p: Pid, id: Id, outcome: Outcome) returns (end: State)
    requires Alone(s, p, id, Dispatching) && outcome != Busy
    ensures From(s, end) && end.rows == s.rows[id := Counted(s.rows[id], outcome == Bad)]
  {
    var t := Do(s, Run(p, outcome));
    Starts(s);
    Next(s, s, Run(p, outcome), t);
    if outcome == Bad {
      end := Counts(t, p, id, true);
      Onwards(s, t, end);
    } else {
      var u := Do(t, Run(p, Good));
      Next(s, t, Run(p, Good), u);
      end := Counts(u, p, id, false);
      Onwards(s, u, end);
    }
  }

  ghost predicate PuttingOff(s: State, p: Pid, id: Id) {
    Alone(s, p, id, WaitYield) || Alone(s, p, id, WaitDefer)
  }

  lemma RefusedWaits(s: State, p: Pid, id: Id) returns (t: State)
    requires Alone(s, p, id, Dispatching)
             || (Alone(s, p, id, Starting) && s.procs[p].version == Version(s.books, id))
    ensures From(s, t) && t.rows == s.rows && t.books == s.books && PuttingOff(t, p, id)
    ensures t.procs[p].version == s.procs[p].version
  {
    t := Do(s, Run(p, Busy));
    Starts(s);
    Next(s, s, Run(p, Busy), t);
  }

  lemma TakesTurn(s: State, p: Pid, id: Id) returns (t: State)
    requires PuttingOff(s, p, id)
    ensures From(s, t) && t.rows == s.rows && t.books == s.books && p in t.procs && t.procs[p].pc in {InYield, InDefer}
    ensures t.procs[p].version == s.procs[p].version && t.procs[p].task == id
  {
    t := Do(s, Run(p, Good));
    Starts(s);
    Next(s, s, Run(p, Good), t);
  }

  /** The row after a firing that was put off: back to pending when the firing is current and the row is live. */
  ghost predicate PutBack(r: TaskRow, current: bool, r': TaskRow) {
    if current && r.enabled && r.status != Paused then SamePlan(r, r') && Is(r', true, Pending) else r' == r
  }

  lemma PutsBack(s: State, p: Pid, id: Id) returns (end: State)
    requires p in s.procs && s.procs[p].task == id && s.procs[p].pc in {InYield, InDefer} && id in s.rows
    ensures From(s, end) && end.rows.Keys == s.rows.Keys
    ensures PutBack(s.rows[id], s.procs[p].version == Version(s.books, id), end.rows[id])
  {
    end := Do(s, Run(p, Good));
    Starts(s);
    Next(s, s, Run(p, Good), end);
  }

  /**
   A refused dispatch, or a busy session before it, counts nothing: the row of a current
   firing goes back to pending, and a stale firing, a disabled row or a paused one changes
   nothing.
   */
  lemma PutOff(s: State, p: Pid, id: Id) returns (end: State)
    requires Alone(s, p, id, Dispatching)
             || (Alone(s, p, id, Starting) && s.procs[p].version == Version(s.books, id))
    ensures From(s, end) && end.rows.Keys == s.rows.Keys
    ensures PutBack(s.rows[id], s.procs[p].version == Version(s.books, id), end.rows[id])
  {
    var t := RefusedWaits(s, p, id);
    var u := TakesTurn(t, p, id);
    end := PutsBack(u, p, id);
    Onwards(s, t, u);
    Onwards(s, u, end);
  }

  lemma Cancelled(s: State, p: Pid, id: Id, pc: Pc) returns (t: State)
    requires Alone(s, p, id, pc) && Inside(pc) && !Holds(pc) && pc != WaitRestore
    ensures From(s, t) && t.rows == s.rows && Alone(t, p, id, WaitRestore)
  {
    t := Do(s, Cancel(p));
    Starts(s);
    Next(s, s, Cancel(p), t);
  }

  lemma Restores(s: State, p: Pid, id: Id) returns (end: State)
    requires Alone(s, p, id, WaitRestore)
    ensures From(s, end) && end.rows.Keys == s.rows.Keys && SamePlan(s.rows[id], end.rows[id])
    ensures var r := s.rows[id];
            Is(end.rows[id], r.enabled, if r.status != Running then r.status else if r.enabled then Pending else Paused)
  {
    var u := Do(s, Run(p, Good));
    Starts(s);
    Next(s, s, Run(p, Good), u);
    end := Do(u, Run(p, Good));
    Next(s, u, Run(p, Good), end);
  }

  /** A cancelled firing puts a running row back, to pending or, when it is disabled, to paused. */
  lemma CancelRestores(s: State, p: Pid, id: Id, pc: Pc) returns (end: State)
    requires Alone(s, p, id, pc) && Inside(pc) && !Holds(pc) && pc != WaitRestore
    ensures From(s, end) && end.rows.Keys == s.rows.Keys && SamePlan(s.rows[id], end.rows[id])
    ensures var r := s.rows[id];
            Is(end.rows[id], r.enabled, if r.status != Running then r.status else if r.enabled then Pending else Paused)
  {
    var t := Cancelled(s, p, id, pc);
    end := Restores(t, p, id);
    Onwards(s, t, end);
  }

  /** A firing's mark: exactly a row that is enabled and has runs left is set running. */
  lemma MarkMeans(s: State, p: Pid, id: Id) returns (end: State)
    requires Alone(s, p, id, WaitMark)
    ensures From(s, end)
    ensures if s.rows[id].enabled && !UsedUp(s.rows[id])
            then end.rows == s.rows[id := s.rows[id].(status := Running)] && Alone(end, p, id, Starting)
            else end.rows == s.rows && (p in end.procs ==> end.procs[p].pc == After)
  {
    var t := Do(s, Run(p, Good));
    Starts(s);
    Next(s, s, Run(p, Good), t);
    end := Do(t, Run(p, Good));
    Next(s, t, Run(p, Good), end);
  }

  // ---- Completed and paused rows -------------------------------------------------------

  /** A completed row is one-shot or has its runs used up. */
  ghost predicate DoneRight(r: TaskRow) {
    r.status == Completed ==> r.oneShot || UsedUp(r)
  }

  /** A paused row is disabled. */
  ghost predicate PauseRight(r: TaskRow) {
    r.status == Paused ==> !r.enabled
  }

  ghost predicate RowRight(t: Task) {
    t.row.Some? ==> DoneRight(t.row.value) && PauseRight(t.row.value)
  }

  /** An update that touches what the two laws speak of. */
  predicate EditsPlan(op: AdminOp) {
    op.Update? && (op.change.maxRuns.Some? || op.change.oneShot.Some? || op.change.enabled.Some?)
  }

  lemma RightSteps(t: Task, e: Event)
    requires TaskOk(t) && May(t, e) && RowRight(t) && (e.Write? ==> !EditsPlan(e.op))
    ensures RowRight(After1(t, e))
  {
    match e
    case Step(outcome) => RightStep(t, outcome);
    case _ =>
  }

  lemma RightStep(t: Task, outcome: Outcome)
    requires TaskOk(t) && t.active.Some? && RowRight(t)
    ensures RowRight(Stepped(t, outcome))
  {
  }

  /** The action writes such an update into the row. */
  predicate PlanEdited(s: State, a: Action, id: Id) {
    a.Commit? && s.lock.Admin? && s.lock.op.id == id && EditsPlan(s.lock.op)
  }

  ghost predicate NoPlanEdits(s: State, actions: seq<Action>, id: Id)
    decreases |actions|
  {
    actions != [] && Enabled(s, actions[0]) ==>
      !PlanEdited(s, actions[0], id) && NoPlanEdits(Do(s, actions[0]), actions[1..], id)
  }

  lemma {:induction false} RightRun(s: State, actions: seq<Action>, end: State, id: Id)
    requires BooksOk(s) && TaskOk(TaskOf(s, id)) && RowRight(TaskOf(s, id))
    requires Reaches(s, actions, end) && NoPlanEdits(s, actions, id)
    ensures RowRight(TaskOf(end, id))
    decreases |actions|
  {
    if actions != [] {
      StepOk(s, actions[0], id);
      StepSeen(s, actions[0], id);
      assert EventOf(s, actions[0], id).Write? ==> EventOf(s, actions[0], id).op == s.lock.op && s.lock.op.id == id;
      RightSteps(TaskOf(s, id), EventOf(s, actions[0], id));
      RightRun(Do(s, actions[0]), actions[1..], end, id);
    }
  }

  /**
   Along any continuation from a reachable state in which it holds, a completed row is
   one-shot or used up and a paused one is disabled, while no update of the task changes its
   limit, its kind of schedule or whether it is enabled.
   */
  lemma CompletedAndPaused(before: seq<Action>, s: State, actions: seq<Action>, end: State, id: Id)
    requires Reaches(Init(), before, s) && Reaches(s, actions, end) && NoPlanEdits(s, actions, id)
    requires id in s.rows ==> DoneRight(s.rows[id]) && PauseRight(s.rows[id])
    ensures id in end.rows ==> DoneRight(end.rows[id]) && PauseRight(end.rows[id])
  {
    Reachable(before, s, id);
    RightRun(s, actions, end, id);
  }

  /** What such an update must not do, exactly. */
  lemma EditRightIff(s: State, cut: bool, id: Id)
    requires s.lock.Admin? && s.lock.op.Update? && s.lock.op.id == id && id in s.rows
    requires DoneRight(s.rows[id]) && PauseRight(s.rows[id])
    ensures var r, r' := s.rows[id], CommitStep(s, cut).rows[id];
            && (DoneRight(r') <==> UsedUp(r') || r.status != Completed || r'.oneShot)
            && (PauseRight(r') <==> UsedUp(r') || r.status != Paused || s.lock.op.change.enabled != Some(true))
  {
  }
}
