/**
 Run limits: when the run count of a task is safe from passing its limit, whatever timers,
 agents and callers do next, and what an edit of the limit must leave room for.
 */
module SchedulerLimits {
  import opened Wrappers
  import opened Scheduler
  import opened SchedulerSteps
  import opened SchedulerBooks
  import opened SchedulerTask

  predicate Within(r: TaskRow) {
    r.maxRuns.Some? ==> r.runCount <= r.maxRuns.value
  }

  /** A firing that has passed the mark and may yet be counted: stale ones stand down. */
  predicate MayCount(active: Active) {
    (active.pc == Starting && !active.stale) || Unsettled(active.pc)
  }

  function Coming(t: Task): nat {
    if t.active.Some? && MayCount(t.active.value) then 1 else 0
  }

  /** The limit has room for the runs counted and the one that may be. */
  predicate Roomy(t: Task) {
    t.row.Some? && t.row.value.maxRuns.Some? ==> t.row.value.runCount + Coming(t) <= t.row.value.maxRuns.value
  }

  predicate EditsLimit(op: AdminOp) {
    op.Update? && op.change.maxRuns.Some?
  }

  /** Nothing but an edit of the limit takes the room. */
  lemma RoomySteps(t: Task, e: Event)
    requires TaskOk(t) && May(t, e) && Roomy(t) && (e.Write? ==> !EditsLimit(e.op))
    ensures Roomy(After1(t, e))
  {
  }

  /** After an edit there is room exactly when the new limit leaves it. */
  lemma RoomyEdit(t: Task, op: AdminOp)
    requires t.row.Some? && EditsLimit(op)
    ensures Roomy(After1(t, Write(op)))
            <==> (op.change.maxRuns.value.Some? ==> t.row.value.runCount + Coming(t) <= op.change.maxRuns.value.value)
  {
  }

  /** The action writes a new limit into the row. */
  predicate EditsNow(s: State, a: Action, id: Id) {
    a.Commit? && s.lock.Admin? && s.lock.op.id == id && EditsLimit(s.lock.op)
  }

  ghost predicate NoEdits(s: State, actions: seq<Action>, id: Id)
    decreases |actions|
  {
    actions != [] && Enabled(s, actions[0]) ==>
      !EditsNow(s, actions[0], id) && NoEdits(Do(s, actions[0]), actions[1..], id)
  }

  /** Some firing of the task is past its mark and may be counted. */
  ghost predicate Countable(s: State, id: Id) {
    exists p :: p in s.procs && s.procs[p].task == id && MayCount(Active(s.procs[p].pc, s.procs[p].stale))
  }

  /** Whatever follows, short of an edit of the limit, the row stays within its limit. */
  ghost predicate Safe(s: State, id: Id) {
    forall actions, end :: Reaches(s, actions, end) && NoEdits(s, actions, id) && id in end.rows ==>
        Within(end.rows[id])
  }

  lemma CountableIs(s: State, id: Id)
    requires BooksOk(s)
    ensures Coming(TaskOf(s, id)) == if Countable(s, id) then 1 else 0
  {
    if p :| InsideOf(s, p, id) {
      ActiveIs(s, p, id);
      forall q | q in s.procs && s.procs[q].task == id && MayCount(Active(s.procs[q].pc, s.procs[q].stale))
        ensures q == p {
        assert InsideOf(s, q, id);
      }
    } else {
      NoneActive(s, id);
      forall q | q in s.procs && s.procs[q].task == id ensures !MayCount(Active(s.procs[q].pc, s.procs[q].stale)) {
        assert !InsideOf(s, q, id);
      }
    }
  }

  lemma WriteIsCommit(s: State, a: Action, id: Id)
    requires BooksOk(s) && Enabled(s, a)
    ensures EventOf(s, a, id).Write? ==> a.Commit? && EventOf(s, a, id).op == s.lock.op && s.lock.op.id == id
  {
  }

  lemma {:induction false} RoomyRun(s: State, actions: seq<Action>, end: State, id: Id)
    requires BooksOk(s) && TaskOk(TaskOf(s, id)) && Roomy(TaskOf(s, id))
    requires Reaches(s, actions, end) && NoEdits(s, actions, id)
    ensures Roomy(TaskOf(end, id))
    decreases |actions|
  {
    if actions != [] {
      StepOk(s, actions[0], id);
      StepSeen(s, actions[0], id);
      WriteIsCommit(s, actions[0], id);
      RoomySteps(TaskOf(s, id), EventOf(s, actions[0], id));
      RoomyRun(Do(s, actions[0]), actions[1..], end, id);
    }
  }

  // ---- The run that passes the limit when there is no room -----------------------------

  lemma Then(s: State, a: Action, rest: seq<Action>, end: State)
    requires Enabled(s, a) && Reaches(Do(s, a), rest, end)
    ensures Reaches(s, [a] + rest, end)
  {
    assert ([a] + rest)[1..] == rest;
  }

  lemma ThenNoEdits(s: State, a: Action, rest: seq<Action>, id: Id)
    requires Enabled(s, a) && !a.Commit? && NoEdits(Do(s, a), rest, id)
    ensures NoEdits(s, [a] + rest, id)
  {
    assert ([a] + rest)[1..] == rest;
  }

  /** Steps left until the firing is counted, with the lock free. */
  function Rank(pc: Pc): nat {
    match pc
    case Starting => 5
    case Dispatching => 4
    case Stamping => 3
    case WaitCount(_) => 2
    case InCount(_) => 1
    case _ => 0
  }

  ghost predicate Ripe(s: State, p: Pid, id: Id) {
    && p in s.procs && s.procs[p].task == id && MayCount(Active(s.procs[p].pc, s.procs[p].stale))
    && id in s.rows
    && s.lock == if s.procs[p].pc.InCount? then Firing(p) else Free
  }

  /** The row without what a count changes. */
  lemma RipeStep(s: State, p: Pid, id: Id)
    requires BooksOk(s) && Ripe(s, p, id) && !s.procs[p].pc.InCount?
    ensures Enabled(s, Run(p, Good)) && Ripe(Do(s, Run(p, Good)), p, id)
    ensures Do(s, Run(p, Good)).rows == s.rows && Rank(Do(s, Run(p, Good)).procs[p].pc) < Rank(s.procs[p].pc)
  {
  }

  lemma {:induction false} RipeCounts(s: State, p: Pid, id: Id) returns (actions: seq<Action>, end: State)
    requires BooksOk(s) && Ripe(s, p, id)
    ensures Reaches(s, actions, end) && NoEdits(s, actions, id)
    ensures id in end.rows && end.rows[id].runCount == s.rows[id].runCount + 1
            && end.rows[id].maxRuns == s.rows[id].maxRuns
    decreases Rank(s.procs[p].pc)
  {
    var a := Run(p, Good);
    var t := Do(s, a);
    if s.procs[p].pc.InCount? {
      actions, end := [], t;
      assert t == RunCount(s, p);
    } else {
      RipeStep(s, p, id);
      BooksKept(s, a);
      actions, end := RipeCounts(t, p, id);
    }
    Then(s, a, actions, end);
    ThenNoEdits(s, a, actions, id);
    actions := [a] + actions;
  }

  ghost predicate Due(s: State, p: Pid, id: Id) {
    p in s.procs && s.procs[p].task == id && MayCount(Active(s.procs[p].pc, s.procs[p].stale)) && id in s.rows
  }

  /** The firing that holds the lock is cancelled: it lets go of the lock, and of nothing else here. */
  lemma CancelHolder(s: State, p: Pid, q: Pid, id: Id)
    requires BooksOk(s) && Due(s, p, id) && s.lock == Firing(q) && q != p
    ensures q in s.procs && CancelStep(s, q).rows == s.rows && CancelStep(s, q).lock == Free
    ensures p in CancelStep(s, q).procs && CancelStep(s, q).procs[p] == s.procs[p]
  {
    assert Holds(s.procs[q].pc);
    LeaveOthers(s, q);
  }

  /** The lock can be had: its holder is cancelled, or gives up. */
  lemma Loosen(s: State, p: Pid, id: Id) returns (a: Action)
    requires BooksOk(s) && Due(s, p, id) && s.lock != Free && s.lock != Firing(p)
    ensures Enabled(s, a) && !a.Commit? && Do(s, a).rows == s.rows && Ripe(Do(s, a), p, id)
  {
    assert !s.procs[p].pc.InCount?;
    if s.lock.Admin? {
      a := Abort;
    } else {
      CancelHolder(s, p, s.lock.pid, id);
      a := Cancel(s.lock.pid);
    }
  }

  lemma PassesLimit(s: State, id: Id) returns (actions: seq<Action>, end: State)
    requires BooksOk(s) && id in s.rows && !Roomy(TaskOf(s, id))
    ensures Reaches(s, actions, end) && NoEdits(s, actions, id) && id in end.rows && !Within(end.rows[id])
  {
    if !Within(s.rows[id]) {
      actions, end := [], s;
    } else {
      CountableIs(s, id);
      var p :| p in s.procs && s.procs[p].task == id && MayCount(Active(s.procs[p].pc, s.procs[p].stale));
      if Ripe(s, p, id) {
        actions, end := RipeCounts(s, p, id);
      } else {
        var a := Loosen(s, p, id);
        BooksKept(s, a);
        actions, end := RipeCounts(Do(s, a), p, id);
        Then(s, a, actions, end);
        ThenNoEdits(s, a, actions, id);
        actions := [a] + actions;
      }
    }
  }

  // ---- The results ---------------------------------------------------------------------

  lemma RoomySafe(s: State, id: Id)
    requires BooksOk(s) && TaskOk(TaskOf(s, id)) && Roomy(TaskOf(s, id))
    ensures Safe(s, id)
  {
    forall actions, end | Reaches(s, actions, end) && NoEdits(s, actions, id) && id in end.rows
      ensures Within(end.rows[id]) {
      RoomyRun(s, actions, end, id);
    }
  }

  /**
   From any reachable state, no continuation without an edit of the limit passes it exactly
   when it has room for the runs counted and for a firing past its mark.
   */
  lemma LimitSafeIff(before: seq<Action>, s: State, id: Id)
    requires Reaches(Init(), before, s) && id in s.rows
    ensures Safe(s, id)
            <==> (s.rows[id].maxRuns.Some? ==>
                    s.rows[id].runCount + (if Countable(s, id) then 1 else 0) <= s.rows[id].maxRuns.value)
  {
    Reachable(before, s, id);
    CountableIs(s, id);
    if Roomy(TaskOf(s, id)) {
      RoomySafe(s, id);
    } else {
      var actions, end := PassesLimit(s, id);
    }
  }

  /**
   An edit of the limit is safe exactly when the new limit leaves room for the runs counted
   and for a firing past its mark, whatever the limit was before.
   */
  lemma EditSafeIff(before: seq<Action>, s: State, id: Id, cut: bool)
    requires Reaches(Init(), before, s) && Enabled(s, Commit(cut)) && EditsNow(s, Commit(cut), id)
    ensures Safe(Do(s, Commit(cut)), id)
            <==> (s.lock.op.change.maxRuns.value.Some? ==>
                    s.rows[id].runCount + (if Countable(s, id) then 1 else 0) <= s.lock.op.change.maxRuns.value.value)
  {
    Reachable(before, s, id);
    CountableIs(s, id);
    StepOk(s, Commit(cut), id);
    StepSeen(s, Commit(cut), id);
    RoomyEdit(TaskOf(s, id), s.lock.op);
    if Roomy(TaskOf(Do(s, Commit(cut)), id)) {
      RoomySafe(Do(s, Commit(cut)), id);
    } else {
      assert id in Do(s, Commit(cut)).rows;
      var actions, end := PassesLimit(Do(s, Commit(cut)), id);
    }
  }

  /** Every edit of the limit leaves that room. */
  ghost predicate RoomyEdits(s: State, actions: seq<Action>, id: Id)
    decreases |actions|
  {
    actions != [] && Enabled(s, actions[0]) ==>
      && (EditsNow(s, actions[0], id) && s.lock.op.change.maxRuns.value.Some? ==>
            s.rows[id].runCount + (if Countable(s, id) then 1 else 0) <= s.lock.op.change.maxRuns.value.value)
      && RoomyEdits(Do(s, actions[0]), actions[1..], id)
  }

  lemma RoomyAction(s: State, a: Action, id: Id)
    requires BooksOk(s) && TaskOk(TaskOf(s, id)) && Roomy(TaskOf(s, id)) && Enabled(s, a)
    requires EditsNow(s, a, id) && s.lock.op.change.maxRuns.value.Some? ==>
               s.rows[id].runCount + (if Countable(s, id) then 1 else 0) <= s.lock.op.change.maxRuns.value.value
    ensures Roomy(TaskOf(Do(s, a), id))
  {
    StepSeen(s, a, id);
    CountableIs(s, id);
    WriteIsCommit(s, a, id);
    if EditsNow(s, a, id) {
      RoomyEdit(TaskOf(s, id), s.lock.op);
    } else {
      RoomySteps(TaskOf(s, id), EventOf(s, a, id));
    }
  }

  lemma {:induction false} RoomyAlways(s: State, actions: seq<Action>, end: State, id: Id)
    requires BooksOk(s) && TaskOk(TaskOf(s, id)) && Roomy(TaskOf(s, id))
    requires Reaches(s, actions, end) && RoomyEdits(s, actions, id)
    ensures Roomy(TaskOf(end, id))
    decreases |actions|
  {
    if actions != [] {
      StepOk(s, actions[0], id);
      RoomyAction(s, actions[0], id);
      RoomyAlways(Do(s, actions[0]), actions[1..], end, id);
    }
  }

  /** A run whose edits all leave room never counts past the limit, however it interleaves. */
  lemma RunsWithinLimit(actions: seq<Action>, end: State, id: Id)
    requires Reaches(Init(), actions, end) && RoomyEdits(Init(), actions, id) && id in end.rows
    ensures Within(end.rows[id])
  {
    InitBooks();
    InitTask(id);
    RoomyAlways(Init(), actions, end, id);
  }
}
