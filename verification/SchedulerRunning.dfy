/**
 Rows left marked running: which steps strand a row, which steps take it up again, and
 that no other step does either.
 */
module SchedulerRunning {
  import opened Wrappers
  import opened Scheduler
  import opened SchedulerSteps
  import opened SchedulerBooks
  import opened SchedulerTask

  /** Past the mark: the firing owes its row a final status. */
  predicate Owes(pc: Pc) {
    Inside(pc) && pc != WaitMark && pc != InMark
  }

  /**
   Left alone, such a firing takes its row out of running: a current one past its mark, one
   whose dispatch has begun, or one on its way to restore the row.
   */
  predicate MaySettle(active: Active) {
    (!active.stale && Owes(active.pc)) || Unsettled(active.pc) || active.pc == WaitRestore || active.pc == InRestore
  }

  ghost predicate Settler(s: State, p: Pid, id: Id) {
    p in s.procs && s.procs[p].task == id && MaySettle(Active(s.procs[p].pc, s.procs[p].stale))
  }

  ghost predicate Settling(s: State, id: Id) {
    exists p :: Settler(s, p, id)
  }

  /** The row says running, and neither a firing nor an administrative call will change that. */
  ghost predicate Stranded(s: State, id: Id) {
    id in s.rows && s.rows[id].status == Running && !Rewriting(s, id) && !Settling(s, id)
  }

  predicate Own(s: State, p: Pid, id: Id) {
    p in s.procs && s.procs[p].task == id
  }

  /** A firing made stale while it waited for the lock marks its row. */
  predicate MarksStale(s: State, a: Action, id: Id) {
    a.Run? && Own(s, a.pid, id) && s.procs[a.pid].pc == InMark && s.procs[a.pid].stale && id in s.rows
        && Markable(s.rows[id])
  }

  /** A call that has made the row's firing stale gives up before it writes. */
  ghost predicate GivesUp(s: State, a: Action, id: Id) {
    a.Abort? && Rewriting(s, id) && s.rows[id].status == Running && !Settling(s, id)
  }

  /** A firing is cancelled again while it restores its row. */
  predicate CancelledAgain(s: State, a: Action, id: Id) {
    a.Cancel? && Own(s, a.pid, id) && s.procs[a.pid].pc in {WaitRestore, InRestore}
    && id in s.rows && s.rows[id].status == Running && !Rewriting(s, id)
  }

  /** A stale firing's dispatch is refused: it will not put the row back. */
  predicate RefusedStale(s: State, a: Action, id: Id) {
    a.Run? && a.outcome == Busy && Own(s, a.pid, id) && s.procs[a.pid].pc == Dispatching && s.procs[a.pid].stale
    && id in s.rows && s.rows[id].status == Running && !Rewriting(s, id)
  }

  ghost predicate Strands(s: State, a: Action, id: Id) {
    MarksStale(s, a, id) || GivesUp(s, a, id) || CancelledAgain(s, a, id) || RefusedStale(s, a, id)
  }

  /**
   A current firing marks the row, a firing inside is cancelled and goes to restore it, a
   call that will rewrite it begins, or a trigger finds its runs used up.
   */
  predicate Rescues(s: State, a: Action, id: Id) {
    match a
    case Run(p, _) =>
      Own(s, p, id) && s.procs[p].pc == InMark && !s.procs[p].stale && id in s.rows && Markable(s.rows[id])
    case Cancel(p) => Own(s, p, id) && Inside(s.procs[p].pc)
    case Begin(op) => op.id == id && Bumps(op)
    case Commit(_) => s.lock.Admin? && s.lock.op == Trigger(id) && id in s.rows && Exhausted(s.rows[id])
    case _ => false
  }

  // ---- The same for the small machine --------------------------------------------------

  predicate StrandedIn(t: Task) {
    t.row.Some? && t.row.value.status == Running && !t.rewriting && !(t.active.Some? && MaySettle(t.active.value))
  }

  predicate StrandsIn(t: Task, e: Event) {
    match e
    case Step(outcome) =>
      t.active.Some? && t.active.value.stale && t.row.Some?
      && ((t.active.value.pc == InMark && Markable(t.row.value))
          || (t.active.value.pc == Dispatching && outcome == Busy && t.row.value.status == Running && !t.rewriting))
    case Stop =>
      t.active.Some? && t.active.value.pc in {WaitRestore, InRestore} && t.row.Some?
      && t.row.value.status == Running && !t.rewriting
    case GiveUp =>
      t.row.Some? && t.row.value.status == Running && !(t.active.Some? && MaySettle(t.active.value))
    case _ => false
  }

  predicate RescuesIn(t: Task, e: Event) {
    match e
    case Step(_) =>
      t.active.Some? && t.active.value.pc == InMark && !t.active.value.stale && t.row.Some? && Markable(t.row.value)
    case Stop => true
    case Bump => true
    case Write(op) => op.Trigger? && t.row.Some? && Exhausted(t.row.value)
    case _ => false
  }

  lemma StrandedSteps(t: Task, e: Event)
    requires TaskOk(t) && May(t, e)
    ensures StrandedIn(After1(t, e)) <==> if StrandedIn(t) then !RescuesIn(t, e) else StrandsIn(t, e)
  {
    match e
    case Step(outcome) => StrandedStep(t, outcome);
    case Write(op) =>
    case _ =>
  }

  lemma StrandedStep(t: Task, outcome: Outcome)
    requires TaskOk(t) && May(t, Step(outcome))
    ensures StrandedIn(Stepped(t, outcome))
            <==> if StrandedIn(t) then !RescuesIn(t, Step(outcome)) else StrandsIn(t, Step(outcome))
  {
    match t.active.value.pc
    case InMark =>
    case Starting =>
    case Dispatching =>
    case InCount(_) =>
    case InRestore =>
    case _ =>
  }

  lemma SettlingIs(s: State, id: Id)
    requires BooksOk(s)
    ensures Settling(s, id) == var t := TaskOf(s, id); t.active.Some? && MaySettle(t.active.value)
  {
    if p :| InsideOf(s, p, id) {
      ActiveIs(s, p, id);
      forall q | Settler(s, q, id) ensures q == p {
        assert InsideOf(s, q, id);
      }
      assert MaySettle(Active(s.procs[p].pc, s.procs[p].stale)) ==> Settler(s, p, id);
    } else {
      NoneActive(s, id);
      forall q ensures !Settler(s, q, id) {
        assert !InsideOf(s, q, id);
      }
    }
  }

  lemma StrandedIs(s: State, id: Id)
    requires BooksOk(s)
    ensures Stranded(s, id) <==> StrandedIn(TaskOf(s, id))
  {
    SettlingIs(s, id);
  }

  lemma OwnSeen(s: State, p: Pid, id: Id)
    requires BooksOk(s) && p in s.procs && s.procs[p].task == id && Inside(s.procs[p].pc)
    ensures TaskOf(s, id).active == Some(Active(s.procs[p].pc, s.procs[p].stale))
  {
    assert InsideOf(s, p, id);
    ActiveIs(s, p, id);
  }

  lemma StrandsSeenRun(s: State, p: Pid, outcome: Outcome, id: Id)
    requires BooksOk(s) && CanRun(s, p)
    ensures Strands(s, Run(p, outcome), id) <==> StrandsIn(TaskOf(s, id), EventOf(s, Run(p, outcome), id))
  {
    if s.procs[p].task == id && Inside(s.procs[p].pc) {
      OwnSeen(s, p, id);
    }
  }

  lemma StrandsSeenCancel(s: State, p: Pid, id: Id)
    requires BooksOk(s) && p in s.procs
    ensures Strands(s, Cancel(p), id) <==> StrandsIn(TaskOf(s, id), EventOf(s, Cancel(p), id))
  {
    if s.procs[p].task == id && Inside(s.procs[p].pc) {
      OwnSeen(s, p, id);
    }
  }

  lemma StrandsSeen(s: State, a: Action, id: Id)
    requires BooksOk(s) && Enabled(s, a)
    ensures Strands(s, a, id) <==> StrandsIn(TaskOf(s, id), EventOf(s, a, id))
  {
    match a
    case Run(p, outcome) => StrandsSeenRun(s, p, outcome, id);
    case Cancel(p) => StrandsSeenCancel(s, p, id);
    case Abort => SettlingIs(s, id);
    case _ =>
  }

  lemma RescuesSeen(s: State, a: Action, id: Id)
    requires BooksOk(s) && Enabled(s, a) && id in s.rows
    ensures Rescues(s, a, id) <==> RescuesIn(TaskOf(s, id), EventOf(s, a, id))
  {
    match a
    case Run(p, _) =>
      if s.procs[p].task == id && Inside(s.procs[p].pc) {
        OwnSeen(s, p, id);
      }
    case _ =>
  }

  lemma StrandedStepIff(s: State, a: Action, id: Id)
    requires BooksOk(s) && TaskOk(TaskOf(s, id)) && Enabled(s, a)
    ensures Stranded(Do(s, a), id) <==> if Stranded(s, id) then !Rescues(s, a, id) else Strands(s, a, id)
  {
    StepSeen(s, a, id);
    BooksKept(s, a);
    StrandedIs(s, id);
    StrandedIs(Do(s, a), id);
    StrandedSteps(TaskOf(s, id), EventOf(s, a, id));
    StrandsSeen(s, a, id);
    if id in s.rows {
      RescuesSeen(s, a, id);
    }
  }

  // ---- The results ---------------------------------------------------------------------

  /**
   In every reachable state a step leaves the row stranded exactly when it strands it in one
   of the four ways, or it was stranded and the step does not take it up again.
   */
  lemma StrandedIff(before: seq<Action>, s: State, a: Action, id: Id)
    requires Reaches(Init(), before, s) && Enabled(s, a)
    ensures Stranded(Do(s, a), id) <==> if Stranded(s, id) then !Rescues(s, a, id) else Strands(s, a, id)
  {
    Reachable(before, s, id);
    StrandedStepIff(s, a, id);
  }

  ghost predicate NeverStrands(s: State, actions: seq<Action>, id: Id)
    decreases |actions|
  {
    actions != [] && Enabled(s, actions[0]) ==>
      !Strands(s, actions[0], id) && NeverStrands(Do(s, actions[0]), actions[1..], id)
  }

  lemma {:induction false} OwnedRun(s: State, actions: seq<Action>, end: State, id: Id)
    requires BooksOk(s) && TaskOk(TaskOf(s, id)) && !Stranded(s, id)
    requires Reaches(s, actions, end) && NeverStrands(s, actions, id)
    ensures !Stranded(end, id)
    decreases |actions|
  {
    if actions != [] {
      StrandedStepIff(s, actions[0], id);
      StepOk(s, actions[0], id);
      OwnedRun(Do(s, actions[0]), actions[1..], end, id);
    }
  }

  /**
   Unless one of the four steps comes, a row marked running always has a firing that will
   settle it or a call that will rewrite it.
   */
  lemma RunningIsOwned(actions: seq<Action>, end: State, id: Id)
    requires Reaches(Init(), actions, end) && NeverStrands(Init(), actions, id)
    requires id in end.rows && end.rows[id].status == Running
    ensures Settling(end, id) || Rewriting(end, id)
  {
    InitBooks();
    InitTask(id);
    StrandedIs(Init(), id);
    OwnedRun(Init(), actions, end, id);
  }

  ghost predicate NeverRescues(s: State, actions: seq<Action>, id: Id)
    decreases |actions|
  {
    actions != [] && Enabled(s, actions[0]) ==>
      !Rescues(s, actions[0], id) && NeverRescues(Do(s, actions[0]), actions[1..], id)
  }

  lemma {:induction false} StrandedRun(s: State, actions: seq<Action>, end: State, id: Id)
    requires BooksOk(s) && TaskOk(TaskOf(s, id)) && Stranded(s, id)
    requires Reaches(s, actions, end) && NeverRescues(s, actions, id)
    ensures Stranded(end, id)
    decreases |actions|
  {
    if actions != [] {
      StrandedStepIff(s, actions[0], id);
      StepOk(s, actions[0], id);
      StrandedRun(Do(s, actions[0]), actions[1..], end, id);
    }
  }

  /** A stranded row says running for as long as no step takes it up again. */
  lemma StrandedStays(before: seq<Action>, s: State, actions: seq<Action>, end: State, id: Id)
    requires Reaches(Init(), before, s) && Stranded(s, id)
    requires Reaches(s, actions, end) && NeverRescues(s, actions, id)
    ensures id in end.rows && end.rows[id].status == Running
  {
    Reachable(before, s, id);
    StrandedRun(s, actions, end, id);
  }
}
