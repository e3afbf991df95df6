/**
 Every dispatch is accounted for exactly once: what began along a run against what the row
 counts, what was refused or cancelled, and what is still under way.
 */
module SchedulerRuns {
  import opened Wrappers
  import opened Scheduler
  import opened SchedulerSteps
  import opened SchedulerBooks
  import opened SchedulerTask

  /**
   `Begun`: the agent is asked to take the message. `Unsent`: the attempt fails before that.
   `Refused`: the agent holds an unanswered question. `Cancelled`: the firing is cancelled
   between its dispatch and its count.
   */
  datatype Kind = Begun | Unsent | Refused | Cancelled

  function KindOf(s: State, a: Action, id: Id): Option<Kind> {
    match a
    case Run(p, outcome) =>
      if p !in s.procs || s.procs[p].task != id then None
      else if s.procs[p].pc == Starting && Version(s.books, id) == s.procs[p].version then
        (match outcome case Good => Some(Begun) case Bad => Some(Unsent) case Busy => None)
      else if s.procs[p].pc == Dispatching && outcome == Busy then Some(Refused)
      else None
    case Cancel(p) =>
      if p in s.procs && s.procs[p].task == id && Unsettled(s.procs[p].pc) then Some(Cancelled) else None
    case _ => None
  }

  /** How often that happened to the task along a run. */
  ghost function Count(s: State, actions: seq<Action>, id: Id, kind: Kind): nat
    decreases |actions|
  {
    if actions == [] || !Enabled(s, actions[0]) then 0
    else (if KindOf(s, actions[0], id) == Some(kind) then 1 else 0) + Count(Do(s, actions[0]), actions[1..], id, kind)
  }

  ghost predicate UnderWay(s: State, id: Id) {
    exists p :: p in s.procs && s.procs[p].task == id && Unsettled(s.procs[p].pc)
  }

  // ---- The same for the small machine --------------------------------------------------

  function KindIn(t: Task, e: Event): Option<Kind> {
    if t.active.None? then None
    else
      var q := t.active.value;
      match e
      case Step(outcome) =>
        if q.pc == Starting && !q.stale then
          (match outcome case Good => Some(Begun) case Bad => Some(Unsent) case Busy => None)
        else if q.pc == Dispatching && outcome == Busy then Some(Refused)
        else None
      case Stop => if Unsettled(q.pc) then Some(Cancelled) else None
      case _ => None
  }

  predicate Open(t: Task) {
    t.active.Some? && Unsettled(t.active.value.pc)
  }

  /** What the row counts and what is under way. */
  function Accounted(t: Task): nat {
    if t.row.Some? then t.row.value.runCount + if Open(t) then 1 else 0 else 0
  }

  function Gain(kind: Option<Kind>): int {
    match kind
    case Some(Begun) => 1
    case Some(Unsent) => 1
    case Some(Refused) => -1
    case Some(Cancelled) => -1
    case None => 0
  }

  lemma AccountedSteps(t: Task, e: Event)
    requires TaskOk(t) && May(t, e) && After1(t, e).row.Some?
    ensures Accounted(After1(t, e)) == Accounted(t) + Gain(KindIn(t, e))
  {
  }

  /** A removed row does not come back. */
  lemma GoneStays(t: Task, e: Event)
    requires TaskOk(t) && May(t, e) && t.born && t.row.None?
    ensures After1(t, e).born && After1(t, e).row.None?
  {
  }

  lemma UnbornNothing(t: Task, e: Event)
    requires TaskOk(t) && May(t, e) && !t.born
    ensures KindIn(t, e) == None && Accounted(t) == 0
  {
  }

  lemma KindSeen(s: State, a: Action, id: Id)
    requires BooksOk(s) && Enabled(s, a)
    ensures KindIn(TaskOf(s, id), EventOf(s, a, id)) == KindOf(s, a, id)
  {
    match a
    case Run(p, _) => KindSeenAt(s, a, p, id);
    case Cancel(p) => KindSeenAt(s, a, p, id);
    case _ =>
  }

  lemma KindSeenAt(s: State, a: Action, p: Pid, id: Id)
    requires BooksOk(s) && Enabled(s, a) && ((a.Run? && p == a.pid) || (a.Cancel? && p == a.pid))
    ensures KindIn(TaskOf(s, id), EventOf(s, a, id)) == KindOf(s, a, id)
  {
    if s.procs[p].task == id && Inside(s.procs[p].pc) {
      assert InsideOf(s, p, id);
      ActiveIs(s, p, id);
    }
  }

  lemma OpenIs(s: State, id: Id)
    requires BooksOk(s)
    ensures Open(TaskOf(s, id)) <==> UnderWay(s, id)
  {
    if p :| InsideOf(s, p, id) {
      ActiveIs(s, p, id);
      forall q | q in s.procs && s.procs[q].task == id && Unsettled(s.procs[q].pc) ensures q == p {
        assert InsideOf(s, q, id);
      }
    } else {
      NoneActive(s, id);
      forall q | q in s.procs && s.procs[q].task == id ensures !Unsettled(s.procs[q].pc) {
        assert !InsideOf(s, q, id);
      }
    }
  }

  /** A row at the end of a run was there all along, or since its creation. */
  lemma {:induction false} RowSince(s: State, actions: seq<Action>, end: State, id: Id)
    requires BooksOk(s) && TaskOk(TaskOf(s, id)) && Reaches(s, actions, end) && id in end.rows
    ensures TaskOf(s, id).born ==> id in s.rows
    decreases |actions|
  {
    if actions != [] {
      var t, e := TaskOf(s, id), EventOf(s, actions[0], id);
      StepOk(s, actions[0], id);
      StepSeen(s, actions[0], id);
      RowSince(Do(s, actions[0]), actions[1..], end, id);
      if t.born && t.row.None? {
        GoneStays(t, e);
      }
    }
  }

  ghost function Gained(s: State, actions: seq<Action>, id: Id): int {
    Count(s, actions, id, Begun) + Count(s, actions, id, Unsent)
    - Count(s, actions, id, Refused) - Count(s, actions, id, Cancelled)
  }

  lemma GainedStep(s: State, actions: seq<Action>, id: Id)
    requires actions != [] && Enabled(s, actions[0])
    ensures Gained(s, actions, id) == Gain(KindOf(s, actions[0], id)) + Gained(Do(s, actions[0]), actions[1..], id)
  {
  }

  lemma AccountedEvent(t: Task, e: Event, t': Task)
    requires TaskOk(t) && May(t, e) && t' == After1(t, e) && (t'.born ==> t'.row.Some?)
    ensures Accounted(t') == Accounted(t) + Gain(KindIn(t, e))
  {
    if t'.row.Some? {
      AccountedSteps(t, e);
    } else {
      UnbornNothing(t, e);
    }
  }

  lemma AccountedStep(s: State, a: Action, id: Id)
    requires BooksOk(s) && Enabled(s, a) && TaskOk(TaskOf(s, id))
    requires TaskOf(Do(s, a), id).born ==> TaskOf(Do(s, a), id).row.Some?
    ensures Accounted(TaskOf(Do(s, a), id)) == Accounted(TaskOf(s, id)) + Gain(KindOf(s, a, id))
  {
    StepSeen(s, a, id);
    KindSeen(s, a, id);
    AccountedEvent(TaskOf(s, id), EventOf(s, a, id), TaskOf(Do(s, a), id));
  }

  lemma {:induction false} AccountedRun(s: State, actions: seq<Action>, end: State, id: Id)
    requires BooksOk(s) && TaskOk(TaskOf(s, id)) && Reaches(s, actions, end) && id in end.rows
    ensures Accounted(TaskOf(end, id)) == Accounted(TaskOf(s, id)) + Gained(s, actions, id)
    decreases |actions|
  {
    if actions != [] {
      StepOk(s, actions[0], id);
      RowSince(Do(s, actions[0]), actions[1..], end, id);
      AccountedStep(s, actions[0], id);
      GainedStep(s, actions, id);
      AccountedRun(Do(s, actions[0]), actions[1..], end, id);
    }
  }

  /**
   Dispatches are conserved: along any run, those begun and those that failed before they
   began are the runs the row counts, those refused, those cancelled, and the one under way.
   */
  lemma DispatchesConserved(actions: seq<Action>, end: State, id: Id)
    requires Reaches(Init(), actions, end) && id in end.rows
    ensures Count(Init(), actions, id, Begun) + Count(Init(), actions, id, Unsent)
            == end.rows[id].runCount + Count(Init(), actions, id, Refused) + Count(Init(), actions, id, Cancelled)
               + if UnderWay(end, id) then 1 else 0
  {
    Reachable(actions, end, id);
    InitBooks();
    InitTask(id);
    AccountedRun(Init(), actions, end, id);
    OpenIs(end, id);
  }
}
