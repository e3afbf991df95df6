/**
 The task scheduler's own data: the task rows, which tasks are firing, how many spawned
 firings each task still owes, and the version numbers that make stale firings stand down.
 Each method is one stretch of code between awaits.
 */
module Scheduler {
  import opened Wrappers

  type Id = nat

  datatype Status = Pending | Running | Paused | Completed | Failed

  /** `oneShot` is the "at" schedule; when a task fires next is left to its timer. */
  datatype TaskRow = TaskRow(enabled: bool, status: Status, runCount: nat, maxRuns: Option<nat>, oneShot: bool)

  predicate Exhausted(r: TaskRow) {
    r.maxRuns.Some? && r.runCount >= r.maxRuns.value
  }

  /** The fields of an administrative update that bear on firing. */
  datatype Change = Change(enabled: Option<bool>, maxRuns: Option<Option<nat>>, oneShot: Option<bool>, renames: bool)

  // ---- Rows ----------------------------------------------------------------------------

  function Stopped(r: TaskRow): TaskRow {
    if Exhausted(r) then r.(enabled := false, status := Completed) else r
  }

  function Updated(r: TaskRow, c: Change): TaskRow {
    var enabled := c.enabled.UnwrapOr(r.enabled);
    var status := if r.status != Running then r.status else if enabled then Pending else Paused;
    Stopped(TaskRow(enabled, status, r.runCount, c.maxRuns.UnwrapOr(r.maxRuns), c.oneShot.UnwrapOr(r.oneShot)))
  }

  function PausedRow(r: TaskRow): TaskRow {
    r.(enabled := false, status := Paused)
  }

  function Resumed(r: TaskRow): TaskRow {
    Stopped(r.(enabled := true, status := Pending))
  }

  function Triggered(r: TaskRow): TaskRow {
    if Exhausted(r) then Stopped(r)
    else if !r.enabled || r.status == Paused then r.(enabled := true, status := Pending)
    else r
  }

  predicate Markable(r: TaskRow) {
    r.enabled && !Exhausted(r)
  }

  /** A firing put off because its session is busy: nothing is counted. */
  function Rescheduled(r: TaskRow, current: bool): TaskRow {
    if r.enabled && r.status != Paused && current then r.(status := Pending) else r
  }

  function Restored(r: TaskRow): TaskRow {
    if r.status == Running then r.(status := if r.enabled then Pending else Paused) else r
  }

  function Counted(r: TaskRow, error: bool): TaskRow {
    var n := r.(runCount := r.runCount + 1);
    if !r.enabled || r.status == Paused then n
    else if error then n.(status := Failed)
    else if Exhausted(n) then n.(enabled := false, status := Completed)
    else n.(status := if n.oneShot then Completed else Pending)
  }

  // ---- Books ---------------------------------------------------------------------------

  datatype Books = Books(firing: set<Id>, versions: map<Id, nat>, pending: map<Id, nat>)

  function Version(b: Books, id: Id): nat {
    if id in b.versions then b.versions[id] else 0
  }

  function Owed(b: Books, id: Id): nat {
    if id in b.pending then b.pending[id] else 0
  }

  function Spawned(b: Books, id: Id): Books {
    b.(pending := b.pending[id := Owed(b, id) + 1])
  }

  function Discarded(b: Books, id: Id): Books {
    if Owed(b, id) > 1 then b.(pending := b.pending[id := b.pending[id] - 1])
    else
      var b' := b.(pending := b.pending - {id});
      if id in b.firing then b' else b'.(versions := b.versions - {id})
  }

  function Invalidated(b: Books, id: Id): Books {
    if id in b.firing || id in b.pending then b.(versions := b.versions[id := Version(b, id) + 1])
    else b.(versions := b.versions - {id})
  }

  predicate MayEnter(b: Books, id: Id, version: nat) {
    Version(b, id) == version && id !in b.firing
  }

  function Entered(b: Books, id: Id): Books {
    b.(firing := b.firing + {id})
  }

  function Left(b: Books, id: Id): Books {
    var b' := b.(firing := b.firing - {id});
    if id in b.pending then b' else b'.(versions := b.versions - {id})
  }

  class TaskScheduler {
    var rows: map<Id, TaskRow>
    var firing: set<Id>
    var versions: map<Id, nat>
    var pending: map<Id, nat>

    constructor ()
      ensures rows == map[] && Book() == Books({}, map[], map[])
    {
      rows, firing, versions, pending := map[], {}, map[], map[];
    }

    function Book(): Books
      reads this
    {
      Books(firing, versions, pending)
    }

    /** A fire task is tracked until its done-callback runs. */
    method SpawnFire(id: Id)
      modifies this`pending
      ensures Book() == Spawned(old(Book()), id)
    {
      pending := pending[id := (if id in pending then pending[id] else 0) + 1];
    }

    /** The done-callback of a fire task. */
    method Discard(id: Id)
      modifies this`pending, this`versions
      ensures Book() == Discarded(old(Book()), id)
    {
      var owed := if id in pending then pending[id] else 1;
      if owed > 1 {
        pending := pending[id := owed - 1];
      } else {
        pending := pending - {id};
        if id !in firing {
          versions := versions - {id};
        }
      }
    }

    method InvalidateFire(id: Id)
      modifies this`versions
      ensures Book() == Invalidated(old(Book()), id)
    {
      versions := versions[id := (if id in versions then versions[id] else 0) + 1];
      if id !in firing && id !in pending {
        versions := versions - {id};
      }
      assert id !in old(versions) ==> old(versions) - {id} == old(versions);
      assert old(versions)[id := Version(old(Book()), id) + 1] - {id} == old(versions) - {id};
    }

    /** The start of a firing: a stale or overlapping one stands down. */
    method EnterFire(id: Id, version: Option<nat>) returns (entered: bool)
      modifies this`firing
      ensures var b := old(Book()); var v := version.UnwrapOr(Version(b, id));
              entered == MayEnter(b, id, v) && Book() == if entered then Entered(b, id) else b
    {
      var current := if id in versions then versions[id] else 0;
      if version.Some? && current != version.value {
        return false;
      }
      if id in firing {
        return false;
      }
      firing := firing + {id};
      entered := true;
    }

    method LeaveFire(id: Id)
      modifies this`firing, this`versions
      ensures Book() == Left(old(Book()), id)
    {
      firing := firing - {id};
      if id !in pending {
        versions := versions - {id};
      }
    }

    /** The first locked section of a firing. */
    method MarkRunning(id: Id) returns (ok: bool)
      modifies this`rows
      ensures ok == (id in old(rows) && Markable(old(rows)[id]))
      ensures rows == if ok then old(rows)[id := old(rows)[id].(status := Running)] else old(rows)
    {
      if id !in rows || !rows[id].enabled || Exhausted(rows[id]) {
        return false;
      }
      rows := rows[id := rows[id].(status := Running)];
      ok := true;
    }

    method RescheduleWithoutFiring(id: Id, version: nat)
      modifies this`rows
      ensures rows == if id in old(rows)
                      then old(rows)[id := Rescheduled(old(rows)[id], Version(Book(), id) == version)]
                      else old(rows)
    {
      if id in rows {
        var r := rows[id];
        if r.enabled && r.status != Paused && (if id in versions then versions[id] else 0) == version {
          rows := rows[id := r.(status := Pending)];
        }
      }
    }

    method MarkFireCancelled(id: Id)
      modifies this`rows
      ensures rows == if id in old(rows) then old(rows)[id := Restored(old(rows)[id])] else old(rows)
    {
      if id in rows && rows[id].status == Running {
        rows := rows[id := rows[id].(status := if rows[id].enabled then Pending else Paused)];
      }
    }

    /** The last locked section of a firing. */
    method CountRun(id: Id, error: bool)
      modifies this`rows
      ensures rows == if id in old(rows) then old(rows)[id := Counted(old(rows)[id], error)] else old(rows)
    {
      if id !in rows {
        return;
      }
      var r := rows[id];
      var wasPaused := !r.enabled || r.status == Paused;
      r := r.(runCount := r.runCount + 1);
      if !wasPaused {
        var finite := !error && r.maxRuns.Some? && r.runCount >= r.maxRuns.value;
        if error {
          r := r.(status := Failed);
        } else if finite {
          r := r.(enabled := false, status := Completed);
        } else if r.oneShot {
          r := r.(status := Completed);
        } else {
          r := r.(status := Pending);
        }
      }
      rows := rows[id := r];
    }

    /** Changes a row and makes its firings in progress stale. */
    method Update(id: Id, c: Change) returns (found: bool)
      modifies this`rows, this`versions
      ensures found == (id in old(rows))
      ensures found ==> rows == old(rows)[id := Updated(old(rows)[id], c)]
      ensures !found ==> rows == old(rows)
      ensures var b := old(Book());
              Book() == if !found then b else if c.renames then Invalidated(Invalidated(b, id), id)
                  else Invalidated(b, id)
    {
      if id !in rows {
        return false;
      }
      var r := rows[id];
      if c.renames {
        InvalidateFire(id);
      }
      r := r.(oneShot := c.oneShot.UnwrapOr(r.oneShot), maxRuns := c.maxRuns.UnwrapOr(r.maxRuns),
              enabled := c.enabled.UnwrapOr(r.enabled));
      InvalidateFire(id);
      if r.status == Running {
        r := r.(status := if r.enabled then Pending else Paused);
      }
      if Exhausted(r) {
        r := r.(enabled := false, status := Completed);
      }
      rows := rows[id := r];
      found := true;
    }

    method Remove(id: Id)
      modifies this`rows, this`versions
      ensures rows == old(rows) - {id}
      ensures Book() == if id in old(rows) then Invalidated(old(Book()), id) else old(Book())
    {
      if id in rows {
        InvalidateFire(id);
      }
      rows := rows - {id};
    }

    method Pause(id: Id) returns (found: bool)
      modifies this`rows, this`versions
      ensures found == (id in old(rows))
      ensures rows == if found then old(rows)[id := PausedRow(old(rows)[id])] else old(rows)
      ensures Book() == if found then Invalidated(old(Book()), id) else old(Book())
    {
      if id !in rows {
        return false;
      }
      InvalidateFire(id);
      rows := rows[id := rows[id].(enabled := false, status := Paused)];
      found := true;
    }

    method Resume(id: Id) returns (found: bool)
      modifies this`rows, this`versions
      ensures found == (id in old(rows))
      ensures rows == if found then old(rows)[id := Resumed(old(rows)[id])] else old(rows)
      ensures Book() == if found then Invalidated(old(Book()), id) else old(Book())
    {
      if id !in rows {
        return false;
      }
      InvalidateFire(id);
      var r := rows[id].(enabled := true, status := Pending);
      if Exhausted(r) {
        r := r.(enabled := false, status := Completed);
      }
      rows := rows[id := r];
      found := true;
    }

    /** Fires at once, unless the schedule is used up. */
    method Trigger(id: Id) returns (found: bool)
      modifies this`rows, this`pending
      ensures found == (id in old(rows))
      ensures found ==> rows == old(rows)[id := Triggered(old(rows)[id])]
      ensures !found ==> rows == old(rows)
      ensures Book() == if found && !Exhausted(old(rows)[id]) then Spawned(old(Book()), id) else old(Book())
    {
      if id !in rows {
        return false;
      }
      found := true;
      if Exhausted(rows[id]) {
        rows := rows[id := rows[id].(enabled := false, status := Completed)];
        return;
      }
      if !rows[id].enabled || rows[id].status == Paused {
        rows := rows[id := rows[id].(enabled := true, status := Pending)];
      }
      SpawnFire(id);
    }
  }
}
