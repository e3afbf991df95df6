/**
 The checkpointer's read cache: a loaded window is kept and served again while the
 session's revision counters and its newest row are what they were when it was loaded.
 Every served window equals a fresh derivation.
 */
module HistoryCache {
  import opened Wrappers
  import opened Transcript
  import opened Positions
  import opened Window
  import opened Queue
  import opened Checkpoint
  import opened WriteBack
  import opened Deserialize

  /** One session's stored state: its rows, the next id, and its two revision counters. */
  datatype Db = Db(rows: Table, nextId: nat, revision: nat, structure: nat)

  type Cursor = Option<(int, nat)>

  datatype Memo = Memo(window: seq<Row>, revision: (nat, nat), cursor: Cursor)

  /** The position of the newest row in `(seq, id)` order. */
  function LastPosition(t: Table): Cursor {
    var v := View(t);
    if v == [] then None else Some((v[|v| - 1].seqNo, v[|v| - 1].id))
  }

  function Bumped(d: Db): Db {
    d.(revision := d.revision + 1, structure := d.structure + 1)
  }

  function Fits(d: Db, m: Memo): bool {
    m.revision == (d.revision, d.structure) && m.cursor == LastPosition(d.rows)
  }

  /** The messages of a window; a memo stands for them through its rows. */
  function Messages(w: seq<Row>, parses: string -> bool): seq<Row> {
    Deserialized(w, parses)
  }

  /** The messages a load returns, and the memo it leaves; an empty load is not kept. */
  function Load(d: Db, memo: Option<Memo>, parses: string -> bool): (seq<Row>, Option<Memo>) {
    if memo.Some? && Fits(d, memo.value) then (Messages(memo.value.window, parses), memo)
    else
      var w := LlmWindow(d.rows);
      var ms := Messages(w, parses);
      (ms, if ms == [] then memo else Some(Memo(w, (d.revision, d.structure), LastPosition(d.rows))))
  }

  // ---- Writes --------------------------------------------------------------------------

  /** A row saved at the next position; only a flushed summary moves the revision. */
  function Saved(d: Db, draft: Row): Db {
    var r := draft.(id := d.nextId, seqNo := NextSeq(d.rows));
    var d' := d.(rows := d.rows + [r], nextId := d.nextId + 1);
    if draft.kind == Summary then Bumped(d') else d'
  }

  function Synced(d: Db, ms: seq<Live>, flushed: map<nat, bool>): Db {
    var d' := d.(rows := SyncRows(d.rows, d.nextId, ms, flushed), nextId := d.nextId + Taken(ms));
    if Structural(ms, flushed) then Bumped(d') else d'
  }

  function ReleasedDb(d: Db): Db {
    if QueuedRows(d.rows) == [] then d else Bumped(d.(rows := Released(d.rows)))
  }

  function CancelledDb(d: Db, id: nat): Db {
    if Cancellable(d.rows, id) then Bumped(d.(rows := Cancelled(d.rows, id))) else d
  }

  /**
   What can happen to a session between loads. `Sync` is a checkpoint of this or of another
   checkpointer; a checkpointer drops its memo on its own sync and on request.
   */
  datatype Op =
    | Save(draft: Row)
    | Sync(own: bool, ms: seq<Live>, flushed: map<nat, bool>)
    | Release
    | Cancel(id: nat)
    | Reload
    | Invalidate

  datatype State = State(db: Db, memo: Option<Memo>)

  function Writes(ms: seq<Live>, flushed: map<nat, bool>): bool {
    (exists i :: 0 <= i < |ms| && !ms[i].seen) || PinUpdates(ms, flushed) != map[]
  }

  function Step(s: State, op: Op, parses: string -> bool): State {
    match op
    case Save(draft) => s.(db := Saved(s.db, draft))
    case Sync(own, ms, flushed) =>
      State(Synced(s.db, ms, flushed), if own && Writes(ms, flushed) then None else s.memo)
    case Release => s.(db := ReleasedDb(s.db))
    case Cancel(id) => s.(db := CancelledDb(s.db, id))
    case Reload => s.(memo := Load(s.db, s.memo, parses).1)
    case Invalidate => s.(memo := None)
  }

  function Run(s: State, ops: seq<Op>, parses: string -> bool): State
    decreases |ops|
  {
    if ops == [] then s else Run(Step(s, ops[0], parses), ops[1..], parses)
  }

  // ---- The invariant -------------------------------------------------------------------

  ghost predicate Sound(d: Db) {
    WellFormed(d.rows) && Below(d.rows, d.nextId)
  }

  /** Every row from the `n`-th on was appended behind all rows before it. */
  ghost predicate Appended(t: Table, n: nat) {
    n <= |t| && forall i, j :: n <= j < |t| && 0 <= i < j ==> t[i].seqNo < t[j].seqNo
  }

  /** The memo was taken when the table was its first `n` rows. */
  ghost predicate TakenAt(d: Db, m: Memo, n: nat) {
    && Appended(d.rows, n)
    && m.window == LlmWindow(d.rows[..n])
    && m.cursor == LastPosition(d.rows[..n])
  }

  ghost predicate Explained(d: Db, m: Memo) {
    && m.revision.0 <= d.revision
    && (m.revision.0 == d.revision ==> exists n: nat :: TakenAt(d, m, n))
  }

  ghost predicate Inv(s: State) {
    Sound(s.db) && (s.memo.Some? ==> Explained(s.db, s.memo.value))
  }

  /** The cursor names the row that no row follows. */
  lemma LastPositionIs(t: Table, r: Row)
    requires WellFormed(t) && r in t && forall m :: m in t ==> m == r || Before(m, r)
    ensures LastPosition(t) == Some((r.seqNo, r.id))
  {
    var v := View(t);
    InView(t, r);
    ViewSorted(t);
    var i :| 0 <= i < |v| && v[i] == r;
    InView(t, v[|v| - 1]);
    assert i < |v| - 1 ==> Before(v[i], v[|v| - 1]);
  }

  lemma AppendedMoves(t: Table, n: nat)
    requires WellFormed(t) && Appended(t, n) && n < |t|
    ensures LastPosition(t) != LastPosition(t[..n])
  {
    var last := t[|t| - 1];
    forall m | m in t ensures m == last || Before(m, last) {
      var i :| 0 <= i < |t| && t[i] == m;
    }
    LastPositionIs(t, last);
    if n > 0 {
      var v := View(t[..n]);
      ViewMembers(t[..n]);
      InView(t[..n], v[|v| - 1]);
      var k :| 0 <= k < n && t[k] == v[|v| - 1];
      assert t[k].id < last.id;
    }
  }

  /** A memo that still fits is the fresh window. */
  lemma FitIsFresh(d: Db, m: Memo)
    requires Sound(d) && Explained(d, m) && Fits(d, m)
    ensures m.window == LlmWindow(d.rows)
  {
    var n: nat :| TakenAt(d, m, n);
    if n < |d.rows| {
      AppendedMoves(d.rows, n);
    } else {
      assert d.rows[..n] == d.rows;
    }
  }

  // ---- Each write keeps it -------------------------------------------------------------

  lemma Exceeds(t: Table, s: int)
    requires s >= NextSeq(t)
    ensures forall i :: 0 <= i < |t| ==> t[i].seqNo < s
  {
  }

  /** Writing rows at the end leaves an outstanding memo explained. */
  lemma StillExplained(d: Db, d': Db, m: Memo)
    requires Explained(d, m) && d'.revision == d.revision && |d'.rows| >= |d.rows|
    requires d'.rows[..|d.rows|] == d.rows && Appended(d'.rows, |d.rows|)
    ensures Explained(d', m)
  {
    if m.revision.0 == d.revision {
      var n: nat :| TakenAt(d, m, n);
      assert d'.rows[..n] == d.rows[..n];
      forall i, j | n <= j < |d'.rows| && 0 <= i < j ensures d'.rows[i].seqNo < d'.rows[j].seqNo {
        if j < |d.rows| {
          assert d'.rows[i] == d'.rows[..|d.rows|][i] && d'.rows[j] == d'.rows[..|d.rows|][j];
        }
      }
      assert TakenAt(d', m, n);
    }
  }

  ghost predicate Follows(t: Table, rows: seq<Row>) {
    forall i, j :: |t| <= j < |t + rows| && 0 <= i < j ==> (t + rows)[i].seqNo < (t + rows)[j].seqNo
  }

  /** New rows without a summary all go to the end. */
  lemma {:induction false} NewRowsFollow(t: Table, next: nat, tail: Option<int>, ms: seq<Live>,
                                         anchored: seq<Option<int>>)
    requires |anchored| == |ms| && NextTail(t, tail) >= NextSeq(t)
    requires !SavesSummary(ms)
    requires forall i :: 0 <= i < |ms| && anchored[i].Some? ==> ms[i].isSummary
    ensures Follows(t, NewRows(t, next, tail, ms, anchored))
    decreases |ms|
  {
    if ms != [] {
      forall i | 0 <= i < |ms[1..]| ensures ms[1..][i] == ms[i + 1] && anchored[1..][i] == anchored[i + 1] {
      }
      assert !SavesSummary(ms[1..]);
      if ms[0].seen || !Stores(ms[0]) {
        NewRowsFollow(t, next, tail, ms[1..], anchored[1..]);
      } else {
        var s := NextTail(t, tail);
        var r := RowFor(ms[0], next, s);
        Exceeds(t, s);
        NextSeqAppended(t, r);
        NewRowsFollow(t + [r], next + 1, Some(s), ms[1..], anchored[1..]);
        var rest := NewRows(t + [r], next + 1, Some(s), ms[1..], anchored[1..]);
        Reassociate(t, [r], rest);
        FollowsStep(t, r, rest);
      }
    }
  }

  lemma FollowsStep(t: Table, r: Row, rest: seq<Row>)
    requires forall i :: 0 <= i < |t| ==> t[i].seqNo < r.seqNo
    requires Follows(t + [r], rest)
    ensures Follows(t, [r] + rest)
  {
    Reassociate(t, [r], rest);
    var all := t + ([r] + rest);
    forall i, j | |t| <= j < |all| && 0 <= i < j ensures all[i].seqNo < all[j].seqNo {
      if j == |t| {
        assert all[i] == t[i] && all[j] == r;
      } else {
        assert all == t + [r] + rest;
      }
    }
  }

  lemma {:induction false} AnchoredAreSummaries(t: Table, ms: seq<Live>)
    ensures forall i :: 0 <= i < |ms| && AnchoredSeqs(t, ms)[i].Some? ==> ms[i].isSummary
  {
    if ms != [] {
      AnchoredAreSummaries(t, ms[1..]);
    }
  }

  lemma {:induction false} NewRowsShape(t: Table, next: nat, tail: Option<int>, ms: seq<Live>,
                                        anchored: seq<Option<int>>)
    requires |anchored| == |ms| && WellFormed(t) && Below(t, next)
    ensures WellFormed(t + NewRows(t, next, tail, ms, anchored))
    ensures Below(t + NewRows(t, next, tail, ms, anchored), next + Taken(ms))
    decreases |ms|
  {
    if ms == [] {
      assert t + [] == t;
    } else if ms[0].seen || !Stores(ms[0]) {
      NewRowsShape(t, next, tail, ms[1..], anchored[1..]);
    } else {
      var s := if anchored[0].Some? && ms[0].role != Tool then anchored[0].value else NextTail(t, tail);
      var more := if anchored[0].Some? && ms[0].role != Tool then tail else Some(s);
      var r := RowFor(ms[0], next, s);
      NewRowsShape(t + [r], next + 1, more, ms[1..], anchored[1..]);
      Reassociate(t, [r], NewRows(t + [r], next + 1, more, ms[1..], anchored[1..]));
    }
  }

  lemma SaveKeeps(s: State, draft: Row)
    requires Inv(s)
    ensures Inv(s.(db := Saved(s.db, draft)))
  {
    var d, d' := s.db, Saved(s.db, draft);
    Exceeds(d.rows, NextSeq(d.rows));
    if s.memo.Some? && draft.kind != Summary {
      assert d'.rows[..|d.rows|] == d.rows;
      StillExplained(d, d', s.memo.value);
    }
  }

  lemma SyncSound(d: Db, ms: seq<Live>, flushed: map<nat, bool>)
    requires Sound(d)
    ensures Sound(Synced(d, ms, flushed))
  {
    var pins := PinUpdates(ms, flushed);
    PinsKeepShape(d.rows, pins, d.nextId);
    NewRowsShape(ApplyPins(d.rows, pins), d.nextId, None, ms, AnchoredSeqs(d.rows, ms));
  }

  /** A sync that is not structural only appends. */
  lemma SyncAppends(d: Db, ms: seq<Live>, flushed: map<nat, bool>, added: seq<Row>)
    requires !Structural(ms, flushed) && added == NewRows(d.rows, d.nextId, None, ms, AnchoredSeqs(d.rows, ms))
    ensures Synced(d, ms, flushed).rows == d.rows + added && Follows(d.rows, added)
  {
    NoPins(d.rows);
    AnchoredAreSummaries(d.rows, ms);
    NewRowsFollow(d.rows, d.nextId, None, ms, AnchoredSeqs(d.rows, ms));
  }

  lemma AppendExplained(d: Db, d': Db, m: Memo, added: seq<Row>)
    requires Explained(d, m) && d'.revision == d.revision && d'.rows == d.rows + added && Follows(d.rows, added)
    ensures Explained(d', m)
  {
    assert d'.rows[..|d.rows|] == d.rows;
    StillExplained(d, d', m);
  }

  lemma SyncKeeps(s: State, ms: seq<Live>, flushed: map<nat, bool>)
    requires Inv(s)
    ensures Inv(s.(db := Synced(s.db, ms, flushed)))
  {
    SyncSound(s.db, ms, flushed);
    if s.memo.Some? && !Structural(ms, flushed) {
      var added := NewRows(s.db.rows, s.db.nextId, None, ms, AnchoredSeqs(s.db.rows, ms));
      SyncAppends(s.db, ms, flushed, added);
      AppendExplained(s.db, Synced(s.db, ms, flushed), s.memo.value, added);
    }
  }

  lemma ReleaseKeeps(s: State)
    requires Inv(s)
    ensures Inv(s.(db := ReleasedDb(s.db)))
  {
    ReleasedView(s.db.rows);
    ReleasedBelow(s.db.rows, s.db.nextId);
  }

  lemma {:induction false} PromotedBelow(t: Table, queued: seq<Row>, base: int, bound: nat)
    requires Below(t, bound)
    ensures Below(Promoted(t, queued, base), bound)
    decreases |queued|
  {
    if queued != [] {
      var r := Promote(queued[0], base);
      SetRowAt(t, r);
      PromotedBelow(SetRow(t, r), queued[1..], base + SEQ_STEP, bound);
    }
  }

  lemma ReleasedBelow(t: Table, bound: nat)
    requires Below(t, bound)
    ensures Below(Released(t), bound)
  {
    PromotedBelow(t, QueuedRows(t), NextSeq(t), bound);
  }

  lemma CancelKeeps(s: State, id: nat)
    requires Inv(s)
    ensures Inv(s.(db := CancelledDb(s.db, id)))
  {
    var p := (r: Row) => !GoesWith(r, id);
    FilterWellFormed(s.db.rows, p);
    FilterMembers(s.db.rows, p);
    assert forall i :: 0 <= i < |Filter(s.db.rows, p)| ==> Filter(s.db.rows, p)[i] in s.db.rows;
  }

  lemma ReloadKeeps(s: State, parses: string -> bool)
    requires Inv(s)
    ensures Inv(s.(memo := Load(s.db, s.memo, parses).1))
  {
    var m := Load(s.db, s.memo, parses).1;
    if m.Some? && m != s.memo {
      assert s.db.rows[..|s.db.rows|] == s.db.rows;
      assert TakenAt(s.db, m.value, |s.db.rows|);
    }
  }

  lemma StepKeeps(s: State, op: Op, parses: string -> bool)
    requires Inv(s)
    ensures Inv(Step(s, op, parses))
  {
    match op
    case Save(draft) => SaveKeeps(s, draft);
    case Sync(own, ms, flushed) => SyncKeeps(s, ms, flushed);
    case Release => ReleaseKeeps(s);
    case Cancel(id) => CancelKeeps(s, id);
    case Reload => ReloadKeeps(s, parses);
    case Invalidate =>
  }

  lemma {:induction false} RunKeeps(s: State, ops: seq<Op>, parses: string -> bool)
    requires Inv(s)
    ensures Inv(Run(s, ops, parses))
    decreases |ops|
  {
    if ops != [] {
      StepKeeps(s, ops[0], parses);
      RunKeeps(Step(s, ops[0], parses), ops[1..], parses);
    }
  }

  /** After any run from an empty memo, a load serves what the table holds now. */
  lemma LoadIsFresh(d: Db, ops: seq<Op>, parses: string -> bool)
    requires Sound(d)
    ensures var s := Run(State(d, None), ops, parses);
            Load(s.db, s.memo, parses).0 == Messages(LlmWindow(s.db.rows), parses)
  {
    RunKeeps(State(d, None), ops, parses);
    var s := Run(State(d, None), ops, parses);
    if s.memo.Some? && Fits(s.db, s.memo.value) {
      FitIsFresh(s.db, s.memo.value);
    }
  }
}
