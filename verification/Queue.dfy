/**
 Messages queued while a turn runs: releasing them flips them to chat and moves them to
 the end of the transcript; cancelling one deletes it with its attachment rows.
 */
module Queue {
  import opened Wrappers
  import opened Transcript
  import opened Positions

  predicate IsQueued(r: Row) {
    r.role == User && r.kind == Queued
  }

  /** The queued rows in position order. */
  function QueuedRows(t: Table): seq<Row> {
    Filter(View(t), IsQueued)
  }

  /** The table with the row of `r`'s id replaced. */
  function SetRow(t: Table, r: Row): (u: Table)
    ensures |u| == |t|
  {
    if t == [] then [] else [if t[0].id == r.id then r else t[0]] + SetRow(t[1..], r)
  }

  function Promote(r: Row, s: int): Row {
    r.(kind := Chat, seqNo := s)
  }

  function PromoteAll(queued: seq<Row>, base: int): (rows: seq<Row>)
    ensures |rows| == |queued|
  {
    if queued == [] then [] else [Promote(queued[0], base)] + PromoteAll(queued[1..], base + SEQ_STEP)
  }

  function Promoted(t: Table, queued: seq<Row>, base: int): Table
    decreases |queued|
  {
    if queued == [] then t
    else Promoted(SetRow(t, Promote(queued[0], base)), queued[1..], base + SEQ_STEP)
  }

  function Released(t: Table): Table {
    Promoted(t, QueuedRows(t), NextSeq(t))
  }

  predicate GoesWith(r: Row, id: nat) {
    r.id == id || r.attachmentFor == Some(id)
  }

  function RowById(t: Table, id: nat): (r: Option<Row>)
    ensures r.Some? ==> r.value in t && r.value.id == id
    ensures r.None? ==> forall m :: m in t ==> m.id != id
  {
    if t == [] then None else if t[0].id == id then Some(t[0]) else RowById(t[1..], id)
  }

  predicate Cancellable(t: Table, id: nat) {
    var r := RowById(t, id);
    r.Some? && r.value.kind == Queued
  }

  function Cancelled(t: Table, id: nat): Table {
    if Cancellable(t, id) then Filter(t, (r: Row) => !GoesWith(r, id)) else t
  }

  // ---- On the plain list ---------------------------------------------------------------

  function Without(id: nat): Row -> bool {
    (r: Row) => r.id != id
  }

  lemma {:induction false} SetRowAt(t: Table, r: Row)
    ensures forall i :: 0 <= i < |t| ==> SetRow(t, r)[i] == if t[i].id == r.id then r else t[i]
  {
    if t != [] {
      SetRowAt(t[1..], r);
    }
  }

  lemma SetRowWellFormed(t: Table, r: Row)
    requires WellFormed(t)
    ensures WellFormed(SetRow(t, r))
    ensures forall bound :: Below(t, bound) ==> Below(SetRow(t, r), bound)
  {
    SetRowAt(t, r);
    forall i, j | 0 <= i < j < |t| ensures SetRow(t, r)[i].id < SetRow(t, r)[j].id {
      assert t[i].id < t[j].id;
    }
    forall bound | Below(t, bound) ensures Below(SetRow(t, r), bound) {
    }
  }

  lemma SetRowHere(t: Table, r: Row)
    requires WellFormed(t) && t != [] && t[0].id == r.id
    ensures SetRow(t, r) == [r] + t[1..] && Filter(t, Without(r.id)) == t[1..]
  {
    forall i | 0 <= i < |t[1..]| ensures t[1..][i].id != r.id {
      assert t[0].id < t[i + 1].id;
    }
    KeepAll(t[1..], r);
    FilterCons(t[0], t[1..], Without(r.id));
    assert t == [t[0]] + t[1..];
  }

  lemma SetRowLater(t: Table, r: Row)
    requires t != [] && t[0].id != r.id
    ensures SetRow(t, r) == [t[0]] + SetRow(t[1..], r)
    ensures Filter(t, Without(r.id)) == [t[0]] + Filter(t[1..], Without(r.id))
  {
  }

  lemma {:induction false} SetRowMembers(t: Table, from: Row, r: Row)
    requires WellFormed(t) && from in t && r.id == from.id
    ensures multiset(SetRow(t, r)) == multiset(Filter(t, Without(r.id))) + multiset{r}
  {
    if t[0].id == r.id {
      SetRowHere(t, r);
    } else {
      assert t == [t[0]] + t[1..];
      SetRowMembers(t[1..], from, r);
      SetRowLater(t, r);
    }
  }

  lemma {:induction false} KeepAll(t: Table, r: Row)
    requires forall i :: 0 <= i < |t| ==> t[i].id != r.id
    ensures SetRow(t, r) == t && Filter(t, Without(r.id)) == t
  {
    if t != [] {
      KeepAll(t[1..], r);
      assert [t[0]] + t[1..] == t;
    }
  }

  /** Rewriting one row to the highest position takes it to the end and moves nothing else. */
  lemma MovedToEnd(t: Table, from: Row, r: Row)
    requires WellFormed(t) && from in t && r.id == from.id
    requires forall m :: m in t && m.id != r.id ==> m.seqNo < r.seqNo
    ensures WellFormed(SetRow(t, r))
    ensures View(SetRow(t, r)) == Filter(View(t), Without(r.id)) + [r]
  {
    var u, kept := SetRow(t, r), Filter(View(t), Without(r.id));
    SetRowWellFormed(t, r);
    ViewSorted(u);
    ViewSorted(t);
    FilterSorted(View(t), Without(r.id));
    FilterMembers(View(t), Without(r.id));
    forall i | 0 <= i < |kept| ensures Before(kept[i], r) {
      assert kept[i] in kept;
      InView(t, kept[i]);
    }
    SetRowMembers(t, from, r);
    FilterView(t, Without(r.id));
    ViewMembers(Filter(t, Without(r.id)));
    ViewMembers(u);
    SortedUnique(View(u), kept + [r]);
  }

  function IdsOf(rows: seq<Row>): set<nat> {
    if rows == [] then {} else {rows[0].id} + IdsOf(rows[1..])
  }

  lemma {:induction false} IdsOfAre(rows: seq<Row>, id: nat)
    ensures id in IdsOf(rows) <==> exists r :: r in rows && r.id == id
  {
    if rows != [] {
      assert rows == [rows[0]] + rows[1..] && rows[0] in rows;
      IdsOfAre(rows[1..], id);
    }
  }

  function NotAmong(rows: seq<Row>): Row -> bool {
    var ids := IdsOf(rows);
    (r: Row) => r.id !in ids
  }

  ghost predicate Movable(t: Table, queued: seq<Row>, base: int) {
    && WellFormed(t)
    && (forall q :: q in queued ==> q in t)
    && (forall i, j :: 0 <= i < j < |queued| ==> queued[i].id != queued[j].id)
    && (forall m :: m in t ==> m.seqNo < base)
  }

  lemma MovableNext(t: Table, queued: seq<Row>, base: int)
    requires Movable(t, queued, base) && queued != []
    ensures Movable(SetRow(t, Promote(queued[0], base)), queued[1..], base + SEQ_STEP)
  {
    var q, rest, r := queued[0], queued[1..], Promote(queued[0], base);
    var u := SetRow(t, r);
    SetRowWellFormed(t, r);
    SetRowAt(t, r);
    forall m | m in rest ensures m in u {
      var i :| 0 <= i < |rest| && rest[i] == m;
      assert queued[i + 1] == m && m in queued;
      var j :| 0 <= j < |t| && t[j] == m;
      assert u[j] == m;
    }
    forall m | m in u ensures m.seqNo < base + SEQ_STEP {
      var j :| 0 <= j < |u| && u[j] == m;
      assert t[j] in t;
    }
  }

  lemma NotAmongRest(queued: seq<Row>)
    requires queued != []
    requires forall i, j :: 0 <= i < j < |queued| ==> queued[i].id != queued[j].id
    ensures queued[0].id !in IdsOf(queued[1..])
    ensures forall m :: NotAmong(queued)(m) == (Without(queued[0].id)(m) && NotAmong(queued[1..])(m))
  {
    IdsOfAre(queued[1..], queued[0].id);
    forall i | 0 <= i < |queued[1..]| ensures queued[1..][i].id != queued[0].id {
      assert queued[i + 1].id != queued[0].id;
    }
  }

  lemma PromoteFirst(t: Table, queued: seq<Row>, base: int)
    requires Movable(t, queued, base) && queued != []
    ensures Filter(View(SetRow(t, Promote(queued[0], base))), NotAmong(queued[1..]))
            == Filter(View(t), NotAmong(queued)) + [Promote(queued[0], base)]
  {
    var v, r, rest := View(t), Promote(queued[0], base), queued[1..];
    assert queued[0] in queued;
    MovedToEnd(t, queued[0], r);
    NotAmongRest(queued);
    FilterSnoc(Filter(v, Without(r.id)), r, NotAmong(rest));
    FilterTwice(v, Without(r.id), NotAmong(rest), NotAmong(queued));
  }

  lemma PromoteNone(t: Table, queued: seq<Row>, base: int)
    requires queued == []
    ensures View(t) == Filter(View(t), NotAmong(queued)) + PromoteAll(queued, base)
  {
    FilterAll(View(t), NotAmong(queued));
  }

  lemma {:induction false} PromotedView(t: Table, queued: seq<Row>, base: int)
    requires Movable(t, queued, base)
    ensures WellFormed(Promoted(t, queued, base))
    ensures View(Promoted(t, queued, base)) == Filter(View(t), NotAmong(queued)) + PromoteAll(queued, base)
    decreases |queued|
  {
    if queued == [] {
      PromoteNone(t, queued, base);
    } else {
      var r, rest := Promote(queued[0], base), queued[1..];
      MovableNext(t, queued, base);
      PromoteFirst(t, queued, base);
      PromotedView(SetRow(t, r), rest, base + SEQ_STEP);
      Reassociate(Filter(View(t), NotAmong(queued)), [r], PromoteAll(rest, base + SEQ_STEP));
    }
  }

  predicate NotQueued(r: Row) {
    !IsQueued(r)
  }

  /** A release is the list without its queued rows, followed by them in their order. */
  lemma ReleasedView(t: Table)
    requires WellFormed(t)
    ensures WellFormed(Released(t))
    ensures View(Released(t)) == Filter(View(t), NotQueued) + PromoteAll(QueuedRows(t), NextSeq(t))
  {
    var v, queued := View(t), QueuedRows(t);
    ViewSorted(t);
    FilterMembers(v, IsQueued);
    forall q | q in queued ensures q in t {
      InView(t, q);
    }
    FilterSorted(v, IsQueued);
    forall i, j | 0 <= i < j < |queued| ensures queued[i].id != queued[j].id {
      assert Before(queued[i], queued[j]);
      if queued[i].id == queued[j].id {
        SameIdSameRow(t, queued[i], queued[j]);
      }
    }
    PromotedView(t, queued, NextSeq(t));
    forall m | m in v ensures NotQueued(m) == NotAmong(queued)(m) {
      InView(t, m);
      IdsOfAre(queued, m.id);
      forall q | q in queued && q.id == m.id ensures q == m {
        SameIdSameRow(t, q, m);
      }
    }
    FilterSame(v, NotQueued, NotAmong(queued));
  }

  lemma SameIdSameRow(t: Table, a: Row, b: Row)
    requires WellFormed(t) && a in t && b in t && a.id == b.id
    ensures a == b
  {
    var i :| 0 <= i < |t| && t[i] == a;
    var j :| 0 <= j < |t| && t[j] == b;
  }

  /** The promoted rows keep their ids and contents and close the transcript, in order. */
  lemma {:induction false} PromoteAllKeeps(queued: seq<Row>, base: int)
    ensures Ids(PromoteAll(queued, base)) == Ids(queued)
    ensures forall i :: 0 <= i < |queued| ==>
              PromoteAll(queued, base)[i] == Promote(queued[i], base + i * SEQ_STEP)
  {
    if queued != [] {
      PromoteAllKeeps(queued[1..], base + SEQ_STEP);
    }
  }

  /** Cancelling deletes one queued row and its attachment rows; the rest stay in order. */
  lemma CancelledView(t: Table, id: nat)
    requires WellFormed(t)
    ensures WellFormed(Cancelled(t, id))
    ensures View(Cancelled(t, id)) == if Cancellable(t, id) then Filter(View(t), (r: Row) => !GoesWith(r, id))
            else View(t)
  {
    var p := (r: Row) => !GoesWith(r, id);
    FilterView(t, p);
    FilterWellFormed(t, p);
  }
}
