/**
 What releasing and cancelling queued messages come to: a release leaves nothing queued and
 shows the model each message once, behind all it saw before; a cancelled message leaves no
 trace.
 */
module QueueLaws {
  import opened Wrappers
  import opened Transcript
  import opened Positions
  import opened Window
  import opened Queue
  import opened HistoryCache

  /** The messages waiting, in position order. */
  function Waiting(t: Table): seq<Row> {
    Filter(View(t), (r: Row) => r.role == User && r.kind == Queued)
  }

  lemma WaitingIs(t: Table)
    ensures QueuedRows(t) == Waiting(t)
  {
    FilterSame(View(t), IsQueued, (r: Row) => r.role == User && r.kind == Queued);
  }

  /** The rows are the messages as they were, now ordinary ones behind position `last`, one step apart. */
  ghost predicate Appended(rows: seq<Row>, queued: seq<Row>, last: int) {
    |rows| == |queued| && forall i :: 0 <= i < |rows| ==>
        rows[i] == queued[i].(kind := Chat, seqNo := last + (i + 1) * 1024)
  }

  lemma {:induction false} PromotedAre(queued: seq<Row>, base: int)
    ensures Appended(PromoteAll(queued, base), queued, base - 1024)
  {
    if queued != [] {
      var rows, rest := PromoteAll(queued, base), PromoteAll(queued[1..], base + SEQ_STEP);
      PromotedAre(queued[1..], base + SEQ_STEP);
      forall i | 0 < i < |rows| ensures rows[i] == queued[i].(kind := Chat, seqNo := base - 1024 + (i + 1) * 1024) {
        assert rows[i] == rest[i - 1] && queued[i] == queued[1..][i - 1];
      }
    }
  }

  lemma AppendedIn(rows: seq<Row>, queued: seq<Row>, last: int, r: Row)
    requires Appended(rows, queued, last) && r in rows
    ensures r.kind == Chat && r.seqNo > last
  {
    var i :| 0 <= i < |rows| && rows[i] == r;
  }

  /** The highest position, or 0 in an empty table. */
  function Top(t: Table): int {
    OrZero(MaxSeq(t))
  }

  lemma ReleasedIs(t: Table) returns (rows: seq<Row>)
    requires WellFormed(t)
    ensures WellFormed(Released(t)) && Appended(rows, Waiting(t), Top(t))
    ensures View(Released(t)) == Filter(View(t), NotQueued) + rows
  {
    rows := PromoteAll(QueuedRows(t), NextSeq(t));
    ReleasedView(t);
    WaitingIs(t);
    PromotedAre(QueuedRows(t), NextSeq(t));
  }

  // ---- Nothing stays queued ------------------------------------------------------------

  /** After a release nobody waits, so a second release changes nothing. */
  lemma ReleaseEmpties(t: Table)
    requires WellFormed(t)
    ensures Waiting(Released(t)) == [] && Released(Released(t)) == Released(t)
  {
    var rows := ReleasedIs(t);
    var p := (r: Row) => r.role == User && r.kind == Queued;
    FilterConcat(Filter(View(t), NotQueued), rows, p);
    FilterMembers(View(t), NotQueued);
    FilterNone(Filter(View(t), NotQueued), p);
    forall r | r in rows ensures !p(r) {
      AppendedIn(rows, Waiting(t), Top(t), r);
    }
    FilterNone(rows, p);
    WaitingIs(Released(t));
  }

  /** A release moves both revisions when someone waited, and a second one moves nothing. */
  lemma ReleaseBumps(d: Db)
    requires WellFormed(d.rows)
    ensures var d' := ReleasedDb(d);
            && ReleasedDb(d') == d'
            && (if Waiting(d.rows) == [] then d' == d
                else d' == Db(Released(d.rows), d.nextId, d.revision + 1, d.structure + 1))
  {
    WaitingIs(d.rows);
    ReleaseEmpties(d.rows);
    WaitingIs(Released(d.rows));
  }

  // ---- What the model sees -------------------------------------------------------------

  lemma {:induction false} SetRowSnoc(t: Table, last: Row, r: Row)
    ensures SetRow(t + [last], r) == SetRow(t, r) + [if last.id == r.id then r else last]
  {
    if t == [] {
      assert t + [last] == [last] && SetRow([last], r)[1..] == [];
    } else {
      assert (t + [last])[1..] == t[1..] + [last];
      SetRowSnoc(t[1..], last, r);
    }
  }

  lemma SummarySnoc(t: Table, last: Row)
    ensures ActiveSummary(t + [last]) == if last.kind == Summary then Some(last) else ActiveSummary(t)
  {
    assert (t + [last])[..|t|] == t;
  }

  lemma {:induction false} SummaryThroughSet(t: Table, r: Row)
    requires r.kind != Summary && forall m :: m in t && m.id == r.id ==> m.kind != Summary
    ensures ActiveSummary(SetRow(t, r)) == ActiveSummary(t)
  {
    if t != [] {
      var init, last := t[..|t| - 1], t[|t| - 1];
      assert t == init + [last] && last in t && forall m :: m in init ==> m in t;
      SummaryThroughSet(init, r);
      SetRowSnoc(init, last, r);
      SummarySnoc(init, last);
      SummarySnoc(SetRow(init, r), if last.id == r.id then r else last);
    }
  }

  lemma {:induction false} SummaryThroughPromote(t: Table, queued: seq<Row>, base: int)
    requires forall m, q :: m in t && q in queued && m.id == q.id ==> m.kind != Summary
    ensures ActiveSummary(Promoted(t, queued, base)) == ActiveSummary(t)
    decreases |queued|
  {
    if queued != [] {
      var r := Promote(queued[0], base);
      assert queued[0] in queued;
      SummaryThroughSet(t, r);
      SetRowAt(t, r);
      forall m, q | m in SetRow(t, r) && q in queued[1..] && m.id == q.id ensures m.kind != Summary {
        var i :| 0 <= i < |t| && SetRow(t, r)[i] == m;
        assert t[i] in t && q in queued;
      }
      SummaryThroughPromote(SetRow(t, r), queued[1..], base + SEQ_STEP);
    }
  }

  lemma SummaryThroughRelease(t: Table)
    requires WellFormed(t)
    ensures ActiveSummary(Released(t)) == ActiveSummary(t)
  {
    FilterMembers(View(t), IsQueued);
    forall m, q | m in t && q in QueuedRows(t) && m.id == q.id ensures m.kind != Summary {
      InView(t, q);
      SameIdSameRow(t, m, q);
    }
    SummaryThroughPromote(t, QueuedRows(t), NextSeq(t));
  }

  lemma BehindTop(t: Table, r: Row, summary: Option<Row>)
    requires (summary.Some? ==> summary.value in t) && r.kind == Chat && r.seqNo > Top(t)
    ensures InWindow(r, summary, false)
  {
  }

  /**
   A release adds to what the model sees exactly the messages that waited, each as it was
   written, in their order, behind everything seen before; none of them was seen before.
   */
  lemma ReleaseShows(t: Table) returns (rows: seq<Row>)
    requires WellFormed(t)
    ensures Appended(rows, Waiting(t), Top(t)) && LlmWindow(Released(t)) == LlmWindow(t) + rows
    ensures forall q :: q in Waiting(t) ==> q !in LlmWindow(t)
  {
    rows := ReleasedIs(t);
    var summary := ActiveSummary(t);
    var p := Visible(summary, false);
    SummaryThroughRelease(t);
    FilterConcat(Filter(View(t), NotQueued), rows, p);
    FilterTwice(View(t), NotQueued, p, p);
    forall r | r in rows ensures p(r) {
      AppendedIn(rows, Waiting(t), Top(t), r);
      BehindTop(t, r, summary);
    }
    FilterAll(rows, p);
    FilterMembers(View(t), p);
    FilterMembers(View(t), (r: Row) => r.role == User && r.kind == Queued);
  }

  // ---- Cancelling ----------------------------------------------------------------------

  ghost predicate IsWaiting(t: Table, id: nat) {
    exists r :: r in t && r.id == id && r.kind == Queued
  }

  lemma CancellableIs(t: Table, id: nat)
    requires WellFormed(t)
    ensures Cancellable(t, id) <==> IsWaiting(t, id)
  {
    if r :| r in t && r.id == id && r.kind == Queued {
      SameIdSameRow(t, RowById(t, id).value, r);
    }
  }

  lemma CancelledRows(t: Table, id: nat)
    requires WellFormed(t) && Cancellable(t, id)
    ensures View(Cancelled(t, id)) == Filter(View(t), (r: Row) => r.id != id && r.attachmentFor != Some(id))
  {
    CancelledView(t, id);
    FilterSame(View(t), (r: Row) => !GoesWith(r, id), (r: Row) => r.id != id && r.attachmentFor != Some(id));
  }

  /**
   Cancelling deletes exactly the row of that id and the rows attached to it, and moves both
   revisions, if that row is queued; for any other id it changes nothing.
   */
  lemma CancelMeans(d: Db, id: nat)
    requires WellFormed(d.rows)
    ensures !IsWaiting(d.rows, id) ==> CancelledDb(d, id) == d
    ensures IsWaiting(d.rows, id) ==>
              var d' := CancelledDb(d, id);
              && d' == Db(d'.rows, d.nextId, d.revision + 1, d.structure + 1)
              && View(d'.rows) == Filter(View(d.rows), (r: Row) => r.id != id && r.attachmentFor != Some(id))
  {
    CancellableIs(d.rows, id);
    if Cancellable(d.rows, id) {
      CancelledRows(d.rows, id);
    }
  }

  /** A saved row goes to the end, one step behind the highest position; only a summary moves the revisions. */
  lemma SaveMeans(d: Db, draft: Row)
    requires WellFormed(d.rows) && Below(d.rows, d.nextId)
    ensures var d' := Saved(d, draft); var r := draft.(id := d.nextId, seqNo := Top(d.rows) + 1024);
            && d'.rows == d.rows + [r] && View(d'.rows) == View(d.rows) + [r] && d'.nextId == d.nextId + 1
            && (d'.revision, d'.structure)
               == if draft.kind == Summary then (d.revision + 1, d.structure + 1) else (d.revision, d.structure)
  {
    AppendGoesLast(d.rows, draft.(id := d.nextId, seqNo := Top(d.rows) + 1024));
  }
}
