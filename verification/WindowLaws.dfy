/** What is shown, kind by kind: to the model, and to the user who scrolls. */
module WindowLaws {
  import opened Wrappers
  import opened Transcript
  import opened Positions
  import opened Window
  import opened HistoryPages

  /** Ahead of the row at `(seqNo, id)`. */
  ghost predicate AheadOf(r: Row, seqNo: int, id: nat) {
    r.seqNo < seqNo || (r.seqNo == seqNo && r.id < id)
  }

  /** In position order, each row once. */
  ghost predicate InOrder(v: seq<Row>) {
    forall i, j :: 0 <= i < j < |v| ==> AheadOf(v[i], v[j].seqNo, v[j].id)
  }

  lemma OrderedView(t: Table, p: Row -> bool)
    requires WellFormed(t)
    ensures InOrder(Filter(View(t), p)) && forall r :: r in Filter(View(t), p) <==> r in t && p(r)
  {
    ViewSorted(t);
    FilterSorted(View(t), p);
    FilterMembers(View(t), p);
    forall r ensures r in Filter(View(t), p) <==> r in t && p(r) {
      InView(t, r);
    }
  }

  /** The rows of a session never compacted: all but the reverted ones, and the queued ones unless asked for. */
  lemma UncompactedWindow(t: Table, withQueued: bool)
    requires forall r :: r in t ==> r.kind != Summary
    ensures WindowRows(t, withQueued)
            == Filter(View(t), (r: Row) => r.kind == Chat || r.kind == Note || (withQueued && r.kind == Queued))
  {
    assert ActiveSummary(t) == None;
    forall r | r in View(t) ensures r.kind != Summary {
      InView(t, r);
    }
    FilterSame(View(t), Visible(None, withQueued),
               (r: Row) => r.kind == Chat || r.kind == Note || (withQueued && r.kind == Queued));
  }

  lemma UncompactedLlm(t: Table)
    requires forall r :: r in t ==> r.kind != Summary
    ensures LlmWindow(t) == Filter(View(t), (r: Row) => r.kind != Reverted && r.kind != Queued)
  {
    UncompactedWindow(t, false);
    forall r | r in View(t) ensures r.kind != Summary {
      InView(t, r);
    }
    FilterSame(View(t), (r: Row) => r.kind == Chat || r.kind == Note || (false && r.kind == Queued),
               (r: Row) => r.kind != Reverted && r.kind != Queued);
  }

  /**
   What a summary leaves to see, kind by kind: itself and no other summary; a chat or note
   row that is pinned or not ahead of it, a queued one likewise when asked for; no reverted
   one.
   */
  ghost predicate ShownBehind(r: Row, s: Row, withQueued: bool) {
    match r.kind
    case Chat => r.pinned || !AheadOf(r, s.seqNo, s.id)
    case Note => r.pinned || !AheadOf(r, s.seqNo, s.id)
    case Queued => withQueued && (r.pinned || !AheadOf(r, s.seqNo, s.id))
    case Summary => r == s
    case Reverted => false
  }

  /** Behind the newest-created summary the window is exactly those rows, in position order. */
  lemma CompactedWindow(t: Table, s: Row, withQueued: bool)
    requires WellFormed(t) && s in t && s.kind == Summary && forall r :: r in t && r.kind == Summary ==> r.id <= s.id
    ensures InOrder(WindowRows(t, withQueued))
    ensures forall r :: r in WindowRows(t, withQueued) <==>
              r in t && ShownBehind(r, s, withQueued)
  {
    NewestIs(t, s);
    var p := Visible(Some(s), withQueued);
    OrderedView(t, p);
    forall r | r in t && r.kind == Summary && r.id == s.id ensures r == s {
      SameRow(t, r, s);
    }
  }

  lemma SameRow(t: Table, a: Row, b: Row)
    requires WellFormed(t) && a in t && b in t && a.id == b.id
    ensures a == b
  {
    var i :| 0 <= i < |t| && t[i] == a;
    var j :| 0 <= j < |t| && t[j] == b;
  }

  lemma NewestIs(t: Table, s: Row)
    requires WellFormed(t) && s in t && s.kind == Summary && forall r :: r in t && r.kind == Summary ==> r.id <= s.id
    ensures ActiveSummary(t) == Some(s)
  {
    ActiveSummaryNewest(t);
    SameRow(t, ActiveSummary(t).value, s);
  }

  // ---- The history a user scrolls through ----------------------------------------------

  /** The user is shown everything but notes and reverted rows, in position order. */
  lemma UserSees(t: Table)
    requires WellFormed(t)
    ensures InOrder(Shown(t))
    ensures forall r :: r in Shown(t) <==> r in t && (r.kind == Chat || r.kind == Queued || r.kind == Summary)
  {
    OrderedView(t, UserVisible);
  }

  /** A cursor without an id stands before every row of its position. */
  ghost predicate ReadBefore(r: Row, before: Option<PageCursor>) {
    match before
    case None => true
    case Some(c) => if c.id == None then r.seqNo < c.seqNo else AheadOf(r, c.seqNo, c.id.value)
  }

  /**
   A page: of the shown rows before the cursor the last hundred, whether there are more, and
   the position of its first row when there are.
   */
  lemma PageIs(t: Table, before: Option<PageCursor>)
    requires WellFormed(t)
    ensures var page, older := PageOf(t, before), Older(t, before);
            && InOrder(older)
            && (forall r :: r in older <==>
                  r in Shown(t) && ReadBefore(r, before))
            && page.rows == (if |older| <= 100 then older else older[|older| - 100..])
            && page.hasMore == (|older| > 100)
            && page.next == if |older| > 100 then Some(PageCursor(page.rows[0].seqNo, Some(page.rows[0].id))) else None
  {
    ShownSorted(t);
    FilterSorted(Shown(t), OlderThan(before));
    FilterMembers(Shown(t), OlderThan(before));
  }

  /**
   A delta: of the shown rows created after the cursor the first `limit` to be created, in
   position order, and whether that was not all.
   */
  lemma DeltaIs(t: Table, since: nat, limit: nat)
    requires WellFormed(t)
    ensures var newer := Filter(t, (r: Row) => r.id > since && r.kind != Note && r.kind != Reverted);
            var delta := DeltaSince(t, since, limit);
            && delta.truncated == (|newer| > limit)
            && multiset(delta.rows) == multiset(if |newer| <= limit then newer else newer[..limit])
            && InOrder(delta.rows)
  {
    var p := (r: Row) => r.id > since && r.kind != Note && r.kind != Reverted;
    FilterSame(t, CreatedAfter(since), p);
    var newer := Filter(t, p);
    FilterWellFormed(t, p);
    var first := FirstRows(FirstRows(newer, limit + 1), limit);
    assert first == if |newer| <= limit then newer else newer[..limit];
    ViewMembers(first);
    ViewSorted(first);
  }
}
