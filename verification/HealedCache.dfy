/**
 Healing bypasses the read cache's key: it moves neither revision, and it moves the
 newest-row cursor only when an interrupted row is itself at the top position.
 */
module HealedCache {
  import opened Wrappers
  import opened Transcript
  import opened Positions
  import opened Window
  import opened ToolPairs
  import opened Heal
  import opened HistoryCache

  ghost predicate IsTop(t: Table, r: Row) {
    r in t && forall m :: m in t ==> m == r || Before(m, r)
  }

  /** The position of a table is that of a row of it, and no row is behind it. */
  lemma TopRow(t: Table) returns (r: Row)
    requires WellFormed(t) && t != []
    ensures IsTop(t, r) && LastPosition(t) == Some((r.seqNo, r.id))
  {
    var v := View(t);
    ViewMembers(t);
    ViewSorted(t);
    r := v[|v| - 1];
    InView(t, r);
    forall m | m in t ensures m == r || Before(m, r) {
      InView(t, m);
      var i :| 0 <= i < |v| && v[i] == m;
    }
  }

  predicate Later(a: Cursor, b: Cursor) {
    b.Some? && (a.None? || a.value.0 < b.value.0 || (a.value.0 == b.value.0 && a.value.1 < b.value.1))
  }

  /** New rows keep the cursor when they all sort below it, and otherwise move it on. */
  lemma CursorAfter(t: Table, rows: seq<Row>)
    requires WellFormed(t + rows) && t != []
    ensures LastPosition(t) == LastPosition(t + rows) || Later(LastPosition(t), LastPosition(t + rows))
    ensures LastPosition(t) == LastPosition(t + rows)
            <==> forall r :: r in rows ==> Later(Some((r.seqNo, r.id)), LastPosition(t))
  {
    PrefixWellFormed(t, rows);
    var top := TopRow(t);
    var top' := TopRow(t + rows);
    assert top in t + rows;
    if top' in t {
      assert top' == top;
    } else {
      assert top' in rows;
      assert top'.id != top.id by {
        var i :| 0 <= i < |t| && t[i] == top;
        var j :| 0 <= j < |rows| && rows[j] == top';
        assert (t + rows)[i].id < (t + rows)[|t| + j].id;
      }
    }
    forall r | r in rows && top' == top ensures Later(Some((r.seqNo, r.id)), LastPosition(t)) {
      assert r in t + rows && r != top by {
        var i :| 0 <= i < |t| && t[i] == top;
        var j :| 0 <= j < |rows| && rows[j] == r;
        assert (t + rows)[i].id < (t + rows)[|t| + j].id;
      }
    }
  }

  /** Some row stands at a higher position. */
  ghost predicate Covered(t: Table, r: Row) {
    exists m :: m in t && m.seqNo > r.seqNo
  }

  ghost predicate StubOf(x: Row, next: nat, r: Row) {
    x.role == Tool && x.kind == Chat && x.id >= next && x.seqNo >= r.seqNo
  }

  lemma StubsAre(t: Table, next: nat, r: Row, matched: set<string>, top: Row)
    requires top in t
    ensures forall x :: x in StubsFor(t, next, r, matched) ==>
              StubOf(x, next, r) && (r.seqNo < top.seqNo ==> x.seqNo < top.seqNo)
  {
    StubRowsAre(next, r.seqNo, UpperFor(t, r.seqNo), Missing(r.calls, matched));
  }

  /** Every stub is behind some interrupted row, and none passes a row above them all. */
  lemma {:induction false} AddedAre(t: Table, next: nat, orphans: seq<Row>, matched: set<string>, top: Row, x: Row)
    requires top in t && x in AddedRows(t, next, orphans, matched)
    ensures exists r :: r in orphans && StubOf(x, next, r) && (r.seqNo < top.seqNo ==> x.seqNo < top.seqNo)
    decreases |orphans|
  {
    var r := orphans[0];
    var stubs := StubsFor(t, next, r, matched);
    if x in stubs {
      StubsAre(t, next, r, matched, top);
      assert r in orphans;
    } else {
      AddedAre(t + stubs, next + |stubs|, orphans[1..], matched, top, x);
      var o :| o in orphans[1..] && StubOf(x, next + |stubs|, o) && (o.seqNo < top.seqNo ==> x.seqNo < top.seqNo);
      assert o in orphans && StubOf(x, next, o);
    }
  }

  /** Each interrupted row gets a stub. */
  lemma {:induction false} AddedHas(t: Table, next: nat, orphans: seq<Row>, matched: set<string>, r: Row)
      returns (x: Row)
    requires r in orphans && Missing(r.calls, matched) != []
    ensures x in AddedRows(t, next, orphans, matched) && StubOf(x, next, r)
    decreases |orphans|
  {
    var stubs := StubsFor(t, next, orphans[0], matched);
    if r == orphans[0] {
      StubRowsAre(next, r.seqNo, UpperFor(t, r.seqNo), Missing(r.calls, matched));
      x := stubs[0];
    } else {
      x := AddedHas(t + stubs, next + |stubs|, orphans[1..], matched, r);
    }
  }

  lemma OrphanStored(t: Table, r: Row)
    requires r in ToHeal(WindowRows(t, true))
    ensures r in t && Missing(r.calls, Matched(WindowRows(t, true))) != []
  {
    var w := WindowRows(t, true);
    FilterMembers(View(t), Visible(ActiveSummary(t), true));
    FilterMembers(w, (r: Row) => Orphaned(r, Matched(w)));
    InView(t, r);
  }

  /** A stub of a row that nothing stands above passes the newest row. */
  lemma UncoveredMoves(t: Table, next: nat, orphans: seq<Row>, matched: set<string>, top: Row, r: Row) returns (x: Row)
    requires Below(t, next) && IsTop(t, top) && r in orphans && r in t && Missing(r.calls, matched) != []
             && !Covered(t, r)
    ensures x in AddedRows(t, next, orphans, matched) && !Later(Some((x.seqNo, x.id)), Some((top.seqNo, top.id)))
  {
    x := AddedHas(t, next, orphans, matched, r);
    assert top.id < next by {
      var i :| 0 <= i < |t| && t[i] == top;
    }
  }

  lemma CoveredStay(t: Table, next: nat, orphans: seq<Row>, matched: set<string>, top: Row, x: Row)
    requires IsTop(t, top) && (forall r :: r in orphans ==> Covered(t, r)) && x in AddedRows(t, next, orphans, matched)
    ensures Later(Some((x.seqNo, x.id)), Some((top.seqNo, top.id)))
  {
    AddedAre(t, next, orphans, matched, top, x);
  }

  /** A heal keeps the cache's cursor exactly when every interrupted row has a row above it. */
  lemma HealKeepsCursorIff(t: Table, next: nat)
    requires WellFormed(t) && Below(t, next)
    ensures LastPosition(Healed(t, next).0) == LastPosition(t)
            <==> forall r :: r in ToHeal(WindowRows(t, true)) ==> Covered(t, r)
  {
    var orphans, matched := ToHeal(WindowRows(t, true)), Matched(WindowRows(t, true));
    var added := AddedRows(t, next, orphans, matched);
    HealAppends(t, next, orphans, matched);
    if t == [] {
      assert orphans == [];
      assert t + [] == t;
    } else {
      var top := TopRow(t);
      CursorAfter(t, added);
      if r :| r in orphans && !Covered(t, r) {
        OrphanStored(t, r);
        var x := UncoveredMoves(t, next, orphans, matched, top, r);
      } else {
        forall x | x in added ensures Later(Some((x.seqNo, x.id)), LastPosition(t)) {
          CoveredStay(t, next, orphans, matched, top, x);
        }
      }
    }
  }

  /** The row stands under the active summary's position, so its stubs do too. */
  predicate Under(r: Row, summary: Option<Row>) {
    summary.Some? && r.seqNo < summary.value.seqNo
  }

  /** The window a load's messages are built from. */
  function Served(d: Db, memo: Option<Memo>): seq<Row> {
    if memo.Some? && Fits(d, memo.value) then memo.value.window else LlmWindow(d.rows)
  }

  /** A load returns the messages of what it serves. */
  lemma LoadServes(d: Db, memo: Option<Memo>, parses: string -> bool)
    ensures Load(d, memo, parses).0 == Messages(Served(d, memo), parses)
  {
  }

  lemma AddedKeepSummary(t: Table, next: nat, orphans: seq<Row>, matched: set<string>)
    ensures ActiveSummary(t + AddedRows(t, next, orphans, matched)) == ActiveSummary(t)
  {
    var added := AddedRows(t, next, orphans, matched);
    forall y | y in added ensures y.kind != Summary {
      AddedChat(t, next, orphans, matched, y);
    }
    ActiveSummaryAppended(t, added);
  }

  lemma {:induction false} AddedUnpinned(t: Table, next: nat, orphans: seq<Row>, matched: set<string>, x: Row)
    requires x in AddedRows(t, next, orphans, matched)
    ensures !x.pinned
    decreases |orphans|
  {
    var stubs := StubsFor(t, next, orphans[0], matched);
    if x in stubs {
      StubRowsAre(next, orphans[0].seqNo, UpperFor(t, orphans[0].seqNo), Missing(orphans[0].calls, matched));
    } else {
      AddedUnpinned(t + stubs, next + |stubs|, orphans[1..], matched, x);
    }
  }

  /** Stubs of rows under the summary are not shown. */
  lemma AddedHidden(t: Table, next: nat, orphans: seq<Row>, matched: set<string>, x: Row, withQueued: bool)
    requires x in AddedRows(t, next, orphans, matched) && ActiveSummary(t).Some?
    requires forall o :: o in orphans ==> Under(o, ActiveSummary(t))
    ensures !InWindow(x, ActiveSummary(t), withQueued)
  {
    AddedAre(t, next, orphans, matched, ActiveSummary(t).value, x);
    AddedUnpinned(t, next, orphans, matched, x);
  }

  /** Rows that are not shown change no window. */
  lemma HiddenRows(t: Table, added: seq<Row>, summary: Option<Row>)
    requires WellFormed(t + added) && ActiveSummary(t) == summary && ActiveSummary(t + added) == summary
    requires forall x :: x in added ==> !InWindow(x, summary, false)
    ensures LlmWindow(t + added) == LlmWindow(t)
  {
    PrefixWellFormed(t, added);
    var p := Visible(summary, false);
    FilterView(t + added, p);
    FilterView(t, p);
    FilterConcat(t, added, p);
    FilterNone(added, p);
    assert Filter(t, p) + [] == Filter(t, p);
  }

  /** A stub at or above the summary's position is a new row of the window. */
  lemma StubShown(t: Table, next: nat, orphans: seq<Row>, matched: set<string>, r: Row)
    requires WellFormed(t) && Below(t, next) && r in orphans && Missing(r.calls, matched) != []
    requires !Under(r, ActiveSummary(t))
    ensures LlmWindow(t + AddedRows(t, next, orphans, matched)) != LlmWindow(t)
  {
    var added := AddedRows(t, next, orphans, matched);
    var x := AddedHas(t, next, orphans, matched, r);
    AddedKeepSummary(t, next, orphans, matched);
    StubAtOrAfter(t, next, x, r);
    InView(t + added, x);
    FilterMembers(View(t + added), Visible(ActiveSummary(t), false));
    assert x in LlmWindow(t + added);
    FilterMembers(View(t), Visible(ActiveSummary(t), false));
    InView(t, x);
    assert forall i :: 0 <= i < |t| ==> t[i].id < next;
  }

  lemma StubAtOrAfter(t: Table, next: nat, x: Row, r: Row)
    requires Below(t, next) && StubOf(x, next, r) && !Under(r, ActiveSummary(t))
    ensures InWindow(x, ActiveSummary(t), false)
  {
    if ActiveSummary(t).Some? {
      var i :| 0 <= i < |t| && t[i] == ActiveSummary(t).value;
    }
  }

  /** A heal changes what is shown exactly when some interrupted row is not under the summary. */
  lemma HealShowsIff(t: Table, next: nat)
    requires WellFormed(t) && Below(t, next)
    ensures LlmWindow(Healed(t, next).0) == LlmWindow(t)
            <==> forall o :: o in ToHeal(WindowRows(t, true)) ==> Under(o, ActiveSummary(t))
  {
    var orphans, matched := ToHeal(WindowRows(t, true)), Matched(WindowRows(t, true));
    var added := AddedRows(t, next, orphans, matched);
    HealAppends(t, next, orphans, matched);
    AddedKeepSummary(t, next, orphans, matched);
    if o :| o in orphans && !Under(o, ActiveSummary(t)) {
      OrphanStored(t, o);
      StubShown(t, next, orphans, matched, o);
    } else if orphans == [] {
      assert t + added == t;
    } else {
      assert Under(orphans[0], ActiveSummary(t));
      forall x | x in added ensures !InWindow(x, ActiveSummary(t), false) {
        AddedHidden(t, next, orphans, matched, x, false);
      }
      HiddenRows(t, added, ActiveSummary(t));
    }
  }

  /**
   A memo that fitted before a heal: what the next load serves is the healed window exactly
   when some interrupted row had no row above it, or all of them lie under the summary.
   */
  lemma HealFreshIff(d: Db, m: Memo)
    requires Sound(d) && Fits(d, m) && m.window == LlmWindow(d.rows)
    ensures var d' := d.(rows := Healed(d.rows, d.nextId).0, nextId := Healed(d.rows, d.nextId).1);
            var orphans := ToHeal(WindowRows(d.rows, true));
            Served(d', Some(m)) == LlmWindow(d'.rows)
            <==> (exists o :: o in orphans && !Covered(d.rows, o))
                 || (forall o :: o in orphans ==> Under(o, ActiveSummary(d.rows)))
  {
    HealKeepsCursorIff(d.rows, d.nextId);
    HealShowsIff(d.rows, d.nextId);
  }

  // ---- A stale window ------------------------------------------------------------------

  /** An interrupted call, and the user message that came after it. */
  const CALLING := Row(0, SEQ_STEP, Assistant, Chat, false, "", [ToolCall("a", "f", "{}")], "", None)
  const LATER := Row(1, 2 * SEQ_STEP, User, Chat, false, "next", [], "", None)

  function Interrupted(): Table {
    [CALLING] + [LATER]
  }

  lemma InterruptedWindow(withQueued: bool)
    ensures View(Interrupted()) == Interrupted() && ActiveSummary(Interrupted()) == None
    ensures WindowRows(Interrupted(), withQueued) == Interrupted()
  {
    var t := Interrupted();
    ViewAppended([CALLING], LATER);
    assert View([]) == [] && [] + [CALLING] == [CALLING];
    ViewAppended([], CALLING);
    assert [CALLING][1..] == [];
    assert View([CALLING]) == [CALLING];
    assert t[..1] == [CALLING] && [CALLING][..0] == [];
    FilterAll(t, Visible(None, withQueued));
  }

  lemma CallingOrphaned()
    ensures CALLING in ToHeal(Interrupted())
    ensures forall o :: o in ToHeal(Interrupted()) ==> Covered(Interrupted(), o)
  {
    var w := Interrupted();
    assert w[1..] == [LATER] && [LATER][1..] == [];
    assert RepliedIds(w) == {};
    assert CALLING.calls[0] in CALLING.calls;
    assert CallIds(CALLING.calls) == {"a"};
    assert CalledIds(w) == {"a"};
    FilterMembers(w, (r: Row) => Orphaned(r, Matched(w)));
    assert CALLING in w && LATER in w;
    assert Orphaned(CALLING, Matched(w));
  }

  /** The memo fits and is fresh, and after a heal it is served although it is not. */
  ghost predicate HidesHeal(d: Db, m: Memo) {
    var d' := d.(rows := Healed(d.rows, d.nextId).0, nextId := Healed(d.rows, d.nextId).1);
    Sound(d) && Fits(d, m) && m.window == LlmWindow(d.rows) && Served(d', Some(m)) != LlmWindow(d'.rows)
  }

  lemma HidesHealIf(d: Db, m: Memo, r: Row)
    requires Sound(d) && Fits(d, m) && m.window == LlmWindow(d.rows)
    requires r in ToHeal(WindowRows(d.rows, true)) && !Under(r, ActiveSummary(d.rows))
    requires forall o :: o in ToHeal(WindowRows(d.rows, true)) ==> Covered(d.rows, o)
    ensures HidesHeal(d, m)
  {
    HealFreshIff(d, m);
  }

  /** A load, a heal and a load again: the second load serves a window that lacks the stub. */
  lemma HealStaleHappens()
    ensures exists d: Db, m: Memo :: HidesHeal(d, m)
  {
    var d := Db(Interrupted(), 2, 0, 0);
    var m := Memo(LlmWindow(d.rows), (0, 0), LastPosition(d.rows));
    InterruptedWindow(true);
    CallingOrphaned();
    assert !Under(CALLING, ActiveSummary(d.rows));
    HidesHealIf(d, m, CALLING);
  }
}
