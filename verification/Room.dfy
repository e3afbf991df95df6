/**
 Positions stay positive: whatever is saved, synced, released, cancelled and healed, a row
 that is no summary stands above position 0, so there is always room to anchor a summary
 ahead of it.
 */
module Room {
  import opened Wrappers
  import opened Transcript
  import opened Positions
  import opened Window
  import opened Queue
  import opened Checkpoint
  import opened WriteBack
  import opened ToolPairs
  import opened Heal
  import opened HistoryCache

  /** No row stands below 0, only a summary stands at 0, and a summary makes no calls. */
  predicate Placeable(r: Row) {
    r.seqNo >= 0 && (r.kind != Summary ==> r.seqNo > 0) && (r.kind == Summary ==> !Calls(r))
  }

  ghost predicate Roomy(t: seq<Row>) {
    forall i :: 0 <= i < |t| ==> Placeable(t[i])
  }

  lemma RoomyIn(t: seq<Row>, r: Row)
    requires Roomy(t) && r in t
    ensures Placeable(r)
  {
  }

  lemma NextIsPositive(t: Table)
    requires Roomy(t)
    ensures NextSeq(t) >= SEQ_STEP
  {
  }

  /** With every position at least 0, a summary anchored before a positive one is at least 0 and below it. */
  lemma BeforeIsRoomy(t: Table, a: int)
    requires Roomy(t) && a > 0
    ensures 0 <= SeqBeforeRow(t, a) < a && RoomBefore(t, a)
  {
  }

  // ---- Syncs ---------------------------------------------------------------------------

  /** Summaries among the messages make no calls, and stored ones in context are never taken for an anchor. */
  ghost predicate SummariesOk(t: Table, ms: seq<Live>) {
    && (forall m :: m in ms && m.isSummary ==> m.calls == [])
    && (forall m, r :: m in ms && m.dbId.Some? && !m.excluded && !m.pinned && r in t && r.id == m.dbId.value ==>
        r.kind != Summary)
  }

  lemma {:induction false} AnchorIsMessage(ms: seq<Live>)
    ensures AnchorId(ms).Some? ==> exists m :: m in ms && m.dbId == AnchorId(ms) && !m.excluded && !m.pinned
  {
    if ms != [] {
      AnchorIsMessage(ms[1..]);
      assert ms[0] in ms && forall m :: m in ms[1..] ==> m in ms;
    }
  }

  lemma AnchorRoomy(t: Table, m: Live, rest: seq<Live>, all: seq<Live>)
    requires Roomy(t) && SummariesOk(t, all) && forall x :: x in rest ==> x in all
    ensures AnchoredSeq(t, m, rest).Some? ==> AnchoredSeq(t, m, rest).value >= 0
    ensures AnchoredSeq(t, m, rest).Some? ==> m.isSummary
  {
    AnchorIsMessage(rest);
    if AnchoredSeq(t, m, rest).Some? {
      var row := RowById(t, AnchorId(rest).value).value;
      RoomyIn(t, row);
      BeforeIsRoomy(t, row.seqNo);
    }
  }

  ghost predicate AnchorsRoomy(ms: seq<Live>, anchored: seq<Option<int>>) {
    |anchored| == |ms| && forall i :: 0 <= i < |ms| && anchored[i].Some? ==> ms[i].isSummary && anchored[i].value >= 0
  }

  lemma {:induction false} AnchoredRoomy(t: Table, ms: seq<Live>, all: seq<Live>)
    requires Roomy(t) && SummariesOk(t, all) && forall x :: x in ms ==> x in all
    ensures AnchorsRoomy(ms, AnchoredSeqs(t, ms))
  {
    if ms != [] {
      assert forall x :: x in ms[1..] ==> x in ms;
      AnchorRoomy(t, ms[0], ms[1..], all);
      AnchoredRoomy(t, ms[1..], all);
    }
  }

  lemma RowForRoomy(m: Live, id: nat, s: int)
    requires s >= 0 && (m.isSummary ==> m.calls == []) && (s > 0 || (m.isSummary && m.role != Tool))
    ensures Placeable(RowFor(m, id, s))
  {
  }

  lemma {:induction false} NewRowsRoomy(t: Table, next: nat, tail: Option<int>, ms: seq<Live>,
                                        anchored: seq<Option<int>>)
    requires Roomy(t) && AnchorsRoomy(ms, anchored) && (tail.Some? ==> tail.value > 0)
    requires forall m :: m in ms && m.isSummary ==> m.calls == []
    ensures Roomy(t + NewRows(t, next, tail, ms, anchored))
    decreases |ms|
  {
    if ms == [] {
      assert t + [] == t;
    } else {
      assert ms[0] in ms && forall m :: m in ms[1..] ==> m in ms;
      if ms[0].seen || !Stores(ms[0]) {
        NewRowsRoomy(t, next, tail, ms[1..], anchored[1..]);
      } else {
        NextIsPositive(t);
        var anchors := anchored[0].Some? && ms[0].role != Tool;
        var s := if anchors then anchored[0].value else NextTail(t, tail);
        var r, more := RowFor(ms[0], next, s), if anchors then tail else Some(s);
        RowForRoomy(ms[0], next, s);
        NewRowsRoomy(t + [r], next + 1, more, ms[1..], anchored[1..]);
        Reassociate(t, [r], NewRows(t + [r], next + 1, more, ms[1..], anchored[1..]));
      }
    }
  }

  lemma PinsRoomy(t: Table, pins: map<nat, bool>)
    requires Roomy(t)
    ensures Roomy(ApplyPins(t, pins))
  {
    ApplyPinsAt(t, pins);
  }

  lemma SyncRoomy(d: Db, ms: seq<Live>, flushed: map<nat, bool>)
    requires Roomy(d.rows) && SummariesOk(d.rows, ms)
    ensures Roomy(Synced(d, ms, flushed).rows)
  {
    PinsRoomy(d.rows, PinUpdates(ms, flushed));
    AnchoredRoomy(d.rows, ms, ms);
    NewRowsRoomy(ApplyPins(d.rows, PinUpdates(ms, flushed)), d.nextId, None, ms, AnchoredSeqs(d.rows, ms));
  }

  // ---- Heals ---------------------------------------------------------------------------

  lemma StubsRoomy(t: Table, next: nat, r: Row, matched: set<string>)
    requires Placeable(r) && Calls(r)
    ensures Roomy(StubsFor(t, next, r, matched))
  {
    StubRowsAre(next, r.seqNo, UpperFor(t, r.seqNo), Missing(r.calls, matched));
  }

  lemma {:induction false} AddedPlaceable(t: Table, next: nat, orphans: seq<Row>, matched: set<string>, x: Row)
    requires x in AddedRows(t, next, orphans, matched) && forall r :: r in orphans ==> Placeable(r) && Calls(r)
    ensures Placeable(x)
    decreases |orphans|
  {
    var stubs := StubsFor(t, next, orphans[0], matched);
    assert orphans[0] in orphans;
    if x in stubs {
      StubsRoomy(t, next, orphans[0], matched);
      RoomyIn(stubs, x);
    } else {
      AddedPlaceable(t + stubs, next + |stubs|, orphans[1..], matched, x);
    }
  }

  lemma HealRoomy(t: Table, next: nat)
    requires WellFormed(t) && Below(t, next) && Roomy(t)
    ensures Roomy(Healed(t, next).0)
  {
    var w := WindowRows(t, true);
    var orphans := ToHeal(w);
    FilterMembers(w, (r: Row) => Orphaned(r, Matched(w)));
    FilterMembers(View(t), Visible(ActiveSummary(t), true));
    forall r | r in orphans ensures Placeable(r) && Calls(r) {
      InView(t, r);
    }
    HealAppends(t, next, orphans, Matched(w));
    forall x | x in AddedRows(t, next, orphans, Matched(w)) ensures Placeable(x) {
      AddedPlaceable(t, next, orphans, Matched(w), x);
    }
  }

  // ---- Runs ----------------------------------------------------------------------------

  lemma {:induction false} PromotedRoomy(t: Table, queued: seq<Row>, base: int)
    requires Roomy(t) && base > 0
    ensures Roomy(Promoted(t, queued, base))
    decreases |queued|
  {
    if queued != [] {
      SetRowAt(t, Promote(queued[0], base));
      PromotedRoomy(SetRow(t, Promote(queued[0], base)), queued[1..], base + SEQ_STEP);
    }
  }

  lemma CancelRoomy(t: Table, id: nat)
    requires Roomy(t)
    ensures Roomy(Cancelled(t, id))
  {
    var u := Cancelled(t, id);
    FilterMembers(t, (r: Row) => !GoesWith(r, id));
    forall i | 0 <= i < |u| ensures Placeable(u[i]) {
      assert u[i] in u;
      RoomyIn(t, u[i]);
    }
  }

  /** Everything that writes rows: the operations between loads, and heals. */
  datatype Write = Op(op: HistoryCache.Op) | Mend

  function Wrote(d: Db, w: Write, parses: string -> bool): Db {
    match w
    case Op(op) => Step(State(d, None), op, parses).db
    case Mend => var h := Healed(d.rows, d.nextId); d.(rows := h.0, nextId := h.1)
  }

  ghost predicate Fair(d: Db, w: Write) {
    match w
    case Op(Save(draft)) => draft.kind == Summary ==> !Calls(draft)
    case Op(Sync(_, ms, _)) => SummariesOk(d.rows, ms)
    case _ => true
  }

  lemma WroteRoomy(d: Db, w: Write, parses: string -> bool)
    requires Sound(d) && Roomy(d.rows) && Fair(d, w)
    ensures Roomy(Wrote(d, w, parses).rows)
  {
    NextIsPositive(d.rows);
    match w
    case Op(Save(draft)) =>
    case Op(Sync(own, ms, flushed)) => SyncRoomy(d, ms, flushed);
    case Op(Release) => PromotedRoomy(d.rows, QueuedRows(d.rows), NextSeq(d.rows));
    case Op(Cancel(id)) => CancelRoomy(d.rows, id);
    case Op(_) =>
    case Mend => HealRoomy(d.rows, d.nextId);
  }

  lemma WroteSound(d: Db, w: Write, parses: string -> bool)
    requires Sound(d)
    ensures Sound(Wrote(d, w, parses))
  {
    match w
    case Op(op) => StepKeeps(State(d, None), op, parses);
    case Mend =>
      var rows := WindowRows(d.rows, true);
      HealAppends(d.rows, d.nextId, ToHeal(rows), Matched(rows));
      HealedBelow(d.rows, d.nextId, ToHeal(rows), Matched(rows));
  }

  ghost predicate Leads(d: Db, ws: seq<Write>, end: Db, parses: string -> bool)
    decreases |ws|
  {
    if ws == [] then d == end else Fair(d, ws[0]) && Leads(Wrote(d, ws[0], parses), ws[1..], end, parses)
  }

  lemma {:induction false} RoomyRun(d: Db, ws: seq<Write>, end: Db, parses: string -> bool)
    requires Sound(d) && Roomy(d.rows) && Leads(d, ws, end, parses)
    ensures Sound(end) && Roomy(end.rows)
    decreases |ws|
  {
    if ws != [] {
      WroteRoomy(d, ws[0], parses);
      WroteSound(d, ws[0], parses);
      RoomyRun(Wrote(d, ws[0], parses), ws[1..], end, parses);
    }
  }

  /**
   After any run from positive positions, a summary written before any row that is no
   summary sorts ahead of it, behind every lower row, and moves nothing else.
   */
  lemma AnchorAlwaysLeads(d: Db, ws: seq<Write>, end: Db, parses: string -> bool, a: Row, s: Row)
    requires Sound(d) && Roomy(d.rows) && Leads(d, ws, end, parses)
    requires a in end.rows && a.kind != Summary && s.id >= end.nextId && s.seqNo == SeqBeforeRow(end.rows, a.seqNo)
    ensures RoomBefore(end.rows, a.seqNo) && Before(s, a)
    ensures var v := View(end.rows); var k := Rank(v, a.seqNo - 1); View(end.rows + [s]) == v[..k] + [s] + v[k..]
  {
    RoomyRun(d, ws, end, parses);
    RoomyIn(end.rows, a);
    AnchorBeforeIff(end.rows, a, s);
  }
}
