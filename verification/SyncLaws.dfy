/**
 What a checkpoint stores, said on the messages' own fields, and that a turn stored by it
 comes back from a fresh load as it was.
 */
module SyncLaws {
  import opened Wrappers
  import opened Text
  import opened Transcript
  import opened Positions
  import opened Window
  import opened Queue
  import opened Checkpoint
  import opened WriteBack
  import opened ToolPairs
  import opened Deserialize
  import opened HealSettles
  import opened HistoryCache
  import opened Compaction

  // ---- Which messages are stored, and how ----------------------------------------------

  /**
   Due for a row: a new tool message; a new assistant message with text, reasoning, calls or
   the summary flag; a new user message that is hidden or a summary.
   */
  ghost predicate Due(m: Live) {
    && !m.seen
    && (m.role == Tool
        || (m.role == Assistant
            && ((exists c :: c in m.content && c !in SPACES) || m.thinks || |m.calls| > 0 || m.isSummary))
        || (m.role == User && (m.isSummary || m.hidden)))
  }

  ghost function IfDue(m: Live): seq<Live> {
    if Due(m) then [m] else []
  }

  ghost function DueOf(ms: seq<Live>): seq<Live> {
    if ms == [] then [] else IfDue(ms[0]) + DueOf(ms[1..])
  }

  /** The row says what the message says, under its pin and the kind its flags call for. */
  ghost predicate Records(r: Row, m: Live, id: nat) {
    && r.id == id && r.role == m.role && r.content == m.content && r.calls == m.calls && r.replyTo == m.replyTo
    && r.pinned == m.pinned && r.attachmentFor == None
    && r.kind == (if m.isSummary && m.role != Tool then Summary else if m.hidden then Note else Chat)
  }

  ghost predicate AllRecorded(rows: seq<Row>, ms: seq<Live>, next: nat) {
    |rows| == |ms| && forall k :: 0 <= k < |rows| ==> Records(rows[k], ms[k], next + k)
  }

  lemma RecordedCons(r: Row, rows: seq<Row>, m: Live, ms: seq<Live>, next: nat)
    requires Records(r, m, next) && AllRecorded(rows, ms, next + 1)
    ensures AllRecorded([r] + rows, [m] + ms, next)
  {
    var all, from := [r] + rows, [m] + ms;
    forall k | 0 < k < |all| ensures Records(all[k], from[k], next + k) {
      assert all[k] == rows[k - 1] && from[k] == ms[k - 1];
      assert Records(rows[k - 1], ms[k - 1], next + 1 + (k - 1));
    }
  }

  lemma DueTakes(m: Live)
    ensures Due(m) <==> Takes(m) == 1
  {
  }

  lemma {:induction false} NewRowsRecord(t: Table, next: nat, tail: Option<int>, ms: seq<Live>,
                                         anchored: seq<Option<int>>)
    requires |anchored| == |ms|
    ensures AllRecorded(NewRows(t, next, tail, ms, anchored), DueOf(ms), next)
    decreases |ms|
  {
    if ms != [] {
      DueTakes(ms[0]);
      if Due(ms[0]) {
        var anchors := anchored[0].Some? && ms[0].role != Tool;
        var s := if anchors then anchored[0].value else NextTail(t, tail);
        var r, more := RowFor(ms[0], next, s), if anchors then tail else Some(s);
        NewRowsRecord(t + [r], next + 1, more, ms[1..], anchored[1..]);
        RecordedCons(r, NewRows(t + [r], next + 1, more, ms[1..], anchored[1..]), ms[0], DueOf(ms[1..]), next);
      } else {
        NewRowsRecord(t, next, tail, ms[1..], anchored[1..]);
        assert [] + DueOf(ms[1..]) == DueOf(ms[1..]);
      }
    }
  }

  /** Message `i` is the due message `k`. */
  ghost function DueBefore(ms: seq<Live>, i: nat): nat
    requires i <= |ms|
  {
    |DueOf(ms[..i])|
  }

  lemma {:induction false} DueConcat(a: seq<Live>, b: seq<Live>)
    ensures DueOf(a + b) == DueOf(a) + DueOf(b)
  {
    if a == [] {
      assert a + b == b;
    } else {
      DueConcat(a[1..], b);
      assert (a + b)[1..] == a[1..] + b && (a + b)[0] == a[0];
      LiveSplit(IfDue(a[0]), DueOf(a[1..]), DueOf(b));
    }
  }

  lemma LiveSplit(a: seq<Live>, b: seq<Live>, c: seq<Live>)
    ensures a + (b + c) == a + b + c
  {
  }

  lemma DuePrefix(ms: seq<Live>, i: nat)
    requires 0 < i <= |ms|
    ensures DueBefore(ms, i) == Takes(ms[0]) + DueBefore(ms[1..], i - 1)
  {
    DueTakes(ms[0]);
    assert ms[..i][1..] == ms[1..][..i - 1] && ms[..i][0] == ms[0];
  }

  /** What becomes of message `m`, the due message `k` if it is due. */
  ghost function Registered(m: Live, next: nat, k: nat): Live {
    if Due(m) then m.(seen := true, dbId := Some(next + k)) else m.(seen := m.seen || m.role == User)
  }

  lemma SettleRegisters(m: Live, next: nat)
    ensures Settle(m, next) == Registered(m, next, 0)
  {
    DueTakes(m);
  }

  lemma {:induction false} SyncedIds(ms: seq<Live>, next: nat, i: nat)
    requires i < |ms|
    ensures SyncLive(ms, next)[i] == Registered(ms[i], next, DueBefore(ms, i))
  {
    if i == 0 {
      assert ms[..0] == [];
      SettleRegisters(ms[0], next);
    } else {
      DuePrefix(ms, i);
      SyncedIds(ms[1..], next + Takes(ms[0]), i - 1);
    }
  }

  lemma {:induction false} DueAt(ms: seq<Live>, i: nat)
    requires i < |ms| && Due(ms[i])
    ensures DueBefore(ms, i) < |DueOf(ms)| && DueOf(ms)[DueBefore(ms, i)] == ms[i]
  {
    DueTakes(ms[0]);
    if i == 0 {
      assert ms[..0] == [];
    } else {
      DuePrefix(ms, i);
      DueAt(ms[1..], i - 1);
    }
  }

  /**
   A sync leaves the old rows but for pins, and adds exactly one row for each due message,
   in their order, saying what it says.
   */
  lemma SyncAdds(t: Table, next: nat, ms: seq<Live>, flushed: map<nat, bool>)
    ensures var t' := SyncRows(t, next, ms, flushed);
            && |t'| == |t| + |DueOf(ms)|
            && (forall k :: 0 <= k < |t| ==> t'[k] == t[k].(pinned := t'[k].pinned))
            && AllRecorded(t'[|t|..], DueOf(ms), next)
  {
    var pins := PinUpdates(ms, flushed);
    var u := ApplyPins(t, pins);
    var rows := NewRows(u, next, None, ms, AnchoredSeqs(t, ms));
    ApplyPinsAt(t, pins);
    NewRowsRecord(u, next, None, ms, AnchoredSeqs(t, ms));
    assert (u + rows)[|t|..] == rows;
  }

  /**
   Each new message on its own: a due one is registered under the id of its row, which says
   what it says; any other gets no row and no id, and only a user message is registered.
   */
  lemma MessageStored(t: Table, next: nat, ms: seq<Live>, flushed: map<nat, bool>, i: nat)
    requires i < |ms| && !ms[i].seen
    ensures var m, m' := ms[i], SyncLive(ms, next)[i]; var t' := SyncRows(t, next, ms, flushed);
            if Due(m) then
              m'.seen && m'.dbId == Some(next + DueBefore(ms, i)) && |t| + DueBefore(ms, i) < |t'|
              && Records(t'[|t| + DueBefore(ms, i)], m, next + DueBefore(ms, i))
            else m' == m.(seen := m.role == User)
  {
    SyncAdds(t, next, ms, flushed);
    SyncedIds(ms, next, i);
    if Due(ms[i]) {
      DueAt(ms, i);
      var t' := SyncRows(t, next, ms, flushed);
      assert t'[|t|..][DueBefore(ms, i)] == t'[|t| + DueBefore(ms, i)];
    }
  }

  /** A new message that becomes a summary row. */
  ghost predicate NewSummary(m: Live) {
    Due(m) && m.isSummary && m.role != Tool
  }

  // ---- Where new rows go ---------------------------------------------------------------

  /** The highest position, or 0 in an empty table. */
  ghost predicate IsTop(t: Table, top: int) {
    if t == [] then top == 0
    else (exists i :: 0 <= i < |t| && t[i].seqNo == top) && forall i :: 0 <= i < |t| ==> t[i].seqNo <= top
  }

  /** Rows behind `top`, one step of 1024 apart. */
  ghost predicate Stepwise(rows: seq<Row>, top: int) {
    forall k :: 0 <= k < |rows| ==> rows[k].seqNo == top + (k + 1) * 1024
  }

  lemma StepwiseCons(r: Row, rows: seq<Row>, top: int)
    requires r.seqNo == top + 1024 && Stepwise(rows, r.seqNo)
    ensures Stepwise([r] + rows, top)
  {
    var all := [r] + rows;
    forall k | 0 < k < |all| ensures all[k].seqNo == top + (k + 1) * 1024 {
      assert all[k] == rows[k - 1];
    }
  }

  lemma {:induction false} NewRowsStepwise(t: Table, next: nat, tail: Option<int>, ms: seq<Live>,
                                           anchored: seq<Option<int>>, top: int)
    requires |anchored| == |ms| && (forall i :: 0 <= i < |ms| && anchored[i].Some? ==> ms[i].isSummary)
    requires !exists i :: 0 <= i < |ms| && NewSummary(ms[i])
    requires NextTail(t, tail) == top + 1024
    ensures Stepwise(NewRows(t, next, tail, ms, anchored), top)
    decreases |ms|
  {
    if ms != [] {
      DueTakes(ms[0]);
      assert !NewSummary(ms[0]);
      forall i | 0 <= i < |ms[1..]| ensures !NewSummary(ms[1..][i]) {
        assert ms[1..][i] == ms[i + 1];
      }
      if Due(ms[0]) {
        var r := RowFor(ms[0], next, top + 1024);
        NewRowsStepwise(t + [r], next + 1, Some(top + 1024), ms[1..], anchored[1..], top + 1024);
        StepwiseCons(r, NewRows(t + [r], next + 1, Some(top + 1024), ms[1..], anchored[1..]), top);
      } else {
        NewRowsStepwise(t, next, tail, ms[1..], anchored[1..], top);
      }
    }
  }

  lemma TopIs(t: Table, top: int)
    requires IsTop(t, top)
    ensures NextSeq(t) == top + 1024
  {
  }

  lemma PinsKeepTop(t: Table, pins: map<nat, bool>, top: int)
    requires IsTop(t, top)
    ensures IsTop(ApplyPins(t, pins), top)
  {
    ApplyPinsAt(t, pins);
    var u := ApplyPins(t, pins);
    if t != [] {
      var i :| 0 <= i < |t| && t[i].seqNo == top;
      assert u[i].seqNo == top;
    }
  }

  /** Without a new summary the added rows go behind all others, one step apart. */
  lemma SyncAddsStepwise(t: Table, next: nat, ms: seq<Live>, flushed: map<nat, bool>, top: int)
    requires IsTop(t, top) && !exists i :: 0 <= i < |ms| && NewSummary(ms[i])
    ensures |SyncRows(t, next, ms, flushed)| >= |t| && Stepwise(SyncRows(t, next, ms, flushed)[|t|..], top)
  {
    var u := ApplyPins(t, PinUpdates(ms, flushed));
    var rows := NewRows(u, next, None, ms, AnchoredSeqs(t, ms));
    PinsKeepTop(t, PinUpdates(ms, flushed), top);
    TopIs(u, top);
    AnchoredAreSummaries(t, ms);
    NewRowsStepwise(u, next, None, ms, AnchoredSeqs(t, ms), top);
    assert (u + rows)[|t|..] == rows;
  }

  // ---- When anything is written at all -------------------------------------------------

  /** A registered message whose flag is not the one on record; nothing on record means unpinned. */
  ghost predicate Diverges(m: Live, flushed: map<nat, bool>) {
    m.seen && m.role != System
    && match m.dbId
       case None => false
       case Some(id) => m.pinned != (id in flushed && flushed[id])
  }

  lemma {:induction false} PinUpdatesIff(ms: seq<Live>, flushed: map<nat, bool>)
    ensures PinUpdates(ms, flushed) != map[] <==> exists i :: 0 <= i < |ms| && Diverges(ms[i], flushed)
  {
    if ms != [] {
      var init, last := ms[..|ms| - 1], ms[|ms| - 1];
      PinUpdatesIff(init, flushed);
      assert Diverges(last, flushed) <==> PinDiffers(last, flushed);
      if PinDiffers(last, flushed) {
        assert last.dbId.value in PinUpdates(ms, flushed);
      } else {
        assert PinUpdates(ms, flushed) == PinUpdates(init, flushed);
        forall i | 0 <= i < |ms| && Diverges(ms[i], flushed) ensures i < |init| && init[i] == ms[i] {
        }
      }
    }
  }

  /** A sync drops its memo exactly when some message is new or some flag is not the one on record. */
  lemma MemoDroppedIff(ms: seq<Live>, flushed: map<nat, bool>)
    ensures Writes(ms, flushed) <==> exists i :: 0 <= i < |ms| && (!ms[i].seen || Diverges(ms[i], flushed))
  {
    PinUpdatesIff(ms, flushed);
  }

  /** Both revisions move, by one, exactly when a flag is flipped or a summary is stored. */
  lemma RevisionsMoveIff(d: Db, ms: seq<Live>, flushed: map<nat, bool>)
    ensures var d' := Synced(d, ms, flushed);
            (d'.revision, d'.structure)
            == if exists i :: 0 <= i < |ms| && (NewSummary(ms[i]) || Diverges(ms[i], flushed))
               then (d.revision + 1, d.structure + 1) else (d.revision, d.structure)
  {
    PinUpdatesIff(ms, flushed);
    forall i | 0 <= i < |ms|
      ensures NewSummary(ms[i]) <==> !ms[i].seen && Stores(ms[i]) && ms[i].isSummary && ms[i].role != Tool
    {
      DueTakes(ms[i]);
    }
  }
}
