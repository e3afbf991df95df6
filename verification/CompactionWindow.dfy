/**
 The window a reload shows after the sync that stores a compaction's summary, when the
 summary lands between the messages below it and the kept tail.
 */
module CompactionWindow {
  import opened Wrappers
  import opened Transcript
  import opened Positions
  import opened Window
  import opened Queue
  import opened Checkpoint
  import opened WriteBack
  import opened Compaction

  function HasId(ids: set<nat>): Row -> bool {
    (r: Row) => r.id in ids
  }

  function StoredIds(below: seq<Live>, kept: seq<Live>): set<nat> {
    IdSet(LiveIds(below) + LiveIds(kept))
  }

  /** The message has a row and will not be given one: registered, or a user message its route saved. */
  predicate Placed(m: Live) {
    m.role != System && m.dbId.Some? && (m.seen || (m.role == User && !Stores(m)))
  }

  /** Below the summary, exactly the unpinned messages are excluded. */
  ghost predicate BelowOk(below: seq<Live>) {
    forall m :: m in below ==> Placed(m) && (m.excluded <==> !m.pinned)
  }

  /** The kept tail is stored and in context; messages not yet registered are not pinned. */
  ghost predicate KeptOk(kept: seq<Live>) {
    forall m :: m in kept ==> Placed(m) && !m.excluded && (m.seen || !m.pinned)
  }

  ghost predicate NewSummary(s: Live) {
    s.isSummary && !s.seen && s.role == User && !s.excluded && s.dbId.None?
  }

  /** The live list names its rows in their stored order. */
  ghost predicate Aligned(t: Table, below: seq<Live>, kept: seq<Live>) {
    Ids(Filter(View(t), HasId(StoredIds(below, kept)))) == LiveIds(below) + LiveIds(kept)
  }

  /** A row that the window never shows, whatever its position. */
  predicate Barred(r: Row) {
    r.kind == Reverted || r.kind == Queued || r.kind == Summary
  }

  /** The position of the row the summary is anchored before; the first unpinned kept one. */
  function AnchorSeq(t: Table, kept: seq<Live>): int {
    if AnchorId(kept).None? then 0
    else
      var a := RowById(t, AnchorId(kept).value);
      if a.None? then 0 else a.value.seqNo
  }

  /** Whether a row lies where the summary will leave it behind. */
  predicate AtCut(t: Table, kept: seq<Live>, r: Row) {
    AnchorId(kept).None? || r.seqNo < AnchorSeq(t, kept)
  }

  /** There is room before the anchor, and the rows of `below` lie before its tie block. */
  ghost predicate AnchorOk(t: Table, below: seq<Live>, kept: seq<Live>) {
    && (AnchorId(kept).Some? ==> RoomBefore(t, AnchorSeq(t, kept)))
    && forall r :: r in t && r.id in LiveIds(below) ==> AtCut(t, kept, r)
  }

  /** Rows outside the live list are never shown, or compacted away below the summary. */
  ghost predicate OthersOk(t: Table, below: seq<Live>, kept: seq<Live>) {
    forall r :: r in t && r.id !in StoredIds(below, kept) ==> Barred(r) || (!r.pinned && AtCut(t, kept, r))
  }

  /** Rows of messages still in context are ordinary rows. */
  ghost predicate KindsOk(t: Table, ms: seq<Live>) {
    forall m, r :: m in ms && !m.excluded && r in t && m.dbId == Some(r.id) ==> PlainRow(r)
  }

  ghost predicate Compacted(t: Table, flushed: map<nat, bool>, below: seq<Live>, s: Live, kept: seq<Live>,
                            added: seq<Live>) {
    && BelowOk(below) && NewSummary(s) && KeptOk(kept) && Appends(added)
    && Aligned(t, below, kept) && AnchorOk(t, below, kept) && OthersOk(t, below, kept) && KindsOk(t, below + kept)
    && CacheOk(t, below + kept, flushed) && UsersMatch(t, below + kept)
  }

  /** No kept row lies before the summary: the cut falls between `below` and `kept`. */
  ghost predicate Parted(t: Table, kept: seq<Live>) {
    && (AnchorId(kept).None? ==> kept == [])
    && forall r :: r in t && r.id in LiveIds(kept) ==> !AtCut(t, kept, r)
  }

  /** The messages of `ms`. */
  ghost predicate Parts(ms: seq<Live>, below: seq<Live>, s: Live, kept: seq<Live>, added: seq<Live>) {
    forall m :: m in ms <==> m in below || m == s || m in kept || m in added
  }

  /** One message for each row. */
  ghost predicate Single(ms: seq<Live>) {
    forall m, n :: m in ms && n in ms && m.dbId.Some? && m.dbId == n.dbId ==> m == n
  }

  // ---- Live lists ----------------------------------------------------------------------

  lemma {:induction false} LiveIdsAre(ms: seq<Live>, id: nat)
    ensures id in LiveIds(ms) <==> exists m :: m in ms && m.dbId == Some(id)
  {
    if ms != [] {
      assert ms == [ms[0]] + ms[1..] && ms[0] in ms;
      LiveIdsAre(ms[1..], id);
    }
  }

  lemma {:induction false} LiveIdsConcat(a: seq<Live>, b: seq<Live>)
    ensures LiveIds(a + b) == LiveIds(a) + LiveIds(b)
    ensures MessagesForLlm(a + b) == MessagesForLlm(a) + MessagesForLlm(b)
  {
    if a == [] {
      assert a + b == b;
    } else {
      assert (a + b)[1..] == a[1..] + b;
      LiveIdsConcat(a[1..], b);
      Reassociate(if a[0].dbId.Some? then [a[0].dbId.value] else [], LiveIds(a[1..]), LiveIds(b));
      Reassociate(if !a[0].excluded && a[0].role != System then [a[0]] else [], MessagesForLlm(a[1..]),
                  MessagesForLlm(b));
    }
  }

  /** The ids of the messages in context are picked out of the ids of all messages. */
  lemma {:induction false} ContextIds(ms: seq<Live>, all: seq<Live>)
    requires forall m :: m in ms ==> m in all
    requires BelowOk(all) && Single(all)
    ensures LiveIds(MessagesForLlm(ms)) == PickIds(LiveIds(ms), IdSet(LiveIds(MessagesForLlm(all))))
  {
    if ms != [] {
      var m := ms[0];
      assert m in all;
      ContextIds(ms[1..], all);
      InContext(all, m);
      LiveIdsConcat(if !m.excluded && m.role != System then [m] else [], MessagesForLlm(ms[1..]));
    }
  }

  lemma {:induction false} MessagesForLlmAre(ms: seq<Live>)
    ensures forall m :: m in MessagesForLlm(ms) <==> m in ms && !m.excluded && m.role != System
  {
    if ms != [] {
      MessagesForLlmAre(ms[1..]);
      assert ms == [ms[0]] + ms[1..];
    }
  }

  lemma InContext(all: seq<Live>, m: Live)
    requires m in all && BelowOk(all) && Single(all)
    ensures m.dbId.value in LiveIds(MessagesForLlm(all)) <==> m.pinned
  {
    MessagesForLlmAre(all);
    LiveIdsAre(MessagesForLlm(all), m.dbId.value);
  }

  lemma {:induction false} SyncLiveConcat(a: seq<Live>, b: seq<Live>, next: nat)
    requires forall i :: 0 <= i < |a| ==> Takes(a[i]) == 0
    ensures SyncLive(a + b, next) == SyncLive(a, next) + SyncLive(b, next)
  {
    if a == [] {
      assert a + b == b;
    } else {
      assert (a + b)[1..] == a[1..] + b;
      SyncLiveConcat(a[1..], b, next);
      Reassociate([Settle(a[0], next)], SyncLive(a[1..], next), SyncLive(b, next));
    }
  }

  /** Registering placed messages changes nothing that is sent. */
  lemma {:induction false} PlacedSent(ms: seq<Live>, next: nat)
    requires forall i :: 0 <= i < |ms| ==> Placed(ms[i])
    ensures SentIds(SyncLive(ms, next)) == SentIds(ms)
  {
    if ms != [] {
      var m, rest := ms[0], ms[1..];
      PlacedSent(rest, next);
      SentCons(m, rest);
      SentCons(Settle(m, next), SyncLive(rest, next));
      assert ms == [m] + rest;
    }
  }

  lemma SentCons(m: Live, rest: seq<Live>)
    ensures SentIds([m] + rest)
            == (if !m.excluded && m.role != System && m.dbId.Some? then [m.dbId.value] else []) + SentIds(rest)
  {
    assert ([m] + rest)[1..] == rest;
    LiveIdsConcat(if !m.excluded && m.role != System then [m] else [], MessagesForLlm(rest));
    var none: seq<Live> := [];
    assert [m][1..] == none && LiveIds(none) == [];
  }

  lemma {:induction false} AppendedLive(ns: seq<Live>, next: nat)
    requires Appends(ns)
    ensures LiveIds(MessagesForLlm(SyncLive(ns, next))) == Counting(next, |ns|)
  {
    if ns != [] {
      assert !ns[0].seen && Stores(ns[0]);
      AppendedLive(ns[1..], next + 1);
    }
  }

  function SentIds(ms: seq<Live>): seq<nat> {
    LiveIds(MessagesForLlm(ms))
  }

  lemma SentConcat(a: seq<Live>, b: seq<Live>)
    ensures SentIds(a + b) == SentIds(a) + SentIds(b)
  {
    LiveIdsConcat(a, b);
    LiveIdsConcat(MessagesForLlm(a), MessagesForLlm(b));
  }

  /** What the live side sends after the sync. */
  lemma LiveSide(below: seq<Live>, s: Live, kept: seq<Live>, added: seq<Live>, next: nat)
    requires BelowOk(below) && NewSummary(s) && KeptOk(kept) && Appends(added)
    ensures SentIds(SyncLive(below + ([s] + (kept + added)), next))
            == SentIds(below) + ([next] + (LiveIds(kept) + Counting(next + 1, |added|)))
  {
    forall i | 0 <= i < |below| ensures Placed(below[i]) {
      assert below[i] in below;
    }
    forall i | 0 <= i < |kept| ensures Placed(kept[i]) && !kept[i].excluded && kept[i].role != System {
      assert kept[i] in kept;
    }
    var s', tail, more := Settle(s, next), [s] + (kept + added), SyncLive(added, next + 1);
    SyncLiveConcat(below, tail, next);
    assert tail[1..] == kept + added;
    SyncLiveConcat(kept, added, next + 1);
    SentConcat(SyncLive(below, next), [s'] + (SyncLive(kept, next + 1) + more));
    SentConcat([s'], SyncLive(kept, next + 1) + more);
    SentConcat(SyncLive(kept, next + 1), more);
    PlacedSent(below, next);
    PlacedSent(kept, next + 1);
    AllInContext(kept);
    AppendedLive(added, next + 1);
    AllInContext([s']);
  }

  lemma {:induction false} AllInContext(ms: seq<Live>)
    requires forall i :: 0 <= i < |ms| ==> !ms[i].excluded && ms[i].role != System
    ensures MessagesForLlm(ms) == ms
  {
    if ms != [] {
      AllInContext(ms[1..]);
      assert [ms[0]] + ms[1..] == ms;
    }
  }

  // ---- The database side ---------------------------------------------------------------

  lemma {:induction false} PinsKeepSeqs(t: Table, pins: map<nat, bool>, s: int)
    ensures MaxBelow(ApplyPins(t, pins), s) == MaxBelow(t, s)
  {
    if t != [] {
      PinsKeepSeqs(t[1..], pins, s);
      assert ApplyPins(t, pins)[1..] == ApplyPins(t[1..], pins);
    }
  }

  /** Where the summary cuts the table. */
  function CutIndex(t: Table, kept: seq<Live>): (k: nat)
    ensures k <= |View(t)|
  {
    if AnchorId(kept).None? then |View(t)| else Rank(View(t), AnchorSeq(t, kept) - 1)
  }

  function Front(t: Table, kept: seq<Live>, pins: map<nat, bool>): seq<Row> {
    ApplyPins(View(t)[..CutIndex(t, kept)], pins)
  }

  function Back(t: Table, kept: seq<Live>, pins: map<nat, bool>): seq<Row> {
    ApplyPins(View(t)[CutIndex(t, kept)..], pins)
  }

  lemma PinnedViewSplits(t: Table, kept: seq<Live>, pins: map<nat, bool>)
    ensures View(ApplyPins(t, pins)) == Front(t, kept, pins) + Back(t, kept, pins)
    ensures |Front(t, kept, pins)| == CutIndex(t, kept)
  {
    var v, k := View(t), CutIndex(t, kept);
    ViewPins(t, pins);
    assert v == v[..k] + v[k..];
    ApplyPinsConcat(v[..k], v[k..], pins);
  }

  lemma {:induction false} PinsKeepRank(v: seq<Row>, pins: map<nat, bool>, s: int)
    ensures Rank(ApplyPins(v, pins), s) == Rank(v, s)
  {
    if v != [] {
      PinsKeepRank(v[1..], pins, s);
      assert ApplyPins(v, pins)[1..] == ApplyPins(v[1..], pins);
    }
  }

  lemma {:induction false} AnchorInKept(kept: seq<Live>, added: seq<Live>)
    requires Appends(added)
    ensures AnchorId(kept + added) == AnchorId(kept)
    ensures AnchorId(kept).Some? ==> AnchorId(kept).value in LiveIds(kept)
  {
    if kept == [] {
      AppendedAnchors([], added);
      assert kept + added == added;
    } else {
      AnchorInKept(kept[1..], added);
      assert (kept + added)[1..] == kept[1..] + added;
    }
  }

  /** The anchor's row is in the table. */
  lemma AnchorFound(t: Table, below: seq<Live>, kept: seq<Live>)
    requires Aligned(t, below, kept) && AnchorId(kept).Some?
    ensures RowById(t, AnchorId(kept).value).Some? && RowById(t, AnchorId(kept).value).value.seqNo == AnchorSeq(t, kept)
  {
    AnchorInKept(kept, []);
    StoredRow(t, below, kept, AnchorId(kept).value);
  }

  lemma StoredRow(t: Table, below: seq<Live>, kept: seq<Live>, id: nat)
    requires Aligned(t, below, kept) && id in StoredIds(below, kept)
    ensures exists r :: r in t && r.id == id
  {
    var f := Filter(View(t), HasId(StoredIds(below, kept)));
    assert id in Ids(f);
    var i :| 0 <= i < |f| && Ids(f)[i] == id;
    FilterMembers(View(t), HasId(StoredIds(below, kept)));
    assert f[i] in f;
    InView(t, f[i]);
  }

  lemma SummaryAnchor(t: Table, s: Live, below: seq<Live>, kept: seq<Live>, added: seq<Live>)
    requires NewSummary(s) && Appends(added) && Aligned(t, below, kept)
    ensures AnchoredSeq(t, s, kept + added)
            == if AnchorId(kept).None? then None else Some(SeqBeforeRow(t, AnchorSeq(t, kept)))
  {
    AnchorInKept(kept, added);
    if AnchorId(kept).Some? {
      AnchorFound(t, below, kept);
    }
  }

  /** The position the summary is written at, in the pinned table `u`. */
  ghost predicate SummarySeq(t: Table, u: Table, kept: seq<Live>, s: int) {
    if AnchorId(kept).None? then s == NextSeq(u) else s == SeqBeforeRow(t, AnchorSeq(t, kept))
  }

  lemma PinsKeepCut(t: Table, pins: map<nat, bool>, a: int)
    ensures RoomBefore(ApplyPins(t, pins), a) == RoomBefore(t, a)
    ensures SeqBeforeRow(ApplyPins(t, pins), a) == SeqBeforeRow(t, a)
    ensures Rank(View(ApplyPins(t, pins)), a - 1) == Rank(View(t), a - 1)
  {
    PinsKeepSeqs(t, pins, a);
    ViewPins(t, pins);
    PinsKeepRank(View(t), pins, a - 1);
  }

  lemma SplitAt(v: seq<Row>, front: seq<Row>, back: seq<Row>, k: nat)
    requires v == front + back && k == |front|
    ensures v[..k] == front && v[k..] == back
  {
  }

  lemma SummaryInside(t: Table, u: Table, kept: seq<Live>, a: int, r: Row, front: seq<Row>, back: seq<Row>)
    requires WellFormed(u) && Below(u, r.id) && RoomBefore(u, a) && r.seqNo == SeqBeforeRow(u, a)
    requires View(u) == front + back && |front| == Rank(View(u), a - 1)
    ensures View(u + [r]) == front + [r] + back
  {
    AnchorLandsBefore(u, a, r);
    SplitAt(View(u), front, back, |front|);
  }

  lemma SummaryLast(t: Table, u: Table, r: Row, front: seq<Row>, back: seq<Row>)
    requires WellFormed(u) && Below(u, r.id) && r.seqNo == NextSeq(u)
    requires View(u) == front + back && back == []
    ensures View(u + [r]) == front + [r] + back
  {
    AppendGoesLast(u, r);
    assert front + [] == front && front + [r] + [] == front + [r];
  }

  /** The summary's row splits the pinned view at the cut. */
  lemma SummarySplits(t: Table, next: nat, pins: map<nat, bool>, kept: seq<Live>, r: Row)
    requires WellFormed(t) && Below(t, next) && r.id == next
    requires AnchorId(kept).Some? ==> RoomBefore(t, AnchorSeq(t, kept))
    requires SummarySeq(t, ApplyPins(t, pins), kept, r.seqNo)
    ensures View(ApplyPins(t, pins) + [r]) == Front(t, kept, pins) + [r] + Back(t, kept, pins)
  {
    var u := ApplyPins(t, pins);
    PinsKeepShape(t, pins, next);
    PinnedViewSplits(t, kept, pins);
    if AnchorId(kept).None? {
      SummaryLast(t, u, r, Front(t, kept, pins), Back(t, kept, pins));
    } else {
      PinsKeepCut(t, pins, AnchorSeq(t, kept));
      SummaryInside(t, u, kept, AnchorSeq(t, kept), r, Front(t, kept, pins), Back(t, kept, pins));
    }
  }

  /** The rows the sync appends: the summary, then the messages that follow it. */
  lemma RowsWritten(t: Table, u: Table, next: nat, below: seq<Live>, s: Live, kept: seq<Live>, added: seq<Live>)
      returns (r: Row, tail: Option<int>)
    requires BelowOk(below) && NewSummary(s) && KeptOk(kept) && Appends(added) && Aligned(t, below, kept)
    ensures var ms := below + ([s] + (kept + added));
            NewRows(u, next, None, ms, AnchoredSeqs(t, ms))
            == [r] + NewRows(u + [r], next + 1, tail, added, AnchoredSeqs(t, added))
    ensures r.id == next && r.kind == Summary
    ensures SummarySeq(t, u, kept, r.seqNo) && tail == if AnchorId(kept).None? then Some(r.seqNo) else None
  {
    var rest := [s] + (kept + added);
    forall i | 0 <= i < |below| ensures Takes(below[i]) == 0 {
      assert below[i] in below;
    }
    forall i | 0 <= i < |kept| ensures Takes(kept[i]) == 0 {
      assert kept[i] in kept;
    }
    SkipStored(u, next, None, below, rest, AnchoredSeqs(t, below + rest));
    AnchoredConcat(t, below, rest);
    SummaryAnchor(t, s, below, kept, added);
    assert rest[1..] == kept + added;
    r := RowFor(s, next, if AnchorId(kept).None? then NextSeq(u) else SeqBeforeRow(t, AnchorSeq(t, kept)));
    tail := if AnchorId(kept).None? then Some(r.seqNo) else None;
    assert NewRows(u, next, None, rest, AnchoredSeqs(t, rest))
        == [r] + NewRows(u + [r], next + 1, tail, kept + added, AnchoredSeqs(t, kept + added));
    SkipStored(u + [r], next + 1, tail, kept, added, AnchoredSeqs(t, kept + added));
    AnchoredConcat(t, kept, added);
  }

  ghost predicate Written(rows: seq<Row>, next: nat, n: nat) {
    Ids(rows) == Counting(next, n) && forall m :: m in rows ==> PlainRow(m)
  }

  lemma CanAppendAfter(t: Table, u: Table, next: nat, kept: seq<Live>, r: Row, tail: Option<int>)
    requires WellFormed(u) && Below(u, next) && r.id == next
    requires SummarySeq(t, u, kept, r.seqNo) && tail == if AnchorId(kept).None? then Some(r.seqNo) else None
    ensures CanAppend(u + [r], next + 1, tail)
  {
    SavedWellFormed(u, r);
    if AnchorId(kept).None? {
      NextSeqAppended(u, r);
    }
  }

  lemma AppendAfterSummary(t: Table, u: Table, next: nat, kept: seq<Live>, added: seq<Live>, r: Row, tail: Option<int>,
                           rows: seq<Row>)
    requires WellFormed(u) && Below(u, next) && r.id == next && Appends(added)
    requires SummarySeq(t, u, kept, r.seqNo) && tail == if AnchorId(kept).None? then Some(r.seqNo) else None
    requires rows == NewRows(u + [r], next + 1, tail, added, AnchoredSeqs(t, added))
    ensures View(u + [r] + rows) == View(u + [r]) + rows
    ensures Written(rows, next + 1, |added|) && WellFormed(u + [r] + rows)
  {
    CanAppendAfter(t, u, next, kept, r, tail);
    AppendedAnchors(t, added);
    AppendsView(u + [r], next + 1, tail, added, AnchoredSeqs(t, added));
    CountingWellFormed(u + [r], rows, next + 1, |added|);
  }

  /** The synced table in position order: what was below, the summary, the kept tail, the rest. */
  lemma DbShape(t: Table, next: nat, flushed: map<nat, bool>, below: seq<Live>, s: Live, kept: seq<Live>,
                added: seq<Live>, ms: seq<Live>, pins: map<nat, bool>)
      returns (r: Row, rows: seq<Row>)
    requires WellFormed(t) && Below(t, next) && Compacted(t, flushed, below, s, kept, added)
    requires ms == below + ([s] + (kept + added)) && pins == PinUpdates(ms, flushed)
    ensures SyncRows(t, next, ms, flushed) == ApplyPins(t, pins) + [r] + rows
    ensures View(SyncRows(t, next, ms, flushed)) == Front(t, kept, pins) + [r] + Back(t, kept, pins) + rows
    ensures WellFormed(SyncRows(t, next, ms, flushed))
    ensures r.id == next && r.kind == Summary && Written(rows, next + 1, |added|)
  {
    var u := ApplyPins(t, pins);
    var tail: Option<int>;
    r, tail := RowsWritten(t, u, next, below, s, kept, added);
    PinsKeepShape(t, pins, next);
    SummarySplits(t, next, pins, kept, r);
    rows := NewRows(u + [r], next + 1, tail, added, AnchoredSeqs(t, added));
    AppendAfterSummary(t, u, next, kept, added, r, tail, rows);
    Reassociate(u, [r], rows);
  }

  lemma {:induction false} CountingAt(next: nat, n: nat)
    ensures forall i :: 0 <= i < n ==> Counting(next, n)[i] == next + i
    decreases n
  {
    if n > 0 {
      CountingAt(next + 1, n - 1);
    }
  }

  lemma CountingWellFormed(t: Table, rows: seq<Row>, next: nat, n: nat)
    requires WellFormed(t) && Below(t, next) && Ids(rows) == Counting(next, n)
    ensures WellFormed(t + rows)
  {
    CountingAt(next, n);
    assert |rows| == |Ids(rows)|;
    forall i | 0 <= i < |rows| ensures rows[i].id == next + i {
      assert Ids(rows)[i] == rows[i].id;
    }
  }

  // ---- Splitting the stored ids at the cut ---------------------------------------------

  ghost predicate NoRepeats(ids: seq<nat>) {
    forall i, j :: 0 <= i < j < |ids| ==> ids[i] != ids[j]
  }

  lemma {:induction false} PickMembers(ids: seq<nat>, keep: set<nat>)
    ensures forall id :: id in PickIds(ids, keep) <==> id in ids && id in keep
  {
    if ids != [] {
      PickMembers(ids[1..], keep);
      assert ids == [ids[0]] + ids[1..];
    }
  }

  lemma {:induction false} PickNoRepeats(ids: seq<nat>, keep: set<nat>)
    requires NoRepeats(ids)
    ensures NoRepeats(PickIds(ids, keep))
  {
    if ids != [] {
      var rest := PickIds(ids[1..], keep);
      PickNoRepeats(ids[1..], keep);
      PickMembers(ids[1..], keep);
      forall i | 0 <= i < |rest| ensures rest[i] != ids[0] {
        assert rest[i] in ids[1..];
      }
    }
  }

  lemma ViewIdsNoRepeats(t: Table)
    requires WellFormed(t)
    ensures NoRepeats(Ids(View(t)))
  {
    ViewSorted(t);
    var v := View(t);
    forall i, j | 0 <= i < j < |v| ensures v[i].id != v[j].id {
      InView(t, v[i]);
      InView(t, v[j]);
      assert Before(v[i], v[j]);
      if v[i].id == v[j].id {
        SameIdSameRow(t, v[i], v[j]);
      }
    }
  }

  /** Two splits of one list without repeats agree when the parts hold the same ids. */
  lemma SameSplit(a: seq<nat>, b: seq<nat>, c: seq<nat>, d: seq<nat>)
    requires a + b == c + d && NoRepeats(a + b)
    requires (forall x :: x in a ==> x in c) && (forall x :: x in b ==> x in d)
    ensures a == c && b == d
  {
    var all := a + b;
    if a != [] {
      assert a[|a| - 1] in c;
      var k :| 0 <= k < |c| && c[k] == a[|a| - 1];
      assert all[k] == (c + d)[k] && all[|a| - 1] == a[|a| - 1];
    }
    assert |a| <= |c|;
    if b != [] {
      assert b[0] in d;
      var k :| 0 <= k < |d| && d[k] == b[0];
      assert all[|c| + k] == (c + d)[|c| + k] && all[|a|] == b[0];
    }
    assert |a| == |c|;
    assert all[..|a|] == a && all[|a|..] == b;
    assert (c + d)[..|c|] == c && (c + d)[|c|..] == d;
  }

  lemma AlignedNoRepeats(t: Table, below: seq<Live>, kept: seq<Live>)
    requires WellFormed(t) && Aligned(t, below, kept)
    ensures NoRepeats(LiveIds(below) + LiveIds(kept))
  {
    FilterPicks(View(t), HasId(StoredIds(below, kept)), StoredIds(below, kept));
    ViewIdsNoRepeats(t);
    PickNoRepeats(Ids(View(t)), StoredIds(below, kept));
  }

  lemma {:induction false} NoRepeatsSingle(ms: seq<Live>)
    requires NoRepeats(LiveIds(ms))
    ensures Single(ms)
  {
    if ms != [] {
      var head := if ms[0].dbId.Some? then [ms[0].dbId.value] else [];
      assert LiveIds(ms) == head + LiveIds(ms[1..]);
      forall i, j | 0 <= i < j < |LiveIds(ms[1..])| ensures LiveIds(ms[1..])[i] != LiveIds(ms[1..])[j] {
        assert LiveIds(ms)[|head| + i] != LiveIds(ms)[|head| + j];
      }
      NoRepeatsSingle(ms[1..]);
      assert ms == [ms[0]] + ms[1..];
      if ms[0].dbId.Some? {
        forall n | n in ms[1..] ensures n.dbId != ms[0].dbId {
          HeadIdNew(ms, n);
        }
      }
    }
  }

  lemma HeadIdNew(ms: seq<Live>, n: Live)
    requires ms != [] && ms[0].dbId.Some? && NoRepeats(LiveIds(ms)) && n in ms[1..]
    ensures n.dbId != ms[0].dbId
  {
    if n.dbId.Some? {
      LiveIdsAre(ms[1..], n.dbId.value);
      var k :| 0 <= k < |LiveIds(ms[1..])| && LiveIds(ms[1..])[k] == n.dbId.value;
      assert LiveIds(ms)[0] == ms[0].dbId.value && LiveIds(ms)[k + 1] == n.dbId.value;
    }
  }

  lemma AlignedSingle(t: Table, below: seq<Live>, kept: seq<Live>)
    requires WellFormed(t) && Aligned(t, below, kept)
    ensures Single(below + kept)
  {
    AlignedNoRepeats(t, below, kept);
    LiveIdsConcat(below, kept);
    NoRepeatsSingle(below + kept);
  }

  lemma RowSide(t: Table, kept: seq<Live>, i: nat)
    requires WellFormed(t) && i < |View(t)|
    ensures View(t)[i] in t && (i < CutIndex(t, kept) <==> AtCut(t, kept, View(t)[i]))
  {
    InView(t, View(t)[i]);
    ViewSorted(t);
    if AnchorId(kept).Some? {
      RankSplits(View(t), AnchorSeq(t, kept) - 1);
    }
  }

  /** A stored row in front of the cut is of `below`, one behind it of `kept`. */
  lemma CutSides(t: Table, below: seq<Live>, kept: seq<Live>, i: nat, r: Row)
    requires WellFormed(t) && AnchorOk(t, below, kept) && Parted(t, kept) && i < |View(t)| && r == View(t)[i]
    requires r.id in StoredIds(below, kept)
    ensures i < CutIndex(t, kept) ==> r.id in LiveIds(below)
    ensures i >= CutIndex(t, kept) ==> r.id in LiveIds(kept)
  {
    RowSide(t, kept, i);
    StoredSplit(below, kept, r.id);
  }

  lemma FrontIds(t: Table, below: seq<Live>, kept: seq<Live>, id: nat)
    requires WellFormed(t) && AnchorOk(t, below, kept) && Parted(t, kept)
    requires id in Ids(View(t)[..CutIndex(t, kept)]) && id in StoredIds(below, kept)
    ensures id in LiveIds(below)
  {
    var front := View(t)[..CutIndex(t, kept)];
    var i :| 0 <= i < |Ids(front)| && Ids(front)[i] == id;
    assert front[i] == View(t)[i];
    CutSides(t, below, kept, i, View(t)[i]);
  }

  lemma BackIds(t: Table, below: seq<Live>, kept: seq<Live>, id: nat)
    requires WellFormed(t) && AnchorOk(t, below, kept) && Parted(t, kept)
    requires id in Ids(View(t)[CutIndex(t, kept)..]) && id in StoredIds(below, kept)
    ensures id in LiveIds(kept)
  {
    var k := CutIndex(t, kept);
    var back := View(t)[k..];
    var i :| 0 <= i < |Ids(back)| && Ids(back)[i] == id;
    IdBehind(View(t), k, i);
    CutSides(t, below, kept, k + i, View(t)[k + i]);
  }

  lemma AlignedSplit(t: Table, below: seq<Live>, kept: seq<Live>)
    requires WellFormed(t) && AnchorOk(t, below, kept) && Parted(t, kept) && Aligned(t, below, kept)
    ensures PickIds(Ids(View(t)[..CutIndex(t, kept)]), StoredIds(below, kept)) == LiveIds(below)
    ensures PickIds(Ids(View(t)[CutIndex(t, kept)..]), StoredIds(below, kept)) == LiveIds(kept)
  {
    var v, k, ids := View(t), CutIndex(t, kept), StoredIds(below, kept);
    FilterPicks(v, HasId(ids), ids);
    AlignedNoRepeats(t, below, kept);
    var front, back := v[..k], v[k..];
    assert v == front + back;
    IdsConcat(front, back);
    PickConcat(Ids(front), Ids(back), ids);
    PickMembers(Ids(front), ids);
    PickMembers(Ids(back), ids);
    forall id | id in PickIds(Ids(front), ids) ensures id in LiveIds(below) {
      FrontIds(t, below, kept, id);
    }
    forall id | id in PickIds(Ids(back), ids) ensures id in LiveIds(kept) {
      BackIds(t, below, kept, id);
    }
    SameSplit(PickIds(Ids(front), ids), PickIds(Ids(back), ids), LiveIds(below), LiveIds(kept));
  }

  // ---- What the window shows -----------------------------------------------------------

  lemma TrackedParts(t: Table, flushed: map<nat, bool>, below: seq<Live>, s: Live, kept: seq<Live>, added: seq<Live>,
                     ms: seq<Live>)
    requires Parts(ms, below, s, kept, added) && NewSummary(s) && Appends(added)
    requires Single(below + kept) && CacheOk(t, below + kept, flushed)
    ensures Agree(ms) && CacheOk(t, ms, flushed)
    ensures forall m :: m in ms && m.dbId.Some? ==> m in below + kept
    ensures forall m :: m in below + kept ==> m in ms
  {
    forall m | m in added ensures !m.seen && m.dbId.None? {
      var i :| 0 <= i < |added| && added[i] == m;
    }
  }

  lemma ShownBelow(x: Row, r: Row)
    requires Before(x, r) && x.id < r.id
    ensures InWindow(x, Some(r), false) <==> PlainRow(x) && x.pinned
  {
  }

  lemma ShownAbove(x: Row, r: Row)
    requires !Before(x, r) && x.id < r.id
    ensures InWindow(x, Some(r), false) <==> PlainRow(x)
  {
  }

  lemma StoredSplit(below: seq<Live>, kept: seq<Live>, id: nat)
    ensures id in StoredIds(below, kept) <==> id in LiveIds(below) || id in LiveIds(kept)
  {
  }

  lemma KindInContext(t: Table, ms: seq<Live>, n: Live, m: Row)
    requires KindsOk(t, ms) && n in ms && m in t && n.dbId == Some(m.id) && !n.excluded
    ensures PlainRow(m)
  {
  }

  lemma SinglePart(a: seq<Live>, b: seq<Live>)
    requires Single(a + b)
    ensures Single(a)
  {
    forall m, n | m in a && n in a && m.dbId.Some? && m.dbId == n.dbId ensures m == n {
      assert m in a + b && n in a + b;
    }
  }

  lemma BelowFlags(below: seq<Live>, kept: seq<Live>, n: Live)
    requires BelowOk(below) && Single(below + kept) && n in below
    ensures Placed(n) && (n.excluded <==> !n.pinned) && n in below + kept
    ensures n.dbId.value in SentIds(below) <==> n.pinned
  {
    SinglePart(below, kept);
    InContext(below, n);
  }

  lemma StoredPin(t: Table, flushed: map<nat, bool>, below: seq<Live>, s: Live, kept: seq<Live>, added: seq<Live>,
                  ms: seq<Live>, n: Live, m: Row)
    requires Parts(ms, below, s, kept, added) && NewSummary(s) && Appends(added)
    requires Single(below + kept) && CacheOk(t, below + kept, flushed) && UsersMatch(t, below + kept)
    requires n in below + kept && Placed(n) && n.dbId == Some(m.id) && m in t
    ensures Repin(m, PinUpdates(ms, flushed)) == m.(pinned := n.pinned)
  {
    TrackedParts(t, flushed, below, s, kept, added, ms);
    if n.seen {
      PinAfter(t, ms, flushed, n, m);
    } else {
      PinUpdatesAre(ms, flushed);
      forall x | x in ms && x.dbId == Some(m.id) ensures x == n {
        assert x in below + kept;
      }
    }
  }

  /** A stored row below the cut carries its message's pin, and is plain when in context. */
  lemma FrontStored(t: Table, flushed: map<nat, bool>, below: seq<Live>, s: Live, kept: seq<Live>, added: seq<Live>,
                    ms: seq<Live>, m: Row)
    requires Compacted(t, flushed, below, s, kept, added) && Parts(ms, below, s, kept, added) && Single(below + kept)
    requires m in t && m.id in LiveIds(below)
    ensures var x := Repin(m, PinUpdates(ms, flushed)); (PlainRow(x) && x.pinned) <==> m.id in SentIds(below)
  {
    LiveIdsAre(below, m.id);
    var n :| n in below && n.dbId == Some(m.id);
    BelowFlags(below, kept, n);
    StoredPin(t, flushed, below, s, kept, added, ms, n, m);
    if n.pinned {
      KindInContext(t, below + kept, n, m);
    }
  }

  /** A row outside the live list is not repinned. */
  lemma OtherUnpinned(t: Table, flushed: map<nat, bool>, below: seq<Live>, s: Live, kept: seq<Live>, added: seq<Live>,
                      ms: seq<Live>, m: Row)
    requires Compacted(t, flushed, below, s, kept, added) && Parts(ms, below, s, kept, added) && Single(below + kept)
    requires m.id !in StoredIds(below, kept)
    ensures Repin(m, PinUpdates(ms, flushed)) == m
  {
    TrackedParts(t, flushed, below, s, kept, added, ms);
    PinUpdatesAre(ms, flushed);
    LiveIdsAre(below, m.id);
    LiveIdsAre(kept, m.id);
    forall n | n in ms && PinDiffers(n, flushed) ensures n.dbId != Some(m.id) {
      assert n in below + kept;
    }
  }

  lemma SentAreStored(below: seq<Live>, kept: seq<Live>)
    ensures forall id :: id in SentIds(below) ==> id in StoredIds(below, kept)
  {
    MessagesForLlmAre(below);
    forall id | id in SentIds(below) ensures id in StoredIds(below, kept) {
      LiveIdsAre(MessagesForLlm(below), id);
      LiveIdsAre(below, id);
    }
  }

  /** Below the summary a row is shown exactly when its message is still in context. */
  lemma FrontRow(t: Table, flushed: map<nat, bool>, below: seq<Live>, s: Live, kept: seq<Live>, added: seq<Live>,
                 ms: seq<Live>, m: Row, r: Row)
    requires Compacted(t, flushed, below, s, kept, added) && Parts(ms, below, s, kept, added) && Single(below + kept)
    requires m in t && m.id < r.id && (m.id in StoredIds(below, kept) ==> m.id in LiveIds(below))
    requires Before(Repin(m, PinUpdates(ms, flushed)), r)
    ensures InWindow(Repin(m, PinUpdates(ms, flushed)), Some(r), false) <==> m.id in SentIds(below)
  {
    ShownBelow(Repin(m, PinUpdates(ms, flushed)), r);
    if m.id in LiveIds(below) {
      FrontStored(t, flushed, below, s, kept, added, ms, m);
    } else {
      OtherUnpinned(t, flushed, below, s, kept, added, ms, m);
      SentAreStored(below, kept);
    }
  }

  /** A row of the kept tail is plain. */
  lemma BackStored(t: Table, below: seq<Live>, kept: seq<Live>, m: Row)
    requires KeptOk(kept) && KindsOk(t, below + kept) && m in t && m.id in LiveIds(kept)
    ensures PlainRow(m)
  {
    LiveIdsAre(kept, m.id);
    var n :| n in kept && n.dbId == Some(m.id);
    assert n in below + kept;
    KindInContext(t, below + kept, n, m);
  }

  /** A row behind the cut that no live message names is never shown. */
  lemma BackOther(t: Table, below: seq<Live>, kept: seq<Live>, m: Row)
    requires OthersOk(t, below, kept) && m in t && m.id !in StoredIds(below, kept) && !AtCut(t, kept, m)
    ensures !PlainRow(m)
  {
  }

  lemma RepinKind(m: Row, pins: map<nat, bool>)
    ensures PlainRow(Repin(m, pins)) <==> PlainRow(m)
  {
  }

  /** At or after the summary a stored row is shown exactly when it is in the kept tail. */
  lemma BackRow(t: Table, flushed: map<nat, bool>, below: seq<Live>, s: Live, kept: seq<Live>, added: seq<Live>,
                pins: map<nat, bool>, m: Row, r: Row)
    requires Compacted(t, flushed, below, s, kept, added)
    requires m in t && m.id < r.id && (m.id in StoredIds(below, kept) ==> m.id in LiveIds(kept))
    requires !Before(Repin(m, pins), r) && !AtCut(t, kept, m)
    ensures InWindow(Repin(m, pins), Some(r), false) <==> m.id in LiveIds(kept)
  {
    ShownAbove(Repin(m, pins), r);
    RepinKind(m, pins);
    StoredSplit(below, kept, m.id);
    if m.id in LiveIds(kept) {
      BackStored(t, below, kept, m);
    } else {
      BackOther(t, below, kept, m);
    }
  }

  lemma PinnedIds(v: seq<Row>, pins: map<nat, bool>)
    ensures Ids(ApplyPins(v, pins)) == Ids(v)
  {
    ApplyPinsAt(v, pins);
  }

  /** The window of a synced compaction whose cut falls between `below` and `kept`. */
  ghost predicate Cut(t: Table, next: nat, flushed: map<nat, bool>, below: seq<Live>, s: Live, kept: seq<Live>,
                      added: seq<Live>) {
    WellFormed(t) && Below(t, next) && Compacted(t, flushed, below, s, kept, added) && Parted(t, kept)
  }

  lemma FrontShown(t: Table, flushed: map<nat, bool>, below: seq<Live>, s: Live, kept: seq<Live>, added: seq<Live>,
                   ms: seq<Live>, pins: map<nat, bool>, r: Row)
    requires Cut(t, r.id, flushed, below, s, kept, added) && Single(below + kept)
    requires Parts(ms, below, s, kept, added) && pins == PinUpdates(ms, flushed)
    requires forall x :: x in Front(t, kept, pins) ==> Before(x, r)
    ensures Ids(Filter(Front(t, kept, pins), Visible(Some(r), false))) == SentIds(below)
  {
    var front, v, k := Front(t, kept, pins), View(t), CutIndex(t, kept);
    var keep, all := IdSet(SentIds(below)), StoredIds(below, kept);
    AlignedSplit(t, below, kept);
    ApplyPinsAt(v[..k], pins);
    PickMembers(Ids(v[..k]), all);
    forall x | x in front ensures Visible(Some(r), false)(x) <==> x.id in keep {
      var i :| 0 <= i < |front| && front[i] == x;
      var m := v[..k][i];
      InView(t, v[i]);
      assert Ids(v[..k])[i] == m.id;
      FrontRow(t, flushed, below, s, kept, added, ms, m, r);
    }
    FilterPicks(front, Visible(Some(r), false), keep);
    PinnedIds(v[..k], pins);
    SentAreStored(below, kept);
    PickTwice(Ids(v[..k]), keep, all);
    SinglePart(below, kept);
    ContextIds(below, below);
  }

  /** The row a back row comes from: it lies at or behind the anchor, and is kept if stored. */
  lemma BackSource(t: Table, below: seq<Live>, kept: seq<Live>, pins: map<nat, bool>, x: Row) returns (m: Row)
    requires WellFormed(t) && AnchorOk(t, below, kept) && Parted(t, kept) && x in Back(t, kept, pins)
    ensures m in t && x == Repin(m, pins) && !AtCut(t, kept, m)
    ensures m.id in StoredIds(below, kept) ==> m.id in LiveIds(kept)
  {
    var back, v, k := Back(t, kept, pins), View(t), CutIndex(t, kept);
    var i :| 0 <= i < |back| && back[i] == x;
    ApplyPinsAt(v[k..], pins);
    m := v[k + i];
    assert v[k..][i] == m;
    RowSide(t, kept, k + i);
    if m.id in StoredIds(below, kept) {
      CutSides(t, below, kept, k + i, m);
    }
  }

  lemma IdBehind(v: seq<Row>, k: nat, i: nat)
    requires k + i < |v|
    ensures |Ids(v[k..])| == |v| - k && Ids(v[k..])[i] == v[k + i].id
  {
  }

  lemma BackEach(t: Table, flushed: map<nat, bool>, below: seq<Live>, s: Live, kept: seq<Live>, added: seq<Live>,
                 pins: map<nat, bool>, r: Row, x: Row)
    requires Cut(t, r.id, flushed, below, s, kept, added)
    requires x in Back(t, kept, pins) && !Before(x, r)
    ensures Visible(Some(r), false)(x) <==> x.id in LiveIds(kept)
  {
    var m := BackSource(t, below, kept, pins, x);
    assert m.id < r.id by {
      var i :| 0 <= i < |t| && t[i] == m;
    }
    BackRow(t, flushed, below, s, kept, added, pins, m, r);
  }

  lemma BackPicked(t: Table, below: seq<Live>, kept: seq<Live>, pins: map<nat, bool>)
    requires WellFormed(t) && AnchorOk(t, below, kept) && Parted(t, kept) && Aligned(t, below, kept)
    ensures PickIds(Ids(Back(t, kept, pins)), IdSet(LiveIds(kept))) == LiveIds(kept)
  {
    var v, k, keep, all := View(t), CutIndex(t, kept), IdSet(LiveIds(kept)), StoredIds(below, kept);
    AlignedSplit(t, below, kept);
    PinnedIds(v[k..], pins);
    assert keep <= all;
    PickTwice(Ids(v[k..]), keep, all);
    PickAll(LiveIds(kept), keep);
  }

  lemma BackShown(t: Table, flushed: map<nat, bool>, below: seq<Live>, s: Live, kept: seq<Live>, added: seq<Live>,
                  pins: map<nat, bool>, r: Row)
    requires Cut(t, r.id, flushed, below, s, kept, added)
    requires forall x :: x in Back(t, kept, pins) ==> !Before(x, r)
    ensures Ids(Filter(Back(t, kept, pins), Visible(Some(r), false))) == LiveIds(kept)
  {
    forall x | x in Back(t, kept, pins) ensures Visible(Some(r), false)(x) <==> x.id in IdSet(LiveIds(kept)) {
      BackEach(t, flushed, below, s, kept, added, pins, r, x);
    }
    FilterPicks(Back(t, kept, pins), Visible(Some(r), false), IdSet(LiveIds(kept)));
    BackPicked(t, below, kept, pins);
  }

  lemma {:induction false} PickAll(ids: seq<nat>, keep: set<nat>)
    requires forall id :: id in ids ==> id in keep
    ensures PickIds(ids, keep) == ids
  {
    if ids != [] {
      assert ids[0] in ids;
      PickAll(ids[1..], keep);
      assert [ids[0]] + ids[1..] == ids;
    }
  }

  lemma SummaryIsActive(t: Table, r: Row, rows: seq<Row>)
    requires r.kind == Summary && forall m :: m in rows ==> PlainRow(m)
    ensures ActiveSummary(t + [r] + rows) == Some(r)
  {
    ActiveSummaryAppended(t + [r], rows);
  }

  lemma AroundSummary(front: seq<Row>, r: Row, back: seq<Row>, rows: seq<Row>)
    requires Sorted(front + [r] + back + rows)
    ensures forall x :: x in front ==> Before(x, r)
    ensures forall x :: x in back || x in rows ==> !Before(x, r)
  {
    var all, k := front + [r] + back + rows, |front|;
    assert all[k] == r;
    forall x | x in front ensures Before(x, r) {
      var i :| 0 <= i < |front| && front[i] == x;
      assert all[i] == x;
    }
    forall x | x in back || x in rows ensures !Before(x, r) {
      if x in back {
        var i :| 0 <= i < |back| && back[i] == x;
        assert all[k + 1 + i] == x;
      } else {
        var i :| 0 <= i < |rows| && rows[i] == x;
        assert all[k + 1 + |back| + i] == x;
      }
    }
  }

  lemma NewestShown(rows: seq<Row>, r: Row)
    requires r.kind == Summary
    requires forall m :: m in rows ==> PlainRow(m) && !Before(m, r)
    ensures Filter([r], Visible(Some(r), false)) == [r]
    ensures Filter(rows, Visible(Some(r), false)) == rows
  {
    FilterAll(rows, Visible(Some(r), false));
    FilterAll([r], Visible(Some(r), false));
  }

  lemma ShownParts(front: seq<Row>, r: Row, back: seq<Row>, rows: seq<Row>, p: Row -> bool)
    requires Filter([r], p) == [r] && Filter(rows, p) == rows
    ensures Ids(Filter(front + [r] + back + rows, p))
            == Ids(Filter(front, p)) + ([r.id] + (Ids(Filter(back, p)) + Ids(rows)))
  {
    assert front + [r] + back + rows == front + ([r] + (back + rows));
    FilterConcat(front, [r] + (back + rows), p);
    FilterConcat([r], back + rows, p);
    FilterConcat(back, rows, p);
    IdsConcat(Filter(front, p), [r] + (Filter(back, p) + rows));
    IdsConcat([r], Filter(back, p) + rows);
    IdsConcat(Filter(back, p), rows);
  }

  /** The ids a reload shows when the cut falls between the two parts. */
  lemma CutShown(t: Table, next: nat, flushed: map<nat, bool>, below: seq<Live>, s: Live, kept: seq<Live>,
                 added: seq<Live>,
                 ms: seq<Live>, pins: map<nat, bool>, r: Row, rows: seq<Row>, u: Table)
    requires Cut(t, next, flushed, below, s, kept, added) && Parts(ms, below, s, kept, added)
             && pins == PinUpdates(ms, flushed)
    requires u == ApplyPins(t, pins) + [r] + rows && WellFormed(u) && r.id == next && r.kind == Summary
    requires View(u) == Front(t, kept, pins) + [r] + Back(t, kept, pins) + rows && Written(rows, next + 1, |added|)
    ensures Ids(LlmWindow(u)) == SentIds(below) + ([next] + (LiveIds(kept) + Counting(next + 1, |added|)))
  {
    ViewSorted(u);
    AroundSummary(Front(t, kept, pins), r, Back(t, kept, pins), rows);
    SummaryIsActive(ApplyPins(t, pins), r, rows);
    AlignedSingle(t, below, kept);
    FrontShown(t, flushed, below, s, kept, added, ms, pins, r);
    BackShown(t, flushed, below, s, kept, added, pins, r);
    NewestShown(rows, r);
    ShownParts(Front(t, kept, pins), r, Back(t, kept, pins), rows, Visible(Some(r), false));
  }
}
