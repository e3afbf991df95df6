/**
 Why the window theorem asks for an unpinned head: a pinned message at the head of the kept
 tail is passed over as the anchor, and a reload then shows it ahead of the summary.
 */
module CompactionLimits {
  import opened Wrappers
  import opened Transcript
  import opened Positions
  import opened Window
  import opened Queue
  import opened Checkpoint
  import opened WriteBack
  import opened Compaction
  import opened CompactionWindow
  import SyncLoop

  function Stored(id: nat, pinned: bool): Row {
    Row(id, (id + 1) * SEQ_STEP, User, Chat, pinned, "", [], "", None)
  }

  function Held(id: nat, pinned: bool, excluded: bool): Live {
    Live(true, Some(id), pinned, excluded, User, false, false, "", false, [], "")
  }

  const SUMMARY := Live(false, None, false, false, User, true, false, "", false, [], "")

  function Rows3(): Table {
    [Stored(0, false), Stored(1, true), Stored(2, false)]
  }

  /** One compacted message, the summary, then a kept tail with a pinned head. */
  function Messages(): seq<Live> {
    [Held(0, false, true), SUMMARY, Held(1, true, false), Held(2, false, false)]
  }

  function FlushedPins(): map<nat, bool> {
    map[0 := false, 1 := true, 2 := false]
  }

  function SummaryRow(): Row {
    RowFor(SUMMARY, 3, 2 * SEQ_STEP + SEQ_STEP / 2)
  }

  lemma AnchorIsSecond()
    ensures AnchoredSeq(Rows3(), SUMMARY, [Held(1, true, false), Held(2, false, false)])
            == Some(2 * SEQ_STEP + SEQ_STEP / 2)
  {
    var rest := [Held(1, true, false), Held(2, false, false)];
    assert rest[1..] == [Held(2, false, false)];
    assert AnchorId(rest) == Some(2);
    var t := Rows3();
    assert t[1..] == [Stored(1, true), Stored(2, false)] && t[1..][1..] == [Stored(2, false)];
    assert RowById(t, 2) == Some(Stored(2, false));
    var below := MaxBelow(t, 3 * SEQ_STEP);
    assert t[1].seqNo == 2 * SEQ_STEP;
    assert below == Some(2 * SEQ_STEP);
  }

  /** Only the summary is new. */
  lemma OnlySummary(t: Table, anchored: seq<Option<int>>, s: int)
    requires |anchored| == 4 && anchored[1] == Some(s)
    ensures NewRows(t, 3, None, Messages(), anchored) == [RowFor(SUMMARY, 3, s)]
  {
    var ms, r := Messages(), RowFor(SUMMARY, 3, s);
    assert ms == [ms[0]] + ([SUMMARY] + ms[2..]);
    SkipStored(t, 3, None, [ms[0]], [SUMMARY] + ms[2..], anchored);
    var rest, marks := [SUMMARY] + ms[2..], anchored[1..];
    assert rest[1..] == ms[2..] && marks[0] == Some(s);
    NothingNew(t + [r], 4, None, ms[2..], marks[1..]);
    assert NewRows(t, 3, None, rest, marks) == [r] + [];
  }

  lemma NoPinFlips()
    ensures PinUpdates(Messages(), FlushedPins()) == map[]
  {
    forall i | 0 <= i < |Messages()| ensures !PinDiffers(Messages()[i], FlushedPins()) {
    }
    NoPinUpdates(Messages(), FlushedPins());
  }

  lemma SecondMark(t: Table, a: Live, b: Live, rest: seq<Live>)
    ensures |AnchoredSeqs(t, [a, b] + rest)| == 2 + |rest|
            && AnchoredSeqs(t, [a, b] + rest)[1] == AnchoredSeq(t, b, rest)
  {
    assert ([a, b] + rest)[1..] == [b] + rest && ([b] + rest)[1..] == rest;
  }

  lemma SyncOnlySummary(t: Table, flushed: map<nat, bool>, anchored: seq<Option<int>>, s: int)
    requires PinUpdates(Messages(), flushed) == map[]
    requires anchored == AnchoredSeqs(t, Messages()) && |anchored| == 4 && anchored[1] == Some(s)
    ensures SyncRows(t, 3, Messages(), flushed) == t + [RowFor(SUMMARY, 3, s)]
  {
    NoPins(t);
    OnlySummary(t, anchored, s);
  }

  lemma SummaryMark()
    ensures |AnchoredSeqs(Rows3(), Messages())| == 4
    ensures AnchoredSeqs(Rows3(), Messages())[1] == Some(2 * SEQ_STEP + SEQ_STEP / 2)
  {
    AnchorIsSecond();
    var rest := [Held(1, true, false), Held(2, false, false)];
    assert Messages() == [Held(0, false, true), SUMMARY] + rest;
    SecondMark(Rows3(), Held(0, false, true), SUMMARY, rest);
  }

  lemma Synced()
    ensures SyncRows(Rows3(), 3, Messages(), FlushedPins()) == Rows3() + [SummaryRow()]
  {
    NoPinFlips();
    SummaryMark();
    SyncOnlySummary(Rows3(), FlushedPins(), AnchoredSeqs(Rows3(), Messages()), 2 * SEQ_STEP + SEQ_STEP / 2);
  }

  lemma AlreadySorted(t: Table)
    requires WellFormed(t) && Sorted(t)
    ensures View(t) == t
  {
    ViewSorted(t);
    ViewMembers(t);
    SortedUnique(View(t), t);
  }

  lemma LandsThird(t: Table, r: Row, k: nat)
    requires WellFormed(t) && Sorted(t) && Below(t, r.id) && k <= |t|
    requires forall i :: 0 <= i < k ==> t[i].seqNo <= r.seqNo
    requires forall i :: k <= i < |t| ==> t[i].seqNo > r.seqNo
    ensures View(t + [r]) == t[..k] + [r] + t[k..]
  {
    AlreadySorted(t);
    SavedView(t, r);
    RankIs(t, r.seqNo, k);
  }

  lemma FourInOrder(a: Row, b: Row, c: Row, r: Row)
    requires a.id < b.id < c.id < r.id && a.seqNo < b.seqNo < r.seqNo < c.seqNo
    ensures View([a, b, c] + [r]) == [a, b, r, c]
  {
    LandsThird([a, b, c], r, 2);
  }

  lemma LastThree(a: Row, rest: seq<Row>, p: Row -> bool)
    requires !p(a) && forall m :: m in rest ==> p(m)
    ensures Filter([a] + rest, p) == rest
  {
    FilterAll(rest, p);
    FilterCons(a, rest, p);
  }

  lemma FourShown(t: Table, a: Row, b: Row, c: Row, r: Row)
    requires View(t) == [a, b, r, c] && ActiveSummary(t) == Some(r) && Before(a, r) && Before(b, r) && !Before(c, r)
    requires a.kind == Chat && b.kind == Chat && c.kind == Chat && r.kind == Summary && !a.pinned && b.pinned
    ensures LlmWindow(t) == [b, r, c]
  {
    var p := Visible(Some(r), false);
    assert !p(a) && p(b) && p(r) && p(c);
    LastThree(a, [b, r, c], p);
  }

  lemma SummaryLastCreated(t: Table, r: Row)
    requires r.kind == Summary
    ensures ActiveSummary(t + [r]) == Some(r)
  {
  }

  lemma DbOrder()
    ensures LlmWindow(Rows3() + [SummaryRow()]) == [Stored(1, true), SummaryRow(), Stored(2, false)]
  {
    SummaryLastCreated(Rows3(), SummaryRow());
    FourInOrder(Stored(0, false), Stored(1, true), Stored(2, false), SummaryRow());
    FourShown(Rows3() + [SummaryRow()], Stored(0, false), Stored(1, true), Stored(2, false), SummaryRow());
  }

  lemma ThreeIds(a: Row, b: Row, c: Row)
    ensures Ids([a, b, c]) == [a.id, b.id, c.id]
  {
  }

  /** The live list sends summary, pinned, kept; the database shows pinned, summary, kept. */
  lemma PinnedHeadReorders()
    ensures SentIds(SyncLive(Messages(), 3)) == [3, 1, 2]
    ensures Ids(LlmWindow(SyncRows(Rows3(), 3, Messages(), FlushedPins()))) == [1, 3, 2]
  {
    LiveOrder();
    Synced();
    DbOrder();
    ThreeIds(Stored(1, true), SummaryRow(), Stored(2, false));
  }

  /** What is sent of an excluded message, a settled summary and messages already stored. */
  lemma SentAround(out: Live, s: Live, rest: seq<Live>)
    requires out.excluded && s.dbId.Some? && !s.excluded && s.role == User
    ensures SentIds([out] + ([s] + rest)) == [s.dbId.value] + SentIds(rest)
  {
    SentConcat([out], [s] + rest);
    SentConcat([s], rest);
    SentOne(s);
    SentOne(out);
    assert [] + ([s.dbId.value] + SentIds(rest)) == [s.dbId.value] + SentIds(rest);
  }

  lemma SentOne(m: Live)
    ensures SentIds([m]) == if !m.excluded && m.role != System && m.dbId.Some? then [m.dbId.value] else []
  {
    var none: seq<Live> := [];
    assert [m][1..] == none && MessagesForLlm(none) == none;
    var one := if !m.excluded && m.role != System then [m] else none;
    assert one + none == one;
    assert one != [] ==> one[1..] == none && LiveIds(none) == [];
  }

  lemma SettledCons(m: Live, rest: seq<Live>, next: nat)
    ensures SyncLive([m] + rest, next) == [Settle(m, next)] + SyncLive(rest, next + Takes(m))
  {
    assert ([m] + rest)[1..] == rest;
  }

  lemma SyncedAround(out: Live, s: Live, rest: seq<Live>, next: nat)
    requires out.seen && forall i :: 0 <= i < |rest| ==> rest[i].seen
    ensures SyncLive([out] + ([s] + rest), next) == [out] + ([Settle(s, next)] + rest)
  {
    SettledCons(out, [s] + rest, next);
    SettledCons(s, rest, next);
    SyncLoop.AllSeen(rest, next + Takes(s), map[]);
  }

  lemma LiveOrder()
    ensures SentIds(SyncLive(Messages(), 3)) == [3, 1, 2]
  {
    var a, b := Held(1, true, false), Held(2, false, false);
    assert Messages() == [Held(0, false, true)] + ([SUMMARY] + [a, b]);
    SyncedAround(Held(0, false, true), SUMMARY, [a, b], 3);
    SentAround(Held(0, false, true), Settle(SUMMARY, 3), [a, b]);
    assert [a, b] == [a] + [b];
    SentConcat([a], [b]);
    SentOne(a);
    SentOne(b);
  }
}
