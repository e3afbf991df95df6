/**
 The window theorem: where the summary lands in the kept tail, and that the rows the
 database would load are the messages the live list would send exactly when it lands at
 the tail's head.
 */
module CompactionCut {
  import opened Wrappers
  import opened Transcript
  import opened Positions
  import opened Window
  import opened Queue
  import opened Checkpoint
  import opened WriteBack
  import opened Compaction
  import opened CompactionWindow

  /** How many messages of the kept tail have their rows ahead of the summary. */
  function Ahead(t: Table, kept: seq<Live>, anchor: Option<nat>, a: int): (h: nat)
    ensures h <= |kept|
  {
    if kept == [] || kept[0].dbId.None? then 0
    else
      var r := RowById(t, kept[0].dbId.value);
      if anchor.None? || (r.Some? && r.value.seqNo < a) then 1 + Ahead(t, kept[1..], anchor, a) else 0
  }

  function Lead(t: Table, kept: seq<Live>): (h: nat)
    ensures h <= |kept|
  {
    Ahead(t, kept, AnchorId(kept), AnchorSeq(t, kept))
  }

  /** The kept tail's head lies at or after the position where the summary lands. */
  predicate HeadBehind(t: Table, kept: seq<Live>) {
    kept == []
    || (kept[0].dbId.Some? && AnchorId(kept).Some?
        && var r := RowById(t, kept[0].dbId.value); r.Some? && r.value.seqNo >= AnchorSeq(t, kept))
  }

  /** The messages ahead of the summary are pinned, and passed over as anchors. */
  lemma {:induction false} AheadPinned(t: Table, kept: seq<Live>, anchor: Option<nat>, a: int)
    requires KeptOk(kept) && AnchorId(kept) == anchor
    requires anchor.Some? ==> RowById(t, anchor.value).Some? && RowById(t, anchor.value).value.seqNo == a
    ensures var h := Ahead(t, kept, anchor, a);
            && (forall i :: 0 <= i < h ==> kept[i].pinned && kept[i].dbId.Some?)
            && AnchorId(kept[h..]) == anchor
            && (anchor.None? ==> h == |kept|)
            && (forall i :: 0 <= i < h && anchor.Some? ==>
                  var r := RowById(t, kept[i].dbId.value); r.Some? && r.value.seqNo < a)
  {
    if kept != [] {
      assert kept[0] in kept;
      var h := Ahead(t, kept, anchor, a);
      if h > 0 {
        assert forall m :: m in kept[1..] ==> m in kept;
        AheadPinned(t, kept[1..], anchor, a);
        assert kept[1..][h - 1..] == kept[h..];
      } else {
        assert kept[h..] == kept;
      }
    }
  }

  lemma {:induction false} LiveIdsPlaced(ms: seq<Live>)
    requires forall i :: 0 <= i < |ms| ==> ms[i].dbId.Some?
    ensures |LiveIds(ms)| == |ms| && forall i :: 0 <= i < |ms| ==> LiveIds(ms)[i] == ms[i].dbId.value
  {
    if ms != [] {
      LiveIdsPlaced(ms[1..]);
    }
  }

  function StoredView(t: Table, below: seq<Live>, kept: seq<Live>): seq<Row> {
    Filter(View(t), HasId(StoredIds(below, kept)))
  }

  lemma KeptPlaced(kept: seq<Live>)
    requires KeptOk(kept)
    ensures forall i :: 0 <= i < |kept| ==> kept[i].dbId.Some?
  {
    forall i | 0 <= i < |kept| ensures kept[i].dbId.Some? {
      assert kept[i] in kept;
    }
  }

  /** The row of the kept tail's message `i`, in position order. */
  lemma KeptRow(t: Table, below: seq<Live>, kept: seq<Live>, i: nat)
    requires WellFormed(t) && KeptOk(kept) && Aligned(t, below, kept) && i < |kept|
    ensures kept[i].dbId.Some? && |LiveIds(below)| + i < |StoredView(t, below, kept)|
    ensures StoredView(t, below, kept)[|LiveIds(below)| + i].id == kept[i].dbId.value
    ensures StoredView(t, below, kept)[|LiveIds(below)| + i] in t
    ensures RowById(t, kept[i].dbId.value) == Some(StoredView(t, below, kept)[|LiveIds(below)| + i])
  {
    var f, k := StoredView(t, below, kept), |LiveIds(below)| + i;
    KeptPlaced(kept);
    LiveIdsPlaced(kept);
    assert Ids(f) == LiveIds(below) + LiveIds(kept);
    assert Ids(f)[k] == LiveIds(kept)[i];
    FilterMembers(View(t), HasId(StoredIds(below, kept)));
    assert f[k] in f;
    InView(t, f[k]);
    SameIdSameRow(t, RowById(t, f[k].id).value, f[k]);
  }

  /** Rows of the kept tail go up. */
  lemma KeptClimbs(t: Table, below: seq<Live>, kept: seq<Live>, i: nat, j: nat)
    requires WellFormed(t) && KeptOk(kept) && Aligned(t, below, kept) && i <= j < |kept|
    ensures kept[i].dbId.Some? && kept[j].dbId.Some?
    ensures RowById(t, kept[i].dbId.value).Some? && RowById(t, kept[j].dbId.value).Some?
    ensures RowById(t, kept[i].dbId.value).value.seqNo <= RowById(t, kept[j].dbId.value).value.seqNo
  {
    KeptRow(t, below, kept, i);
    KeptRow(t, below, kept, j);
    ViewSorted(t);
    FilterSorted(View(t), HasId(StoredIds(below, kept)));
    var f, n := StoredView(t, below, kept), |LiveIds(below)|;
    assert i < j ==> Before(f[n + i], f[n + j]);
  }

  lemma {:induction false} AheadStops(t: Table, kept: seq<Live>, anchor: Option<nat>, a: int)
    requires forall i :: 0 <= i < |kept| ==> kept[i].dbId.Some? && RowById(t, kept[i].dbId.value).Some?
    ensures var h := Ahead(t, kept, anchor, a);
            h < |kept| ==> anchor.Some? && RowById(t, kept[h].dbId.value).value.seqNo >= a
  {
    if kept != [] && Ahead(t, kept, anchor, a) > 0 {
      AheadStops(t, kept[1..], anchor, a);
    }
  }

  /** A row of the kept tail is at its message's index. */
  lemma KeptIndex(t: Table, kept: seq<Live>, r: Row) returns (i: nat)
    requires WellFormed(t) && r in t && r.id in LiveIds(kept)
    ensures i < |kept| && kept[i].dbId == Some(r.id) && RowById(t, r.id) == Some(r)
  {
    LiveIdsAre(kept, r.id);
    var m :| m in kept && m.dbId == Some(r.id);
    i :| 0 <= i < |kept| && kept[i] == m;
    SameIdSameRow(t, RowById(t, r.id).value, r);
  }

  lemma RestAnchor(t: Table, below: seq<Live>, kept: seq<Live>)
    requires WellFormed(t) && KeptOk(kept) && Aligned(t, below, kept)
    ensures var h := Lead(t, kept);
            && AnchorId(kept[h..]) == AnchorId(kept) && AnchorSeq(t, kept[h..]) == AnchorSeq(t, kept)
            && (forall i :: 0 <= i < h ==> kept[i].pinned && kept[i].dbId.Some?)
            && (AnchorId(kept).None? ==> h == |kept|)
            && (forall i :: 0 <= i < h && AnchorId(kept).Some? ==>
                  var r := RowById(t, kept[i].dbId.value); r.Some? && r.value.seqNo < AnchorSeq(t, kept))
  {
    if AnchorId(kept).Some? {
      AnchorFound(t, below, kept);
    }
    AheadPinned(t, kept, AnchorId(kept), AnchorSeq(t, kept));
  }

  lemma LeadAtCut(t: Table, below: seq<Live>, kept: seq<Live>, r: Row)
    requires WellFormed(t) && KeptOk(kept) && Aligned(t, below, kept)
    requires r in t && r.id in LiveIds(kept[..Lead(t, kept)])
    ensures AtCut(t, kept, r)
  {
    RestAnchor(t, below, kept);
    var i := KeptIndex(t, kept[..Lead(t, kept)], r);
  }

  lemma BehindAt(t: Table, below: seq<Live>, kept: seq<Live>, n: nat)
    requires WellFormed(t) && KeptOk(kept) && Aligned(t, below, kept) && Lead(t, kept) <= n < |kept|
    ensures AnchorId(kept).Some? && kept[n].dbId.Some? && RowById(t, kept[n].dbId.value).Some?
    ensures RowById(t, kept[n].dbId.value).value.seqNo >= AnchorSeq(t, kept)
  {
    forall j | 0 <= j < |kept| ensures kept[j].dbId.Some? && RowById(t, kept[j].dbId.value).Some? {
      KeptRow(t, below, kept, j);
    }
    AheadStops(t, kept, AnchorId(kept), AnchorSeq(t, kept));
    KeptClimbs(t, below, kept, Lead(t, kept), n);
  }

  lemma RestBehind(t: Table, below: seq<Live>, kept: seq<Live>, r: Row)
    requires WellFormed(t) && KeptOk(kept) && Aligned(t, below, kept)
    requires r in t && r.id in LiveIds(kept[Lead(t, kept)..])
    ensures AnchorId(kept).Some? && r.seqNo >= AnchorSeq(t, kept)
  {
    var h := Lead(t, kept);
    var i := KeptIndex(t, kept[h..], r);
    assert kept[h + i] == kept[h..][i];
    BehindAt(t, below, kept, h + i);
  }

  lemma RestParted(t: Table, below: seq<Live>, kept: seq<Live>)
    requires WellFormed(t) && KeptOk(kept) && Aligned(t, below, kept)
    ensures Parted(t, kept[Lead(t, kept)..])
  {
    var rest := kept[Lead(t, kept)..];
    RestAnchor(t, below, kept);
    forall r | r in t && r.id in LiveIds(rest) ensures !AtCut(t, rest, r) {
      RestBehind(t, below, kept, r);
    }
  }

  lemma LeadBelow(t: Table, below: seq<Live>, kept: seq<Live>)
    requires WellFormed(t) && BelowOk(below) && KeptOk(kept) && Aligned(t, below, kept)
    ensures BelowOk(below + kept[..Lead(t, kept)])
    ensures SentIds(below + kept[..Lead(t, kept)]) == SentIds(below) + LiveIds(kept[..Lead(t, kept)])
  {
    var lead := kept[..Lead(t, kept)];
    RestAnchor(t, below, kept);
    forall m | m in lead ensures Placed(m) && !m.excluded && m.pinned {
      var i :| 0 <= i < |lead| && lead[i] == m;
      assert m in kept;
    }
    SentConcat(below, lead);
    forall i | 0 <= i < |lead| ensures !lead[i].excluded && lead[i].role != System {
      assert lead[i] in lead;
    }
    AllInContext(lead);
  }

  lemma LiveIdsSplit(below: seq<Live>, kept: seq<Live>, h: nat)
    requires h <= |kept|
    ensures LiveIds(below + kept[..h]) + LiveIds(kept[h..]) == LiveIds(below) + LiveIds(kept)
    ensures (below + kept[..h]) + kept[h..] == below + kept
  {
    assert kept == kept[..h] + kept[h..];
    LiveIdsConcat(kept[..h], kept[h..]);
    LiveIdsConcat(below, kept[..h]);
    Reassociate(LiveIds(below), LiveIds(kept[..h]), LiveIds(kept[h..]));
    Reassociate(below, kept[..h], kept[h..]);
  }

  lemma LeadIds(below: seq<Live>, kept: seq<Live>, h: nat)
    requires h <= |kept|
    ensures StoredIds(below + kept[..h], kept[h..]) == StoredIds(below, kept)
  {
    LiveIdsSplit(below, kept, h);
  }

  lemma LeadAnchorOk(t: Table, below: seq<Live>, kept: seq<Live>)
    requires WellFormed(t) && KeptOk(kept) && Aligned(t, below, kept) && AnchorOk(t, below, kept)
    ensures AnchorOk(t, below + kept[..Lead(t, kept)], kept[Lead(t, kept)..])
  {
    var h := Lead(t, kept);
    RestAnchor(t, below, kept);
    LiveIdsConcat(below, kept[..h]);
    forall r | r in t && r.id in LiveIds(below + kept[..h]) ensures AtCut(t, kept[h..], r) {
      if r.id in LiveIds(kept[..h]) {
        LeadAtCut(t, below, kept, r);
      }
    }
  }

  /** Counting the lead of the kept tail as below the cut, the cut falls between the two parts. */
  lemma LeadCompacted(t: Table, next: nat, flushed: map<nat, bool>, below: seq<Live>, s: Live, kept: seq<Live>,
                      added: seq<Live>)
    requires WellFormed(t) && Below(t, next) && Compacted(t, flushed, below, s, kept, added)
    ensures Cut(t, next, flushed, below + kept[..Lead(t, kept)], s, kept[Lead(t, kept)..], added)
  {
    var h := Lead(t, kept);
    RestAnchor(t, below, kept);
    RestParted(t, below, kept);
    LeadBelow(t, below, kept);
    LiveIdsSplit(below, kept, h);
    LeadIds(below, kept, h);
    LeadAnchorOk(t, below, kept);
    LeadKept(kept, h);
    LeadOthers(t, below, kept);
  }

  lemma LeadKept(kept: seq<Live>, h: nat)
    requires KeptOk(kept) && h <= |kept|
    ensures KeptOk(kept[h..])
  {
    assert forall m :: m in kept[h..] ==> m in kept;
  }

  lemma LeadOthers(t: Table, below: seq<Live>, kept: seq<Live>)
    requires WellFormed(t) && KeptOk(kept) && Aligned(t, below, kept) && OthersOk(t, below, kept)
    ensures OthersOk(t, below + kept[..Lead(t, kept)], kept[Lead(t, kept)..])
  {
    RestAnchor(t, below, kept);
    LeadIds(below, kept, Lead(t, kept));
  }

  lemma LeadParts(below: seq<Live>, s: Live, kept: seq<Live>, added: seq<Live>, h: nat)
    requires h <= |kept|
    ensures Parts(below + ([s] + (kept + added)), below + kept[..h], s, kept[h..], added)
  {
    assert kept == kept[..h] + kept[h..];
  }

  lemma LeadFronts(t: Table, below: seq<Live>, kept: seq<Live>, pins: map<nat, bool>)
    requires WellFormed(t) && KeptOk(kept) && Aligned(t, below, kept)
    ensures Front(t, kept[Lead(t, kept)..], pins) == Front(t, kept, pins)
    ensures Back(t, kept[Lead(t, kept)..], pins) == Back(t, kept, pins)
  {
    RestAnchor(t, below, kept);
  }

  /**
   After a compaction is synced a reload shows the messages of `below` in context, then the
   head of the kept tail as far as it lies ahead of the anchor, the summary, and the rest.
   */
  lemma WindowShape(t: Table, next: nat, flushed: map<nat, bool>, below: seq<Live>, s: Live, kept: seq<Live>,
                    added: seq<Live>)
    requires WellFormed(t) && Below(t, next) && Compacted(t, flushed, below, s, kept, added)
    ensures var ms, h := below + ([s] + (kept + added)), Lead(t, kept);
            Ids(LlmWindow(SyncRows(t, next, ms, flushed)))
            == SentIds(below) + LiveIds(kept[..h]) + ([next] + (LiveIds(kept[h..]) + Counting(next + 1, |added|)))
  {
    var ms, h := below + ([s] + (kept + added)), Lead(t, kept);
    var pins := PinUpdates(ms, flushed);
    var r, rows := DbShape(t, next, flushed, below, s, kept, added, ms, pins);
    LeadCompacted(t, next, flushed, below, s, kept, added);
    LeadParts(below, s, kept, added, h);
    LeadFronts(t, below, kept, pins);
    LeadBelow(t, below, kept);
    CutShown(t, next, flushed, below + kept[..h], s, kept[h..], added, ms, pins, r, rows,
             SyncRows(t, next, ms, flushed));
  }

  lemma HeadBehindIs(t: Table, below: seq<Live>, kept: seq<Live>)
    requires WellFormed(t) && KeptOk(kept) && Aligned(t, below, kept)
    ensures HeadBehind(t, kept) <==> Lead(t, kept) == 0
    ensures kept != [] ==> kept[0].dbId.Some? && RowById(t, kept[0].dbId.value).Some?
  {
    if kept != [] {
      KeptRow(t, below, kept, 0);
    }
  }

  lemma SplitsDiffer(a: seq<nat>, lead: seq<nat>, b: seq<nat>, c: seq<nat>, next: nat)
    requires lead != [] && lead[0] != next
    ensures a + lead + ([next] + b) != a + ([next] + c)
  {
    assert (a + lead + ([next] + b))[|a|] == lead[0];
    assert (a + ([next] + c))[|a|] == next;
  }

  /**
   The ids a reload shows are the ids the live list sends, in the same order, exactly when
   the head of the kept tail lies at or after the position where the summary lands.
   */
  lemma WindowIsLiveListIff(t: Table, next: nat, flushed: map<nat, bool>, below: seq<Live>, s: Live, kept: seq<Live>,
                            added: seq<Live>)
    requires WellFormed(t) && Below(t, next) && Compacted(t, flushed, below, s, kept, added)
    ensures var ms := below + ([s] + (kept + added));
            Ids(LlmWindow(SyncRows(t, next, ms, flushed))) == SentIds(SyncLive(ms, next)) <==> HeadBehind(t, kept)
  {
    var h := Lead(t, kept);
    WindowShape(t, next, flushed, below, s, kept, added);
    LiveSide(below, s, kept, added, next);
    HeadBehindIs(t, below, kept);
    if h == 0 {
      assert kept[..h] == [] && kept[h..] == kept;
      assert SentIds(below) + [] == SentIds(below);
    } else {
      KeptPlaced(kept);
      LiveIdsPlaced(kept[..h]);
      assert RowById(t, kept[0].dbId.value).value.id < next;
      SplitsDiffer(SentIds(below), LiveIds(kept[..h]), LiveIds(kept[h..]) + Counting(next + 1, |added|),
                   LiveIds(kept) + Counting(next + 1, |added|), next);
    }
  }
}
