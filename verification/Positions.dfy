/**
 Allocating positions: appends, rows anchored before another row, and the stubs that
 follow an interrupted tool call. Each is shown to be one edit of the plain sorted list.
 */
module Positions {
  import opened Wrappers
  import opened Transcript

  /** The midpoint of a gap, or `prev` when the gap is used up. */
  function SeqBetween(prev: int, next: int): (mid: int)
    ensures prev < next ==> prev <= mid < next
    ensures mid == prev || (prev < mid < next && -1 <= (next - mid) - (mid - prev) <= 1)
    ensures mid == prev <==> next - prev < 2
  {
    var gap := next - prev;
    if gap >= 2 then prev + gap / 2 else prev
  }

  function OrZero(m: Option<int>): int {
    if m.Some? then m.value else 0
  }

  /** `MAX(seq)`, or over the rows below a bound. */
  function MaxSeq(t: Table): (m: Option<int>)
    ensures m.None? <==> t == []
    ensures m.Some? ==> exists i :: 0 <= i < |t| && t[i].seqNo == m.value
    ensures m.Some? ==> forall i :: 0 <= i < |t| ==> t[i].seqNo <= m.value
  {
    if t == [] then None
    else
      var rest := MaxSeq(t[1..]);
      if rest.Some? && rest.value >= t[0].seqNo then
        assert exists i :: 0 < i < |t| && t[i].seqNo == rest.value by {
          var i :| 0 <= i < |t[1..]| && t[1..][i].seqNo == rest.value;
          assert t[i + 1].seqNo == rest.value;
        }
        rest
      else
        assert t[0].seqNo == t[0].seqNo;
        Some(t[0].seqNo)
  }

  function MaxBelow(t: Table, s: int): (m: Option<int>)
    ensures m.None? <==> forall i :: 0 <= i < |t| ==> t[i].seqNo >= s
    ensures m.Some? ==> m.value < s && exists i :: 0 <= i < |t| && t[i].seqNo == m.value
    ensures m.Some? ==> forall i :: 0 <= i < |t| ==> t[i].seqNo <= m.value || t[i].seqNo >= s
  {
    if t == [] then None
    else
      var rest := MaxBelow(t[1..], s);
      if t[0].seqNo < s && (rest.None? || rest.value < t[0].seqNo) then
        assert t[0].seqNo == t[0].seqNo;
        Some(t[0].seqNo)
      else
        assert rest.Some? ==> exists i :: 0 < i < |t| && t[i].seqNo == rest.value by {
          if rest.Some? {
            var i :| 0 <= i < |t[1..]| && t[1..][i].seqNo == rest.value;
            assert t[i + 1].seqNo == rest.value;
          }
        }
        rest
  }

  function MinAbove(t: Table, s: int): (m: Option<int>)
    ensures m.None? <==> forall i :: 0 <= i < |t| ==> t[i].seqNo <= s
    ensures m.Some? ==> m.value > s && exists i :: 0 <= i < |t| && t[i].seqNo == m.value
    ensures m.Some? ==> forall i :: 0 <= i < |t| ==> t[i].seqNo >= m.value || t[i].seqNo <= s
  {
    if t == [] then None
    else
      var rest := MinAbove(t[1..], s);
      if t[0].seqNo > s && (rest.None? || rest.value > t[0].seqNo) then
        assert t[0].seqNo == t[0].seqNo;
        Some(t[0].seqNo)
      else
        assert rest.Some? ==> exists i :: 0 < i < |t| && t[i].seqNo == rest.value by {
          if rest.Some? {
            var i :| 0 <= i < |t[1..]| && t[1..][i].seqNo == rest.value;
            assert t[i + 1].seqNo == rest.value;
          }
        }
        rest
  }

  function NextSeq(t: Table): int {
    OrZero(MaxSeq(t)) + SEQ_STEP
  }

  function SeqBeforeRow(t: Table, anchorSeq: int): int {
    SeqBetween(OrZero(MaxBelow(t, anchorSeq)), anchorSeq)
  }

  lemma {:induction false} MaxSeqSnoc(t: Table, r: Row)
    requires forall i :: 0 <= i < |t| ==> t[i].seqNo <= r.seqNo
    ensures MaxSeq(t + [r]) == Some(r.seqNo)
  {
    if t == [] {
      assert t + [r] == [r];
    } else {
      assert (t + [r])[1..] == t[1..] + [r];
      MaxSeqSnoc(t[1..], r);
    }
  }

  /** Saving at or past the next position sets the one after it. */
  lemma NextSeqAppended(t: Table, r: Row)
    requires r.seqNo >= NextSeq(t)
    ensures NextSeq(t + [r]) == r.seqNo + SEQ_STEP
  {
    MaxSeqSnoc(t, r);
  }

  /** A row saved at the next position is the new last row, and the only change. */
  lemma AppendGoesLast(t: Table, r: Row)
    requires WellFormed(t) && Below(t, r.id) && r.seqNo >= NextSeq(t)
    ensures View(t + [r]) == View(t) + [r]
  {
    SavedView(t, r);
    var v := View(t);
    forall i | 0 <= i < |v| ensures v[i].seqNo <= r.seqNo {
      InView(t, v[i]);
    }
    RankIs(v, r.seqNo, |v|);
    assert v[..|v|] + [r] + v[|v|..] == v + [r];
  }

  /** There is a position below the anchor that `SeqBeforeRow` can find. */
  predicate RoomBefore(t: Table, anchorSeq: int) {
    MaxBelow(t, anchorSeq).Some? || anchorSeq > 0
  }

  lemma AnchorLandsBefore(t: Table, anchorSeq: int, r: Row)
    requires WellFormed(t) && Below(t, r.id) && r.seqNo == SeqBeforeRow(t, anchorSeq)
    requires RoomBefore(t, anchorSeq)
    ensures var v := View(t); var k := Rank(v, anchorSeq - 1);
            View(t + [r]) == v[..k] + [r] + v[k..]
  {
    SavedView(t, r);
    ViewSorted(t);
    var v := View(t);
    var k := Rank(v, anchorSeq - 1);
    RankSplits(v, anchorSeq - 1);
    forall i | 0 <= i < k ensures v[i].seqNo <= r.seqNo {
      InView(t, v[i]);
    }
    RankIs(v, r.seqNo, k);
  }

  /**
   A row saved at `SeqBeforeRow` sorts ahead of its anchor exactly when there is room:
   then it goes between all lower rows and the anchor's tie block. Otherwise (nothing
   below an anchor at position 0 or less) it sorts behind the anchor.
   */
  lemma AnchorBeforeIff(t: Table, a: Row, r: Row)
    requires WellFormed(t) && a in t && Below(t, r.id)
    requires r.seqNo == SeqBeforeRow(t, a.seqNo)
    ensures Before(r, a) <==> RoomBefore(t, a.seqNo)
    ensures RoomBefore(t, a.seqNo) ==>
              var v := View(t); var k := Rank(v, a.seqNo - 1);
              View(t + [r]) == v[..k] + [r] + v[k..]
  {
    if RoomBefore(t, a.seqNo) {
      AnchorLandsBefore(t, a.seqNo, r);
    } else {
      var i :| 0 <= i < |t| && t[i] == a;
      assert a.id < r.id;
    }
  }

  /** The highest position below `s` in the table, or 0. */
  ghost predicate Floor(t: Table, s: int, low: int) {
    if forall i :: 0 <= i < |t| ==> t[i].seqNo >= s then low == 0
    else low < s && (exists i :: 0 <= i < |t| && t[i].seqNo == low)
         && forall i :: 0 <= i < |t| ==> t[i].seqNo <= low || t[i].seqNo >= s
  }

  /** It halves the gap below the anchor, to within one; a gap of less than two is used up. */
  lemma BeforeHalves(t: Table, anchorSeq: int, low: int)
    requires Floor(t, anchorSeq, low)
    ensures var s := SeqBeforeRow(t, anchorSeq);
            if anchorSeq - low < 2 then s == low else 2 * (s - low) <= anchorSeq - low <= 2 * (s - low) + 1
  {
    if !(forall i :: 0 <= i < |t| ==> t[i].seqNo >= anchorSeq) {
      var m := MaxBelow(t, anchorSeq).value;
      var i :| 0 <= i < |t| && t[i].seqNo == low;
      var j :| 0 <= j < |t| && t[j].seqNo == m;
    }
  }

  // ---- Nested splits -------------------------------------------------------------------

  function Pow2(k: nat): (p: nat)
    ensures p >= 1
  {
    if k == 0 then 1 else 2 * Pow2(k - 1)
  }

  /** Every split lands strictly inside the gap the previous choice left; true keeps the lower half. */
  predicate AllInside(prev: int, next: int, lower: seq<bool>)
    decreases |lower|
  {
    lower == [] ||
    var mid := SeqBetween(prev, next);
    prev < mid < next
    && (if lower[0] then AllInside(prev, mid, lower[1..]) else AllInside(mid, next, lower[1..]))
  }

  lemma {:induction false} SplitsFit(prev: int, next: int, lower: seq<bool>)
    requires next - prev >= Pow2(|lower|)
    ensures AllInside(prev, next, lower)
    decreases |lower|
  {
    if lower != [] {
      var mid := SeqBetween(prev, next);
      if lower[0] {
        SplitsFit(prev, mid, lower[1..]);
      } else {
        SplitsFit(mid, next, lower[1..]);
      }
    }
  }

  function AlwaysLower(k: nat): (s: seq<bool>)
    ensures |s| == k
  {
    if k == 0 then [] else [true] + AlwaysLower(k - 1)
  }

  lemma {:induction false} LowerHalvesExhaust(prev: int, next: int, k: nat)
    requires k > 0 && AllInside(prev, next, AlwaysLower(k))
    ensures next - prev >= Pow2(k)
    decreases k
  {
    assert AlwaysLower(k)[1..] == AlwaysLower(k - 1);
    if k > 1 {
      LowerHalvesExhaust(prev, SeqBetween(prev, next), k - 1);
    }
  }

  /** A gap survives every sequence of k nested splits exactly when it is at least 2^k wide. */
  lemma NestedSplitsIff(prev: int, next: int, k: nat)
    requires k > 0
    ensures (forall lower: seq<bool> :: |lower| == k ==> AllInside(prev, next, lower))
            <==> next - prev >= Pow2(k)
  {
    if next - prev >= Pow2(k) {
      forall lower: seq<bool> | |lower| == k ensures AllInside(prev, next, lower) {
        SplitsFit(prev, next, lower);
      }
    } else if AllInside(prev, next, AlwaysLower(k)) {
      LowerHalvesExhaust(prev, next, k);
    }
  }

  /** The allocation step leaves room for ten nested splits, and not for eleven. */
  lemma StepAllowsTenSplits(prev: int)
    ensures forall lower: seq<bool> :: |lower| == 10 ==> AllInside(prev, prev + SEQ_STEP, lower)
    ensures exists lower: seq<bool> :: |lower| == 11 && !AllInside(prev, prev + SEQ_STEP, lower)
  {
    assert Pow2(10) == 1024 by { assert Pow2(5) == 32; }
    NestedSplitsIff(prev, prev + SEQ_STEP, 10);
    NestedSplitsIff(prev, prev + SEQ_STEP, 11);
  }

  // ---- Stubs behind a row --------------------------------------------------------------

  function Max(a: int, b: int): int {
    if a >= b then a else b
  }

  /** The successive positions the heal loop takes above `anchor`. */
  function StubSeqs(anchor: int, upper: int, n: nat): (s: seq<int>)
    ensures |s| == n
    ensures anchor < upper ==> forall i :: 0 <= i < n ==> anchor <= s[i] < upper
    ensures forall i, j :: 0 <= i < j < n ==> s[i] <= s[j]
    ensures n > 0 ==> s[0] >= anchor
    decreases n
  {
    if n == 0 then []
    else
      var a := Max(SeqBetween(anchor, upper), anchor);
      [a] + StubSeqs(a, upper, n - 1)
  }

  function UpperFor(t: Table, s: int): (u: int)
    ensures u > s
    ensures forall i :: 0 <= i < |t| ==> t[i].seqNo <= s || t[i].seqNo >= u
  {
    var above := MinAbove(t, s);
    if above.Some? then above.value else s + 2 * SEQ_STEP
  }

  ghost predicate StubBlock(s: int, upper: int, stubs: seq<Row>) {
    && (forall i :: 0 <= i < |stubs| ==> s <= stubs[i].seqNo < upper)
    && (forall i, j :: 0 <= i < j < |stubs| ==> stubs[i].seqNo <= stubs[j].seqNo)
  }

  lemma {:induction false} RankConcat(a: seq<Row>, b: seq<Row>, s: int)
    requires forall i :: 0 <= i < |a| ==> a[i].seqNo <= s
    ensures Rank(a + b, s) == |a| + Rank(b, s)
  {
    if a == [] {
      assert a + b == b;
    } else {
      RankConcat(a[1..], b, s);
      assert (a + b)[1..] == a[1..] + b;
    }
  }

  /** A row that follows a block within its gap goes right behind the block. */
  lemma StubRank(v: seq<Row>, s: int, upper: int, stubs: seq<Row>, last: Row, k: nat)
    requires k <= |v| && s <= last.seqNo < upper && forall i :: 0 <= i < |stubs| ==> stubs[i].seqNo <= last.seqNo
    requires forall i :: 0 <= i < k ==> v[i].seqNo <= s
    requires forall i :: k <= i < |v| ==> v[i].seqNo >= upper
    ensures Rank(v[..k] + stubs + v[k..], last.seqNo) == k + |stubs|
  {
    var front, back := v[..k] + stubs, v[k..];
    forall i | 0 <= i < |front| ensures front[i].seqNo <= last.seqNo {
      assert front[i] == if i < k then v[i] else stubs[i - k];
    }
    assert k < |v| ==> back[0] == v[k];
    FrontRank(front, back, last.seqNo);
  }

  lemma FrontRank(front: seq<Row>, back: seq<Row>, s: int)
    requires forall i :: 0 <= i < |front| ==> front[i].seqNo <= s
    requires back != [] ==> back[0].seqNo > s
    ensures Rank(front + back, s) == |front|
  {
    RankConcat(front, back, s);
  }

  lemma BlockGrows(v: seq<Row>, k: nat, init: seq<Row>, last: Row, w: seq<Row>)
    requires k <= |v| && w == v[..k] + init + v[k..]
    ensures w[..k + |init|] + [last] + w[k + |init|..] == v[..k] + (init + [last]) + v[k..]
  {
    assert w[..k + |init|] == v[..k] + init && w[k + |init|..] == v[k..];
    Reassociate(v[..k], init, [last]);
  }

  lemma GapRank(t: Table, s: int, upper: int)
    requires WellFormed(t) && forall i :: 0 <= i < |t| ==> t[i].seqNo <= s || t[i].seqNo >= upper
    ensures var v := View(t); var k := Rank(v, s);
            (forall i :: 0 <= i < k ==> v[i].seqNo <= s) && (forall i :: k <= i < |v| ==> v[i].seqNo >= upper)
  {
    ViewSorted(t);
    RankSplits(View(t), s);
    forall i | 0 <= i < |View(t)| ensures View(t)[i].seqNo <= s || View(t)[i].seqNo >= upper {
      InView(t, View(t)[i]);
    }
  }

  lemma PrefixWellFormed(t: Table, u: Table)
    requires WellFormed(t + u)
    ensures WellFormed(t)
    ensures u != [] ==> Below(t, u[0].id)
  {
    forall i, j | 0 <= i < j < |t| ensures t[i].id < t[j].id {
      assert (t + u)[i].id < (t + u)[j].id;
    }
    forall i | u != [] && 0 <= i < |t| ensures t[i].id < u[0].id {
      assert (t + u)[i].id < (t + u)[|t|].id;
    }
  }

  lemma SnocBlock(s: int, upper: int, init: seq<Row>, last: Row)
    requires StubBlock(s, upper, init + [last])
    ensures StubBlock(s, upper, init) && s <= last.seqNo < upper
    ensures forall i :: 0 <= i < |init| ==> init[i].seqNo <= last.seqNo
  {
    var all := init + [last];
    assert all[|init|] == last;
    forall i | 0 <= i < |init| ensures s <= init[i].seqNo < upper && init[i].seqNo <= last.seqNo {
      assert all[i] == init[i] && all[i].seqNo <= all[|init|].seqNo;
    }
    forall i, j | 0 <= i < j < |init| ensures init[i].seqNo <= init[j].seqNo {
      assert all[i].seqNo <= all[j].seqNo;
    }
  }

  /** One more row behind a block that has landed. */
  lemma StubLands(u: Table, last: Row, v: seq<Row>, s: int, upper: int, init: seq<Row>, k: nat)
    requires WellFormed(u) && Below(u, last.id) && k <= |v| && View(u) == v[..k] + init + v[k..]
    requires s <= last.seqNo < upper && forall i :: 0 <= i < |init| ==> init[i].seqNo <= last.seqNo
    requires forall i :: 0 <= i < k ==> v[i].seqNo <= s
    requires forall i :: k <= i < |v| ==> v[i].seqNo >= upper
    ensures View(u + [last]) == v[..k] + (init + [last]) + v[k..]
  {
    SavedView(u, last);
    StubRank(v, s, upper, init, last, k);
    BlockGrows(v, k, init, last, View(u));
  }

  /** Fresh rows at non-decreasing positions inside an empty gap land in a block, in order. */
  lemma {:induction false} StubsLandTogether(t: Table, s: int, upper: int, stubs: seq<Row>)
    requires WellFormed(t + stubs) && StubBlock(s, upper, stubs)
    requires forall i :: 0 <= i < |t| ==> t[i].seqNo <= s || t[i].seqNo >= upper
    ensures WellFormed(t)
    ensures var v := View(t); var k := Rank(v, s);
            View(t + stubs) == v[..k] + stubs + v[k..]
  {
    PrefixWellFormed(t, stubs);
    var v, k := View(t), Rank(View(t), s);
    if stubs == [] {
      assert t + stubs == t;
      assert v[..k] + [] + v[k..] == v;
    } else {
      var init, last := stubs[..|stubs| - 1], stubs[|stubs| - 1];
      assert stubs == init + [last];
      Reassociate(t, init, [last]);
      SnocBlock(s, upper, init, last);
      PrefixWellFormed(t + init, [last]);
      StubsLandTogether(t, s, upper, init);
      GapRank(t, s, upper);
      StubLands(t + init, last, v, s, upper, init, k);
    }
  }
}
