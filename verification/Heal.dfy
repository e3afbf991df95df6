/**
 Repairing interrupted turns: every call in the window without a recorded reply gets a
 stub reply, placed directly behind its assistant row.
 */
module Heal {
  import opened Wrappers
  import opened Transcript
  import opened Positions
  import opened ToolPairs
  import opened Window

  const INTERRUPTED := "Tool execution was interrupted before a result could be recorded."

  // ---- Which calls are missing ---------------------------------------------------------

  function CalledIds(w: seq<Row>): set<string> {
    if w == [] then {}
    else (if Calls(w[0]) then CallIds(w[0].calls) else {}) + CalledIds(w[1..])
  }

  function RepliedIds(w: seq<Row>): set<string> {
    if w == [] then {}
    else (if w[0].role == Tool then {w[0].replyTo} else {}) + RepliedIds(w[1..])
  }

  function Missing(calls: seq<ToolCall>, matched: set<string>): seq<ToolCall> {
    if calls == [] then []
    else (if calls[0].id in matched then [] else [calls[0]]) + Missing(calls[1..], matched)
  }

  predicate Orphaned(r: Row, matched: set<string>) {
    Calls(r) && Missing(r.calls, matched) != []
  }

  function Orphans(w: seq<Row>, matched: set<string>): seq<Row> {
    Filter(w, (r: Row) => Orphaned(r, matched))
  }

  /** The replies the window holds for its own calls. */
  function Matched(w: seq<Row>): set<string> {
    RepliedIds(w) * CalledIds(w)
  }

  /** Nothing is healed when no call in the window carries an id. */
  function ToHeal(w: seq<Row>): seq<Row> {
    if CalledIds(w) == {} then [] else Orphans(w, Matched(w))
  }

  // ---- Writing the stubs ---------------------------------------------------------------

  function Stub(id: nat, seqNo: int, call: ToolCall): Row {
    Row(id, seqNo, Tool, Chat, false, INTERRUPTED, [], call.id, None)
  }

  function StubRows(next: nat, anchor: int, upper: int, missing: seq<ToolCall>): (stubs: seq<Row>)
    ensures |stubs| == |missing|
    decreases |missing|
  {
    if missing == [] then []
    else
      var a := Max(SeqBetween(anchor, upper), anchor);
      [Stub(next, a, missing[0])] + StubRows(next + 1, a, upper, missing[1..])
  }

  lemma {:induction false} StubRowsAre(next: nat, anchor: int, upper: int, missing: seq<ToolCall>)
    ensures forall i :: 0 <= i < |missing| ==>
              StubRows(next, anchor, upper, missing)[i]
              == Stub(next + i, StubSeqs(anchor, upper, |missing|)[i], missing[i])
    decreases |missing|
  {
    if missing != [] {
      StubRowsAre(next + 1, Max(SeqBetween(anchor, upper), anchor), upper, missing[1..]);
    }
  }

  function StubsFor(t: Table, next: nat, r: Row, matched: set<string>): seq<Row> {
    StubRows(next, r.seqNo, UpperFor(t, r.seqNo), Missing(r.calls, matched))
  }

  function HealRows(t: Table, next: nat, orphans: seq<Row>, matched: set<string>): (Table, nat)
    decreases |orphans|
  {
    if orphans == [] then (t, next)
    else
      var stubs := StubsFor(t, next, orphans[0], matched);
      HealRows(t + stubs, next + |stubs|, orphans[1..], matched)
  }

  function Healed(t: Table, next: nat): (Table, nat) {
    var w := WindowRows(t, true);
    HealRows(t, next, ToHeal(w), Matched(w))
  }

  // ---- The same edit on the plain list -------------------------------------------------

  function UpperIn(rest: seq<Row>, s: int): int {
    if rest == [] then s + 2 * SEQ_STEP else rest[0].seqNo
  }

  /** Each orphan is followed by its stubs; nothing else moves. */
  function HealList(v: seq<Row>, next: nat, orphan: Row -> bool, matched: set<string>): seq<Row> {
    if v == [] then []
    else if orphan(v[0]) then
      var stubs := StubRows(next, v[0].seqNo, UpperIn(v[1..], v[0].seqNo), Missing(v[0].calls, matched));
      [v[0]] + stubs + HealList(v[1..], next + |stubs|, orphan, matched)
    else
      [v[0]] + HealList(v[1..], next, orphan, matched)
  }

  /** No row of `t` shares the position of an orphan in `rest`. */
  ghost predicate OrphansAlone(rest: seq<Row>, t: seq<Row>, orphan: Row -> bool) {
    forall a, b :: a in rest && b in t && orphan(a) && a.seqNo == b.seqNo ==> a == b
  }

  lemma StubRowsBlock(t: Table, next: nat, anchor: int, upper: int, missing: seq<ToolCall>)
    requires WellFormed(t) && Below(t, next) && anchor < upper
    ensures StubBlock(anchor, upper, StubRows(next, anchor, upper, missing))
    ensures var stubs := StubRows(next, anchor, upper, missing);
            WellFormed(t + stubs) && Below(t + stubs, next + |stubs|)
  {
    StubRowsAre(next, anchor, upper, missing);
  }

  lemma UpperAgrees(t: Table, done: seq<Row>, r: Row, rest: seq<Row>)
    requires WellFormed(t) && View(t) == done + [r] + rest
    requires forall b :: b in t && b.seqNo == r.seqNo ==> b == r
    ensures UpperFor(t, r.seqNo) == UpperIn(rest, r.seqNo)
    ensures Rank(View(t), r.seqNo) == |done| + 1
  {
    ViewSorted(t);
    var v := View(t);
    assert v[|done|] == r;
    forall i | 0 <= i < |done| ensures v[i].seqNo <= r.seqNo {
      assert Before(v[i], v[|done|]);
    }
    forall i | |done| < i < |v| ensures v[i].seqNo > r.seqNo {
      InView(t, v[i]);
      assert Before(v[|done|], v[i]);
    }
    RankIs(v, r.seqNo, |done| + 1);
    if rest == [] {
      forall i | 0 <= i < |t| ensures t[i].seqNo <= r.seqNo {
        InView(t, t[i]);
      }
    } else {
      assert v[|done| + 1] == rest[0];
      InView(t, rest[0]);
      forall i | 0 <= i < |t| ensures t[i].seqNo <= r.seqNo || t[i].seqNo >= rest[0].seqNo {
        InView(t, t[i]);
        var j :| 0 <= j < |v| && v[j] == t[i];
        if j > |done| + 1 {
          assert Before(v[|done| + 1], v[j]);
        }
      }
    }
  }

  lemma HealOne(t: Table, next: nat, done: seq<Row>, r: Row, tail: seq<Row>,
                orphan: Row -> bool, matched: set<string>)
    requires WellFormed(t) && Below(t, next) && View(t) == done + [r] + tail && orphan(r)
    requires OrphansAlone([r] + tail, t, orphan)
    ensures var stubs := StubsFor(t, next, r, matched);
            && stubs == StubRows(next, r.seqNo, UpperIn(tail, r.seqNo), Missing(r.calls, matched))
            && WellFormed(t + stubs) && Below(t + stubs, next + |stubs|)
            && View(t + stubs) == done + [r] + stubs + tail
            && OrphansAlone(tail, t + stubs, orphan)
  {
    var stubs, upper := StubsFor(t, next, r, matched), UpperFor(t, r.seqNo);
    assert r in [r] + tail;
    UpperAgrees(t, done, r, tail);
    StubRowsBlock(t, next, r.seqNo, upper, Missing(r.calls, matched));
    StubsLandTogether(t, r.seqNo, upper, stubs);
    var v, k := View(t), |done| + 1;
    assert v[..k] == done + [r] && v[k..] == tail;
    ViewSorted(t);
    forall j | 0 <= j < |tail| ensures tail[j].seqNo >= upper {
      assert v[k + j] == tail[j];
    }
    forall a, b | a in tail && b in t + stubs && orphan(a) && a.seqNo == b.seqNo ensures a == b {
      assert a in [r] + tail && a.seqNo >= upper;
      assert b !in stubs;
    }
  }

  lemma HealListSkip(done: seq<Row>, rest: seq<Row>, next: nat, orphan: Row -> bool, matched: set<string>)
    requires rest != [] && !orphan(rest[0])
    ensures done + [rest[0]] + HealList(rest[1..], next, orphan, matched)
            == done + HealList(rest, next, orphan, matched)
    ensures Filter(rest, orphan) == Filter(rest[1..], orphan)
  {
    Reassociate(done, [rest[0]], HealList(rest[1..], next, orphan, matched));
  }

  lemma HealListStep(done: seq<Row>, rest: seq<Row>, next: nat, orphan: Row -> bool, matched: set<string>,
                     stubs: seq<Row>)
    requires rest != [] && orphan(rest[0])
    requires stubs == StubRows(next, rest[0].seqNo, UpperIn(rest[1..], rest[0].seqNo), Missing(rest[0].calls, matched))
    ensures done + [rest[0]] + stubs + HealList(rest[1..], next + |stubs|, orphan, matched)
            == done + HealList(rest, next, orphan, matched)
    ensures Filter(rest, orphan) == [rest[0]] + Filter(rest[1..], orphan)
  {
    var more := HealList(rest[1..], next + |stubs|, orphan, matched);
    Reassociate(done + [rest[0]], stubs, more);
    Reassociate(done, [rest[0]], stubs + more);
    Reassociate([rest[0]], stubs, more);
  }

  ghost predicate HealedTo(h: (Table, nat), v: seq<Row>) {
    WellFormed(h.0) && Below(h.0, h.1) && View(h.0) == v
  }

  lemma HealRowsSkip(t: Table, next: nat, done: seq<Row>, rest: seq<Row>, orphan: Row -> bool, matched: set<string>)
    requires rest != [] && !orphan(rest[0])
    requires HealedTo(HealRows(t, next, Filter(rest[1..], orphan), matched),
                      done + [rest[0]] + HealList(rest[1..], next, orphan, matched))
    ensures HealedTo(HealRows(t, next, Filter(rest, orphan), matched), done + HealList(rest, next, orphan, matched))
  {
    HealListSkip(done, rest, next, orphan, matched);
  }

  lemma HealRowsStub(t: Table, next: nat, done: seq<Row>, rest: seq<Row>, orphan: Row -> bool, matched: set<string>,
                     stubs: seq<Row>, h: (Table, nat), w: seq<Row>)
    requires rest != [] && orphan(rest[0]) && stubs == StubsFor(t, next, rest[0], matched)
    requires stubs == StubRows(next, rest[0].seqNo, UpperIn(rest[1..], rest[0].seqNo), Missing(rest[0].calls, matched))
    requires h == HealRows(t + stubs, next + |stubs|, Filter(rest[1..], orphan), matched)
    requires w == done + [rest[0]] + stubs + HealList(rest[1..], next + |stubs|, orphan, matched)
    ensures HealRows(t, next, Filter(rest, orphan), matched) == h && done + HealList(rest, next, orphan, matched) == w
  {
    HealListStep(done, rest, next, orphan, matched, stubs);
    assert Filter(rest, orphan)[1..] == Filter(rest[1..], orphan);
    HealRowsHead(t, next, Filter(rest, orphan), matched, stubs);
  }

  lemma HealRowsHead(t: Table, next: nat, orphans: seq<Row>, matched: set<string>, stubs: seq<Row>)
    requires orphans != [] && stubs == StubsFor(t, next, orphans[0], matched)
    ensures HealRows(t, next, orphans, matched) == HealRows(t + stubs, next + |stubs|, orphans[1..], matched)
  {
  }

  lemma Unfold(done: seq<Row>, rest: seq<Row>)
    requires rest != []
    ensures rest == [rest[0]] + rest[1..] && done + rest == done + [rest[0]] + rest[1..]
  {
  }

  lemma {:induction false} HealRowsView(t: Table, next: nat, done: seq<Row>, rest: seq<Row>,
                                        orphan: Row -> bool, matched: set<string>)
    requires HealedTo((t, next), done + rest) && OrphansAlone(rest, t, orphan)
    ensures HealedTo(HealRows(t, next, Filter(rest, orphan), matched), done + HealList(rest, next, orphan, matched))
    decreases |rest|
  {
    if rest != [] {
      Unfold(done, rest);
      var r, tail := rest[0], rest[1..];
      if !orphan(r) {
        OrphansAloneTail(rest, t, orphan);
        HealRowsView(t, next, done + [r], tail, orphan, matched);
        HealRowsSkip(t, next, done, rest, orphan, matched);
      } else {
        HealOne(t, next, done, r, tail, orphan, matched);
        var stubs := StubsFor(t, next, r, matched);
        HealRowsView(t + stubs, next + |stubs|, done + [r] + stubs, tail, orphan, matched);
        HealRowsStub(t, next, done, rest, orphan, matched, stubs,
                     HealRows(t + stubs, next + |stubs|, Filter(tail, orphan), matched),
                     done + [r] + stubs + HealList(tail, next + |stubs|, orphan, matched));
      }
    }
  }

  lemma OrphansAloneTail(rest: seq<Row>, t: Table, orphan: Row -> bool)
    requires rest != [] && OrphansAlone(rest, t, orphan)
    ensures OrphansAlone(rest[1..], t, orphan)
  {
  }

  // ---- What is appended ----------------------------------------------------------------

  /** The rows a heal appends. */
  function AddedRows(t: Table, next: nat, orphans: seq<Row>, matched: set<string>): seq<Row>
    decreases |orphans|
  {
    if orphans == [] then []
    else
      var stubs := StubsFor(t, next, orphans[0], matched);
      stubs + AddedRows(t + stubs, next + |stubs|, orphans[1..], matched)
  }

  lemma {:induction false} HealAppends(t: Table, next: nat, orphans: seq<Row>, matched: set<string>)
    requires WellFormed(t) && Below(t, next)
    ensures HealRows(t, next, orphans, matched).0 == t + AddedRows(t, next, orphans, matched)
    ensures WellFormed(t + AddedRows(t, next, orphans, matched))
    decreases |orphans|
  {
    if orphans == [] {
      assert t + [] == t;
    } else {
      var stubs := StubsFor(t, next, orphans[0], matched);
      StubRowsBlock(t, next, orphans[0].seqNo, UpperFor(t, orphans[0].seqNo), Missing(orphans[0].calls, matched));
      HealAppends(t + stubs, next + |stubs|, orphans[1..], matched);
      Reassociate(t, stubs, AddedRows(t + stubs, next + |stubs|, orphans[1..], matched));
    }
  }

  lemma {:induction false} HealedBelow(t: Table, next: nat, orphans: seq<Row>, matched: set<string>)
    requires WellFormed(t) && Below(t, next)
    ensures Below(HealRows(t, next, orphans, matched).0, HealRows(t, next, orphans, matched).1)
    decreases |orphans|
  {
    if orphans != [] {
      var stubs := StubsFor(t, next, orphans[0], matched);
      StubRowsBlock(t, next, orphans[0].seqNo, UpperFor(t, orphans[0].seqNo), Missing(orphans[0].calls, matched));
      HealRowsHead(t, next, orphans, matched, stubs);
      HealedBelow(t + stubs, next + |stubs|, orphans[1..], matched);
    }
  }

  lemma {:induction false} AddedChat(t: Table, next: nat, orphans: seq<Row>, matched: set<string>, x: Row)
    requires x in AddedRows(t, next, orphans, matched)
    ensures x.kind == Chat && x.role == Tool
    decreases |orphans|
  {
    var stubs := StubsFor(t, next, orphans[0], matched);
    if x in stubs {
      StubRowsAre(next, orphans[0].seqNo, UpperFor(t, orphans[0].seqNo), Missing(orphans[0].calls, matched));
    } else {
      AddedChat(t + stubs, next + |stubs|, orphans[1..], matched, x);
    }
  }

  // ---- With ties -----------------------------------------------------------------------

  /** The position above the tie block that ends at index `k`. */
  function UpperAt(v: seq<Row>, k: nat, s: int): int
    requires k <= |v|
  {
    if k == |v| then s + 2 * SEQ_STEP else v[k].seqNo
  }

  /** Each orphan in turn has its stubs put, as one block, right behind the rows at its position or lower. */
  function HealBlocks(v: seq<Row>, next: nat, orphans: seq<Row>, matched: set<string>): seq<Row>
    decreases |orphans|
  {
    if orphans == [] then v
    else
      var s := orphans[0].seqNo;
      var k := Rank(v, s);
      var stubs := StubRows(next, s, UpperAt(v, k, s), Missing(orphans[0].calls, matched));
      HealBlocks(v[..k] + stubs + v[k..], next + |stubs|, orphans[1..], matched)
  }

  /** A row lies at the tie block's position or lower, or not below the row that follows the block. */
  lemma BesideBlock(v: seq<Row>, k: nat, s: int, r: Row)
    requires Sorted(v) && k == Rank(v, s) && r in v
    ensures r.seqNo <= s || (k < |v| && r.seqNo >= v[k].seqNo)
  {
    RankSplits(v, s);
    var j :| 0 <= j < |v| && v[j] == r;
    assert k < j ==> Before(v[k], v[j]);
  }

  lemma UpperIsAt(t: Table, s: int)
    requires WellFormed(t)
    ensures UpperFor(t, s) == UpperAt(View(t), Rank(View(t), s), s)
  {
    var v, k := View(t), Rank(View(t), s);
    ViewSorted(t);
    forall i | 0 <= i < |t| ensures t[i].seqNo <= s || (k < |v| && t[i].seqNo >= v[k].seqNo) {
      InView(t, t[i]);
      BesideBlock(v, k, s, t[i]);
    }
    if k < |v| {
      RankSplits(v, s);
      InView(t, v[k]);
    }
  }

  lemma BlocksStep(v: seq<Row>, next: nat, orphans: seq<Row>, matched: set<string>, k: nat, stubs: seq<Row>,
                   w: seq<Row>)
    requires orphans != [] && k == Rank(v, orphans[0].seqNo)
    requires stubs == StubRows(next, orphans[0].seqNo, UpperAt(v, k, orphans[0].seqNo),
                               Missing(orphans[0].calls, matched))
    requires w == v[..k] + stubs + v[k..]
    ensures HealBlocks(v, next, orphans, matched) == HealBlocks(w, next + |stubs|, orphans[1..], matched)
  {
  }

  /** On the sorted list a heal is that edit, whatever rows share a position. */
  lemma {:induction false} HealRowsBlocks(t: Table, next: nat, orphans: seq<Row>, matched: set<string>)
    requires WellFormed(t) && Below(t, next)
    ensures View(HealRows(t, next, orphans, matched).0) == HealBlocks(View(t), next, orphans, matched)
    decreases |orphans|
  {
    if orphans != [] {
      var r, stubs := orphans[0], StubsFor(t, next, orphans[0], matched);
      UpperIsAt(t, r.seqNo);
      StubRowsBlock(t, next, r.seqNo, UpperFor(t, r.seqNo), Missing(r.calls, matched));
      StubsLandTogether(t, r.seqNo, UpperFor(t, r.seqNo), stubs);
      HealRowsHead(t, next, orphans, matched, stubs);
      BlocksStep(View(t), next, orphans, matched, Rank(View(t), r.seqNo), stubs, View(t + stubs));
      HealRowsBlocks(t + stubs, next + |stubs|, orphans[1..], matched);
    }
  }
}
