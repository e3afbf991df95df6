/**
 Healing makes the load-time filter unnecessary: the healed window is already well paired
 and a second heal finds nothing, exactly when every orphan sits at or after the summary.
 */
module HealSettles {
  import opened Wrappers
  import opened Transcript
  import opened Positions
  import opened ToolPairs
  import opened Window
  import opened Heal

  // ---- What the heal expects of the recorded rows --------------------------------------

  ghost predicate GoodCalls(m: Row) {
    && m.calls != []
    && (forall i :: 0 <= i < |m.calls| ==> m.calls[i].id != "")
    && (forall i, j :: 0 <= i < j < |m.calls| ==> m.calls[i].id != m.calls[j].id)
  }

  ghost predicate AnswersAt(w: seq<Row>, i: int, j: int) {
    && 0 <= i < j < |w|
    && Calls(w[i]) && w[j].role == Tool && w[j].replyTo in CallIds(w[i].calls)
    && forall k :: i < k < j ==> w[k].role == Tool
  }

  /** Call ids are non-empty and distinct; replies are distinct and sit behind their calls. */
  ghost predicate Recorded(w: seq<Row>) {
    && (forall i :: 0 <= i < |w| && Calls(w[i]) ==> GoodCalls(w[i]))
    && (forall i, j :: 0 <= i < j < |w| && Calls(w[i]) && Calls(w[j]) ==>
          CallIds(w[i].calls) !! CallIds(w[j].calls))
    && (forall j :: 0 <= j < |w| && w[j].role == Tool ==> exists i :: AnswersAt(w, i, j))
    && (forall i, j :: 0 <= i < j < |w| && w[i].role == Tool && w[j].role == Tool ==>
          w[i].replyTo != w[j].replyTo)
  }

  // ---- Pairing with gaps ---------------------------------------------------------------

  /** As `Paired`, except that calls outside `matched` may go unanswered. */
  ghost predicate PartlyPaired(w: seq<Row>, expected: set<string>, matched: set<string>) {
    if w == [] then expected !! matched
    else if w[0].role == Tool then
      && w[0].replyTo in expected && w[0].replyTo in matched
      && PartlyPaired(w[1..], expected - {w[0].replyTo}, matched)
    else
      && expected !! matched
      && if Calls(w[0]) then GoodCalls(w[0]) && PartlyPaired(w[1..], CallIds(w[0].calls), matched)
         else PartlyPaired(w[1..], {}, matched)
  }

  /** The calls still open in front of row `i`. */
  ghost function Pending(w: seq<Row>, i: nat): set<string>
    requires i <= |w|
  {
    if i == 0 then {}
    else if w[i - 1].role == Tool then Pending(w, i - 1) - {w[i - 1].replyTo}
    else if Calls(w[i - 1]) then CallIds(w[i - 1].calls)
    else {}
  }

  lemma {:induction false} RepliedIdsAre(w: seq<Row>, id: string)
    ensures id in RepliedIds(w) <==> exists j :: 0 <= j < |w| && w[j].role == Tool && w[j].replyTo == id
  {
    if w != [] {
      RepliedIdsAre(w[1..], id);
      if id in RepliedIds(w) {
        if w[0].role == Tool && w[0].replyTo == id {
        } else {
          var j :| 0 <= j < |w[1..]| && w[1..][j].role == Tool && w[1..][j].replyTo == id;
          assert w[j + 1].role == Tool && w[j + 1].replyTo == id;
        }
      }
      if j :| 0 <= j < |w| && w[j].role == Tool && w[j].replyTo == id {
        if j > 0 {
          assert w[1..][j - 1].role == Tool && w[1..][j - 1].replyTo == id;
        }
      }
    }
  }

  lemma {:induction false} CalledIdsAre(w: seq<Row>, id: string)
    ensures id in CalledIds(w) <==> exists j :: 0 <= j < |w| && Calls(w[j]) && id in CallIds(w[j].calls)
  {
    if w != [] {
      CalledIdsAre(w[1..], id);
      if id in CalledIds(w) {
        if Calls(w[0]) && id in CallIds(w[0].calls) {
        } else {
          var j :| 0 <= j < |w[1..]| && Calls(w[1..][j]) && id in CallIds(w[1..][j].calls);
          assert Calls(w[j + 1]) && id in CallIds(w[j + 1].calls);
        }
      }
      if j :| 0 <= j < |w| && Calls(w[j]) && id in CallIds(w[j].calls) {
        if j > 0 {
          assert Calls(w[1..][j - 1]) && id in CallIds(w[1..][j - 1].calls);
        }
      }
    }
  }

  /** Behind its assistant, a recorded reply is still pending when it comes. */
  lemma {:induction false} ReplyPending(w: seq<Row>, i: nat, j: nat, k: nat)
    requires Recorded(w) && AnswersAt(w, i, j) && i < k <= j
    ensures w[j].replyTo in Pending(w, k)
  {
    if k > i + 1 {
      ReplyPending(w, i, j, k - 1);
      assert w[k - 1].role == Tool;
    }
  }

  /** A call that is answered somewhere is no longer pending once its run is over. */
  lemma {:induction false} PendingAnswered(w: seq<Row>, i: nat, id: string) returns (a: nat)
    requires Recorded(w) && i <= |w| && id in Pending(w, i)
    ensures a < i && Calls(w[a]) && id in CallIds(w[a].calls)
    ensures forall k :: a < k < i ==> w[k].role == Tool && w[k].replyTo != id
  {
    if w[i - 1].role == Tool {
      a := PendingAnswered(w, i - 1, id);
    } else {
      a := i - 1;
    }
  }

  lemma CallersDiffer(w: seq<Row>, a: nat, b: nat, id: string)
    requires Recorded(w) && a < |w| && b < |w| && a != b && Calls(w[a]) && Calls(w[b]) && id in CallIds(w[b].calls)
    ensures id !in CallIds(w[a].calls)
  {
    if a < b {
      assert CallIds(w[a].calls) !! CallIds(w[b].calls);
    } else {
      assert CallIds(w[b].calls) !! CallIds(w[a].calls);
    }
  }

  /** The caller of a reply is the caller of the call it answers. */
  lemma SameCaller(w: seq<Row>, a: nat, b: int, j: int, id: string)
    requires Recorded(w) && AnswersAt(w, b, j) && w[j].replyTo == id
    requires a < |w| && Calls(w[a]) && id in CallIds(w[a].calls)
    ensures a == b
  {
    forall x: nat | x < |w| && x != b && Calls(w[x]) ensures id !in CallIds(w[x].calls) {
      CallersDiffer(w, x, b, id);
    }
  }

  /** A reply to a call comes before the call stops being pending, and settles it. */
  lemma ReplySettles(w: seq<Row>, i: nat, a: nat, j: int, id: string)
    requires Recorded(w) && i <= |w| && (i < |w| ==> w[i].role != Tool) && a < i
    requires forall k :: a < k < i ==> w[k].role == Tool && w[k].replyTo != id
    requires AnswersAt(w, a, j)
    ensures w[j].replyTo != id
  {
    assert forall k :: a < k <= j ==> w[k].role == Tool;
  }

  lemma NotBothPendingAndReplied(w: seq<Row>, i: nat, id: string)
    requires Recorded(w) && i <= |w| && (i < |w| ==> w[i].role != Tool)
    requires id in Pending(w, i)
    ensures id !in RepliedIds(w)
  {
    var a := PendingAnswered(w, i, id);
    forall j | 0 <= j < |w| && w[j].role == Tool ensures w[j].replyTo != id {
      var b :| AnswersAt(w, b, j);
      if w[j].replyTo == id {
        SameCaller(w, a, b, j, id);
        ReplySettles(w, i, a, j, id);
      }
    }
    RepliedIdsAre(w, id);
  }

  lemma RunOver(w: seq<Row>, i: nat)
    requires Recorded(w) && i <= |w| && (i < |w| ==> w[i].role != Tool)
    ensures Pending(w, i) !! RepliedIds(w)
  {
    forall id | id in Pending(w, i) ensures id !in RepliedIds(w) {
      NotBothPendingAndReplied(w, i, id);
    }
  }

  lemma {:induction false} RecordedPartly(w: seq<Row>, i: nat)
    requires Recorded(w) && i <= |w|
    ensures PartlyPaired(w[i..], Pending(w, i), RepliedIds(w))
    decreases |w| - i
  {
    if i == |w| {
      RunOver(w, i);
    } else {
      RecordedPartly(w, i + 1);
      assert w[i..][1..] == w[i + 1..];
      if w[i].role == Tool {
        var a :| AnswersAt(w, a, i);
        ReplyPending(w, a, i, i);
        RepliedIdsAre(w, w[i].replyTo);
      } else {
        RunOver(w, i);
      }
    }
  }

  // ---- The healed window ---------------------------------------------------------------

  function StubsOf(calls: seq<ToolCall>): (stubs: seq<Row>)
    ensures |stubs| == |calls|
    ensures forall i :: 0 <= i < |calls| ==> stubs[i] == Stub(0, 0, calls[i])
  {
    if calls == [] then [] else [Stub(0, 0, calls[0])] + StubsOf(calls[1..])
  }

  function Mends(m: Row, matched: set<string>, summary: Option<Row>): seq<Row> {
    if Orphaned(m, matched) && AtOrAfter(m, summary) then StubsOf(Missing(m.calls, matched)) else []
  }

  function MendOne(m: Row, matched: set<string>, summary: Option<Row>): seq<Row> {
    [m] + Mends(m, matched, summary)
  }

  /** `w` with the missing replies behind each orphan at or after the summary. */
  function Mended(w: seq<Row>, matched: set<string>, summary: Option<Row>): seq<Row> {
    if w == [] then [] else MendOne(w[0], matched, summary) + Mended(w[1..], matched, summary)
  }

  /** A row without its identity and position, which pairing does not look at. */
  function Plain(r: Row): Row {
    r.(id := 0, seqNo := 0)
  }

  function PlainAll(w: seq<Row>): (p: seq<Row>)
    ensures |p| == |w|
  {
    if w == [] then [] else [Plain(w[0])] + PlainAll(w[1..])
  }

  lemma {:induction false} PlainConcat(v: seq<Row>, w: seq<Row>)
    ensures PlainAll(v + w) == PlainAll(v) + PlainAll(w)
  {
    if v == [] {
      assert v + w == w;
    } else {
      PlainConcat(v[1..], w);
      assert (v + w)[1..] == v[1..] + w;
      Reassociate([Plain(v[0])], PlainAll(v[1..]), PlainAll(w));
    }
  }

  lemma {:induction false} PlainPaired(h: seq<Row>, expected: set<string>)
    ensures Paired(PlainAll(h), expected) == Paired(h, expected)
    ensures RepliedIds(PlainAll(h)) == RepliedIds(h) && CalledIds(PlainAll(h)) == CalledIds(h)
  {
    if h != [] {
      PlainPaired(h[1..], if h[0].role == Tool then expected - {h[0].replyTo}
                          else if Calls(h[0]) then CallIds(h[0].calls) else {});
      assert PlainAll(h)[1..] == PlainAll(h[1..]);
    }
  }

  lemma {:induction false} MissingAre(calls: seq<ToolCall>, matched: set<string>)
    ensures forall c :: c in Missing(calls, matched) <==> c in calls && c.id !in matched
    ensures (forall i, j :: 0 <= i < j < |calls| ==> calls[i].id != calls[j].id) ==>
              forall i, j :: 0 <= i < j < |Missing(calls, matched)| ==>
                Missing(calls, matched)[i].id != Missing(calls, matched)[j].id
  {
    if calls != [] {
      var tail := Missing(calls[1..], matched);
      MissingAre(calls[1..], matched);
      forall c | c in tail ensures c in calls[1..] {
      }
      if forall i, j :: 0 <= i < j < |calls| ==> calls[i].id != calls[j].id {
        forall k | 0 <= k < |tail| ensures tail[k].id != calls[0].id {
          assert tail[k] in calls[1..];
          var j :| 0 <= j < |calls[1..]| && calls[1..][j] == tail[k];
          assert calls[j + 1] == tail[k];
        }
      }
    }
  }

  function IdSet(ids: seq<string>): set<string> {
    if ids == [] then {} else {ids[0]} + IdSet(ids[1..])
  }

  /** A block of distinct replies in front settles those calls. */
  lemma {:induction false} PairedBlock(h: seq<Row>, ids: seq<string>, expected: set<string>)
    requires |ids| <= |h|
    requires forall i :: 0 <= i < |ids| ==> h[i].role == Tool && h[i].replyTo == ids[i] && ids[i] in expected
    requires forall i, j :: 0 <= i < j < |ids| ==> ids[i] != ids[j]
    requires Paired(h[|ids|..], expected - IdSet(ids))
    ensures Paired(h, expected)
  {
    if ids == [] {
      assert h[0..] == h && expected - {} == expected;
    } else {
      var rest, tail := h[1..], ids[1..];
      forall i | 0 <= i < |tail|
        ensures rest[i].role == Tool && rest[i].replyTo == tail[i] && tail[i] in expected - {ids[0]}
      {
        assert rest[i] == h[i + 1] && tail[i] == ids[i + 1];
      }
      assert rest[|tail|..] == h[|ids|..];
      assert expected - IdSet(ids) == expected - {ids[0]} - IdSet(tail);
      PairedBlock(rest, tail, expected - {ids[0]});
    }
  }

  lemma {:induction false} MissingIdSet(calls: seq<ToolCall>, ids: seq<string>)
    requires |ids| == |calls| && forall i :: 0 <= i < |ids| ==> ids[i] == calls[i].id
    ensures forall id :: id in IdSet(ids) <==> exists c :: c in calls && c.id == id
  {
    if calls != [] {
      MissingIdSet(calls[1..], ids[1..]);
      forall id | id in IdSet(ids) ensures exists c :: c in calls && c.id == id {
        if id == ids[0] {
          assert calls[0] in calls && calls[0].id == id;
        } else {
          assert id in IdSet(ids[1..]);
          var c :| c in calls[1..] && c.id == id;
          assert c in calls;
        }
      }
    }
  }

  /** Stubs in front of an assistant's recorded replies complete the pairing. */
  lemma StubsComplete(h: seq<Row>, m: Row, matched: set<string>)
    requires GoodCalls(m) && Paired(h, CallIds(m.calls) * matched)
    ensures Paired(StubsOf(Missing(m.calls, matched)) + h, CallIds(m.calls))
  {
    var missing := Missing(m.calls, matched);
    var ids := seq(|missing|, i requires 0 <= i < |missing| => missing[i].id);
    MissingAre(m.calls, matched);
    MissingIdSet(missing, ids);
    var stubs := StubsOf(missing);
    forall i | 0 <= i < |ids|
      ensures (stubs + h)[i].role == Tool && (stubs + h)[i].replyTo == ids[i] && ids[i] in CallIds(m.calls)
    {
      assert missing[i] in missing;
      assert missing[i] in m.calls;
      assert (stubs + h)[i] == stubs[i];
    }
    forall id | id in CallIds(m.calls) ensures id in IdSet(ids) <==> id !in matched {
      var c :| c in m.calls && c.id == id;
    }
    assert CallIds(m.calls) - IdSet(ids) == CallIds(m.calls) * matched;
    assert (stubs + h)[|ids|..] == h;
    PairedBlock(stubs + h, ids, CallIds(m.calls));
  }

  lemma PairedCons(m: Row, rest: seq<Row>, expected: set<string>)
    ensures Paired([m] + rest, expected)
            == if m.role == Tool then m.replyTo in expected && Paired(rest, expected - {m.replyTo})
               else if Calls(m) then expected == {} && CallIds(m.calls) != {} && Paired(rest, CallIds(m.calls))
               else expected == {} && Paired(rest, {})
  {
    assert ([m] + rest)[1..] == rest;
  }

  lemma MendedCons(w: seq<Row>, matched: set<string>, summary: Option<Row>)
    requires w != []
    ensures Mended(w, matched, summary) == [w[0]] + (Mends(w[0], matched, summary) + Mended(w[1..], matched, summary))
  {
    Reassociate([w[0]], Mends(w[0], matched, summary), Mended(w[1..], matched, summary));
  }

  lemma MendedCalls(m: Row, rest: seq<Row>, expected: set<string>, matched: set<string>, stubs: seq<Row>)
    requires Calls(m) && GoodCalls(m) && expected !! matched
    requires Paired(rest, CallIds(m.calls) * matched)
    requires stubs == if Orphaned(m, matched) then StubsOf(Missing(m.calls, matched)) else []
    ensures Paired([m] + (stubs + rest), expected * matched)
  {
    MissingAre(m.calls, matched);
    StubsComplete(rest, m, matched);
    assert stubs == StubsOf(Missing(m.calls, matched));
    assert m.calls[0].id in CallIds(m.calls);
    PairedCons(m, stubs + rest, expected * matched);
  }

  lemma {:induction false} MendedPairs(w: seq<Row>, expected: set<string>, matched: set<string>, summary: Option<Row>)
    requires PartlyPaired(w, expected, matched)
    requires forall m :: m in w && Orphaned(m, matched) ==> AtOrAfter(m, summary)
    ensures Paired(Mended(w, matched, summary), expected * matched)
  {
    if w != [] {
      var m, rest := w[0], Mended(w[1..], matched, summary);
      assert m in w && forall r :: r in w[1..] ==> r in w;
      MendedCons(w, matched, summary);
      if Calls(m) {
        MendedPairs(w[1..], CallIds(m.calls), matched, summary);
        MendedCalls(m, rest, expected, matched, Mends(m, matched, summary));
      } else {
        assert [] + rest == rest;
        PairedCons(m, rest, expected * matched);
        if m.role == Tool {
          MendedPairs(w[1..], expected - {m.replyTo}, matched, summary);
          assert (expected - {m.replyTo}) * matched == expected * matched - {m.replyTo};
        } else {
          MendedPairs(w[1..], {}, matched, summary);
          assert {} * matched == {};
        }
      }
    }
  }

  // ---- From the table to the healed window ---------------------------------------------

  /** Only user messages are ever queued. */
  ghost predicate QueuedAreUsers(t: seq<Row>) {
    forall r :: r in t && r.kind == Queued ==> r.role == User
  }

  /** Rows of `v` below the summary have it further on. */
  ghost predicate SummaryAhead(v: seq<Row>, summary: Option<Row>) {
    summary.Some? && v != [] && Before(v[0], summary.value) ==> summary.value in v
  }

  ghost predicate StubsBehind(stubs: seq<Row>, r: Row, upper: int) {
    forall i :: 0 <= i < |stubs| ==>
      && stubs[i].kind == Chat && !stubs[i].pinned && stubs[i].id > r.id
      && r.seqNo <= stubs[i].seqNo < upper
  }

  lemma StubRowsFit(next: nat, r: Row, upper: int, missing: seq<ToolCall>)
    requires r.id < next && r.seqNo < upper
    ensures var stubs := StubRows(next, r.seqNo, upper, missing);
            StubsBehind(stubs, r, upper)
  {
    StubRowsAre(next, r.seqNo, upper, missing);
  }

  lemma StubsVisible(stubs: seq<Row>, r: Row, rest: seq<Row>, summary: Option<Row>, withQueued: bool)
    requires Sorted([r] + rest) && SummaryAhead([r] + rest, summary)
    requires rest != [] ==> r.seqNo < rest[0].seqNo
    requires StubsBehind(stubs, r, UpperIn(rest, r.seqNo))
    ensures forall i :: 0 <= i < |stubs| ==> InWindow(stubs[i], summary, withQueued) == AtOrAfter(r, summary)
  {
    if summary.Some? && Before(r, summary.value) {
      var v := [r] + rest;
      var j :| 0 <= j < |v| && v[j] == summary.value;
      assert j > 0 && rest[j - 1] == summary.value;
      assert v[1] == rest[0];
      assert j > 1 ==> Before(v[1], v[j]);
    }
  }

  lemma {:induction false} FilterUniform(v: seq<Row>, p: Row -> bool, keep: bool)
    requires forall i :: 0 <= i < |v| ==> p(v[i]) == keep
    ensures Filter(v, p) == if keep then v else []
  {
    if v != [] {
      FilterUniform(v[1..], p, keep);
      assert [v[0]] + v[1..] == v;
    }
  }

  lemma SummaryAheadNext(r: Row, rest: seq<Row>, summary: Option<Row>)
    requires Sorted([r] + rest) && SummaryAhead([r] + rest, summary)
    ensures SummaryAhead(rest, summary) && Sorted(rest)
  {
    var v := [r] + rest;
    forall i, j | 0 <= i < j < |rest| ensures Before(rest[i], rest[j]) {
      assert Before(v[i + 1], v[j + 1]);
    }
    if summary.Some? && rest != [] && Before(rest[0], summary.value) {
      assert Before(v[0], v[1]);
    }
  }

  ghost function HealShown(h: seq<Row>, summary: Option<Row>, withQueued: bool): seq<Row> {
    PlainAll(Filter(h, Visible(summary, withQueued)))
  }

  ghost function MendShown(v: seq<Row>, matched: set<string>, summary: Option<Row>, withQueued: bool): seq<Row> {
    PlainAll(Mended(Filter(v, Visible(summary, withQueued)), matched, summary))
  }

  lemma HealShownConcat(a: seq<Row>, b: seq<Row>, summary: Option<Row>, withQueued: bool)
    ensures HealShown(a + b, summary, withQueued)
            == HealShown(a, summary, withQueued) + HealShown(b, summary, withQueued)
  {
    var p := Visible(summary, withQueued);
    FilterConcat(a, b, p);
    PlainConcat(Filter(a, p), Filter(b, p));
  }

  lemma MendShownCons(r: Row, rest: seq<Row>, matched: set<string>, summary: Option<Row>, withQueued: bool)
    ensures MendShown([r] + rest, matched, summary, withQueued)
            == (if InWindow(r, summary, withQueued) then PlainAll(MendOne(r, matched, summary)) else [])
               + MendShown(rest, matched, summary, withQueued)
  {
    var p := Visible(summary, withQueued);
    FilterConcat([r], rest, p);
    var tail := Filter(rest, p);
    if p(r) {
      assert Filter([r], p) == [r];
      assert ([r] + tail)[1..] == tail;
      PlainConcat(MendOne(r, matched, summary), Mended(tail, matched, summary));
    } else {
      assert Filter([r], p) == [] && [] + tail == tail;
    }
  }

  lemma {:induction false} PlainStubs(stubs: seq<Row>, next: nat, anchor: int, upper: int, missing: seq<ToolCall>)
    requires stubs == StubRows(next, anchor, upper, missing)
    ensures PlainAll(stubs) == PlainAll(StubsOf(missing))
    decreases |missing|
  {
    if missing != [] {
      PlainStubs(stubs[1..], next + 1, Max(SeqBetween(anchor, upper), anchor), upper, missing[1..]);
    }
  }

  /** One orphan in front: its stubs are shown exactly when it is at or after the summary. */
  lemma OrphanShown(r: Row, rest: seq<Row>, next: nat, summary: Option<Row>, matched: set<string>, withQueued: bool)
    requires Sorted([r] + rest) && SummaryAhead([r] + rest, summary) && (r.kind == Queued ==> r.role == User)
    requires r.id < next && (rest != [] ==> r.seqNo < rest[0].seqNo)
    requires InWindow(r, summary, true) && Orphaned(r, matched)
    ensures var stubs := StubRows(next, r.seqNo, UpperIn(rest, r.seqNo), Missing(r.calls, matched));
            HealShown([r] + stubs, summary, withQueued) == PlainAll(MendOne(r, matched, summary))
  {
    var missing, upper, p := Missing(r.calls, matched), UpperIn(rest, r.seqNo), Visible(summary, withQueued);
    var stubs := StubRows(next, r.seqNo, upper, missing);
    StubRowsFit(next, r, upper, missing);
    StubsVisible(stubs, r, rest, summary, withQueued);
    FilterUniform(stubs, p, AtOrAfter(r, summary));
    FilterConcat([r], stubs, p);
    assert Filter([r], p) == [r];
    PlainConcat([r], Filter(stubs, p));
    PlainStubs(stubs, next, r.seqNo, upper, missing);
    PlainConcat([r], StubsOf(missing));
    assert [r] + [] == [r];
  }

  function OrphanIn(summary: Option<Row>, matched: set<string>): Row -> bool {
    (r: Row) => InWindow(r, summary, true) && Orphaned(r, matched)
  }

  ghost predicate Healable(v: seq<Row>, next: nat, summary: Option<Row>, orphan: Row -> bool) {
    && Sorted(v) && Below(v, next) && SummaryAhead(v, summary) && QueuedAreUsers(v)
    && OrphansAlone(v, v, orphan)
  }

  lemma HealableNext(r: Row, rest: seq<Row>, next: nat, more: nat, summary: Option<Row>, orphan: Row -> bool)
    requires Healable([r] + rest, next, summary, orphan)
    ensures Healable(rest, next + more, summary, orphan)
    ensures r.id < next && (r.kind == Queued ==> r.role == User)
    ensures orphan(r) && rest != [] ==> r.seqNo < rest[0].seqNo
  {
    var v := [r] + rest;
    SummaryAheadNext(r, rest, summary);
    forall i | 0 <= i < |rest| ensures rest[i].id < next {
      assert v[i + 1].id < next;
    }
    assert v[0] == r && r in v;
    forall m | m in rest ensures m in v {
    }
    assert rest != [] ==> v[1] == rest[0] && rest[0] in v;
  }

  function HealHead(r: Row, rest: seq<Row>, next: nat, orphan: Row -> bool, matched: set<string>): seq<Row> {
    [r] + if orphan(r) then StubRows(next, r.seqNo, UpperIn(rest, r.seqNo), Missing(r.calls, matched)) else []
  }

  function After(r: Row, next: nat, orphan: Row -> bool, matched: set<string>): (n: nat)
    ensures n >= next
  {
    next + if orphan(r) then |Missing(r.calls, matched)| else 0
  }

  lemma HealListHead(r: Row, rest: seq<Row>, next: nat, orphan: Row -> bool, matched: set<string>)
    ensures HealList([r] + rest, next, orphan, matched)
            == HealHead(r, rest, next, orphan, matched)
                + HealList(rest, After(r, next, orphan, matched), orphan, matched)
  {
    assert ([r] + rest)[1..] == rest && [r] + [] == [r];
  }

  lemma HeadShown(r: Row, rest: seq<Row>, next: nat, summary: Option<Row>, orphan: Row -> bool,
                  matched: set<string>, withQueued: bool)
    requires Healable([r] + rest, next, summary, orphan) && orphan == OrphanIn(summary, matched)
    ensures HealShown(HealHead(r, rest, next, orphan, matched), summary, withQueued)
            == if InWindow(r, summary, withQueued) then PlainAll(MendOne(r, matched, summary)) else []
  {
    HealableNext(r, rest, next, 0, summary, orphan);
    if orphan(r) {
      OrphanShown(r, rest, next, summary, matched, withQueued);
    } else {
      assert Filter([r], Visible(summary, withQueued)) == if InWindow(r, summary, withQueued) then [r] else [];
      assert [r] + [] == [r];
    }
  }

  lemma HealListShownStep(r: Row, rest: seq<Row>, next: nat, summary: Option<Row>, orphan: Row -> bool,
                          matched: set<string>, withQueued: bool)
    requires Healable([r] + rest, next, summary, orphan) && orphan == OrphanIn(summary, matched)
    requires HealShown(HealList(rest, After(r, next, orphan, matched), orphan, matched), summary, withQueued)
             == MendShown(rest, matched, summary, withQueued)
    ensures HealShown(HealList([r] + rest, next, orphan, matched), summary, withQueued)
            == MendShown([r] + rest, matched, summary, withQueued)
  {
    var head := HealHead(r, rest, next, orphan, matched);
    var tail := HealList(rest, After(r, next, orphan, matched), orphan, matched);
    calc {
      HealShown(HealList([r] + rest, next, orphan, matched), summary, withQueued);
    == { HealListHead(r, rest, next, orphan, matched); }
      HealShown(head + tail, summary, withQueued);
    == { HealShownConcat(head, tail, summary, withQueued); }
      HealShown(head, summary, withQueued) + HealShown(tail, summary, withQueued);
    == { HeadShown(r, rest, next, summary, orphan, matched, withQueued); }
      (if InWindow(r, summary, withQueued) then PlainAll(MendOne(r, matched, summary)) else [])
      + MendShown(rest, matched, summary, withQueued);
    == { MendShownCons(r, rest, matched, summary, withQueued); }
      MendShown([r] + rest, matched, summary, withQueued);
    }
  }

  lemma HealListShownNil(v: seq<Row>, next: nat, summary: Option<Row>, orphan: Row -> bool,
                         matched: set<string>, withQueued: bool)
    requires v == []
    ensures HealShown(HealList(v, next, orphan, matched), summary, withQueued)
            == MendShown(v, matched, summary, withQueued)
  {
    assert HealList(v, next, orphan, matched) == [];
    assert Filter(v, Visible(summary, withQueued)) == [];
    assert Mended([], matched, summary) == [];
  }

  /** What is shown of the healed list is what is shown of the list, mended. */
  lemma {:induction false} HealListShown(v: seq<Row>, next: nat, summary: Option<Row>, orphan: Row -> bool,
                                         matched: set<string>, withQueued: bool)
    requires Healable(v, next, summary, orphan) && orphan == OrphanIn(summary, matched)
    ensures HealShown(HealList(v, next, orphan, matched), summary, withQueued)
            == MendShown(v, matched, summary, withQueued)
    decreases |v|
  {
    if v == [] {
      HealListShownNil(v, next, summary, orphan, matched, withQueued);
    } else {
      var r, rest := v[0], v[1..];
      assert v == [r] + rest;
      HealableNext(r, rest, next, After(r, next, orphan, matched) - next, summary, orphan);
      HealListShown(rest, After(r, next, orphan, matched), summary, orphan, matched, withQueued);
      HealListShownStep(r, rest, next, summary, orphan, matched, withQueued);
    }
  }
}
