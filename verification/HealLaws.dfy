/**
 What a heal writes, on the rows' own fields: whose calls it answers, and with what.
 */
module HealLaws {
  import opened Wrappers
  import opened Transcript
  import opened Positions
  import opened ToolPairs
  import opened Window
  import opened Heal

  /** No tool row of the window answers the call; a call without an id is never answered. */
  ghost predicate Unanswered(c: ToolCall, w: seq<Row>) {
    c.id == "" || forall r :: r in w && r.role == Tool ==> r.replyTo != c.id
  }

  ghost predicate Named(w: seq<Row>) {
    exists r, c :: r in w && r.role == Assistant && c in r.calls && c.id != ""
  }

  lemma {:induction false} RepliedAre(w: seq<Row>, id: string)
    ensures id in RepliedIds(w) <==> exists r :: r in w && r.role == Tool && r.replyTo == id
  {
    if w != [] {
      RepliedAre(w[1..], id);
      assert w == [w[0]] + w[1..] && w[0] in w;
    }
  }

  lemma {:induction false} CalledAre(w: seq<Row>, id: string)
    ensures id in CalledIds(w)
            <==> id != "" && exists r, c :: r in w && r.role == Assistant && c in r.calls && c.id == id
  {
    if w != [] {
      CalledAre(w[1..], id);
      assert w == [w[0]] + w[1..] && w[0] in w;
      if id != "" && (exists r, c :: r in w && r.role == Assistant && c in r.calls && c.id == id) {
        var r, c :| r in w && r.role == Assistant && c in r.calls && c.id == id;
        assert r == w[0] ==> Calls(w[0]) && id in CallIds(w[0].calls);
      }
    }
  }

  lemma {:induction false} MissingMeans(calls: seq<ToolCall>, matched: set<string>)
    ensures forall c :: c in Missing(calls, matched) <==> c in calls && c.id !in matched
  {
    if calls != [] {
      MissingMeans(calls[1..], matched);
      assert calls == [calls[0]] + calls[1..];
    }
  }

  lemma MissingIs(w: seq<Row>, r: Row, c: ToolCall)
    requires r in w && r.role == Assistant
    ensures c in Missing(r.calls, Matched(w)) <==> c in r.calls && Unanswered(c, w)
  {
    MissingMeans(r.calls, Matched(w));
    if c in r.calls {
      RepliedAre(w, c.id);
      CalledAre(w, c.id);
    }
  }

  lemma NobodyNamed(w: seq<Row>)
    ensures CalledIds(w) == {} <==> !Named(w)
  {
    if r, c :| r in w && r.role == Assistant && c in r.calls && c.id != "" {
      CalledAre(w, c.id);
    } else {
      forall id | id in CalledIds(w) ensures false {
        CalledAre(w, id);
      }
    }
  }

  /**
   A row is healed exactly when it is an assistant row of the window with an unanswered call,
   and some call in the window carries an id.
   */
  lemma HealedAre(w: seq<Row>, r: Row)
    ensures r in ToHeal(w)
            <==> r in w && r.role == Assistant && Named(w) && exists c :: c in r.calls && Unanswered(c, w)
  {
    var test := (r: Row) => Orphaned(r, Matched(w));
    NobodyNamed(w);
    FilterMembers(w, test);
    if r in w && r.role == Assistant {
      forall c ensures c in Missing(r.calls, Matched(w)) <==> c in r.calls && Unanswered(c, w) {
        MissingIs(w, r, c);
      }
      SomeMember(Missing(r.calls, Matched(w)));
    }
  }

  lemma SomeMember<T>(s: seq<T>)
    ensures s != [] <==> exists x :: x in s
  {
    if s != [] {
      assert s[0] in s;
    }
  }

  /**
   The replies written for one row: one for each unanswered call, in the calls' order, saying
   that the call was interrupted; plain chat rows, neither pinned nor attached.
   */
  lemma StubsSay(t: Table, next: nat, r: Row, matched: set<string>)
    ensures var stubs, missing := StubsFor(t, next, r, matched), Missing(r.calls, matched);
            |stubs| == |missing| && forall i :: 0 <= i < |stubs| ==>
              stubs[i] == Row(next + i, stubs[i].seqNo, Tool, Chat, false,
                              "Tool execution was interrupted before a result could be recorded.", [],
                              missing[i].id, None)
  {
    StubRowsAre(next, r.seqNo, UpperFor(t, r.seqNo), Missing(r.calls, matched));
  }

  /** The next position of a row that follows row `prev` within the gap below `upper`. */
  ghost predicate Halves(prev: int, upper: int, s: int) {
    if upper - prev < 2 then s == prev else 2 * (s - prev) <= upper - prev <= 2 * (s - prev) + 1
  }

  lemma {:induction false} StubHalves(next: nat, anchor: int, upper: int, missing: seq<ToolCall>, i: nat)
    requires i < |missing| && anchor < upper
    ensures var stubs := StubRows(next, anchor, upper, missing);
            Halves(if i == 0 then anchor else stubs[i - 1].seqNo, upper, stubs[i].seqNo) && stubs[i].seqNo < upper
    decreases i
  {
    var a := Max(SeqBetween(anchor, upper), anchor);
    if i > 0 {
      StubHalves(next + 1, a, upper, missing[1..], i - 1);
    }
  }

  /**
   Each reply halves what is left of the gap between the row and the next higher position, or
   a gap of two steps behind the last row.
   */
  lemma StubPositions(t: Table, next: nat, r: Row, matched: set<string>, upper: int, i: nat)
    requires i < |Missing(r.calls, matched)|
    requires if forall k :: 0 <= k < |t| ==> t[k].seqNo <= r.seqNo then upper == r.seqNo + 2048
             else upper > r.seqNo && (exists k :: 0 <= k < |t| && t[k].seqNo == upper)
                  && forall k :: 0 <= k < |t| ==> t[k].seqNo <= r.seqNo || t[k].seqNo >= upper
    ensures var stubs := StubsFor(t, next, r, matched);
            Halves(if i == 0 then r.seqNo else stubs[i - 1].seqNo, upper, stubs[i].seqNo) && stubs[i].seqNo < upper
  {
    UpperIs(t, r.seqNo, upper);
    StubHalves(next, r.seqNo, upper, Missing(r.calls, matched), i);
  }

  lemma UpperIs(t: Table, s: int, upper: int)
    requires if forall k :: 0 <= k < |t| ==> t[k].seqNo <= s then upper == s + 2048
             else upper > s && (exists k :: 0 <= k < |t| && t[k].seqNo == upper)
                  && forall k :: 0 <= k < |t| ==> t[k].seqNo <= s || t[k].seqNo >= upper
    ensures UpperFor(t, s) == upper
  {
    if !(forall k :: 0 <= k < |t| ==> t[k].seqNo <= s) {
      var m := MinAbove(t, s).value;
      var i :| 0 <= i < |t| && t[i].seqNo == upper;
      var j :| 0 <= j < |t| && t[j].seqNo == m;
    }
  }
}
