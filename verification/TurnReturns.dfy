/**
 A turn's calls and replies, once synced, come back from a fresh load: the loaded list is
 what it was, followed by the turn's messages as they were said.
 */
module TurnReturns {
  import opened Wrappers
  import opened Text
  import opened Transcript
  import opened Positions
  import opened Window
  import opened Queue
  import opened Checkpoint
  import opened WriteBack
  import opened ToolPairs
  import opened Deserialize
  import opened HealSettles
  import opened HistoryCache
  import opened Compaction
  import opened SyncLaws

  /** New messages of a turn: assistants with something to say or to call, and tool replies. */
  ghost predicate Turn(ms: seq<Live>) {
    forall m :: m in ms ==>
      Due(m) && (m.role == Assistant || m.role == Tool) && !m.isSummary && !m.hidden && !m.excluded && m.dbId.None?
  }

  /** The messages as rows, for the pairing of calls and replies. */
  function Spelled(ms: seq<Live>): (rows: seq<Row>)
    ensures |rows| == |ms|
  {
    if ms == [] then []
    else [Row(0, 0, ms[0].role, Chat, ms[0].pinned, ms[0].content, ms[0].calls, ms[0].replyTo, None)] + Spelled(ms[1..])
  }

  // ---- Rows behind a window ------------------------------------------------------------

  lemma RecordedPlain(rows: seq<Row>, ms: seq<Live>, next: nat)
    requires Turn(ms) && AllRecorded(rows, ms, next)
    ensures forall r :: r in rows ==> r.kind == Chat && (r.role == Assistant || r.role == Tool)
  {
    forall r | r in rows ensures r.kind == Chat && (r.role == Assistant || r.role == Tool) {
      var k :| 0 <= k < |rows| && rows[k] == r;
      assert Records(rows[k], ms[k], next + k) && ms[k] in ms;
    }
  }

  lemma {:induction false} RecordedSpelled(rows: seq<Row>, ms: seq<Live>, next: nat)
    requires Turn(ms) && AllRecorded(rows, ms, next)
    ensures PlainAll(rows) == Spelled(ms)
  {
    if rows != [] {
      assert Records(rows[0], ms[0], next + 0) && ms[0] in ms;
      forall k | 0 <= k < |rows[1..]| ensures Records(rows[1..][k], ms[1..][k], next + 1 + k) {
        assert Records(rows[k + 1], ms[k + 1], next + (k + 1));
      }
      assert forall m :: m in ms[1..] ==> m in ms;
      RecordedSpelled(rows[1..], ms[1..], next + 1);
    }
  }

  /** Chat rows behind every row of a table are shown behind everything it shows. */
  lemma ShownBehind(u: Table, rows: seq<Row>)
    requires View(u + rows) == View(u) + rows && (forall r :: r in rows ==> r.kind == Chat)
    requires WellFormed(u + rows)
    ensures LlmWindow(u + rows) == LlmWindow(u) + rows
  {
    var summary := ActiveSummary(u);
    var p := Visible(summary, false);
    ActiveSummaryAppended(u, rows);
    ViewSorted(u + rows);
    FilterConcat(View(u), rows, p);
    forall r | r in rows ensures p(r) {
      if summary.Some? {
        BehindSummary(u, rows, summary.value, r);
      }
    }
    FilterAll(rows, p);
  }

  lemma BehindSummary(u: Table, rows: seq<Row>, s: Row, r: Row)
    requires View(u + rows) == View(u) + rows && Sorted(View(u + rows)) && s in u && r in rows
    ensures !Before(r, s)
  {
    InView(u, s);
    var v := View(u) + rows;
    var i :| 0 <= i < |View(u)| && View(u)[i] == s;
    var j :| 0 <= j < |rows| && rows[j] == r;
    assert v[i] == s && v[|View(u)| + j] == r && Before(v[i], v[|View(u)| + j]);
  }

  // ---- Loading in two parts ------------------------------------------------------------

  lemma {:induction false} FollowingSplit(a: seq<Row>, b: seq<Row>)
    requires b != [] && b[0].role != Tool
    ensures FollowingIds(a + b) == FollowingIds(a)
  {
    if a == [] {
      assert a + b == b;
    } else {
      FollowingSplit(a[1..], b);
      assert (a + b)[1..] == a[1..] + b;
    }
  }

  lemma OpenHead(b: seq<Row>, expected: set<string>)
    requires b != [] && b[0].role != Tool
    ensures Sanitized(b, expected) == Sanitized(b, {})
  {
  }

  lemma {:induction false} SanitizedSplit(a: seq<Row>, b: seq<Row>, expected: set<string>)
    requires b != [] && b[0].role != Tool
    ensures Sanitized(a + b, expected) == Sanitized(a, expected) + Sanitized(b, {})
  {
    if a == [] {
      assert a + b == b;
      OpenHead(b, expected);
    } else {
      var (out, next) := Kept(a[0], a[1..], expected);
      assert (a + b)[1..] == a[1..] + b;
      FollowingSplit(a[1..], b);
      SanitizedSplit(a[1..], b, next);
      Reassociate(out, Sanitized(a[1..], next), Sanitized(b, {}));
    }
  }

  lemma {:induction false} TrimmedConcat(a: seq<Row>, b: seq<Row>, parses: string -> bool)
    ensures Trimmed(a + b, parses) == Trimmed(a, parses) + Trimmed(b, parses)
  {
    if a == [] {
      assert a + b == b;
    } else {
      TrimmedConcat(a[1..], b, parses);
      assert (a + b)[1..] == a[1..] + b && (a + b)[0] == a[0];
      Reassociate([TrimOne(a[0], parses)], Trimmed(a[1..], parses), Trimmed(b, parses));
    }
  }

  function BadOf(m: Row, parses: string -> bool): set<string> {
    if Calls(m) then BadCallIds(m.calls, parses) else {}
  }

  lemma {:induction false} BadConcat(a: seq<Row>, b: seq<Row>, parses: string -> bool)
    ensures BadIds(a + b, parses) == BadIds(a, parses) + BadIds(b, parses)
  {
    if a == [] {
      assert a + b == b;
    } else {
      BadConcat(a[1..], b, parses);
      assert (a + b)[1..] == a[1..] + b && (a + b)[0] == a[0];
      assert BadIds(a, parses) == BadOf(a[0], parses) + BadIds(a[1..], parses);
    }
  }

  lemma {:induction false} WithoutConcat(a: seq<Row>, b: seq<Row>, bad: set<string>)
    ensures WithoutReplies(a + b, bad) == WithoutReplies(a, bad) + WithoutReplies(b, bad)
  {
    if a == [] {
      assert a + b == b;
    } else {
      WithoutConcat(a[1..], b, bad);
      assert (a + b)[1..] == a[1..] + b;
      Reassociate(if a[0].role == Tool && a[0].replyTo in bad then [] else [a[0]], WithoutReplies(a[1..], bad),
                  WithoutReplies(b, bad));
    }
  }

  lemma {:induction false} NoBadReplies(b: seq<Row>, bad: set<string>)
    requires forall r :: r in b && r.role == Tool ==> r.replyTo !in bad
    ensures WithoutReplies(b, bad) == b
  {
    if b != [] {
      assert b[0] in b && forall r :: r in b[1..] ==> r in b;
      NoBadReplies(b[1..], bad);
      assert [b[0]] + b[1..] == b;
    }
  }

  /** Acceptable, paired rows behind a window load as they are, behind what the window loads as. */
  lemma LoadedSplit(a: seq<Row>, b: seq<Row>, parses: string -> bool)
    requires b != [] && WellPaired(b) && Acceptable(b, parses)
    requires forall r :: r in b && r.role == Tool ==> r.replyTo !in BadIds(Filter(a, IsMessage), parses)
    ensures Deserialized(a + b, parses) == Deserialized(a, parses) + b
  {
    var m := Filter(a, IsMessage);
    var bad := BadIds(m, parses);
    FilterConcat(a, b, IsMessage);
    AcceptableUnpruned(b, parses);
    TrimmedConcat(m, b, parses);
    BadConcat(m, b, parses);
    assert bad + {} == bad;
    WithoutConcat(Trimmed(m, parses), b, bad);
    NoBadReplies(b, bad);
    SanitizedSplit(Pruned(m, parses), b, {});
    SanitizeIdentityIff(b);
  }

  // ---- The round trip ------------------------------------------------------------------

  lemma {:induction false} OldNotDue(ms: seq<Live>)
    requires forall m :: m in ms ==> !Due(m)
    ensures DueOf(ms) == []
  {
    if ms != [] {
      assert ms[0] in ms && forall m :: m in ms[1..] ==> m in ms;
      OldNotDue(ms[1..]);
    }
  }

  lemma {:induction false} TurnDue(ms: seq<Live>)
    requires Turn(ms)
    ensures DueOf(ms) == ms
  {
    if ms != [] {
      assert ms[0] in ms && forall m :: m in ms[1..] ==> m in ms;
      TurnDue(ms[1..]);
      assert [ms[0]] + ms[1..] == ms;
    }
  }

  lemma TurnAppends(ms: seq<Live>)
    requires Turn(ms)
    ensures Appends(ms)
  {
    forall i | 0 <= i < |ms|
      ensures !ms[i].seen && Stores(ms[i]) && !ms[i].isSummary && !ms[i].excluded && ms[i].dbId.None? {
      assert ms[i] in ms;
      DueTakes(ms[i]);
    }
  }

  /** The rows a sync adds for the turn close the table's list. */
  lemma TurnStored(t: Table, u: Table, next: nat, prior: seq<Live>, news: seq<Live>) returns (rows: seq<Row>)
    requires WellFormed(u) && Below(u, next) && (forall m :: m in prior ==> !Due(m)) && Turn(news)
    ensures rows == NewRows(u, next, None, prior + news, AnchoredSeqs(t, prior + news))
    ensures AllRecorded(rows, news, next) && View(u + rows) == View(u) + rows && WellFormed(u + rows)
  {
    var anchored := AnchoredSeqs(t, prior + news);
    rows := NewRows(u, next, None, prior + news, anchored);
    NewRowsRecord(u, next, None, prior + news, anchored);
    DueConcat(prior, news);
    OldNotDue(prior);
    TurnDue(news);
    assert [] + news == news;
    forall i | 0 <= i < |prior| ensures Takes(prior[i]) == 0 {
      assert prior[i] in prior;
      DueTakes(prior[i]);
    }
    SkipStored(u, next, None, prior, news, anchored);
    AnchoredConcat(t, prior, news);
    TurnAppends(news);
    AppendedAnchors(t, news);
    AppendsView(u, next, None, news, AnchoredSeqs(t, news));
    NewRowsShape(u, next, None, prior + news, anchored);
  }

  lemma TurnAcceptable(rows: seq<Row>, ms: seq<Live>, next: nat, parses: string -> bool)
    requires Turn(ms) && AllRecorded(rows, ms, next)
    requires forall m, c :: m in ms && c in m.calls ==> parses(c.arguments)
    ensures Acceptable(rows, parses)
  {
    forall r | r in rows ensures IsMessage(r) && OnlyParsed(r, parses) {
      var k :| 0 <= k < |rows| && rows[k] == r;
      assert Records(rows[k], ms[k], next + k) && ms[k] in ms;
    }
  }

  lemma TurnPaired(rows: seq<Row>, ms: seq<Live>, next: nat)
    requires Turn(ms) && AllRecorded(rows, ms, next) && WellPaired(Spelled(ms))
    ensures WellPaired(rows)
  {
    RecordedSpelled(rows, ms, next);
    PlainPaired(rows, {});
    PairedIsWellPaired(rows);
    PairedIsWellPaired(Spelled(ms));
  }

  lemma TurnReplies(rows: seq<Row>, ms: seq<Live>, next: nat, bad: set<string>)
    requires AllRecorded(rows, ms, next) && forall m :: m in ms && m.role == Tool ==> m.replyTo !in bad
    ensures forall r :: r in rows && r.role == Tool ==> r.replyTo !in bad
  {
    forall r | r in rows && r.role == Tool ensures r.replyTo !in bad {
      var k :| 0 <= k < |rows| && rows[k] == r;
      assert Records(rows[k], ms[k], next + k) && ms[k] in ms;
    }
  }

  /**
   New assistant messages and tool replies, well paired and with parseable calls, behind
   messages that are not due: once synced, a fresh load gives what it would have given
   without them, followed by each of them as it was said. No older call that fails to parse
   may share an id with one of the replies.
   */
  lemma TurnComesBack(d: Db, prior: seq<Live>, news: seq<Live>, flushed: map<nat, bool>, parses: string -> bool)
      returns (rows: seq<Row>)
    requires Sound(d) && news != [] && (forall m :: m in prior ==> !Due(m)) && Turn(news) && WellPaired(Spelled(news))
    requires forall m, c :: m in news && c in m.calls ==> parses(c.arguments)
    requires forall m :: m in news && m.role == Tool ==>
               m.replyTo !in BadIds(Filter(LlmWindow(ApplyPins(d.rows, PinUpdates(prior + news, flushed))),
                                           IsMessage), parses)
    ensures AllRecorded(rows, news, d.nextId)
    ensures Load(Synced(d, prior + news, flushed), None, parses).0
            == Messages(LlmWindow(ApplyPins(d.rows, PinUpdates(prior + news, flushed))), parses) + rows
  {
    var pins := PinUpdates(prior + news, flushed);
    var u := ApplyPins(d.rows, pins);
    PinsKeepShape(d.rows, pins, d.nextId);
    rows := TurnStored(d.rows, u, d.nextId, prior, news);
    RecordedPlain(rows, news, d.nextId);
    ShownBehind(u, rows);
    TurnAcceptable(rows, news, d.nextId, parses);
    TurnPaired(rows, news, d.nextId);
    TurnReplies(rows, news, d.nextId, BadIds(Filter(LlmWindow(u), IsMessage), parses));
    LoadedSplit(LlmWindow(u), rows, parses);
    assert Synced(d, prior + news, flushed).rows == u + rows;
  }
}
