/**
 Turning stored rows into the messages a provider accepts: unparseable tool calls are
 dropped, and every kept call is answered directly behind its assistant message.

 A runtime message carries its row's fields, so both are values of `Row`.
 */
module ToolPairs {
  import opened Transcript

  // ---- Call and reply ids --------------------------------------------------------------

  function CallIds(calls: seq<ToolCall>): set<string> {
    set c | c in calls && c.id != "" :: c.id
  }

  /** The tool messages that open `ms`. */
  function RunOf(ms: seq<Row>): (run: seq<Row>)
    ensures run <= ms && forall r :: r in run ==> r.role == Tool
    ensures |run| < |ms| ==> ms[|run|].role != Tool
  {
    if ms == [] || ms[0].role != Tool then [] else [ms[0]] + RunOf(ms[1..])
  }

  /** The calls answered by the tool messages that open `ms`. */
  function FollowingIds(ms: seq<Row>): set<string> {
    if ms == [] || ms[0].role != Tool then {}
    else (if ms[0].replyTo != "" then {ms[0].replyTo} else {}) + FollowingIds(ms[1..])
  }

  // ---- What a provider accepts ---------------------------------------------------------

  predicate Calls(m: Row) {
    m.role == Assistant && m.calls != []
  }

  predicate TakesReplies(m: Row) {
    m.role == Tool || Calls(m)
  }

  /** The replies in `run` answer each expected call exactly once, and nothing else. */
  ghost predicate Covers(run: seq<Row>, expected: set<string>) {
    && (forall i :: 0 <= i < |run| ==> run[i].replyTo in expected)
    && (forall i, j :: 0 <= i < j < |run| ==> run[i].replyTo != run[j].replyTo)
    && (forall id :: id in expected ==> exists i :: 0 <= i < |run| && run[i].replyTo == id)
  }

  /**
   Every calling assistant is answered by the run right behind it, and every tool message
   is in such a run. With `open`, `ms` itself follows a calling assistant.
   */
  ghost predicate PairedBehind(ms: seq<Row>, open: bool) {
    && (forall i :: 0 <= i < |ms| && Calls(ms[i]) ==>
          CallIds(ms[i].calls) != {} && Covers(RunOf(ms[i + 1..]), CallIds(ms[i].calls)))
    && (ms != [] && ms[0].role == Tool ==> open)
    && (forall i :: 0 < i < |ms| && ms[i].role == Tool ==> TakesReplies(ms[i - 1]))
  }

  ghost predicate WellPaired(ms: seq<Row>) {
    PairedBehind(ms, false)
  }

  // ---- The filter ----------------------------------------------------------------------

  /** What one message adds to the result, and which calls must be answered behind it. */
  function Kept(m: Row, rest: seq<Row>, expected: set<string>): (seq<Row>, set<string>) {
    match m.role
    case Assistant =>
      if m.calls == [] then ([m], {})
      else if CallIds(m.calls) != {} && CallIds(m.calls) <= FollowingIds(rest) then
        ([m], CallIds(m.calls))
      else
        (if m.content != "" then [m.(calls := [])] else [], {})
    case Tool =>
      if m.replyTo != "" && m.replyTo in expected then ([m], expected - {m.replyTo})
      else ([], expected)
    case _ => ([m], {})
  }

  function Sanitized(ms: seq<Row>, expected: set<string>): seq<Row> {
    if ms == [] then []
    else
      var (out, next) := Kept(ms[0], ms[1..], expected);
      out + Sanitized(ms[1..], next)
  }

  lemma SanitizeStep(before: seq<Row>, ms: seq<Row>, expected: set<string>, out: seq<Row>, result: seq<Row>,
                     next: set<string>)
    requires ms != [] && Kept(ms[0], ms[1..], expected) == (out, next) && result == before + out
    ensures result + Sanitized(ms[1..], next) == before + Sanitized(ms, expected)
  {
    var tail := Sanitized(ms[1..], next);
    assert before + (out + tail) == before + out + tail;
  }

  method FollowingReplies(messages: seq<Row>, start: nat) returns (ids: set<string>)
    requires start <= |messages|
    ensures ids == FollowingIds(messages[start..])
  {
    ids := {};
    var next := start;
    while next < |messages|
      invariant start <= next <= |messages|
      invariant ids + FollowingIds(messages[next..]) == FollowingIds(messages[start..])
    {
      var m := messages[next];
      if m.role != Tool {
        break;
      }
      assert messages[next..][1..] == messages[next + 1..];
      if m.replyTo != "" {
        ids := ids + {m.replyTo};
      }
      next := next + 1;
    }
  }

  method SanitizeToolMessagePairs(messages: seq<Row>) returns (result: seq<Row>)
    ensures result == Sanitized(messages, {})
  {
    result := [];
    var expected: set<string> := {};
    for idx := 0 to |messages|
      invariant result + Sanitized(messages[idx..], expected) == Sanitized(messages, {})
    {
      var m := messages[idx];
      ghost var ms, before := messages[idx..], result;
      ghost var wanted, out: seq<Row> := expected, [];
      assert ms[0] == m && ms[1..] == messages[idx + 1..];
      if m.role == Assistant {
        expected := {};
        if m.calls == [] {
          result, out := result + [m], [m];
        } else {
          var ids := CallIds(m.calls);
          var following := FollowingReplies(messages, idx + 1);
          var missing := ids - following;
          assert missing == {} <==> ids <= following;
          if ids != {} && missing == {} {
            expected := ids;
            result, out := result + [m], [m];
          } else {
            var stripped := m.(calls := []);
            if stripped.content != "" {
              result, out := result + [stripped], [stripped];
            }
          }
        }
      } else if m.role == Tool {
        if m.replyTo != "" && m.replyTo in expected {
          result, out := result + [m], [m];
          expected := expected - {m.replyTo};
        }
      } else {
        expected := {};
        result, out := result + [m], [m];
      }
      assert Kept(m, ms[1..], wanted) == (out, expected);
      SanitizeStep(before, ms, wanted, out, result, expected);
    }
  }

  // ---- Reading pairing left to right ---------------------------------------------------

  /** `ms` is well paired given that `expected` still has to be answered right away. */
  ghost predicate Paired(ms: seq<Row>, expected: set<string>) {
    if ms == [] then expected == {}
    else if ms[0].role == Tool then
      && ms[0].replyTo in expected
      && Paired(ms[1..], expected - {ms[0].replyTo})
    else
      && expected == {}
      && if Calls(ms[0]) then
           CallIds(ms[0].calls) != {} && Paired(ms[1..], CallIds(ms[0].calls))
         else
           Paired(ms[1..], {})
  }

  lemma CoversStep(run: seq<Row>, expected: set<string>)
    requires run != []
    ensures Covers(run, expected) <==>
            run[0].replyTo in expected && Covers(run[1..], expected - {run[0].replyTo})
  {
    var rest, id0 := run[1..], run[0].replyTo;
    if Covers(run, expected) {
      forall id | id in expected - {id0} ensures exists i :: 0 <= i < |rest| && rest[i].replyTo == id {
        var i :| 0 <= i < |run| && run[i].replyTo == id;
        assert rest[i - 1].replyTo == id;
      }
    }
    if id0 in expected && Covers(rest, expected - {id0}) {
      forall i | 0 <= i < |run| ensures run[i].replyTo in expected {
        if i > 0 { assert run[i] == rest[i - 1]; }
      }
      forall i, j | 0 <= i < j < |run| ensures run[i].replyTo != run[j].replyTo {
        assert run[j] == rest[j - 1];
        if i > 0 { assert run[i] == rest[i - 1]; }
      }
      forall id | id in expected ensures exists i :: 0 <= i < |run| && run[i].replyTo == id {
        if id == id0 {
          assert run[0].replyTo == id;
        } else {
          assert id in expected - {id0};
          var i :| 0 <= i < |rest| && rest[i].replyTo == id;
          assert run[i + 1].replyTo == id;
        }
      }
    }
  }

  lemma PairedBehindStep(ms: seq<Row>, open: bool)
    requires ms != []
    ensures PairedBehind(ms, open) <==>
            && (ms[0].role == Tool ==> open)
            && (Calls(ms[0]) ==> CallIds(ms[0].calls) != {} && Covers(RunOf(ms[1..]), CallIds(ms[0].calls)))
            && PairedBehind(ms[1..], TakesReplies(ms[0]))
  {
    var rest := ms[1..];
    forall i | 0 <= i < |rest| ensures rest[i] == ms[i + 1] && rest[i + 1..] == ms[i + 2..] {
    }
    if PairedBehind(ms, open) {
      forall i | 0 <= i < |rest| && Calls(rest[i])
        ensures CallIds(rest[i].calls) != {} && Covers(RunOf(rest[i + 1..]), CallIds(rest[i].calls))
      {
        assert Calls(ms[i + 1]);
      }
      forall i | 0 < i < |rest| && rest[i].role == Tool ensures TakesReplies(rest[i - 1]) {
        assert ms[i + 1].role == Tool && rest[i - 1] == ms[i];
      }
    }
    if PairedBehind(rest, TakesReplies(ms[0])) {
      forall i | 0 < i < |ms| && Calls(ms[i])
        ensures CallIds(ms[i].calls) != {} && Covers(RunOf(ms[i + 1..]), CallIds(ms[i].calls))
      {
        assert Calls(rest[i - 1]);
      }
      forall i | 1 < i < |ms| && ms[i].role == Tool ensures TakesReplies(ms[i - 1]) {
        assert rest[i - 1].role == Tool && rest[i - 2] == ms[i - 1];
      }
    }
  }

  lemma {:induction false} PairedIff(ms: seq<Row>, expected: set<string>)
    ensures Paired(ms, expected) <==> Covers(RunOf(ms), expected) && PairedBehind(ms, true)
  {
    if ms == [] {
      assert expected != {} ==> exists id :: id in expected;
    } else {
      var m, rest, run := ms[0], ms[1..], RunOf(ms);
      PairedBehindStep(ms, true);
      if m.role == Tool {
        PairedIff(rest, expected - {m.replyTo});
        CoversStep(run, expected);
        assert run[1..] == RunOf(rest);
      } else {
        assert Covers([], expected) <==> expected == {};
        if Calls(m) {
          PairedIff(rest, CallIds(m.calls));
        } else {
          PairedIff(rest, {});
          OpeningTool(rest);
        }
      }
    }
  }

  lemma OpeningTool(ms: seq<Row>)
    ensures PairedBehind(ms, false) <==> Covers(RunOf(ms), {}) && PairedBehind(ms, true)
  {
    if ms != [] {
      PairedBehindStep(ms, true);
      PairedBehindStep(ms, false);
      assert ms[0].role == Tool ==> RunOf(ms)[0] == ms[0];
    }
  }

  /** The left-to-right reading is the pairing rule. */
  lemma PairedIsWellPaired(ms: seq<Row>)
    ensures Paired(ms, {}) <==> WellPaired(ms)
  {
    PairedIff(ms, {});
    OpeningTool(ms);
  }

  // ---- What the filter guarantees ------------------------------------------------------

  lemma {:induction false} SanitizedPairs(ms: seq<Row>, expected: set<string>)
    requires expected <= FollowingIds(ms)
    ensures Paired(Sanitized(ms, expected), expected)
  {
    if ms != [] {
      var (out, next) := Kept(ms[0], ms[1..], expected);
      SanitizedPairs(ms[1..], next);
      var tail := Sanitized(ms[1..], next);
      if out == [] {
        assert out + tail == tail;
      } else {
        assert (out + tail)[0] == out[0] && (out + tail)[1..] == tail;
      }
    }
  }

  lemma {:induction false} PairedFollowing(ms: seq<Row>, expected: set<string>)
    requires Paired(ms, expected) && "" !in expected
    ensures expected <= FollowingIds(ms)
  {
    if ms != [] && ms[0].role == Tool {
      PairedFollowing(ms[1..], expected - {ms[0].replyTo});
    }
  }

  lemma {:induction false} PairedUnchanged(ms: seq<Row>, expected: set<string>)
    requires Paired(ms, expected) && "" !in expected
    ensures Sanitized(ms, expected) == ms
  {
    if ms != [] {
      var (out, next) := Kept(ms[0], ms[1..], expected);
      if Calls(ms[0]) {
        PairedFollowing(ms[1..], CallIds(ms[0].calls));
      }
      PairedUnchanged(ms[1..], next);
      assert [ms[0]] + ms[1..] == ms;
    }
  }

  /** Whatever the rows, the result is well paired. */
  lemma SanitizedWellPaired(ms: seq<Row>)
    ensures WellPaired(Sanitized(ms, {}))
  {
    SanitizedPairs(ms, {});
    PairedIsWellPaired(Sanitized(ms, {}));
  }

  /** The filter leaves a list alone exactly when it is well paired. */
  lemma SanitizeIdentityIff(ms: seq<Row>)
    ensures Sanitized(ms, {}) == ms <==> WellPaired(ms)
  {
    SanitizedWellPaired(ms);
    if WellPaired(ms) {
      PairedIsWellPaired(ms);
      PairedUnchanged(ms, {});
    }
  }

  lemma SanitizeIdempotent(ms: seq<Row>)
    ensures Sanitized(Sanitized(ms, {}), {}) == Sanitized(ms, {})
  {
    SanitizedWellPaired(ms);
    SanitizeIdentityIff(Sanitized(ms, {}));
  }

  /** A message that says something by itself: not a tool reply, not an empty assistant. */
  predicate Speaks(m: Row) {
    m.role != Tool && (m.role == Assistant ==> m.content != "")
  }

  /** Ids of the messages that must survive, in order. */
  function Spoken(ms: seq<Row>): seq<nat> {
    Ids(Filter(ms, Speaks))
  }

  lemma SpokenConcat(a: seq<Row>, b: seq<Row>)
    ensures Spoken(a + b) == Spoken(a) + Spoken(b)
  {
    FilterConcat(a, b, Speaks);
  }

  lemma SpokenOne(m: Row)
    ensures Spoken([m]) == if Speaks(m) then [m.id] else []
  {
    FilterCons(m, [], Speaks);
    assert [m] + [] == [m];
  }

  lemma KeptSpoken(m: Row, rest: seq<Row>, expected: set<string>)
    ensures Spoken(Kept(m, rest, expected).0) == Spoken([m])
  {
    SpokenOne(m);
    SpokenOne(m.(calls := []));
  }

  lemma {:induction false} SanitizeKeepsSpoken(ms: seq<Row>, expected: set<string>)
    ensures Spoken(Sanitized(ms, expected)) == Spoken(ms)
  {
    if ms != [] {
      var (out, next) := Kept(ms[0], ms[1..], expected);
      SanitizeKeepsSpoken(ms[1..], next);
      KeptSpoken(ms[0], ms[1..], expected);
      SpokenConcat(out, Sanitized(ms[1..], next));
      SpokenConcat([ms[0]], ms[1..]);
      assert [ms[0]] + ms[1..] == ms;
    }
  }
}
