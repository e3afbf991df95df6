/**
 Loading stored rows: rows that are no message are skipped, tool calls with unparseable
 arguments are dropped together with the replies to them, and the rest is paired up.

 `parses` stands for the JSON parser: whether an argument string is valid.
 */
module Deserialize {
  import opened Transcript
  import opened ToolPairs

  predicate IsMessage(r: Row) {
    r.role != Other
  }

  function ParsedCalls(calls: seq<ToolCall>, parses: string -> bool): seq<ToolCall> {
    if calls == [] then []
    else (if parses(calls[0].arguments) then [calls[0]] else []) + ParsedCalls(calls[1..], parses)
  }

  function BadCallIds(calls: seq<ToolCall>, parses: string -> bool): set<string> {
    if calls == [] then {}
    else (if parses(calls[0].arguments) then {} else {calls[0].id}) + BadCallIds(calls[1..], parses)
  }

  function TrimOne(m: Row, parses: string -> bool): Row {
    if Calls(m) then m.(calls := ParsedCalls(m.calls, parses)) else m
  }

  function Trimmed(ms: seq<Row>, parses: string -> bool): seq<Row> {
    if ms == [] then [] else [TrimOne(ms[0], parses)] + Trimmed(ms[1..], parses)
  }

  function BadIds(ms: seq<Row>, parses: string -> bool): set<string> {
    if ms == [] then {}
    else (if Calls(ms[0]) then BadCallIds(ms[0].calls, parses) else {}) + BadIds(ms[1..], parses)
  }

  function WithoutReplies(ms: seq<Row>, bad: set<string>): seq<Row> {
    if ms == [] then []
    else (if ms[0].role == Tool && ms[0].replyTo in bad then [] else [ms[0]]) + WithoutReplies(ms[1..], bad)
  }

  function Pruned(ms: seq<Row>, parses: string -> bool): seq<Row> {
    WithoutReplies(Trimmed(ms, parses), BadIds(ms, parses))
  }

  function Deserialized(rows: seq<Row>, parses: string -> bool): seq<Row> {
    Sanitized(Pruned(Filter(rows, IsMessage), parses), {})
  }

  lemma ParsedStep(clean: seq<ToolCall>, bad: set<string>, calls: seq<ToolCall>, i: nat, parses: string -> bool)
    requires i < |calls|
    ensures clean + ParsedCalls(calls[i..], parses)
            == (if parses(calls[i].arguments) then clean + [calls[i]] else clean) + ParsedCalls(calls[i + 1..], parses)
    ensures bad + BadCallIds(calls[i..], parses)
            == (if parses(calls[i].arguments) then bad else bad + {calls[i].id}) + BadCallIds(calls[i + 1..], parses)
  {
    assert calls[i..][1..] == calls[i + 1..] && calls[i..][0] == calls[i];
  }

  method SplitCalls(m: Row, parses: string -> bool) returns (trimmed: Row, bad: set<string>)
    ensures trimmed == TrimOne(m, parses)
    ensures bad == if Calls(m) then BadCallIds(m.calls, parses) else {}
  {
    if m.role != Assistant || m.calls == [] {
      return m, {};
    }
    var clean: seq<ToolCall> := [];
    bad := {};
    for i := 0 to |m.calls|
      invariant clean + ParsedCalls(m.calls[i..], parses) == ParsedCalls(m.calls, parses)
      invariant bad + BadCallIds(m.calls[i..], parses) == BadCallIds(m.calls, parses)
    {
      ParsedStep(clean, bad, m.calls, i, parses);
      if parses(m.calls[i].arguments) {
        clean := clean + [m.calls[i]];
      } else {
        bad := bad + {m.calls[i].id};
      }
    }
    trimmed := m.(calls := clean);
  }

  method SkipUnknown(rows: seq<Row>) returns (result: seq<Row>)
    ensures result == Filter(rows, IsMessage)
  {
    result := [];
    for i := 0 to |rows|
      invariant result + Filter(rows[i..], IsMessage) == Filter(rows, IsMessage)
    {
      assert rows[i..][1..] == rows[i + 1..];
      if IsMessage(rows[i]) {
        result := result + [rows[i]];
      }
    }
  }

  method DropReplies(ms: seq<Row>, bad: set<string>) returns (kept: seq<Row>)
    ensures kept == WithoutReplies(ms, bad)
  {
    kept := [];
    for i := 0 to |ms|
      invariant kept + WithoutReplies(ms[i..], bad) == WithoutReplies(ms, bad)
    {
      assert ms[i..][1..] == ms[i + 1..];
      if !(ms[i].role == Tool && ms[i].replyTo in bad) {
        kept := kept + [ms[i]];
      }
    }
  }

  lemma {:induction false} NothingBad(ms: seq<Row>)
    ensures WithoutReplies(ms, {}) == ms
  {
    if ms != [] {
      NothingBad(ms[1..]);
      assert [ms[0]] + ms[1..] == ms;
    }
  }

  /** Trims every message and collects the ids of the calls that went. */
  method TrimCalls(messages: seq<Row>, parses: string -> bool) returns (result: seq<Row>, bad: set<string>)
    ensures result == Trimmed(messages, parses) && bad == BadIds(messages, parses)
  {
    result, bad := [], {};
    for i := 0 to |messages|
      invariant result + Trimmed(messages[i..], parses) == Trimmed(messages, parses)
      invariant bad + BadIds(messages[i..], parses) == BadIds(messages, parses)
    {
      assert messages[i..][1..] == messages[i + 1..];
      var trimmed, dropped := SplitCalls(messages[i], parses);
      result := result + [trimmed];
      bad := bad + dropped;
    }
  }

  method DeserializeMessages(rows: seq<Row>, parses: string -> bool) returns (result: seq<Row>)
    ensures result == Deserialized(rows, parses)
  {
    result := SkipUnknown(rows);
    var bad: set<string>;
    result, bad := TrimCalls(result, parses);
    if bad != {} {
      result := DropReplies(result, bad);
    } else {
      NothingBad(result);
    }
    result := SanitizeToolMessagePairs(result);
  }

  // ---- What loading guarantees ---------------------------------------------------------

  predicate OnlyParsed(m: Row, parses: string -> bool) {
    Calls(m) ==> forall c :: c in m.calls ==> parses(c.arguments)
  }

  ghost predicate Acceptable(ms: seq<Row>, parses: string -> bool) {
    forall m :: m in ms ==> IsMessage(m) && OnlyParsed(m, parses)
  }

  lemma {:induction false} ParsedCallsParse(calls: seq<ToolCall>, parses: string -> bool)
    ensures forall c :: c in ParsedCalls(calls, parses) ==> parses(c.arguments)
    ensures (forall c :: c in calls ==> parses(c.arguments)) ==>
              ParsedCalls(calls, parses) == calls && BadCallIds(calls, parses) == {}
  {
    if calls != [] {
      ParsedCallsParse(calls[1..], parses);
      assert [calls[0]] + calls[1..] == calls;
    }
  }

  lemma {:induction false} PrunedParts(ms: seq<Row>, parses: string -> bool, bad: set<string>)
    requires forall m :: m in ms ==> IsMessage(m)
    ensures Acceptable(WithoutReplies(Trimmed(ms, parses), bad), parses)
    ensures Spoken(WithoutReplies(Trimmed(ms, parses), bad)) == Spoken(ms)
  {
    if ms != [] {
      PrunedParts(ms[1..], parses, bad);
      ParsedCallsParse(ms[0].calls, parses);
      var t := TrimOne(ms[0], parses);
      assert Trimmed(ms, parses)[0] == t && Trimmed(ms, parses)[1..] == Trimmed(ms[1..], parses);
      var tail := WithoutReplies(Trimmed(ms[1..], parses), bad);
      assert Speaks(t) == Speaks(ms[0]) && t.id == ms[0].id;
      SpokenCons(ms[0], ms[1..]);
      SpokenCons(t, tail);
      assert ms == [ms[0]] + ms[1..];
      assert [] + tail == tail;
    }
  }

  lemma SpokenCons(m: Row, rest: seq<Row>)
    ensures Spoken([m] + rest) == (if Speaks(m) then [m.id] else []) + Spoken(rest)
  {
    assert ([m] + rest)[1..] == rest;
    assert Filter([m] + rest, Speaks) == (if Speaks(m) then [m] else []) + Filter(rest, Speaks);
  }

  lemma {:induction false} AcceptableUnpruned(ms: seq<Row>, parses: string -> bool)
    requires Acceptable(ms, parses)
    ensures Trimmed(ms, parses) == ms && BadIds(ms, parses) == {}
    ensures Filter(ms, IsMessage) == ms
  {
    if ms != [] {
      assert ms[0] in ms;
      assert forall m :: m in ms[1..] ==> m in ms;
      AcceptableUnpruned(ms[1..], parses);
      ParsedCallsParse(ms[0].calls, parses);
      assert [ms[0]] + ms[1..] == ms;
    }
  }

  /** Pairing invents nothing: it keeps messages as they are or strips their calls. */
  lemma {:induction false} SanitizedAcceptable(ms: seq<Row>, expected: set<string>, parses: string -> bool)
    requires Acceptable(ms, parses)
    ensures Acceptable(Sanitized(ms, expected), parses)
  {
    if ms != [] {
      assert ms[0] in ms;
      assert forall m :: m in ms[1..] ==> m in ms;
      SanitizedAcceptable(ms[1..], Kept(ms[0], ms[1..], expected).1, parses);
    }
  }

  /** Loaded messages are well paired, parse, and keep everything said, in order. */
  lemma DeserializedAccepted(rows: seq<Row>, parses: string -> bool)
    ensures WellPaired(Deserialized(rows, parses))
    ensures Acceptable(Deserialized(rows, parses), parses)
    ensures Spoken(Deserialized(rows, parses)) == Spoken(Filter(rows, IsMessage))
  {
    var ms := Filter(rows, IsMessage);
    FilterMembers(rows, IsMessage);
    PrunedParts(ms, parses, BadIds(ms, parses));
    SanitizedWellPaired(Pruned(ms, parses));
    SanitizedAcceptable(Pruned(ms, parses), {}, parses);
    SanitizeKeepsSpoken(Pruned(ms, parses), {});
  }

  /** Loading changes nothing exactly when the rows are already what a provider accepts. */
  lemma DeserializeIdentityIff(rows: seq<Row>, parses: string -> bool)
    ensures Deserialized(rows, parses) == rows <==> WellPaired(rows) && Acceptable(rows, parses)
  {
    DeserializedAccepted(rows, parses);
    if WellPaired(rows) && Acceptable(rows, parses) {
      AcceptableUnpruned(rows, parses);
      NothingBad(rows);
      SanitizeIdentityIff(rows);
    }
  }
}
