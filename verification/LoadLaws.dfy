/**
 What saving and loading make of a single row: the kind and pin it is stored under, what of
 it a load keeps, and the message it becomes.
 */
module LoadLaws {
  import opened Wrappers
  import opened Transcript
  import opened Window
  import opened ToolPairs
  import opened Deserialize
  import opened Checkpoint
  import opened HistoryCache
  import opened Store

  // ---- Saving --------------------------------------------------------------------------

  /**
   A message is stored as the kind it is given; without one as a summary when it is saved as
   such, else as a note when it is hidden from the user, else as chat. It is pinned as told;
   untold, exactly a note that is hidden from summaries is pinned.
   */
  lemma SavedAs(m: Draft, isSummary: bool, isHidden: bool, kind: Option<Kind>, pinned: Option<bool>, id: nat,
                seqNo: int)
    ensures var k := KindOf(m, isSummary, isHidden, kind); var r := DraftRow(m, id, seqNo, k, PinOf(m, k, pinned));
            && r.id == id && r.seqNo == seqNo && r.role == m.role && r.content == m.content && r.calls == m.calls
            && r.replyTo == m.replyTo && r.attachmentFor == m.attachmentFor
            && (kind.Some? ==> r.kind == kind.value)
            && (kind.None? && isSummary ==> r.kind == Summary)
            && (kind.None? && !isSummary && (isHidden || m.hiddenFromUser) ==> r.kind == Note)
            && (kind.None? && !isSummary && !isHidden && !m.hiddenFromUser ==> r.kind == Chat)
            && (pinned.Some? ==> r.pinned == pinned.value)
            && (pinned.None? ==> (r.pinned <==> r.kind == Note && m.hiddenFromSummary))
  {
  }

  // ---- Loading -------------------------------------------------------------------------

  function Speaker(): Row -> bool {
    (r: Row) => r.role == System || r.role == User
  }

  lemma {:induction false} TrimmedSpeakers(ms: seq<Row>, parses: string -> bool, bad: set<string>)
    ensures Filter(WithoutReplies(Trimmed(ms, parses), bad), Speaker()) == Filter(ms, Speaker())
  {
    if ms != [] {
      var t, rest := TrimOne(ms[0], parses), WithoutReplies(Trimmed(ms[1..], parses), bad);
      TrimmedSpeakers(ms[1..], parses, bad);
      assert Trimmed(ms, parses)[0] == t && Trimmed(ms, parses)[1..] == Trimmed(ms[1..], parses);
      if !(t.role == Tool && t.replyTo in bad) {
        FilterCons(t, rest, Speaker());
      } else {
        assert [] + rest == rest;
      }
      FilterCons(ms[0], ms[1..], Speaker());
      assert ms == [ms[0]] + ms[1..];
    }
  }

  lemma {:induction false} SanitizedSpeakers(ms: seq<Row>, expected: set<string>)
    ensures Filter(Sanitized(ms, expected), Speaker()) == Filter(ms, Speaker())
  {
    if ms != [] {
      var (out, next) := Kept(ms[0], ms[1..], expected);
      SanitizedSpeakers(ms[1..], next);
      FilterConcat(out, Sanitized(ms[1..], next), Speaker());
      FilterConcat([ms[0]], ms[1..], Speaker());
      assert ms == [ms[0]] + ms[1..];
      KeptSpeaker(ms[0], ms[1..], expected);
    }
  }

  lemma KeptSpeaker(m: Row, rest: seq<Row>, expected: set<string>)
    ensures Filter(Kept(m, rest, expected).0, Speaker()) == Filter([m], Speaker())
  {
  }

  /** Every system and user row is loaded unchanged, each once and in order; rows of no known role never are. */
  lemma SpeakersLoad(rows: seq<Row>, parses: string -> bool)
    ensures Filter(Deserialized(rows, parses), Speaker()) == Filter(rows, Speaker())
    ensures forall r :: r in Deserialized(rows, parses) ==> r.role != Other
  {
    var ms := Filter(rows, IsMessage);
    FilterTwice(rows, IsMessage, Speaker(), Speaker());
    TrimmedSpeakers(ms, parses, BadIds(ms, parses));
    SanitizedSpeakers(Pruned(ms, parses), {});
    DeserializedAccepted(rows, parses);
  }

  // ---- Tool calls ----------------------------------------------------------------------

  lemma {:induction false} ParsedConcat(a: seq<ToolCall>, b: seq<ToolCall>, parses: string -> bool)
    ensures ParsedCalls(a + b, parses) == ParsedCalls(a, parses) + ParsedCalls(b, parses)
  {
    if a == [] {
      assert a + b == b;
    } else {
      ParsedConcat(a[1..], b, parses);
      assert (a + b)[1..] == a[1..] + b && (a + b)[0] == a[0];
      Reassociate(if parses(a[0].arguments) then [a[0]] else [], ParsedCalls(a[1..], parses), ParsedCalls(b, parses));
    }
  }

  /** Exactly the calls whose arguments parse stay, in order, wherever they stand among the others. */
  lemma CallsLoad(before: seq<ToolCall>, c: ToolCall, behind: seq<ToolCall>, parses: string -> bool)
    ensures ParsedCalls(before + [c] + behind, parses)
            == ParsedCalls(before, parses) + (if parses(c.arguments) then [c] else []) + ParsedCalls(behind, parses)
    ensures ParsedCalls([], parses) == []
    ensures !parses(c.arguments) ==> c.id in BadCallIds(before + [c] + behind, parses)
  {
    ParsedConcat(before + [c], behind, parses);
    ParsedConcat(before, [c], parses);
    assert [c][1..] == [];
    assert ParsedCalls([c], parses) == (if parses(c.arguments) then [c] else []) + [];
    BadIdsAre(before + [c] + behind, parses, c.id);
    assert c in before + [c] + behind;
  }

  lemma {:induction false} BadIdsAre(calls: seq<ToolCall>, parses: string -> bool, id: string)
    ensures id in BadCallIds(calls, parses) <==> exists c :: c in calls && c.id == id && !parses(c.arguments)
  {
    if calls != [] {
      BadIdsAre(calls[1..], parses, id);
      assert calls == [calls[0]] + calls[1..] && calls[0] in calls;
    }
  }

  lemma {:induction false} WindowBadIdsAre(ms: seq<Row>, parses: string -> bool, id: string)
    ensures id in BadIds(ms, parses)
            <==> exists r, c :: r in ms && r.role == Assistant && c in r.calls && c.id == id && !parses(c.arguments)
  {
    if ms != [] {
      WindowBadIdsAre(ms[1..], parses, id);
      BadIdsAre(ms[0].calls, parses, id);
      assert ms == [ms[0]] + ms[1..] && ms[0] in ms;
    }
  }

  /** Before pairing, a tool reply is dropped exactly when it answers a call that does not parse; no other row is. */
  lemma {:induction false} RepliesLoad(ms: seq<Row>, bad: set<string>)
    ensures WithoutReplies(ms, bad) == Filter(ms, (r: Row) => r.role != Tool || r.replyTo !in bad)
  {
    if ms != [] {
      RepliesLoad(ms[1..], bad);
    }
  }

  /** The message a row becomes: registered unless it came from the memo, in context, and saying what the row says. */
  lemma LoadedAs(rows: seq<Row>, hit: bool, i: nat)
    requires i < |rows|
    ensures |LoadedLive(rows, hit)| == |rows|
    ensures var m, r := LoadedLive(rows, hit)[i], rows[i];
            && m.seen == !hit && m.dbId == Some(r.id) && !m.excluded && !m.thinks
            && m.role == r.role && m.content == r.content && m.calls == r.calls && m.replyTo == r.replyTo
            && m.pinned == r.pinned && m.isSummary == (r.kind == Summary) && m.hidden == (r.kind == Note)
  {
  }

  /**
   The memo is served while neither revision has moved and the newest row stands where it
   stood; otherwise the load derives the window anew and remembers it, unless it is empty.
   */
  lemma MemoServed(d: Db, m: Memo, newest: Row, parses: string -> bool)
    requires WellFormed(d.rows) && newest in d.rows
    requires forall r :: r in d.rows ==>
               r == newest || r.seqNo < newest.seqNo || (r.seqNo == newest.seqNo && r.id < newest.id)
    ensures var derived := Messages(LlmWindow(d.rows), parses);
            var load := Load(d, Some(m), parses);
            if m.revision.0 == d.revision && m.revision.1 == d.structure && m.cursor == Some((newest.seqNo, newest.id))
            then load == (Messages(m.window, parses), Some(m))
            else load.0 == derived
                 && load.1 == if derived == [] then Some(m)
                              else Some(Memo(LlmWindow(d.rows), (d.revision, d.structure),
                                             Some((newest.seqNo, newest.id))))
  {
    LastPositionIs(d.rows, newest);
  }
}
