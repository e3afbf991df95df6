/**
 A pinned interrupted call below the active summary is never settled: its stubs land where
 the window does not show them, so every heal writes them again.
 */
module HealForever {
  import opened Wrappers
  import opened Transcript
  import opened Positions
  import opened ToolPairs
  import opened Window
  import opened Heal
  import opened HealedCache

  predicate Asks(r: Row, id: string) {
    Calls(r) && id in CallIds(r.calls)
  }

  predicate Answers(r: Row, id: string) {
    r.role == Tool && r.replyTo == id
  }

  /** A shown row under the summary asks `id`, no shown row answers it, and none above asks it. */
  ghost predicate Stuck(t: Table, o: Row, id: string, s: Row) {
    && WellFormed(t) && ActiveSummary(t) == Some(s) && id != ""
    && o in t && InWindow(o, Some(s), true) && Asks(o, id)
    && forall r :: r in t && InWindow(r, Some(s), true) ==> !Answers(r, id) && (Asks(r, id) ==> r.seqNo < s.seqNo)
  }

  lemma {:induction false} MissingAsked(calls: seq<ToolCall>, matched: set<string>)
    ensures forall c :: c in Missing(calls, matched) <==> c in calls && c.id !in matched
  {
    if calls != [] {
      MissingAsked(calls[1..], matched);
      assert calls == [calls[0]] + calls[1..];
    }
  }

  lemma {:induction false} NoReply(w: seq<Row>, id: string)
    requires forall r :: r in w ==> !Answers(r, id)
    ensures id !in RepliedIds(w)
  {
    if w != [] {
      assert w[0] in w && forall r :: r in w[1..] ==> r in w;
      NoReply(w[1..], id);
    }
  }

  lemma {:induction false} AskedCalled(w: seq<Row>, r: Row, id: string)
    requires r in w && Asks(r, id) && id != ""
    ensures id in CalledIds(w)
  {
    if r != w[0] {
      AskedCalled(w[1..], r, id);
    }
  }

  /** Every stub answers a missing call of an interrupted row it stands behind. */
  lemma {:induction false} AddedAnswers(t: Table, next: nat, orphans: seq<Row>, matched: set<string>, top: Row, x: Row)
    requires top in t && x in AddedRows(t, next, orphans, matched) && forall r :: r in orphans ==> Calls(r)
    ensures exists r ::
              && r in orphans && (x.replyTo != "" ==> Asks(r, x.replyTo))
              && (r.seqNo < top.seqNo ==> x.seqNo < top.seqNo)
    decreases |orphans|
  {
    var r := orphans[0];
    var stubs, missing := StubsFor(t, next, r, matched), Missing(r.calls, matched);
    if x in stubs {
      StubRowsAre(next, r.seqNo, UpperFor(t, r.seqNo), missing);
      StubsAre(t, next, r, matched, top);
      MissingAsked(r.calls, matched);
      var i :| 0 <= i < |stubs| && stubs[i] == x;
      assert missing[i] in missing;
      assert r in orphans && missing[i] in r.calls;
    } else {
      AddedAnswers(t + stubs, next + |stubs|, orphans[1..], matched, top, x);
    }
  }

  /** An interrupted row gets a stub for each call it misses. */
  lemma {:induction false} AddedAnswer(t: Table, next: nat, orphans: seq<Row>, matched: set<string>, r: Row,
                                       c: ToolCall)
      returns (x: Row)
    requires r in orphans && c in Missing(r.calls, matched)
    ensures x in AddedRows(t, next, orphans, matched) && Answers(x, c.id)
    decreases |orphans|
  {
    var stubs, missing := StubsFor(t, next, orphans[0], matched), Missing(orphans[0].calls, matched);
    if r == orphans[0] {
      StubRowsAre(next, r.seqNo, UpperFor(t, r.seqNo), missing);
      var i :| 0 <= i < |missing| && missing[i] == c;
      x := stubs[i];
    } else {
      x := AddedAnswer(t + stubs, next + |stubs|, orphans[1..], matched, r, c);
    }
  }

  lemma WindowMembers(t: Table, s: Row, r: Row)
    requires ActiveSummary(t) == Some(s)
    ensures r in WindowRows(t, true) <==> r in t && InWindow(r, Some(s), true)
  {
    FilterMembers(View(t), Visible(Some(s), true));
    InView(t, r);
  }

  /** A stuck call is up for healing. */
  lemma StuckOrphan(t: Table, o: Row, id: string, s: Row) returns (c: ToolCall)
    requires Stuck(t, o, id, s)
    ensures var w := WindowRows(t, true); o in ToHeal(w) && c in Missing(o.calls, Matched(w)) && c.id == id
  {
    var w := WindowRows(t, true);
    WindowMembers(t, s, o);
    AskedCalled(w, o, id);
    forall r | r in w ensures !Answers(r, id) {
      WindowMembers(t, s, r);
    }
    NoReply(w, id);
    c :| c in o.calls && c.id == id;
    MissingAsked(o.calls, Matched(w));
    FilterMembers(w, (r: Row) => Orphaned(r, Matched(w)));
    assert Missing(o.calls, Matched(w)) != [];
  }

  lemma OrphansShown(t: Table, s: Row, r: Row)
    requires ActiveSummary(t) == Some(s) && r in ToHeal(WindowRows(t, true))
    ensures r in t && InWindow(r, Some(s), true) && Calls(r)
  {
    var w := WindowRows(t, true);
    FilterMembers(w, (r: Row) => Orphaned(r, Matched(w)));
    WindowMembers(t, s, r);
  }

  /** No stub for a stuck call is shown. */
  lemma StuckStubs(t: Table, next: nat, o: Row, id: string, s: Row, x: Row)
    requires Stuck(t, o, id, s) && x in AddedRows(t, next, ToHeal(WindowRows(t, true)), Matched(WindowRows(t, true)))
    ensures x.role == Tool && (InWindow(x, Some(s), true) ==> !Answers(x, id))
  {
    var orphans, matched := ToHeal(WindowRows(t, true)), Matched(WindowRows(t, true));
    forall r | r in orphans ensures r in t && InWindow(r, Some(s), true) && Calls(r) {
      OrphansShown(t, s, r);
    }
    AddedChat(t, next, orphans, matched, x);
    AddedUnpinned(t, next, orphans, matched, x);
    AddedAnswers(t, next, orphans, matched, s, x);
  }

  /** A heal leaves a stuck call stuck, and writes one more reply to it. */
  lemma StuckHeals(t: Table, next: nat, o: Row, id: string, s: Row)
    requires Below(t, next) && Stuck(t, o, id, s)
    ensures Below(Healed(t, next).0, Healed(t, next).1) && Stuck(Healed(t, next).0, o, id, s)
    ensures Replies(Healed(t, next).0, id) > Replies(t, id)
  {
    var orphans, matched := ToHeal(WindowRows(t, true)), Matched(WindowRows(t, true));
    var added := AddedRows(t, next, orphans, matched);
    HealAppends(t, next, orphans, matched);
    HealedBelow(t, next, orphans, matched);
    AddedKeepSummary(t, next, orphans, matched);
    forall x | x in added ensures x.role == Tool && (InWindow(x, Some(s), true) ==> !Answers(x, id)) {
      StuckStubs(t, next, o, id, s, x);
    }
    var c := StuckOrphan(t, o, id, s);
    var x := AddedAnswer(t, next, orphans, matched, o, c);
    RepliesGrow(t, added, id, x);
  }

  /** How many rows answer the call, shown or not. */
  function Replies(t: Table, id: string): nat {
    |Filter(t, (r: Row) => Answers(r, id))|
  }

  lemma RepliesGrow(t: Table, added: seq<Row>, id: string, x: Row)
    requires x in added && Answers(x, id)
    ensures Replies(t + added, id) > Replies(t, id)
  {
    FilterConcat(t, added, (r: Row) => Answers(r, id));
    FilterMembers(added, (r: Row) => Answers(r, id));
  }

  function Times<T>(step: T -> T, x: T, n: nat): T {
    if n == 0 then x else step(Times(step, x, n - 1))
  }

  lemma {:induction false} TimesKeep<T>(step: T -> T, x: T, n: nat, keeps: T -> bool, count: T -> int)
    requires keeps(x) && forall y :: keeps(y) ==> keeps(step(y)) && count(step(y)) > count(y)
    ensures keeps(Times(step, x, n)) && count(Times(step, x, n)) >= count(x) + n
  {
    if n > 0 {
      TimesKeep(step, x, n - 1, keeps, count);
    }
  }

  function HealStep(h: (Table, nat)): (Table, nat) {
    Healed(h.0, h.1)
  }

  function HealedTimes(t: Table, next: nat, n: nat): (Table, nat) {
    Times(HealStep, (t, next), n)
  }

  ghost predicate StuckIn(h: (Table, nat), o: Row, id: string, s: Row) {
    Below(h.0, h.1) && Stuck(h.0, o, id, s)
  }

  lemma StuckSteps(h: (Table, nat), o: Row, id: string, s: Row)
    requires StuckIn(h, o, id, s)
    ensures StuckIn(HealStep(h), o, id, s) && Replies(HealStep(h).0, id) > Replies(h.0, id)
  {
    StuckHeals(h.0, h.1, o, id, s);
  }

  lemma StuckTimes(h: (Table, nat), o: Row, id: string, s: Row, n: nat, keeps: ((Table, nat)) -> bool,
                   count: ((Table, nat)) -> int)
    requires forall x :: keeps(x) <==> StuckIn(x, o, id, s)
    requires forall x: (Table, nat) :: count(x) == Replies(x.0, id)
    requires keeps(h)
    ensures keeps(Times(HealStep, h, n)) && count(Times(HealStep, h, n)) >= count(h) + n
  {
    forall x | keeps(x) ensures keeps(HealStep(x)) && count(HealStep(x)) > count(x) {
      StuckSteps(x, o, id, s);
    }
    TimesKeep(HealStep, h, n, keeps, count);
  }

  /**
   However often it is healed, a stuck call stays without a reply that the window shows,
   and every heal adds one to the table.
   */
  lemma NeverSettles(t: Table, next: nat, o: Row, id: string, s: Row, n: nat)
    requires Below(t, next) && Stuck(t, o, id, s)
    ensures forall r :: r in WindowRows(HealedTimes(t, next, n).0, true) ==> !Answers(r, id)
    ensures Replies(HealedTimes(t, next, n).0, id) >= Replies(t, id) + n
  {
    var keeps := (x: (Table, nat)) => StuckIn(x, o, id, s);
    var u := HealedTimes(t, next, n).0;
    StuckTimes((t, next), o, id, s, n, keeps, (x: (Table, nat)) => Replies(x.0, id));
    assert keeps(HealedTimes(t, next, n));
    forall r | r in WindowRows(u, true) ensures !Answers(r, id) {
      WindowMembers(u, s, r);
    }
  }

  // ---- One such table ------------------------------------------------------------------

  const PINNED_CALL := Row(0, SEQ_STEP, Assistant, Chat, true, "", [ToolCall("a", "f", "{}")], "", None)
  const SUMMARY := Row(1, 2 * SEQ_STEP, User, Summary, false, "so far", [], "", None)

  /** A pinned interrupted call and a summary behind it are healed again and again. */
  lemma StuckHappens(n: nat)
    ensures Stuck([PINNED_CALL, SUMMARY], PINNED_CALL, "a", SUMMARY)
    ensures Replies(HealedTimes([PINNED_CALL, SUMMARY], 2, n).0, "a") >= n
  {
    assert PINNED_CALL.calls[0] in PINNED_CALL.calls;
    NeverSettles([PINNED_CALL, SUMMARY], 2, PINNED_CALL, "a", SUMMARY, n);
  }
}
