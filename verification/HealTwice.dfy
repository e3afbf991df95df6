/**
 The outcome of a heal: whether the healed window passes the load-time filter untouched,
 and whether a second heal would write anything.
 */
module HealTwice {
  import opened Wrappers
  import opened Transcript
  import opened Positions
  import opened ToolPairs
  import opened Window
  import opened Heal
  import opened HealSettles

  lemma {:induction false} OrphansThroughWindow(v: seq<Row>, summary: Option<Row>, matched: set<string>)
    ensures Orphans(Filter(v, Visible(summary, true)), matched) == Filter(v, OrphanIn(summary, matched))
  {
    if v != [] {
      OrphansThroughWindow(v[1..], summary, matched);
      var r, p, tail := v[0], Visible(summary, true), Filter(v[1..], Visible(summary, true));
      if p(r) {
        assert ([r] + tail)[1..] == tail;
      } else {
        assert [] + tail == tail;
        assert [] + Filter(v[1..], OrphanIn(summary, matched)) == Filter(v[1..], OrphanIn(summary, matched));
      }
    }
  }

  lemma IdsCons(r: Row, w: seq<Row>)
    ensures RepliedIds([r] + w) == (if r.role == Tool then {r.replyTo} else {}) + RepliedIds(w)
    ensures CalledIds([r] + w) == (if Calls(r) then CallIds(r.calls) else {}) + CalledIds(w)
  {
    assert ([r] + w)[1..] == w;
  }

  /** Queued rows carry no calls and no replies. */
  lemma {:induction false} QueuedCarryNothing(v: seq<Row>, summary: Option<Row>)
    requires QueuedAreUsers(v)
    ensures var all, llm := Filter(v, Visible(summary, true)), Filter(v, Visible(summary, false));
            RepliedIds(all) == RepliedIds(llm) && CalledIds(all) == CalledIds(llm)
  {
    if v != [] {
      var r, rest := v[0], v[1..];
      assert v == [r] + rest && r in v && forall m :: m in rest ==> m in v;
      QueuedCarryNothing(rest, summary);
      FilterCons(r, rest, Visible(summary, true));
      FilterCons(r, rest, Visible(summary, false));
      IdsCons(r, Filter(rest, Visible(summary, true)));
      IdsCons(r, Filter(rest, Visible(summary, false)));
    }
  }

  lemma ChatAppended(t: Table, u: Table)
    requires forall m :: m in u ==> m.kind == Chat
    ensures ActiveSummary(t + u) == ActiveSummary(t)
    ensures QueuedAreUsers(t) ==> QueuedAreUsers(t + u)
  {
    ActiveSummaryAppended(t, u);
  }

  lemma HealRowsKeeps(t: Table, next: nat, orphans: seq<Row>, matched: set<string>)
    requires WellFormed(t) && Below(t, next) && QueuedAreUsers(t)
    ensures ActiveSummary(HealRows(t, next, orphans, matched).0) == ActiveSummary(t)
    ensures QueuedAreUsers(HealRows(t, next, orphans, matched).0)
  {
    var added := AddedRows(t, next, orphans, matched);
    HealAppends(t, next, orphans, matched);
    forall m | m in added ensures m.kind == Chat {
      AddedChat(t, next, orphans, matched, m);
    }
    ChatAppended(t, added);
  }

  ghost predicate AllGood(w: seq<Row>) {
    forall m :: m in w && Calls(m) ==> GoodCalls(m)
  }

  lemma RecordedRepliesAreCalls(w: seq<Row>)
    requires Recorded(w)
    ensures AllGood(w) && Matched(w) == RepliedIds(w)
  {
    forall m | m in w && Calls(m) ensures GoodCalls(m) {
      var i :| 0 <= i < |w| && w[i] == m;
    }
    forall id | id in RepliedIds(w) ensures id in CalledIds(w) {
      RepliedIdsAre(w, id);
      var j :| 0 <= j < |w| && w[j].role == Tool && w[j].replyTo == id;
      var i :| AnswersAt(w, i, j);
      CalledIdsAre(w, id);
    }
  }

  /** The view of the healed table is the healed list. */
  lemma HealedView(t: Table, next: nat)
    requires WellFormed(t) && Below(t, next) && QueuedAreUsers(t) && Recorded(LlmWindow(t))
    requires OrphansAlone(t, t, OrphanIn(ActiveSummary(t), RepliedIds(LlmWindow(t))))
    ensures var h := Healed(t, next); var matched := RepliedIds(LlmWindow(t));
            HealedTo(h, HealList(View(t), next, OrphanIn(ActiveSummary(t), matched), matched))
    ensures ActiveSummary(Healed(t, next).0) == ActiveSummary(t) && QueuedAreUsers(Healed(t, next).0)
  {
    var v, w, llm, summary := View(t), WindowRows(t, true), LlmWindow(t), ActiveSummary(t);
    var matched := RepliedIds(llm);
    var orphan := OrphanIn(summary, matched);
    forall r | r in v ensures r in t {
      InView(t, r);
    }
    QueuedCarryNothing(v, summary);
    RecordedRepliesAreCalls(llm);
    assert Matched(w) == matched;
    OrphansThroughWindow(v, summary, matched);
    if CalledIds(w) == {} {
      NoCallsNoOrphans(v, summary, matched);
    }
    assert ToHeal(w) == Filter(v, orphan);
    HealRowsView(t, next, [], v, orphan, matched);
    assert [] + HealList(v, next, orphan, matched) == HealList(v, next, orphan, matched);
    HealRowsKeeps(t, next, ToHeal(w), matched);
  }

  lemma NoCallsNoOrphans(v: seq<Row>, summary: Option<Row>, matched: set<string>)
    requires QueuedAreUsers(v) && AllGood(Filter(v, Visible(summary, false)))
    requires CalledIds(Filter(v, Visible(summary, false))) == {}
    ensures Filter(v, OrphanIn(summary, matched)) == []
  {
    var orphans, llm := Filter(v, OrphanIn(summary, matched)), Filter(v, Visible(summary, false));
    FilterMembers(v, OrphanIn(summary, matched));
    FilterMembers(v, Visible(summary, false));
    if orphans != [] {
      var m := orphans[0];
      assert m in orphans && m in llm && GoodCalls(m);
      var i :| 0 <= i < |llm| && llm[i] == m;
      assert m.calls[0].id in CallIds(m.calls);
      CalledIdsAre(llm, m.calls[0].id);
    }
  }

  // ---- Which calls end up answered -----------------------------------------------------

  lemma {:induction false} IdsConcat(v: seq<Row>, w: seq<Row>)
    ensures RepliedIds(v + w) == RepliedIds(v) + RepliedIds(w)
    ensures CalledIds(v + w) == CalledIds(v) + CalledIds(w)
  {
    if v == [] {
      assert v + w == w;
    } else {
      assert (v + w)[1..] == v[1..] + w;
      IdsConcat(v[1..], w);
    }
  }

  lemma {:induction false} StubIdsAre(calls: seq<ToolCall>)
    ensures CalledIds(StubsOf(calls)) == {}
    ensures forall id :: id in RepliedIds(StubsOf(calls)) <==> exists c :: c in calls && c.id == id
  {
    if calls != [] {
      StubIdsAre(calls[1..]);
      assert StubsOf(calls)[1..] == StubsOf(calls[1..]);
      forall id | id in RepliedIds(StubsOf(calls)) ensures exists c :: c in calls && c.id == id {
        if id == calls[0].id {
          assert calls[0] in calls;
        } else {
          assert id in RepliedIds(StubsOf(calls[1..]));
          var c :| c in calls[1..] && c.id == id;
          assert c in calls;
        }
      }
    }
  }

  ghost predicate StubbedBy(m: Row, id: string, matched: set<string>, summary: Option<Row>) {
    && Orphaned(m, matched) && AtOrAfter(m, summary)
    && exists c :: c in Missing(m.calls, matched) && c.id == id
  }

  lemma MendOneIds(m: Row, matched: set<string>, summary: Option<Row>)
    ensures CalledIds(MendOne(m, matched, summary)) == CalledIds([m])
    ensures forall id :: id in RepliedIds(MendOne(m, matched, summary)) <==>
                         id in RepliedIds([m]) || StubbedBy(m, id, matched, summary)
  {
    var stubs := if Orphaned(m, matched) && AtOrAfter(m, summary) then StubsOf(Missing(m.calls, matched)) else [];
    StubIdsAre(Missing(m.calls, matched));
    IdsConcat([m], stubs);
  }

  lemma {:induction false} MendedIds(w: seq<Row>, matched: set<string>, summary: Option<Row>, id: string)
    ensures id in CalledIds(Mended(w, matched, summary)) <==> id in CalledIds(w)
    ensures id in RepliedIds(Mended(w, matched, summary)) <==>
            id in RepliedIds(w) || exists m :: m in w && StubbedBy(m, id, matched, summary)
  {
    if w != [] {
      var m, rest := w[0], w[1..];
      assert w == [m] + rest && m in w;
      MendedIds(rest, matched, summary, id);
      MendOneIds(m, matched, summary);
      IdsConcat(MendOne(m, matched, summary), Mended(rest, matched, summary));
      IdsConcat([m], rest);
    }
  }

  ghost predicate Settled(w: seq<Row>, summary: Option<Row>) {
    forall m :: m in w && Orphaned(m, RepliedIds(w)) ==> AtOrAfter(m, summary)
  }

  /** Every call of the mended window is answered exactly when no orphan lies below the summary. */
  lemma AnsweredIffSettled(w: seq<Row>, summary: Option<Row>)
    requires Recorded(w)
    ensures var h := Mended(w, RepliedIds(w), summary); CalledIds(h) <= RepliedIds(h) <==> Settled(w, summary)
  {
    var matched := RepliedIds(w);
    var h := Mended(w, matched, summary);
    if Settled(w, summary) {
      forall id | id in CalledIds(h) ensures id in RepliedIds(h) {
        MendedIds(w, matched, summary, id);
        CalledIdsAre(w, id);
        var j :| 0 <= j < |w| && Calls(w[j]) && id in CallIds(w[j].calls);
        var c :| c in w[j].calls && c.id == id;
        MissingAre(w[j].calls, matched);
        if id !in matched {
          assert c in Missing(w[j].calls, matched);
          assert w[j] in w && StubbedBy(w[j], id, matched, summary);
        }
      }
    } else {
      var m :| m in w && Orphaned(m, matched) && !AtOrAfter(m, summary);
      UnansweredBelow(w, summary, m);
    }
  }

  lemma OneCaller(w: seq<Row>, m: Row, n: Row, id: string)
    requires Recorded(w) && m in w && n in w && Calls(m) && Calls(n)
    requires id in CallIds(m.calls) && id in CallIds(n.calls)
    ensures m == n
  {
    var i :| 0 <= i < |w| && w[i] == m;
    var j :| 0 <= j < |w| && w[j] == n;
    assert id in CallIds(w[i].calls) * CallIds(w[j].calls);
  }

  lemma UnansweredBelow(w: seq<Row>, summary: Option<Row>, m: Row)
    requires Recorded(w) && m in w && Orphaned(m, RepliedIds(w)) && !AtOrAfter(m, summary)
    ensures var h := Mended(w, RepliedIds(w), summary); !(CalledIds(h) <= RepliedIds(h))
  {
    var matched := RepliedIds(w);
    var c := Missing(m.calls, matched)[0];
    MissingAre(m.calls, matched);
    assert c in Missing(m.calls, matched);
    RecordedRepliesAreCalls(w);
    var k :| 0 <= k < |m.calls| && m.calls[k] == c;
    var i :| 0 <= i < |w| && w[i] == m;
    assert c.id in CallIds(w[i].calls);
    MendedIds(w, matched, summary, c.id);
    CalledIdsAre(w, c.id);
    forall n | n in w && StubbedBy(n, c.id, matched, summary) ensures n == m {
      MissingAre(n.calls, matched);
      OneCaller(w, m, n, c.id);
    }
  }

  // ---- A second heal -------------------------------------------------------------------

  lemma {:induction false} PlainMembers(h: seq<Row>)
    ensures forall m :: m in h ==> Plain(m) in PlainAll(h)
    ensures forall p :: p in PlainAll(h) ==> exists m :: m in h && Plain(m) == p
  {
    if h != [] {
      PlainMembers(h[1..]);
      assert h == [h[0]] + h[1..];
    }
  }

  lemma {:induction false} MendedMembers(w: seq<Row>, matched: set<string>, summary: Option<Row>)
    ensures forall m :: m in Mended(w, matched, summary) && Calls(m) ==> m in w
  {
    if w != [] {
      MendedMembers(w[1..], matched, summary);
      forall m | m in MendOne(w[0], matched, summary) && Calls(m) ensures m in w {
      }
    }
  }

  lemma MendedGood(h: seq<Row>, w: seq<Row>, matched: set<string>, summary: Option<Row>)
    requires AllGood(w) && PlainAll(h) == PlainAll(Mended(w, matched, summary))
    ensures AllGood(h)
  {
    PlainMembers(h);
    PlainMembers(Mended(w, matched, summary));
    MendedMembers(w, matched, summary);
    forall m | m in h && Calls(m) ensures GoodCalls(m) {
      var n :| n in Mended(w, matched, summary) && Plain(n) == Plain(m);
      assert Calls(n) && n.calls == m.calls;
    }
  }

  lemma NoMembers<T>(s: seq<T>)
    ensures (forall x :: x !in s) ==> s == []
  {
    if s != [] {
      assert s[0] in s;
    }
  }

  /** A window whose calls all carry ids has nothing to heal exactly when each is answered. */
  lemma NothingToHealIff(h: seq<Row>)
    requires AllGood(h)
    ensures ToHeal(h) == [] <==> CalledIds(h) <= RepliedIds(h)
  {
    var matched := Matched(h);
    var test := (r: Row) => Orphaned(r, matched);
    FilterMembers(h, test);
    if CalledIds(h) <= RepliedIds(h) {
      forall m | m in h ensures !test(m) {
        if Calls(m) {
          MissingAre(m.calls, matched);
          var i :| 0 <= i < |h| && h[i] == m;
          forall c | c in m.calls ensures c.id in matched {
            var k :| 0 <= k < |m.calls| && m.calls[k] == c;
            assert c.id in CallIds(m.calls);
            CalledIdsAre(h, c.id);
          }
          NoMembers(Missing(m.calls, matched));
        }
      }
      NoMembers(Orphans(h, matched));
    } else {
      var id :| id in CalledIds(h) && id !in RepliedIds(h);
      CalledIdsAre(h, id);
      var j :| 0 <= j < |h| && Calls(h[j]) && id in CallIds(h[j].calls);
      var c :| c in h[j].calls && c.id == id;
      MissingAre(h[j].calls, matched);
      assert c in Missing(h[j].calls, matched);
      assert h[j] in Orphans(h, matched);
    }
  }

  lemma WellPairedAnswers(h: seq<Row>)
    requires WellPaired(h)
    ensures CalledIds(h) <= RepliedIds(h)
  {
    forall id | id in CalledIds(h) ensures id in RepliedIds(h) {
      CalledIdsAre(h, id);
      var j :| 0 <= j < |h| && Calls(h[j]) && id in CallIds(h[j].calls);
      var run := RunOf(h[j + 1..]);
      var i :| 0 <= i < |run| && run[i].replyTo == id;
      assert run[i] == h[j + 1..][i] == h[j + 1 + i];
      assert run[i] in run;
      RepliedIdsAre(h, id);
    }
  }

  /**
   After a heal, loading leaves the window untouched and a second heal writes nothing,
   each exactly when no orphan lies below the active summary.
   */
  lemma HealSettlesIff(t: Table, next: nat)
    requires WellFormed(t) && Below(t, next) && QueuedAreUsers(t) && Recorded(LlmWindow(t))
    requires OrphansAlone(t, t, OrphanIn(ActiveSummary(t), RepliedIds(LlmWindow(t))))
    ensures var u := Healed(t, next).0; var settled := Settled(LlmWindow(t), ActiveSummary(t));
            && (Sanitized(LlmWindow(u), {}) == LlmWindow(u) <==> settled)
            && (ToHeal(WindowRows(u, true)) == [] <==> settled)
  {
    var u, v, w, summary := Healed(t, next).0, View(t), LlmWindow(t), ActiveSummary(t);
    var matched := RepliedIds(w);
    var orphan := OrphanIn(summary, matched);
    HealedView(t, next);
    HealableTable(t, next, summary, orphan);
    HealListShown(v, next, summary, orphan, matched, false);
    var h, mended := LlmWindow(u), Mended(w, matched, summary);
    assert PlainAll(h) == PlainAll(mended);
    PlainPaired(h, {});
    PlainPaired(mended, {});
    AnsweredIffSettled(w, summary);
    SanitizeIdentityIff(h);
    PairedIsWellPaired(h);
    if Settled(w, summary) {
      RecordedPartly(w, 0);
      assert w[0..] == w;
      MendedPairs(w, {}, matched, summary);
      assert {} * matched == {};
    } else if WellPaired(h) {
      WellPairedAnswers(h);
    }
    SecondHeal(t, u, next);
  }

  lemma HealableTable(t: Table, next: nat, summary: Option<Row>, orphan: Row -> bool)
    requires WellFormed(t) && Below(t, next) && QueuedAreUsers(t) && OrphansAlone(t, t, orphan)
    requires summary.Some? ==> summary.value in t
    ensures Healable(View(t), next, summary, orphan)
  {
    ViewSorted(t);
    ViewBelow(t, next);
    forall r ensures r in View(t) <==> r in t {
      InView(t, r);
    }
  }

  lemma SecondHeal(t: Table, u: Table, next: nat)
    requires WellFormed(t) && Below(t, next) && QueuedAreUsers(t) && Recorded(LlmWindow(t))
    requires OrphansAlone(t, t, OrphanIn(ActiveSummary(t), RepliedIds(LlmWindow(t))))
    requires u == Healed(t, next).0
    ensures ToHeal(WindowRows(u, true)) == [] <==> Settled(LlmWindow(t), ActiveSummary(t))
  {
    var v, w, summary := View(t), LlmWindow(t), ActiveSummary(t);
    var matched := RepliedIds(w);
    var orphan := OrphanIn(summary, matched);
    HealedView(t, next);
    HealableTable(t, next, summary, orphan);
    HealListShown(v, next, summary, orphan, matched, true);
    var h, all := WindowRows(u, true), Filter(v, Visible(summary, true));
    RecordedRepliesAreCalls(w);
    AllRowsGood(v, summary);
    MendedGood(h, all, matched, summary);
    NothingToHealIff(h);
    HealListShown(v, next, summary, orphan, matched, false);
    var mended := Mended(w, matched, summary);
    PlainPaired(LlmWindow(u), {});
    PlainPaired(mended, {});
    forall r | r in View(u) ensures r in u {
      InView(u, r);
    }
    QueuedCarryNothing(View(u), summary);
    AnsweredIffSettled(w, summary);
  }

  lemma AllRowsGood(v: seq<Row>, summary: Option<Row>)
    requires QueuedAreUsers(v) && AllGood(Filter(v, Visible(summary, false)))
    ensures AllGood(Filter(v, Visible(summary, true)))
  {
    FilterMembers(v, Visible(summary, false));
    FilterMembers(v, Visible(summary, true));
  }
}
