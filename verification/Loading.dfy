/** A load hands out rows of the table, each once, and changes nothing of them but dropped calls. */
module Loading {
  import opened Wrappers
  import opened Transcript
  import opened Window
  import opened HistoryCache
  import opened ToolPairs
  import opened Deserialize

  ghost predicate DistinctIds(v: seq<Row>) {
    forall i, j :: 0 <= i < j < |v| ==> v[i].id != v[j].id
  }

  /** Every message is a row of `v`, except for calls it lost. */
  ghost predicate DrawnFrom(ms: seq<Row>, v: seq<Row>) {
    forall m :: m in ms ==> exists r :: r in v && m == r.(calls := m.calls)
  }

  lemma DrawnFromDrawn(a: seq<Row>, b: seq<Row>, c: seq<Row>)
    requires DrawnFrom(a, b) && DrawnFrom(b, c)
    ensures DrawnFrom(a, c)
  {
    forall m | m in a ensures exists r :: r in c && m == r.(calls := m.calls) {
      var q :| q in b && m == q.(calls := m.calls);
      var r :| r in c && q == r.(calls := q.calls);
      assert m == r.(calls := m.calls);
    }
  }

  lemma DrawnTail(rest: seq<Row>, v: seq<Row>)
    requires v != [] && DrawnFrom(rest, v[1..])
    ensures DrawnFrom(rest, v)
  {
    forall m | m in rest ensures exists r :: r in v && m == r.(calls := m.calls) {
      var r :| r in v[1..] && m == r.(calls := m.calls);
      assert r in v;
    }
  }

  lemma DrawnHead(out: Row, rest: seq<Row>, v: seq<Row>)
    requires v != [] && DrawnFrom(rest, v) && out == v[0].(calls := out.calls)
    ensures DrawnFrom([out] + rest, v)
  {
    forall m | m in [out] + rest ensures exists r :: r in v && m == r.(calls := m.calls) {
      assert m == out || m in rest;
      assert v[0] in v;
    }
  }

  lemma NewId(m: Row, v: seq<Row>)
    requires v != [] && DistinctIds(v) && DrawnFrom([m], v[1..])
    ensures m.id != v[0].id
  {
    assert m in [m];
    var r :| r in v[1..] && m == r.(calls := m.calls);
    var k :| 0 <= k < |v[1..]| && v[1..][k] == r;
    assert v[k + 1] == r;
  }

  /** A thinned tail behind a head that may be dropped or lose its calls. */
  lemma DrawnStep(out: seq<Row>, rest: seq<Row>, v: seq<Row>)
    requires v != [] && DistinctIds(v) && |out| <= 1 && (out != [] ==> out[0] == v[0].(calls := out[0].calls))
    requires DrawnFrom(rest, v[1..]) && DistinctIds(rest)
    ensures DrawnFrom(out + rest, v) && DistinctIds(out + rest)
  {
    DrawnTail(rest, v);
    if out == [] {
      assert out + rest == rest;
    } else {
      assert out == [out[0]];
      DrawnHead(out[0], rest, v);
      forall j | 0 <= j < |rest| ensures rest[j].id != out[0].id {
        assert forall m :: m in [rest[j]] ==> m in rest;
        NewId(rest[j], v);
      }
      DistinctCons(out[0], rest);
    }
  }

  lemma DistinctCons(m: Row, rest: seq<Row>)
    requires DistinctIds(rest) && forall j :: 0 <= j < |rest| ==> rest[j].id != m.id
    ensures DistinctIds([m] + rest)
  {
  }

  lemma {:induction false} FilterDraws(v: seq<Row>, p: Row -> bool)
    requires DistinctIds(v)
    ensures DrawnFrom(Filter(v, p), v) && DistinctIds(Filter(v, p))
  {
    if v != [] {
      FilterDraws(v[1..], p);
      DrawnStep(if p(v[0]) then [v[0]] else [], Filter(v[1..], p), v);
    }
  }

  lemma {:induction false} TrimmedDraws(v: seq<Row>, parses: string -> bool, bad: set<string>)
    requires DistinctIds(v)
    ensures DrawnFrom(WithoutReplies(Trimmed(v, parses), bad), v)
            && DistinctIds(WithoutReplies(Trimmed(v, parses), bad))
  {
    if v != [] {
      var t := TrimOne(v[0], parses);
      assert Trimmed(v, parses)[0] == t && Trimmed(v, parses)[1..] == Trimmed(v[1..], parses);
      TrimmedDraws(v[1..], parses, bad);
      DrawnStep(if t.role == Tool && t.replyTo in bad then [] else [t], WithoutReplies(Trimmed(v[1..], parses), bad),
                v);
    }
  }

  lemma {:induction false} SanitizedDraws(v: seq<Row>, expected: set<string>)
    requires DistinctIds(v)
    ensures DrawnFrom(Sanitized(v, expected), v) && DistinctIds(Sanitized(v, expected))
  {
    if v != [] {
      var (out, next) := Kept(v[0], v[1..], expected);
      SanitizedDraws(v[1..], next);
      DrawnStep(out, Sanitized(v[1..], next), v);
    }
  }

  lemma WindowDistinct(t: Table)
    requires WellFormed(t)
    ensures DistinctIds(LlmWindow(t)) && forall r :: r in LlmWindow(t) ==> r in t
  {
    var p := Visible(ActiveSummary(t), false);
    ViewSorted(t);
    ViewMembers(t);
    ViewDistinct(t);
    FilterDraws(View(t), p);
    FilterMembers(View(t), p);
    forall r | r in LlmWindow(t) ensures r in t {
      InView(t, r);
    }
  }

  lemma {:induction false} InsertDistinct(v: seq<Row>, r: Row)
    requires DistinctIds(v) && forall i :: 0 <= i < |v| ==> v[i].id != r.id
    ensures DistinctIds(Insert(v, r))
  {
    if v != [] && !Before(r, v[0]) {
      InsertDistinct(v[1..], r);
      InsertMembers(v[1..], r);
      var w := Insert(v[1..], r);
      forall i | 0 <= i < |w| ensures w[i].id != v[0].id {
        assert w[i] in multiset(w);
        assert w[i] == r || w[i] in v[1..];
      }
    }
  }

  lemma {:induction false} ViewDistinct(t: Table)
    requires WellFormed(t)
    ensures DistinctIds(View(t))
  {
    if t != [] {
      var init, last := t[..|t| - 1], t[|t| - 1];
      ViewDistinct(init);
      forall i | 0 <= i < |View(init)| ensures View(init)[i].id != last.id {
        InView(init, View(init)[i]);
      }
      InsertDistinct(View(init), last);
    }
  }

  /** What a load returns: distinct rows of the table, up to dropped calls. */
  lemma LoadedDraws(t: Table, parses: string -> bool)
    requires WellFormed(t)
    ensures DistinctIds(Messages(LlmWindow(t), parses)) && DrawnFrom(Messages(LlmWindow(t), parses), t)
  {
    var w := LlmWindow(t);
    var ms := Filter(w, IsMessage);
    WindowDistinct(t);
    assert forall r :: r in w ==> r == r.(calls := r.calls);
    FilterDraws(w, IsMessage);
    TrimmedDraws(ms, parses, BadIds(ms, parses));
    SanitizedDraws(Pruned(ms, parses), {});
    DrawnFromDrawn(ms, w, t);
    DrawnFromDrawn(Pruned(ms, parses), ms, t);
    DrawnFromDrawn(Messages(w, parses), Pruned(ms, parses), t);
  }
}
