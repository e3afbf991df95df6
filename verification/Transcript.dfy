/**
 The session transcript: rows with sparse integer positions, read in `(seq, id)` order.

 A table is the sequence of rows in creation order (ids grow). `View` sorts it, and the
 lemmas say what each way of writing the table does to the sorted list.
 */
module Transcript {
  import opened Wrappers

  const SEQ_STEP: int := 1024

  /** `Other` is a row no runtime message can be built from. */
  datatype Role = System | User | Assistant | Tool | Other

  datatype Kind = Chat | Note | Queued | Summary | Reverted

  datatype ToolCall = ToolCall(id: string, name: string, arguments: string)

  /** One stored message. `replyTo` is the tool call a tool row answers ("" for none). */
  datatype Row = Row(
    id: nat,
    seqNo: int,
    role: Role,
    kind: Kind,
    pinned: bool,
    content: string,
    calls: seq<ToolCall>,
    replyTo: string,
    attachmentFor: Option<nat>)

  type Table = seq<Row>

  /** Ids are handed out in creation order. */
  ghost predicate WellFormed(t: Table) {
    forall i, j :: 0 <= i < j < |t| ==> t[i].id < t[j].id
  }

  ghost predicate Below(t: seq<Row>, bound: nat) {
    forall i :: 0 <= i < |t| ==> t[i].id < bound
  }

  // ---- The ordering key ----------------------------------------------------------------

  predicate Before(a: Row, b: Row) {
    a.seqNo < b.seqNo || (a.seqNo == b.seqNo && a.id < b.id)
  }

  ghost predicate Sorted(v: seq<Row>) {
    forall i, j :: 0 <= i < j < |v| ==> Before(v[i], v[j])
  }

  function Insert(v: seq<Row>, r: Row): seq<Row> {
    if v == [] || Before(r, v[0]) then [r] + v else [v[0]] + Insert(v[1..], r)
  }

  /** The rows in position order. */
  function View(t: Table): seq<Row> {
    if t == [] then [] else Insert(View(t[..|t| - 1]), t[|t| - 1])
  }

  function Ids(v: seq<Row>): seq<nat> {
    seq(|v|, i requires 0 <= i < |v| => v[i].id)
  }

  /** Where a row at position `s` that is newer than every row of `v` goes. */
  function Rank(v: seq<Row>, s: int): (k: nat)
    ensures k <= |v|
  {
    if v == [] || v[0].seqNo > s then 0 else 1 + Rank(v[1..], s)
  }

  lemma {:induction false} InsertMembers(v: seq<Row>, r: Row)
    ensures multiset(Insert(v, r)) == multiset(v) + multiset{r}
  {
    if v == [] || Before(r, v[0]) {
    } else {
      InsertMembers(v[1..], r);
      assert v == [v[0]] + v[1..];
    }
  }

  lemma {:induction false} InsertSorted(v: seq<Row>, r: Row)
    requires Sorted(v)
    requires forall i :: 0 <= i < |v| ==> v[i].id != r.id
    ensures Sorted(Insert(v, r))
  {
    if v == [] || Before(r, v[0]) {
    } else {
      InsertSorted(v[1..], r);
      var w := Insert(v[1..], r);
      InsertMembers(v[1..], r);
      forall i | 0 <= i < |w| ensures Before(v[0], w[i]) {
        assert w[i] in multiset(w);
        if w[i] != r {
          assert w[i] in multiset(v[1..]);
          assert w[i] in v[1..];
        }
      }
    }
  }

  lemma {:induction false} ViewMembers(t: Table)
    ensures multiset(View(t)) == multiset(t)
    ensures |View(t)| == |t|
  {
    if t != [] {
      var init := t[..|t| - 1];
      ViewMembers(init);
      InsertMembers(View(init), t[|t| - 1]);
      assert t == init + [t[|t| - 1]];
    }
    assert |multiset(View(t))| == |multiset(t)|;
  }

  lemma InView(t: Table, r: Row)
    ensures r in View(t) <==> r in t
  {
    ViewMembers(t);
    assert r in View(t) <==> r in multiset(View(t));
    assert r in t <==> r in multiset(t);
  }

  lemma {:induction false} ViewSorted(t: Table)
    requires WellFormed(t)
    ensures Sorted(View(t))
  {
    if t != [] {
      var init := t[..|t| - 1];
      ViewSorted(init);
      var last := t[|t| - 1];
      forall i | 0 <= i < |View(init)| ensures View(init)[i].id != last.id {
        InView(init, View(init)[i]);
      }
      InsertSorted(View(init), last);
    }
  }

  /** Sorted arrangements are unique: `View` is the ordering, not one of several. */
  lemma {:induction false} SortedUnique(v: seq<Row>, w: seq<Row>)
    requires Sorted(v) && Sorted(w)
    requires multiset(v) == multiset(w)
    ensures v == w
  {
    if v == [] {
      assert |multiset(w)| == 0;
    } else {
      assert v[0] in multiset(w);
      assert |w| > 0;
      assert w[0] in multiset(v);
      assert v[0] == w[0];
      assert v == [v[0]] + v[1..] && w == [w[0]] + w[1..];
      assert multiset(v[1..]) == multiset(v) - multiset{v[0]};
      assert multiset(w[1..]) == multiset(w) - multiset{w[0]};
      SortedUnique(v[1..], w[1..]);
    }
  }

  /** A newest row lands right behind every row at its position or lower. */
  lemma {:induction false} InsertNewest(v: seq<Row>, r: Row)
    requires Sorted(v) && Below(v, r.id)
    ensures var k := Rank(v, r.seqNo); Insert(v, r) == v[..k] + [r] + v[k..]
  {
    if v == [] || Before(r, v[0]) {
    } else {
      InsertNewest(v[1..], r);
      assert v == [v[0]] + v[1..];
    }
  }

  lemma {:induction false} RankSplits(v: seq<Row>, s: int)
    requires Sorted(v)
    ensures forall i :: 0 <= i < Rank(v, s) ==> v[i].seqNo <= s
    ensures forall i :: Rank(v, s) <= i < |v| ==> v[i].seqNo > s
  {
    if v == [] || v[0].seqNo > s {
    } else {
      RankSplits(v[1..], s);
    }
  }

  lemma {:induction false} RankIs(v: seq<Row>, s: int, k: nat)
    requires k <= |v|
    requires forall i :: 0 <= i < k ==> v[i].seqNo <= s
    requires forall i :: k <= i < |v| ==> v[i].seqNo > s
    ensures Rank(v, s) == k
  {
    if k > 0 {
      RankIs(v[1..], s, k - 1);
    }
  }

  lemma ViewAppended(t: Table, r: Row)
    ensures View(t + [r]) == Insert(View(t), r)
  {
    assert (t + [r])[..|t|] == t;
  }

  lemma ViewBelow(t: Table, bound: nat)
    requires Below(t, bound)
    ensures Below(View(t), bound)
  {
    forall i | 0 <= i < |View(t)| ensures View(t)[i].id < bound {
      InView(t, View(t)[i]);
    }
  }

  /** Writing one newest row, at whatever position, keeps every other pair in order. */
  lemma SavedView(t: Table, r: Row)
    requires WellFormed(t) && Below(t, r.id)
    ensures WellFormed(t + [r])
    ensures var v := View(t); var k := Rank(v, r.seqNo);
            View(t + [r]) == v[..k] + [r] + v[k..]
  {
    ViewAppended(t, r);
    ViewSorted(t);
    ViewBelow(t, r.id);
    InsertNewest(View(t), r);
  }

  lemma SavedWellFormed(t: Table, r: Row)
    requires WellFormed(t) && Below(t, r.id)
    ensures WellFormed(t + [r]) && Below(t + [r], r.id + 1)
  {
    var u := t + [r];
    assert forall i :: 0 <= i < |u| ==> u[i] == if i < |t| then t[i] else r;
  }

  lemma Reassociate<T>(a: seq<T>, b: seq<T>, c: seq<T>)
    ensures a + b + c == a + (b + c)
  {
  }

  // ---- Filtering -----------------------------------------------------------------------

  function Filter(v: seq<Row>, p: Row -> bool): seq<Row> {
    if v == [] then [] else (if p(v[0]) then [v[0]] else []) + Filter(v[1..], p)
  }

  lemma {:induction false} FilterConcat(v: seq<Row>, w: seq<Row>, p: Row -> bool)
    ensures Filter(v + w, p) == Filter(v, p) + Filter(w, p)
  {
    if v == [] {
      assert v + w == w;
    } else {
      FilterConcat(v[1..], w, p);
      assert (v + w)[1..] == v[1..] + w;
      Reassociate(if p(v[0]) then [v[0]] else [], Filter(v[1..], p), Filter(w, p));
    }
  }

  lemma FilterCons(r: Row, v: seq<Row>, p: Row -> bool)
    ensures Filter([r] + v, p) == if p(r) then [r] + Filter(v, p) else Filter(v, p)
  {
    assert ([r] + v)[1..] == v;
    assert [] + Filter(v, p) == Filter(v, p);
  }

  lemma {:induction false} FilterMembers(v: seq<Row>, p: Row -> bool)
    ensures forall r :: r in Filter(v, p) <==> r in v && p(r)
  {
    if v != [] {
      FilterMembers(v[1..], p);
      assert v == [v[0]] + v[1..];
    }
  }

  lemma {:induction false} FilterAll(v: seq<Row>, p: Row -> bool)
    requires forall r :: r in v ==> p(r)
    ensures Filter(v, p) == v
  {
    if v != [] {
      assert v[0] in v;
      FilterAll(v[1..], p);
      assert [v[0]] + v[1..] == v;
    }
  }

  lemma {:induction false} FilterNone(v: seq<Row>, p: Row -> bool)
    requires forall r :: r in v ==> !p(r)
    ensures Filter(v, p) == []
  {
    if v != [] {
      assert v[0] in v;
      FilterNone(v[1..], p);
    }
  }

  lemma {:induction false} FilterSorted(v: seq<Row>, p: Row -> bool)
    requires Sorted(v)
    ensures Sorted(Filter(v, p))
  {
    if v != [] {
      FilterSorted(v[1..], p);
      FilterMembers(v[1..], p);
      var f := Filter(v[1..], p);
      forall i | 0 <= i < |f| ensures Before(v[0], f[i]) {
        assert f[i] in v[1..];
      }
    }
  }

  lemma {:induction false} FilterSame(v: seq<Row>, p: Row -> bool, q: Row -> bool)
    requires forall m :: m in v ==> p(m) == q(m)
    ensures Filter(v, p) == Filter(v, q)
  {
    if v != [] {
      assert v[0] in v;
      FilterSame(v[1..], p, q);
    }
  }

  lemma {:induction false} FilterTwice(v: seq<Row>, p: Row -> bool, q: Row -> bool, both: Row -> bool)
    requires forall m :: both(m) == (p(m) && q(m))
    ensures Filter(Filter(v, p), q) == Filter(v, both)
  {
    if v != [] {
      var r, rest := v[0], v[1..];
      assert v == [r] + rest;
      FilterTwice(rest, p, q, both);
      FilterCons(r, rest, p);
      FilterCons(r, rest, both);
      FilterCons(r, Filter(rest, p), q);
    }
  }

  lemma {:induction false} FilterInsertKept(v: seq<Row>, r: Row, p: Row -> bool)
    requires p(r) && Sorted(v)
    ensures Filter(Insert(v, r), p) == Insert(Filter(v, p), r)
  {
    if v == [] {
    } else if Before(r, v[0]) {
      var f := Filter(v, p);
      FilterMembers(v, p);
      assert f != [] ==> f[0] in v;
      assert Filter([r] + v, p) == [r] + f by { assert ([r] + v)[1..] == v; }
    } else {
      var tail := Insert(v[1..], r);
      FilterInsertKept(v[1..], r, p);
      assert ([v[0]] + tail)[1..] == tail;
      var f := Filter(v[1..], p);
      if p(v[0]) {
        assert Filter(v, p)[1..] == f;
      } else {
        assert [] + f == f && [] + Filter(tail, p) == Filter(tail, p);
      }
    }
  }

  lemma {:induction false} FilterInsertDropped(v: seq<Row>, r: Row, p: Row -> bool)
    requires !p(r)
    ensures Filter(Insert(v, r), p) == Filter(v, p)
  {
    if v == [] || Before(r, v[0]) {
      assert ([r] + v)[1..] == v;
    } else {
      var tail := Insert(v[1..], r);
      FilterInsertDropped(v[1..], r, p);
      assert ([v[0]] + tail)[1..] == tail;
    }
  }

  lemma {:induction false} FilterWellFormed(t: Table, p: Row -> bool)
    requires WellFormed(t)
    ensures WellFormed(Filter(t, p))
  {
    if t != [] {
      FilterWellFormed(t[1..], p);
      FilterMembers(t[1..], p);
      var f := Filter(t[1..], p);
      forall i | 0 <= i < |f| ensures t[0].id < f[i].id {
        assert f[i] in t[1..];
      }
    }
  }

  lemma FilterSnoc(t: seq<Row>, r: Row, p: Row -> bool)
    ensures Filter(t + [r], p) == if p(r) then Filter(t, p) + [r] else Filter(t, p)
  {
    FilterConcat(t, [r], p);
    assert Filter([r], p) == if p(r) then [r] else [];
  }

  /** Selecting rows and ordering them commute. */
  lemma {:induction false} FilterView(t: Table, p: Row -> bool)
    requires WellFormed(t)
    ensures Filter(View(t), p) == View(Filter(t, p))
  {
    if t != [] {
      var init, last := t[..|t| - 1], t[|t| - 1];
      assert t == init + [last];
      FilterSnoc(init, last, p);
      FilterView(init, p);
      if p(last) {
        ViewSorted(init);
        FilterInsertKept(View(init), last, p);
        ViewAppended(Filter(init, p), last);
      } else {
        FilterInsertDropped(View(init), last, p);
      }
    }
  }
}
