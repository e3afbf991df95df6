/**
 The history a user scrolls through: pages of the visible rows, newest page first, chained
 by the position of each page's oldest row, and the delta of rows created since a cursor.
 */
module HistoryPages {
  import opened Wrappers
  import opened Transcript
  import opened Positions

  const PAGE_SIZE := 100

  predicate UserVisible(r: Row) {
    r.kind != Note && r.kind != Reverted
  }

  function Shown(t: Table): seq<Row> {
    Filter(View(t), UserVisible)
  }

  /** A position to read before; a legacy cursor has no id. */
  datatype PageCursor = PageCursor(seqNo: int, id: Option<nat>)

  predicate BeforeCursor(r: Row, c: PageCursor) {
    r.seqNo < c.seqNo || (c.id.Some? && r.seqNo == c.seqNo && r.id < c.id.value)
  }

  function OlderThan(before: Option<PageCursor>): Row -> bool {
    (r: Row) => before.None? || BeforeCursor(r, before.value)
  }

  /** The visible rows a page may draw on. */
  function Older(t: Table, before: Option<PageCursor>): seq<Row> {
    Filter(Shown(t), OlderThan(before))
  }

  datatype Page = Page(rows: seq<Row>, hasMore: bool, next: Option<PageCursor>)

  function Reversed(v: seq<Row>): (r: seq<Row>)
    ensures |r| == |v|
    ensures forall i :: 0 <= i < |v| ==> r[i] == v[|v| - 1 - i]
  {
    if v == [] then [] else Reversed(v[1..]) + [v[0]]
  }

  function FirstRows(v: seq<Row>, n: nat): seq<Row> {
    if |v| <= n then v else v[..n]
  }

  function LastRows(v: seq<Row>, n: nat): seq<Row> {
    if |v| <= n then v else v[|v| - n..]
  }

  function CursorAt(r: Row): PageCursor {
    PageCursor(r.seqNo, Some(r.id))
  }

  function PageOf(t: Table, before: Option<PageCursor>): Page {
    var older := Older(t, before);
    var rows := LastRows(older, PAGE_SIZE);
    Page(rows, |older| > PAGE_SIZE, if |older| > PAGE_SIZE then Some(CursorAt(rows[0])) else None)
  }

  lemma NewestReversed(older: seq<Row>, n: nat)
    ensures Reversed(FirstRows(FirstRows(Reversed(older), n + 1), n)) == LastRows(older, n)
  {
    var newest, last := FirstRows(FirstRows(Reversed(older), n + 1), n), LastRows(older, n);
    assert |newest| == |last|;
    forall i | 0 <= i < |last| ensures Reversed(newest)[i] == last[i] {
      assert newest[|newest| - 1 - i] == Reversed(older)[|newest| - 1 - i];
    }
  }

  /** The newest rows older than the cursor; one row more is read to learn whether there are more. */
  method GetAgentHistory(t: Table, before: Option<PageCursor>) returns (page: Page)
    ensures page == PageOf(t, before)
  {
    var raw := FirstRows(Reversed(Older(t, before)), PAGE_SIZE + 1);
    var hasMore := |raw| > PAGE_SIZE;
    NewestReversed(Older(t, before), PAGE_SIZE);
    raw := FirstRows(raw, PAGE_SIZE);
    var rows := Reversed(raw);
    var next := if hasMore && rows != [] then Some(CursorAt(rows[0])) else None;
    page := Page(rows, hasMore, next);
  }

  // ---- Walking the pages ---------------------------------------------------------------

  lemma {:induction false} CutBefore(v: seq<Row>, k: nat)
    requires Sorted(v) && k < |v|
    ensures Filter(v, OlderThan(Some(CursorAt(v[k])))) == v[..k]
  {
    var p := OlderThan(Some(CursorAt(v[k])));
    assert v == v[..k] + v[k..];
    FilterConcat(v[..k], v[k..], p);
    FilterAll(v[..k], p);
    FilterNone(v[k..], p);
  }

  lemma ShownSorted(t: Table)
    requires WellFormed(t)
    ensures Sorted(Shown(t))
  {
    ViewSorted(t);
    FilterSorted(View(t), UserVisible);
  }

  lemma OlderSorted(t: Table, before: Option<PageCursor>)
    requires WellFormed(t)
    ensures Sorted(Older(t, before))
  {
    ShownSorted(t);
    FilterSorted(Shown(t), OlderThan(before));
  }

  lemma OlderStill(t: Table, before: Option<PageCursor>, k: nat)
    requires WellFormed(t) && k < |Older(t, before)|
    ensures Older(t, Some(CursorAt(Older(t, before)[k]))) == Older(t, before)[..k]
  {
    var older := Older(t, before);
    var next := Some(CursorAt(older[k]));
    OlderSorted(t, before);
    CutBefore(older, k);
    FilterMembers(Shown(t), OlderThan(before));
    assert older[k] in older;
    FilterTwice(Shown(t), OlderThan(before), OlderThan(next), OlderThan(next));
  }

  /** What remains behind a page is what its cursor reads next. */
  lemma NextOlder(t: Table, before: Option<PageCursor>)
    requires WellFormed(t) && PageOf(t, before).hasMore
    ensures var p := PageOf(t, before);
            Older(t, before) == Older(t, p.next) + p.rows && |Older(t, p.next)| == |Older(t, before)| - PAGE_SIZE
  {
    var older := Older(t, before);
    var k := |older| - PAGE_SIZE;
    OlderStill(t, before, k);
    assert older == older[..k] + older[k..] && older[k..][0] == older[k];
  }

  /** All the pages from a cursor back, put together in reading order. */
  function Walk(t: Table, before: Option<PageCursor>): (rows: seq<Row>)
    requires WellFormed(t)
    decreases |Older(t, before)|
  {
    var p := PageOf(t, before);
    if !p.hasMore then p.rows
    else
      NextOlder(t, before);
      Walk(t, p.next) + p.rows
  }

  function Pages(t: Table, before: Option<PageCursor>): nat
    requires WellFormed(t)
    decreases |Older(t, before)|
  {
    var p := PageOf(t, before);
    if !p.hasMore then 1
    else
      NextOlder(t, before);
      Pages(t, p.next) + 1
  }

  /** The walk ends, after one page for each hundred rows begun, with exactly the visible rows. */
  lemma {:induction false} WalkIsOlder(t: Table, before: Option<PageCursor>)
    requires WellFormed(t)
    ensures Walk(t, before) == Older(t, before)
    ensures |Older(t, before)| <= Pages(t, before) * PAGE_SIZE
    ensures Pages(t, before) == 1 || (Pages(t, before) - 1) * PAGE_SIZE < |Older(t, before)|
    decreases |Older(t, before)|
  {
    if PageOf(t, before).hasMore {
      NextOlder(t, before);
      WalkIsOlder(t, PageOf(t, before).next);
    }
  }

  lemma WalkIsShown(t: Table)
    requires WellFormed(t)
    ensures Walk(t, None) == Shown(t)
  {
    WalkIsOlder(t, None);
    FilterAll(Shown(t), OlderThan(None));
  }

  /** Rows written behind the cursor while the user scrolls change no older page. */
  lemma {:induction false} OlderPagesStay(t: Table, added: seq<Row>, c: PageCursor)
    requires WellFormed(t + added) && forall r :: r in added ==> !BeforeCursor(r, c)
    ensures PageOf(t + added, Some(c)) == PageOf(t, Some(c))
  {
    PrefixWellFormed(t, added);
    OlderByTable(t, c);
    OlderByTable(t + added, c);
    var p := (r: Row) => UserVisible(r) && BeforeCursor(r, c);
    FilterConcat(t, added, p);
    FilterNone(added, p);
    assert Filter(t, p) + [] == Filter(t, p);
  }

  lemma OlderByTable(t: Table, c: PageCursor)
    requires WellFormed(t)
    ensures Older(t, Some(c)) == View(Filter(t, (r: Row) => UserVisible(r) && BeforeCursor(r, c)))
  {
    var p := (r: Row) => UserVisible(r) && BeforeCursor(r, c);
    FilterTwice(View(t), UserVisible, OlderThan(Some(c)), p);
    FilterView(t, p);
  }

  /**
   A cursor without an id reads on correctly exactly when no visible row shares the
   position of the page's oldest row and precedes it.
   */
  lemma LegacyCursorIff(t: Table, k: nat)
    requires WellFormed(t) && k < |Shown(t)|
    ensures Older(t, Some(PageCursor(Shown(t)[k].seqNo, None))) == Shown(t)[..k]
            <==> forall r :: r in Shown(t)[..k] ==> r.seqNo != Shown(t)[k].seqNo
  {
    var v := Shown(t);
    var p := OlderThan(Some(PageCursor(v[k].seqNo, None)));
    ShownSorted(t);
    assert v == v[..k] + v[k..];
    FilterConcat(v[..k], v[k..], p);
    forall r | r in v[k..] ensures !p(r) {
      var i :| 0 <= i < |v[k..]| && v[k..][i] == r;
      assert v[k + i] == r;
      assert i > 0 ==> Before(v[k], v[k + i]);
    }
    FilterNone(v[k..], p);
    assert Filter(v[..k], p) + [] == Filter(v[..k], p);
    FilterMembers(v[..k], p);
    if forall r :: r in v[..k] ==> r.seqNo != v[k].seqNo {
      forall r | r in v[..k] ensures p(r) {
        var i :| 0 <= i < k && v[i] == r;
        assert Before(v[i], v[k]);
      }
      FilterAll(v[..k], p);
    }
  }

  // ---- The delta -----------------------------------------------------------------------

  function CreatedAfter(since: nat): Row -> bool {
    (r: Row) => r.id > since && UserVisible(r)
  }

  function CreatedBy(since: nat): Row -> bool {
    (r: Row) => r.id <= since
  }

  datatype Delta = Delta(rows: seq<Row>, truncated: bool)

  /** The oldest-created rows after the cursor, put in position order. */
  function DeltaSince(t: Table, since: nat, limit: nat): Delta {
    var rows := FirstRows(Filter(t, CreatedAfter(since)), limit + 1);
    Delta(View(FirstRows(rows, limit)), |rows| > limit)
  }

  /** The client sorts the delta into the rows it has. */
  function Merged(client: seq<Row>, delta: seq<Row>): seq<Row>
    decreases |delta|
  {
    if delta == [] then client else Merged(Insert(client, delta[0]), delta[1..])
  }

  ghost predicate DistinctIds(v: seq<Row>) {
    forall i, j :: 0 <= i < j < |v| ==> v[i].id != v[j].id
  }

  lemma {:induction false} MergedAre(client: seq<Row>, delta: seq<Row>)
    requires Sorted(client) && Sorted(delta)
    requires forall a, b :: a in client && b in delta ==> a.id != b.id
    requires DistinctIds(delta)
    ensures Sorted(Merged(client, delta)) && multiset(Merged(client, delta)) == multiset(client) + multiset(delta)
    decreases |delta|
  {
    if delta != [] {
      var r, rest := delta[0], delta[1..];
      assert delta == [r] + rest && r in delta;
      forall i | 0 <= i < |client| ensures client[i].id != r.id {
        assert client[i] in client;
      }
      InsertSorted(client, r);
      InsertMembers(client, r);
      forall a, b | a in Insert(client, r) && b in rest ensures a.id != b.id {
        assert a in multiset(Insert(client, r));
        assert b in delta;
        if a == r {
          var j :| 0 <= j < |rest| && rest[j] == b;
          assert delta[0].id != delta[j + 1].id;
        } else {
          assert a in multiset(client);
        }
      }
      forall i, j | 0 <= i < j < |rest| ensures rest[i].id != rest[j].id {
        assert delta[i + 1].id != delta[j + 1].id;
      }
      MergedAre(Insert(client, r), rest);
    }
  }

  lemma {:induction false} SplitById(v: seq<Row>, since: nat)
    requires forall r :: r in v ==> UserVisible(r)
    ensures multiset(v) == multiset(Filter(v, CreatedBy(since))) + multiset(Filter(v, CreatedAfter(since)))
  {
    if v != [] {
      assert v[0] in v && v == [v[0]] + v[1..];
      SplitById(v[1..], since);
    }
  }

  /** An untruncated delta is all the visible rows created after the cursor. */
  lemma UntruncatedDelta(t: Table, since: nat, limit: nat)
    requires WellFormed(t)
    ensures DeltaSince(t, since, limit).truncated <==> |Filter(t, CreatedAfter(since))| > limit
    ensures !DeltaSince(t, since, limit).truncated ==>
              DeltaSince(t, since, limit).rows == Filter(Shown(t), CreatedAfter(since))
  {
    FilterView(t, CreatedAfter(since));
    FilterTwice(View(t), UserVisible, CreatedAfter(since), CreatedAfter(since));
  }

  /**
   A client that shows rows created up to the cursor gets the current history by sorting
   an untruncated delta into them, exactly when its rows are the ones still shown from
   that time: none of them moved, left or changed.
   */
  lemma DeltaMergesIff(t: Table, client: seq<Row>, since: nat, limit: nat)
    requires WellFormed(t) && Sorted(client) && forall r :: r in client ==> r.id <= since
    requires !DeltaSince(t, since, limit).truncated
    ensures Merged(client, DeltaSince(t, since, limit).rows) == Shown(t)
            <==> client == Filter(Shown(t), CreatedBy(since))
  {
    var v := Shown(t);
    UntruncatedDelta(t, since, limit);
    ShownSorted(t);
    FilterSorted(v, CreatedBy(since));
    MergedDelta(t, client, since);
    FilterMembers(View(t), UserVisible);
    SplitById(v, since);
    SameRest(client, Filter(v, CreatedBy(since)), Filter(v, CreatedAfter(since)), v,
             Merged(client, Filter(v, CreatedAfter(since))));
  }

  lemma MergedDelta(t: Table, client: seq<Row>, since: nat)
    requires WellFormed(t) && Sorted(client) && forall r :: r in client ==> r.id <= since
    ensures var delta := Filter(Shown(t), CreatedAfter(since));
            Sorted(Merged(client, delta)) && multiset(Merged(client, delta)) == multiset(client) + multiset(delta)
  {
    ShownSorted(t);
    FilterSorted(Shown(t), CreatedAfter(since));
    FilterMembers(Shown(t), CreatedAfter(since));
    DeltaIds(t, since);
    MergedAre(client, Filter(Shown(t), CreatedAfter(since)));
  }

  lemma SameRest(client: seq<Row>, kept: seq<Row>, delta: seq<Row>, all: seq<Row>, merged: seq<Row>)
    requires Sorted(client) && Sorted(kept) && Sorted(all) && Sorted(merged)
    requires multiset(all) == multiset(kept) + multiset(delta)
    requires multiset(merged) == multiset(client) + multiset(delta)
    ensures merged == all <==> client == kept
  {
    if client == kept {
      SortedUnique(merged, all);
    }
    if merged == all {
      assert multiset(client) == multiset(merged) - multiset(delta);
      assert multiset(kept) == multiset(all) - multiset(delta);
      SortedUnique(client, kept);
    }
  }

  lemma ShownIds(t: Table)
    requires WellFormed(t)
    ensures forall a, b :: a in Shown(t) && b in Shown(t) && a.id == b.id ==> a == b
  {
    FilterMembers(View(t), UserVisible);
    forall a, b | a in Shown(t) && b in Shown(t) && a.id == b.id ensures a == b {
      InView(t, a);
      InView(t, b);
      var i :| 0 <= i < |t| && t[i] == a;
      var j :| 0 <= j < |t| && t[j] == b;
    }
  }

  lemma DeltaIds(t: Table, since: nat)
    requires WellFormed(t)
    ensures DistinctIds(Filter(Shown(t), CreatedAfter(since)))
  {
    var delta := Filter(Shown(t), CreatedAfter(since));
    ShownSorted(t);
    FilterSorted(Shown(t), CreatedAfter(since));
    FilterMembers(Shown(t), CreatedAfter(since));
    ShownIds(t);
    forall i, j | 0 <= i < j < |delta| ensures delta[i].id != delta[j].id {
      assert delta[i] in delta && delta[j] in delta && Before(delta[i], delta[j]);
    }
  }
}
