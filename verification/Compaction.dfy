/**
 Compaction seen from both sides: once a compacted message list is synced, the window
 derived from the table is the live list, in the same order.
 */
module Compaction {
  import opened Wrappers
  import opened Transcript
  import opened Positions
  import opened Window
  import opened Queue
  import opened Checkpoint
  import opened WriteBack

  // ---- Ids -----------------------------------------------------------------------------

  function PickIds(ids: seq<nat>, keep: set<nat>): seq<nat> {
    if ids == [] then [] else (if ids[0] in keep then [ids[0]] else []) + PickIds(ids[1..], keep)
  }

  function IdSet(ids: seq<nat>): set<nat> {
    set id | id in ids
  }

  function LiveIds(ms: seq<Live>): seq<nat> {
    if ms == [] then []
    else (if ms[0].dbId.Some? then [ms[0].dbId.value] else []) + LiveIds(ms[1..])
  }

  /** The messages the live side would send: not excluded, not system. */
  function MessagesForLlm(ms: seq<Live>): seq<Live> {
    if ms == [] then []
    else (if !ms[0].excluded && ms[0].role != System then [ms[0]] else []) + MessagesForLlm(ms[1..])
  }

  lemma {:induction false} PickConcat(a: seq<nat>, b: seq<nat>, keep: set<nat>)
    ensures PickIds(a + b, keep) == PickIds(a, keep) + PickIds(b, keep)
  {
    if a == [] {
      assert a + b == b;
    } else {
      PickConcat(a[1..], b, keep);
      assert (a + b)[1..] == a[1..] + b;
      Reassociate(if a[0] in keep then [a[0]] else [], PickIds(a[1..], keep), PickIds(b, keep));
    }
  }

  lemma {:induction false} PickTwice(a: seq<nat>, some: set<nat>, all: set<nat>)
    requires some <= all
    ensures PickIds(PickIds(a, all), some) == PickIds(a, some)
  {
    if a != [] {
      PickTwice(a[1..], some, all);
      PickConcat(if a[0] in all then [a[0]] else [], PickIds(a[1..], all), some);
    }
  }

  lemma IdsConcat(v: seq<Row>, w: seq<Row>)
    ensures Ids(v + w) == Ids(v) + Ids(w)
  {
  }

  /** A filter that only looks at ids picks ids. */
  lemma {:induction false} FilterPicks(v: seq<Row>, p: Row -> bool, keep: set<nat>)
    requires forall r :: r in v ==> (p(r) <==> r.id in keep)
    ensures Ids(Filter(v, p)) == PickIds(Ids(v), keep)
  {
    if v != [] {
      assert v[0] in v;
      FilterPicks(v[1..], p, keep);
      assert Ids(v) == [v[0].id] + Ids(v[1..]);
      FilterCons(v[0], v[1..], p);
      assert v == [v[0]] + v[1..];
      IdsConcat([v[0]], Filter(v[1..], p));
    }
  }

  // ---- The rows a compaction appends ---------------------------------------------------

  lemma {:induction false} SkipStored(t: Table, next: nat, tail: Option<int>, a: seq<Live>, b: seq<Live>,
                                      anchored: seq<Option<int>>)
    requires |anchored| == |a + b| && forall i :: 0 <= i < |a| ==> Takes(a[i]) == 0
    ensures NewRows(t, next, tail, a + b, anchored) == NewRows(t, next, tail, b, anchored[|a|..])
    decreases |a|
  {
    if a == [] {
      assert a + b == b && anchored[0..] == anchored;
    } else {
      assert (a + b)[1..] == a[1..] + b;
      SkipStored(t, next, tail, a[1..], b, anchored[1..]);
      assert anchored[1..][|a[1..]|..] == anchored[|a|..];
    }
  }

  lemma {:induction false} AnchoredConcat(t: Table, a: seq<Live>, b: seq<Live>)
    ensures AnchoredSeqs(t, a + b)[|a|..] == AnchoredSeqs(t, b)
  {
    if a == [] {
      assert a + b == b;
    } else {
      assert (a + b)[1..] == a[1..] + b;
      AnchoredConcat(t, a[1..], b);
    }
  }

  /** New messages that follow everything stored. */
  ghost predicate Appends(ns: seq<Live>) {
    forall i :: 0 <= i < |ns| ==>
      !ns[i].seen && Stores(ns[i]) && !ns[i].isSummary && !ns[i].excluded && ns[i].dbId.None?
  }

  lemma {:induction false} AppendedAnchors(t: Table, ns: seq<Live>)
    requires Appends(ns)
    ensures AnchorId(ns) == None
    ensures forall i :: 0 <= i < |ns| ==> AnchoredSeqs(t, ns)[i] == None
  {
    if ns != [] {
      AppendedAnchors(t, ns[1..]);
    }
  }

  function Counting(next: nat, n: nat): (ids: seq<nat>)
    ensures |ids| == n
    decreases n
  {
    if n == 0 then [] else [next] + Counting(next + 1, n - 1)
  }

  ghost predicate PlainRow(r: Row) {
    r.kind == Chat || r.kind == Note
  }

  ghost predicate CanAppend(t: Table, next: nat, tail: Option<int>) {
    WellFormed(t) && Below(t, next) && NextTail(t, tail) >= NextSeq(t)
  }

  lemma AppendOne(t: Table, next: nat, tail: Option<int>, r: Row)
    requires CanAppend(t, next, tail) && r.id == next && r.seqNo == NextTail(t, tail)
    ensures WellFormed(t + [r]) && Below(t + [r], next + 1) && View(t + [r]) == View(t) + [r]
    ensures NextTail(t + [r], Some(r.seqNo)) == NextSeq(t + [r])
  {
    AppendGoesLast(t, r);
    SavedWellFormed(t, r);
    NextSeqAppended(t, r);
  }

  lemma NewRowsStep(t: Table, next: nat, tail: Option<int>, ns: seq<Live>, anchored: seq<Option<int>>, r: Row)
    requires ns != [] && !ns[0].seen && Stores(ns[0]) && |anchored| == |ns| && anchored[0] == None
    requires r == RowFor(ns[0], next, NextTail(t, tail))
    ensures NewRows(t, next, tail, ns, anchored)
            == [r] + NewRows(t + [r], next + 1, Some(r.seqNo), ns[1..], anchored[1..])
  {
  }

  /** Rows appended to a table: they close its view, under the ids counted from `next`. */
  ghost predicate Closes(t: Table, rows: seq<Row>, next: nat, n: nat) {
    && View(t + rows) == View(t) + rows && Ids(rows) == Counting(next, n)
    && forall r :: r in rows ==> PlainRow(r)
  }

  /** `u` is `t` with `r` behind it, and so are their views; then so it is with more rows behind. */
  lemma ViewCons(t: Table, r: Row, rest: seq<Row>, u: Table, v: seq<Row>)
    requires u == t + [r] && View(u) == v + [r] && View(u + rest) == View(u) + rest
    ensures View(t + ([r] + rest)) == v + ([r] + rest)
  {
    assert u + rest == t + ([r] + rest) by { Reassociate(t, [r], rest); }
    assert v + [r] + rest == v + ([r] + rest) by { Reassociate(v, [r], rest); }
  }

  lemma ClosesCons(t: Table, r: Row, rest: seq<Row>, next: nat, n: nat)
    requires n > 0 && r.id == next && PlainRow(r) && View(t + [r]) == View(t) + [r]
    requires Closes(t + [r], rest, next + 1, n - 1)
    ensures Closes(t, [r] + rest, next, n)
  {
    ViewCons(t, r, rest, t + [r], View(t));
    IdsConcat([r], rest);
  }

  lemma {:induction false} AppendsView(t: Table, next: nat, tail: Option<int>, ns: seq<Live>,
                                       anchored: seq<Option<int>>)
    requires CanAppend(t, next, tail)
    requires Appends(ns) && |anchored| == |ns| && forall i :: 0 <= i < |ns| ==> anchored[i] == None
    ensures Closes(t, NewRows(t, next, tail, ns, anchored), next, |ns|)
    decreases |ns|
  {
    if ns == [] {
      assert t + [] == t && View(t) + [] == View(t);
    } else {
      var r := RowFor(ns[0], next, NextTail(t, tail));
      AppendOne(t, next, tail, r);
      NewRowsStep(t, next, tail, ns, anchored, r);
      AppendsView(t + [r], next + 1, Some(r.seqNo), ns[1..], anchored[1..]);
      ClosesCons(t, r, NewRows(t + [r], next + 1, Some(r.seqNo), ns[1..], anchored[1..]), next, |ns|);
    }
  }
}
