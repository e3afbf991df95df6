/**
 What the model is shown: derived from kind, position and pin. No row is ever rewritten
 to leave the window. The undo boundary is taken to be unset.
 */
module Window {
  import opened Wrappers
  import opened Transcript

  /** The newest-created summary, wherever it is anchored. */
  function ActiveSummary(t: Table): (s: Option<Row>)
    ensures s.None? <==> forall r :: r in t ==> r.kind != Summary
    ensures s.Some? ==> s.value in t && s.value.kind == Summary
  {
    if t == [] then None
    else if t[|t| - 1].kind == Summary then Some(t[|t| - 1])
    else
      assert t == t[..|t| - 1] + [t[|t| - 1]];
      ActiveSummary(t[..|t| - 1])
  }

  lemma {:induction false} ActiveSummaryNewest(t: Table)
    requires WellFormed(t)
    ensures ActiveSummary(t).Some? ==> forall r :: r in t && r.kind == Summary ==> r.id <= ActiveSummary(t).value.id
  {
    if t != [] && t[|t| - 1].kind != Summary {
      var init := t[..|t| - 1];
      ActiveSummaryNewest(init);
      assert t == init + [t[|t| - 1]];
    }
  }

  lemma {:induction false} ActiveSummaryAppended(t: Table, u: Table)
    requires forall r :: r in u ==> r.kind != Summary
    ensures ActiveSummary(t + u) == ActiveSummary(t)
  {
    if u == [] {
      assert t + u == t;
    } else {
      var init := u[..|u| - 1];
      assert u == init + [u[|u| - 1]];
      assert (t + u)[..|t + u| - 1] == t + init;
      assert u[|u| - 1] in u;
      ActiveSummaryAppended(t, init);
    }
  }

  predicate AtOrAfter(r: Row, summary: Option<Row>) {
    summary.Some? ==> !Before(r, summary.value)
  }

  predicate InWindow(r: Row, summary: Option<Row>, withQueued: bool) {
    && r.kind != Reverted
    && (withQueued || r.kind != Queued)
    && (r.pinned || AtOrAfter(r, summary))
    && (r.kind == Summary ==> summary.Some? && r.id == summary.value.id)
  }

  function Visible(summary: Option<Row>, withQueued: bool): Row -> bool {
    (r: Row) => InWindow(r, summary, withQueued)
  }

  function WindowRows(t: Table, withQueued: bool): seq<Row> {
    Filter(View(t), Visible(ActiveSummary(t), withQueued))
  }

  /** The rows a model call is built from. */
  function LlmWindow(t: Table): seq<Row> {
    WindowRows(t, false)
  }
}
