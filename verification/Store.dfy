/**
 The session's stored rows as an object: saving, healing, releasing and cancelling update
 them in place, and each method's new state is the value the other modules reason about.
 */
module Store {
  import opened Wrappers
  import opened Transcript
  import opened Positions
  import opened ToolPairs
  import opened Window
  import opened Queue
  import opened Heal
  import opened Checkpoint
  import opened WriteBack
  import opened HistoryCache

  /** A message to save: its body, and the two flags of its `extra` that choose its kind and pin. */
  datatype Draft = Draft(
    role: Role,
    content: string,
    calls: seq<ToolCall>,
    replyTo: string,
    hiddenFromUser: bool,
    hiddenFromSummary: bool,
    attachmentFor: Option<nat>)

  /** An explicit kind wins; otherwise a summary, then a hidden message, then chat. */
  function KindOf(m: Draft, isSummary: bool, isHidden: bool, kind: Option<Kind>): Kind {
    if kind.Some? then kind.value
    else if isSummary then Summary
    else if isHidden || m.hiddenFromUser then Note
    else Chat
  }

  function PinOf(m: Draft, kind: Kind, pinned: Option<bool>): bool {
    if pinned.Some? then pinned.value else kind == Note && m.hiddenFromSummary
  }

  function DraftRow(m: Draft, id: nat, seqNo: int, kind: Kind, pinned: bool): Row {
    Row(id, seqNo, m.role, kind, pinned, m.content, m.calls, m.replyTo, m.attachmentFor)
  }

  function StubDraft(call: ToolCall): Draft {
    Draft(Tool, INTERRUPTED, [], call.id, false, false, None)
  }

  lemma HealRowsStep(t: Table, next: nat, orphans: seq<Row>, i: nat, matched: set<string>, goal: (Table, nat),
                     stubs: seq<Row>, t': Table, next': nat)
    requires i < |orphans| && HealRows(t, next, orphans[i..], matched) == goal
    requires stubs == StubsFor(t, next, orphans[i], matched) && t' == t + stubs && next' == next + |stubs|
    ensures HealRows(t', next', orphans[i + 1..], matched) == goal
  {
    assert orphans[i..][0] == orphans[i] && orphans[i..][1..] == orphans[i + 1..];
  }

  class SessionStore {
    var rows: Table
    var nextId: nat
    var revision: nat
    var structure: nat

    constructor ()
      ensures State() == Db([], 0, 0, 0) && Valid()
    {
      rows, nextId, revision, structure := [], 0, 0, 0;
    }

    ghost predicate Valid()
      reads this
    {
      WellFormed(rows) && Below(rows, nextId)
    }

    function State(): Db
      reads this
    {
      Db(rows, nextId, revision, structure)
    }

    method BumpHistoryRevision(structural: bool)
      modifies this`revision, this`structure
      ensures revision == old(revision) + 1
      ensures structure == old(structure) + if structural then 1 else 0
    {
      revision := revision + 1;
      if structural {
        structure := structure + 1;
      }
    }

    /** Saves one row, at `at` or at the next append position. */
    method SaveMessage(m: Draft, isSummary: bool, isHidden: bool, kind: Option<Kind>, pinned: Option<bool>,
                       at: Option<int>, flush: bool)
        returns (row: Row)
      requires Valid()
      modifies this
      ensures Valid()
      ensures rows == old(rows) + [row] && nextId == old(nextId) + 1
      ensures var k := KindOf(m, isSummary, isHidden, kind);
              && row == DraftRow(m, old(nextId), if at.Some? then at.value else NextSeq(old(rows)), k,
                                 PinOf(m, k, pinned))
              && (if flush && k == Summary then (revision, structure) == old((revision + 1, structure + 1))
                  else (revision, structure) == old((revision, structure)))
    {
      var k := kind.UnwrapOr(if isSummary then Summary else if isHidden || m.hiddenFromUser then Note else Chat);
      var pin := pinned.UnwrapOr(k == Note && m.hiddenFromSummary);
      var s := at.UnwrapOr(NextSeq(rows));
      row := Row(nextId, s, m.role, k, pin, m.content, m.calls, m.replyTo, m.attachmentFor);
      rows, nextId := rows + [row], nextId + 1;
      if flush && k == Summary {
        BumpHistoryRevision(true);
      }
    }

    /** The rows with an unanswered call, and the ids already answered. */
    static method FindOrphans(w: seq<Row>) returns (orphans: seq<Row>, matched: set<string>)
      ensures orphans == ToHeal(w) && matched == Matched(w)
    {
      var expected, replied: set<string> := {}, {};
      for i := 0 to |w|
        invariant expected + CalledIds(w[i..]) == CalledIds(w)
        invariant replied + RepliedIds(w[i..]) == RepliedIds(w)
      {
        assert w[i..][1..] == w[i + 1..];
        if Calls(w[i]) {
          expected := expected + CallIds(w[i].calls);
        }
        if w[i].role == Tool {
          replied := replied + {w[i].replyTo};
        }
      }
      orphans, matched := [], replied * expected;
      if expected == {} {
        return;
      }
      for i := 0 to |w|
        invariant orphans + Orphans(w[i..], matched) == Orphans(w, matched)
      {
        assert w[i..][1..] == w[i + 1..];
        if Orphaned(w[i], matched) {
          orphans := orphans + [w[i]];
        }
      }
    }

    /** Writes a stub behind every interrupted row of the window. */
    method HealOrphanedToolCalls() returns (inserted: nat)
      requires Valid()
      modifies this
      ensures Valid()
      ensures (rows, nextId) == Healed(old(rows), old(nextId))
      ensures (revision, structure) == old((revision, structure))
      ensures |rows| == |old(rows)| + inserted
    {
      var orphans, matched := FindOrphans(WindowRows(rows, true));
      ghost var goal := HealRows(rows, nextId, orphans, matched);
      inserted := 0;
      for i := 0 to |orphans|
        invariant Valid() && (revision, structure) == old((revision, structure))
        invariant HealRows(rows, nextId, orphans[i..], matched) == goal
        invariant |rows| == |old(rows)| + inserted
      {
        ghost var t, next := rows, nextId;
        var added := HealRow(orphans[i], matched);
        HealRowsStep(t, next, orphans, i, matched, goal, StubsFor(t, next, orphans[i], matched), rows, nextId);
        inserted := inserted + added;
      }
    }

    method HealRow(r: Row, matched: set<string>) returns (added: nat)
      requires Valid()
      modifies this
      ensures Valid()
      ensures var stubs := StubsFor(old(rows), old(nextId), r, matched);
              rows == old(rows) + stubs && nextId == old(nextId) + |stubs| && added == |stubs|
      ensures (revision, structure) == old((revision, structure))
    {
      var missing := Missing(r.calls, matched);
      var upper, anchor := UpperFor(rows, r.seqNo), r.seqNo;
      added := 0;
      for j := 0 to |missing|
        invariant Valid() && (revision, structure) == old((revision, structure))
        invariant nextId == old(nextId) + j && added == j
        invariant rows + StubRows(nextId, anchor, upper, missing[j..])
                  == old(rows) + StubRows(old(nextId), r.seqNo, upper, missing)
      {
        assert missing[j..][0] == missing[j] && missing[j..][1..] == missing[j + 1..];
        anchor := Max(SeqBetween(anchor, upper), anchor);
        var stub := SaveMessage(StubDraft(missing[j]), false, false, None, None, Some(anchor), true);
        added := added + 1;
      }
    }

    /** Flips the queued rows to chat and moves them to the end, in order. */
    method PromoteQueued(queued: seq<Row>)
      requires Valid()
      modifies this`rows
      ensures rows == Promoted(old(rows), queued, NextSeq(old(rows)))
      ensures Valid()
    {
      var base := NextSeq(rows);
      for i := 0 to |queued|
        invariant Valid()
        invariant Promoted(rows, queued[i..], base + i * SEQ_STEP) == Promoted(old(rows), queued, base)
      {
        assert queued[i..][0] == queued[i] && queued[i..][1..] == queued[i + 1..];
        SetRowWellFormed(rows, Promote(queued[i], base + i * SEQ_STEP));
        rows := SetRow(rows, queued[i].(kind := Chat, seqNo := base + i * SEQ_STEP));
      }
    }

    method ReleaseQueuedUserMessages() returns (queued: seq<Row>)
      requires Valid()
      modifies this
      ensures Valid() && State() == ReleasedDb(old(State())) && queued == QueuedRows(old(rows))
    {
      queued := QueuedRows(rows);
      PromoteQueued(queued);
      if queued != [] {
        BumpHistoryRevision(true);
      }
    }

    method CancelQueuedUserMessage(id: nat) returns (cancelled: bool)
      requires Valid()
      modifies this
      ensures Valid() && State() == CancelledDb(old(State()), id) && cancelled == Cancellable(old(rows), id)
    {
      var row := RowById(rows, id);
      if row.None? || row.value.kind != Queued {
        return false;
      }
      CancelKeeps(HistoryCache.State(State(), None), id);
      rows := Filter(rows, (r: Row) => !GoesWith(r, id));
      BumpHistoryRevision(true);
      cancelled := true;
    }

    /** The checkpointer's pin flips. */
    method SetPins(pins: map<nat, bool>)
      requires Valid()
      modifies this`rows
      ensures Valid() && rows == ApplyPins(old(rows), pins)
    {
      PinsKeepShape(rows, pins, nextId);
      rows := ApplyPins(rows, pins);
    }
  }
}
