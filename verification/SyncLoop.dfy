/** One turn of the sync loop: handling the next message leaves the same outcome to reach. */
module SyncLoop {
  import opened Wrappers
  import opened Transcript
  import opened Checkpoint
  import opened WriteBack
  import opened HistoryCache

  /** What a sync comes to. */
  datatype Outcome = Outcome(rows: Table, nextId: nat, live: seq<Live>, flushed: map<nat, bool>)

  function Goal(t: Table, next: nat, live: seq<Live>, anchored: seq<Option<int>>, flushed: map<nat, bool>): Outcome
    requires |anchored| == |live|
  {
    Outcome(t + NewRows(t, next, None, live, anchored), next + Taken(live), SyncLive(live, next),
            NewPins(live, next, flushed))
  }

  /** The loop's outcome, started after the pin flips, is the sync's. */
  lemma GoalIsSync(d: Db, live: seq<Live>, flushed: map<nat, bool>)
    ensures var end := Goal(ApplyPins(d.rows, PinUpdates(live, flushed)), d.nextId, live, AnchoredSeqs(d.rows, live),
                            flushed + PinUpdates(live, flushed));
            && end.live == SyncLive(live, d.nextId) && end.flushed == SyncFlushed(live, d.nextId, flushed)
            && Synced(d, live, flushed)
               == (if Structural(live, flushed) then Db(end.rows, end.nextId, d.revision + 1, d.structure + 1)
                   else Db(end.rows, end.nextId, d.revision, d.structure))
  {
  }

  /** Handling the messages still to come, from here, leads to `goal`. */
  ghost predicate Remaining(goal: Outcome, t: Table, next: nat, tail: Option<int>, rest: seq<Live>,
                            anchored: seq<Option<int>>, flushed: map<nat, bool>, i: nat)
  {
    && |anchored| == |rest| && i + |rest| == |goal.live|
    && t + NewRows(t, next, tail, rest, anchored) == goal.rows
    && next + Taken(rest) == goal.nextId
    && SyncLive(rest, next) == goal.live[i..]
    && NewPins(rest, next, flushed) == goal.flushed
  }

  /** What handling one message does to the table, the tail position and the pin record. */
  ghost predicate Handles(l: Live, anchor: Option<int>, t: Table, next: nat, tail: Option<int>, flushed: map<nat, bool>,
                          t': Table, next': nat, tail': Option<int>, flushed': map<nat, bool>)
  {
    if l.seen || !Stores(l) then
      t' == t && next' == next && tail' == tail && flushed' == Recorded(l, next, flushed)
    else
      var s := if anchor.Some? && l.role != Tool then anchor.value else NextTail(t, tail);
      && t' == t + [RowFor(l, next, s)] && next' == next + 1 && flushed' == Recorded(l, next, flushed)
      && tail' == if anchor.Some? && l.role != Tool then tail else Some(s)
  }

  lemma RemainingStep(goal: Outcome, live: seq<Live>, anchored: seq<Option<int>>, i: nat,
                      t: Table, next: nat, tail: Option<int>, flushed: map<nat, bool>,
                      t': Table, next': nat, tail': Option<int>, flushed': map<nat, bool>)
    requires |anchored| == |live| && i < |live|
    requires Remaining(goal, t, next, tail, live[i..], anchored[i..], flushed, i)
    requires Handles(live[i], anchored[i], t, next, tail, flushed, t', next', tail', flushed')
    ensures Remaining(goal, t', next', tail', live[i + 1..], anchored[i + 1..], flushed', i + 1)
    ensures goal.live[i] == Settle(live[i], next)
  {
    var rest, marks := live[i..], anchored[i..];
    assert rest[0] == live[i] && rest[1..] == live[i + 1..];
    assert marks[0] == anchored[i] && marks[1..] == anchored[i + 1..];
    assert goal.live[i..][0] == goal.live[i] && goal.live[i..][1..] == goal.live[i + 1..];
    var more := NewRows(t', next', tail', rest[1..], marks[1..]);
    if !(rest[0].seen || !Stores(rest[0])) {
      Reassociate(t, [t'[|t|]], more);
    }
  }

  lemma SavesSummaryNext(live: seq<Live>, i: nat)
    requires i < |live|
    ensures SavesSummary(live[..i + 1])
            <==> SavesSummary(live[..i]) || (!live[i].seen && Stores(live[i]) && live[i].isSummary
                                             && live[i].role != Tool)
  {
    var now, next := live[..i], live[..i + 1];
    assert next[i] == live[i];
    forall k | 0 <= k < i ensures next[k] == now[k] {
    }
  }

  lemma SettledNext(settled: seq<Live>, live: seq<Live>, i: nat)
    requires i < |live| == |settled|
    ensures (settled[..i] + live[i..])[i := settled[i]] == settled[..i + 1] + live[i + 1..]
  {
  }

  lemma AllSettled(settled: seq<Live>, live: seq<Live>)
    requires |live| == |settled|
    ensures settled[..|live|] + live[|live|..] == settled && live[..|live|] == live
  {
  }

  lemma {:induction false} AllSeen(live: seq<Live>, next: nat, flushed: map<nat, bool>)
    requires forall i :: 0 <= i < |live| ==> live[i].seen
    ensures SyncLive(live, next) == live && NewPins(live, next, flushed) == flushed && Taken(live) == 0
  {
    if live != [] {
      AllSeen(live[1..], next, flushed);
    }
  }

  /** With every message registered and no pin to flip, a sync is the identity. */
  lemma NothingToSync(d: Db, live: seq<Live>, flushed: map<nat, bool>)
    requires !Writes(live, flushed)
    ensures Synced(d, live, flushed) == d && SyncLive(live, d.nextId) == live
    ensures SyncFlushed(live, d.nextId, flushed) == flushed
  {
    AllSeen(live, d.nextId, flushed);
    NoPins(d.rows);
    NothingNew(d.rows, d.nextId, None, live, AnchoredSeqs(d.rows, live));
    assert flushed + map[] == flushed;
  }
}
