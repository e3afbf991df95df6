/**
 The checkpointer as an object: which message objects it has stored, the pin it last wrote
 for each row, and the loaded window it may serve again. One session is modelled.
 */
module Checkpointer {
  import opened Wrappers
  import opened Transcript
  import opened Positions
  import opened Window
  import opened Queue
  import opened Checkpoint
  import opened WriteBack
  import opened HistoryCache
  import opened SyncLoop
  import opened Store
  import opened Deserialize

  class Message {
    var dbId: Option<nat>
    var pinned: bool
    var excluded: bool
    const role: Role
    const isSummary: bool
    const hidden: bool
    const content: string
    const thinks: bool
    const calls: seq<ToolCall>
    const replyTo: string

    constructor FromRow(r: Row)
      ensures As(false) == RowLive(r)
    {
      dbId, pinned, excluded, role := Some(r.id), r.pinned, false, r.role;
      isSummary, hidden, content, thinks := r.kind == Summary, r.kind == Note, r.content, false;
      calls, replyTo := r.calls, r.replyTo;
    }

    /** The message's value, given whether it is registered as stored. */
    function As(seen: bool): Live
      reads this
    {
      Live(seen, dbId, pinned, excluded, role, isSummary, hidden, content, thinks, calls, replyTo)
    }
  }

  function LiveOf(ms: seq<Message>, persisted: set<Message>): (s: seq<Live>)
    reads ms
    ensures |s| == |ms|
  {
    seq(|ms|, i requires 0 <= i < |ms| reads ms => ms[i].As(ms[i] in persisted))
  }

  ghost predicate Distinct(ms: seq<Message>) {
    forall i, j :: 0 <= i < j < |ms| ==> ms[i] != ms[j]
  }

  function DraftOf(m: Live): Draft {
    Draft(m.role, m.content, m.calls, m.replyTo, m.hidden, false, None)
  }

  class Checkpointer {
    const store: SessionStore
    var persisted: set<Message>
    var flushed: map<nat, bool>
    var memo: Option<Memo>

    constructor (store: SessionStore)
      ensures this.store == store && persisted == {} && flushed == map[] && memo == None
    {
      this.store := store;
      persisted, flushed, memo := {}, map[], None;
    }

    /** Registers messages as stored; a pin already on record is kept. */
    method MarkLoaded(ms: seq<Message>)
      modifies this`persisted, this`flushed
      ensures persisted == old(persisted) + set m | m in ms
      ensures flushed == FirstPins(LiveOf(ms, {}), old(flushed))
    {
      for i := 0 to |ms|
        invariant persisted == old(persisted) + set m | m in ms[..i]
        invariant FirstPins(LiveOf(ms, {})[i..], flushed) == FirstPins(LiveOf(ms, {}), old(flushed))
      {
        persisted := persisted + {ms[i]};
        assert LiveOf(ms, {})[i..][1..] == LiveOf(ms, {})[i + 1..];
        if ms[i].dbId.Some? && ms[i].dbId.value !in flushed {
          flushed := flushed[ms[i].dbId.value := ms[i].pinned];
        }
        assert ms[..i + 1] == ms[..i] + [ms[i]];
      }
      assert ms[..|ms|] == ms;
    }

    method Invalidate()
      modifies this`memo
      ensures memo == None
    {
      memo := None;
    }

    /** Messages served from the memo: new objects, none of them registered. */
    method Copies(rows: seq<Row>) returns (ms: seq<Message>)
      ensures fresh(ms) && Holds(ms, rows) && LiveOf(ms, persisted) == LoadedLive(rows, true)
    {
      ms := Objects(rows);
      LiveLoaded(ms, rows, persisted, true);
    }

    /** Messages built from rows and registered as stored. */
    method Registered(rows: seq<Row>) returns (ms: seq<Message>)
      modifies this`persisted, this`flushed
      ensures fresh(ms) && Holds(ms, rows) && LiveOf(ms, persisted) == LoadedLive(rows, false)
      ensures persisted == old(persisted) + set m | m in ms
      ensures flushed == FirstPins(RowsLive(rows), old(flushed))
    {
      ms := Objects(rows);
      MarkLoaded(ms);
      HoldsLive(ms, rows);
      LiveLoaded(ms, rows, persisted, false);
    }

    /**
     Loads the context: the memo while its key still fits, else the window of the table,
     whose messages are registered as stored. Messages served from the memo are not.
     */
    method Load(parses: string -> bool) returns (ms: Option<seq<Message>>)
      requires store.Valid()
      modifies this
      ensures var (rows, after) := HistoryCache.Load(store.State(), old(memo), parses);
              var hit := old(memo).Some? && Fits(store.State(), old(memo).value);
              && memo == after
              && (ms == None <==> !hit && rows == [])
              && (ms.Some? ==> fresh(ms.value) && Distinct(ms.value))
              && persisted == old(persisted) + (if hit || ms == None then {} else set m | m in ms.value)
              && flushed == (if hit || ms == None then old(flushed) else FirstPins(RowsLive(rows), old(flushed)))
              && (ms.Some? ==> LiveOf(ms.value, persisted) == LoadedLive(rows, hit))
    {
      var revision, cursor := (store.revision, store.structure), LastPosition(store.rows);
      if memo.Some? && memo.value.revision == revision && memo.value.cursor == cursor {
        var copies := Copies(Messages(memo.value.window, parses));
        return Some(copies);
      }
      var window := LlmWindow(store.rows);
      var rows := DeserializeMessages(window, parses);
      if rows == [] {
        return None;
      }
      var messages := Registered(rows);
      memo := Some(Memo(window, revision, cursor));
      ms := Some(messages);
    }

    /** Saves a message's row and gives the message its id. */
    method SaveAt(m: Message, asSummary: bool, s: int)
      requires store.Valid() && asSummary == (m.isSummary && m.role != Tool)
      modifies store, m`dbId
      ensures store.Valid()
      ensures store.rows == old(store.rows) + [RowFor(old(m.As(false)), old(store.nextId), s)]
      ensures store.nextId == old(store.nextId) + 1 && m.dbId == Some(old(store.nextId))
      ensures (store.revision, store.structure) == old((store.revision, store.structure))
    {
      var row := store.SaveMessage(DraftOf(m.As(false)), asSummary, false, None, Some(m.pinned), Some(s), false);
      m.dbId := Some(row.id);
    }

    /** Stores one new message, if it is worth storing, at its anchor or at the tail. */
    method StoreNew(m: Message, anchor: Option<int>, tail: Option<int>) returns (tail': Option<int>, summary: bool)
      requires store.Valid() && m !in persisted
      modifies this`persisted, this`flushed, store, m`dbId
      ensures store.Valid()
      ensures var l := old(m.As(false));
              var s := if anchor.Some? && l.role != Tool then anchor.value else NextTail(old(store.rows), tail);
              && m.As(m in persisted) == Settle(l, old(store.nextId))
              && persisted == old(persisted) + (if Registers(l) then {m} else {})
              && flushed == Recorded(l, old(store.nextId), old(flushed))
              && store.rows == old(store.rows) + (if Stores(l) then [RowFor(l, old(store.nextId), s)] else [])
              && store.nextId == old(store.nextId) + Takes(l)
              && tail' == (if Stores(l) && !(anchor.Some? && l.role != Tool) then Some(s) else tail)
              && summary == (Stores(l) && l.isSummary && l.role != Tool)
      ensures (store.revision, store.structure) == old((store.revision, store.structure))
    {
      var l := m.As(false);
      tail', summary := tail, false;
      match l.role {
        case Assistant =>
          if !Stores(l) {
            return;
          }
          tail' := if anchor.Some? then tail else Some(NextTail(store.rows, tail));
          SaveAt(m, l.isSummary, if anchor.Some? then anchor.value else tail'.value);
          summary := l.isSummary;
        case Tool =>
          tail' := Some(NextTail(store.rows, tail));
          SaveAt(m, false, tail'.value);
        case User =>
          if l.isSummary || l.hidden {
            tail' := if anchor.Some? then tail else Some(NextTail(store.rows, tail));
            SaveAt(m, l.isSummary, if anchor.Some? then anchor.value else tail'.value);
            summary := l.isSummary;
          }
        case _ =>
          return;
      }
      persisted := persisted + {m};
      if m.dbId.Some? {
        flushed := flushed[m.dbId.value := m.pinned];
      }
    }

    /** The pins that differ from the record, among the messages already registered. */
    method DiffPins(ms: seq<Message>) returns (pins: map<nat, bool>)
      ensures pins == PinUpdates(LiveOf(ms, persisted), flushed)
    {
      pins := map[];
      ghost var live := LiveOf(ms, persisted);
      for i := 0 to |ms|
        invariant pins == PinUpdates(live[..i], flushed)
      {
        var m := ms[i];
        assert live[..i + 1][..i] == live[..i] && live[..i + 1][i] == m.As(m in persisted);
        if m in persisted && m.role != System && m.dbId.Some? && Flushed(flushed, m.dbId.value) != m.pinned {
          pins := pins[m.dbId.value := m.pinned];
        }
      }
      assert live[..|ms|] == live;
    }

    /** Handles one message of the list: those already registered are passed over. */
    method HandleOne(ms: seq<Message>, i: nat, live: seq<Live>, anchor: Option<int>, tail: Option<int>)
        returns (tail': Option<int>, summary: bool)
      requires store.Valid() && Distinct(ms) && i < |ms| && live == LiveOf(ms, persisted)
      modifies this`persisted, this`flushed, store, ms
      ensures store.Valid() && (store.revision, store.structure) == old((store.revision, store.structure))
      ensures Handles(live[i], anchor, old(store.rows), old(store.nextId), tail, old(flushed),
                      store.rows, store.nextId, tail', flushed)
      ensures LiveOf(ms, persisted) == live[i := Settle(live[i], old(store.nextId))]
      ensures old(persisted) <= persisted <= old(persisted) + {ms[i]}
      ensures summary == (!live[i].seen && Stores(live[i]) && live[i].isSummary && live[i].role != Tool)
    {
      if ms[i] in persisted {
        return tail, false;
      }
      tail', summary := StoreNew(ms[i], anchor, tail);
      forall k | 0 <= k < |ms| && k != i ensures ms[k].As(ms[k] in persisted) == live[k] {
        assert ms[k] != ms[i];
      }
    }

    /** Handles the whole list; the outcome is the one `Goal` computes on values. */
    method StoreAll(ms: seq<Message>, live: seq<Live>, anchored: seq<Option<int>>) returns (saved: bool)
      requires store.Valid() && Distinct(ms) && live == LiveOf(ms, persisted) && |anchored| == |ms|
      modifies this`persisted, this`flushed, store, ms
      ensures store.Valid() && (store.revision, store.structure) == old((store.revision, store.structure))
      ensures Outcome(store.rows, store.nextId, LiveOf(ms, persisted), flushed)
              == Goal(old(store.rows), old(store.nextId), live, anchored, old(flushed))
      ensures old(persisted) <= persisted <= old(persisted) + (set m | m in ms)
      ensures saved <==> SavesSummary(live)
    {
      var tail := None;
      saved := false;
      ghost var goal := Goal(store.rows, store.nextId, live, anchored, flushed);
      for i := 0 to |ms|
        invariant store.Valid() && (store.revision, store.structure) == old((store.revision, store.structure))
        invariant Remaining(goal, store.rows, store.nextId, tail, live[i..], anchored[i..], flushed, i)
        invariant LiveOf(ms, persisted) == goal.live[..i] + live[i..]
        invariant old(persisted) <= persisted <= old(persisted) + (set m | m in ms)
        invariant saved <==> SavesSummary(live[..i])
      {
        ghost var t, next, tail0, f := store.rows, store.nextId, tail, flushed;
        var summary;
        tail, summary := HandleOne(ms, i, LiveOf(ms, persisted), anchored[i], tail);
        saved := saved || summary;
        RemainingStep(goal, live, anchored, i, t, next, tail0, f, store.rows, store.nextId, tail, flushed);
        SavesSummaryNext(live, i);
        SettledNext(goal.live, live, i);
      }
      AllSettled(goal.live, live);
    }

    /** Writes pin flips, then the new messages in order. */
    method Sync(ms: seq<Message>)
      requires store.Valid() && Distinct(ms)
      modifies this, store, ms
      ensures store.Valid()
      ensures store.State() == Synced(old(store.State()), old(LiveOf(ms, persisted)), old(flushed))
      ensures LiveOf(ms, persisted) == SyncLive(old(LiveOf(ms, persisted)), old(store.nextId))
      ensures flushed == SyncFlushed(old(LiveOf(ms, persisted)), old(store.nextId), old(flushed))
      ensures old(persisted) <= persisted <= old(persisted) + (set m | m in ms)
      ensures memo == if Writes(old(LiveOf(ms, persisted)), old(flushed)) then None else old(memo)
    {
      var live := LiveOf(ms, persisted);
      var pins := DiffPins(ms);
      if Writes(live, flushed) {
        WriteAll(ms, live, pins);
        Invalidate();
      } else {
        NothingToSync(store.State(), live, flushed);
      }
    }

    /** The transaction of a sync that has something to write. */
    method WriteAll(ms: seq<Message>, live: seq<Live>, pins: map<nat, bool>)
      requires store.Valid() && Distinct(ms) && live == LiveOf(ms, persisted) && pins == PinUpdates(live, flushed)
      modifies this`persisted, this`flushed, store, ms
      ensures store.Valid()
      ensures store.State() == Synced(old(store.State()), live, old(flushed))
      ensures LiveOf(ms, persisted) == SyncLive(live, old(store.nextId))
      ensures flushed == SyncFlushed(live, old(store.nextId), old(flushed))
      ensures old(persisted) <= persisted <= old(persisted) + (set m | m in ms)
    {
      GoalIsSync(store.State(), live, flushed);
      var anchored := AnchoredSeqs(store.rows, live);
      store.SetPins(pins);
      flushed := flushed + pins;
      var saved := StoreAll(ms, live, anchored);
      if pins != map[] || saved {
        store.BumpHistoryRevision(true);
      }
    }
  }

  ghost predicate Holds(ms: seq<Message>, rows: seq<Row>)
    reads ms
  {
    Distinct(ms) && |ms| == |rows| && forall i :: 0 <= i < |ms| ==> ms[i].As(false) == RowLive(rows[i])
  }

  lemma HoldsLive(ms: seq<Message>, rows: seq<Row>)
    requires Holds(ms, rows)
    ensures LiveOf(ms, {}) == RowsLive(rows)
  {
  }

  lemma LiveLoaded(ms: seq<Message>, rows: seq<Row>, persisted: set<Message>, hit: bool)
    requires Holds(ms, rows) && forall i :: 0 <= i < |ms| ==> (ms[i] in persisted <==> !hit)
    ensures LiveOf(ms, persisted) == LoadedLive(rows, hit)
  {
    forall i | 0 <= i < |ms| ensures LiveOf(ms, persisted)[i] == LoadedLive(rows, hit)[i] {
      assert ms[i].As(!hit) == ms[i].As(false).(seen := !hit);
    }
  }

  method Objects(rows: seq<Row>) returns (ms: seq<Message>)
    ensures fresh(ms) && Holds(ms, rows)
  {
    ms := [];
    for i := 0 to |rows|
      invariant fresh(ms) && Holds(ms, rows[..i])
    {
      var m := new Message.FromRow(rows[i]);
      ms := ms + [m];
    }
    assert rows[..|rows|] == rows;
  }
}
