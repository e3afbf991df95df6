/**
 The write-back record over whole runs: loads, syncs, new messages, pin changes on live
 messages, and what other writers do to the table in between. Every message gets at most
 one row, and the record stays right exactly while no foreign flip and no disagreeing user
 message comes between.
 */
module WriteBackRuns {
  import opened Wrappers
  import opened Transcript
  import opened Positions
  import opened Window
  import opened Queue
  import opened Checkpoint
  import opened WriteBack
  import opened HistoryCache
  import opened Loading

  // ---- The record against the table ----------------------------------------------------

  /** Every pin on record is the one the table holds. */
  ghost predicate RecordOk(t: Table, flushed: map<nat, bool>) {
    forall r :: r in t && r.id in flushed ==> flushed[r.id] == r.pinned
  }

  /** Registered messages are on record, and only rows already handed out are. */
  ghost predicate Known(ms: seq<Live>, flushed: map<nat, bool>, next: nat) {
    && (forall m :: m in ms && Tracked(m) ==> m.dbId.value in flushed)
    && (forall id :: id in flushed ==> id < next)
  }

  lemma RecordIsCache(t: Table, ms: seq<Live>, flushed: map<nat, bool>, next: nat)
    requires RecordOk(t, flushed) && Known(ms, flushed, next)
    ensures CacheOk(t, ms, flushed)
  {
  }

  ghost predicate Named(ms: seq<Live>, next: nat, i: int, id: nat) {
    0 <= i < |ms| && SyncLive(ms, next)[i].dbId == Some(id) && Tracked(SyncLive(ms, next)[i])
  }

  lemma NamedTail(ms: seq<Live>, next: nat, i: int, id: nat)
    requires ms != [] && Named(ms[1..], next + Takes(ms[0]), i, id)
    ensures Named(ms, next, i + 1, id)
  {
  }

  /** Every new row is some message's. */
  lemma {:induction false} NewRowNamed(t: Table, next: nat, tail: Option<int>, ms: seq<Live>,
                                       anchored: seq<Option<int>>, r: Row)
    requires |anchored| == |ms| && r in NewRows(t, next, tail, ms, anchored)
    ensures exists i :: Named(ms, next, i, r.id)
    decreases |ms|
  {
    if ms[0].seen || !Stores(ms[0]) {
      NewRowNamed(t, next, tail, ms[1..], anchored[1..], r);
      var i :| Named(ms[1..], next, i, r.id);
      NamedTail(ms, next, i, r.id);
    } else {
      var anchors := anchored[0].Some? && ms[0].role != Tool;
      var s := if anchors then anchored[0].value else NextTail(t, tail);
      var first := RowFor(ms[0], next, s);
      if r == first {
        assert Named(ms, next, 0, r.id);
      } else {
        NewRowNamed(t + [first], next + 1, if anchors then tail else Some(s), ms[1..], anchored[1..], r);
        var i :| Named(ms[1..], next + 1, i, r.id);
        NamedTail(ms, next, i, r.id);
      }
    }
  }

  /** A row no registered message names keeps its pin and its entry. */
  lemma Unnamed(t: Table, next: nat, ms: seq<Live>, flushed: map<nat, bool>, r: Row)
    requires OwnRows(ms, next) && r in SyncRows(t, next, ms, flushed) && forall i :: !Named(ms, next, i, r.id)
    ensures r in t
    ensures r.id in SyncFlushed(ms, next, flushed) ==>
              r.id in flushed && flushed[r.id] == SyncFlushed(ms, next, flushed)[r.id]
  {
    var pins := PinUpdates(ms, flushed);
    var u := ApplyPins(t, pins);
    var added := NewRows(u, next, None, ms, AnchoredSeqs(t, ms));
    if r in added {
      NewRowNamed(u, next, None, ms, AnchoredSeqs(t, ms), r);
    }
    OwnRowsAgree(ms, next);
    PinUpdatesAre(ms, flushed);
    forall m | m in ms && PinDiffers(m, flushed) ensures m.dbId != Some(r.id) {
      var i :| 0 <= i < |ms| && ms[i] == m;
      SyncLiveSettles(ms, next, i);
      assert !Named(ms, next, i, r.id);
    }
    ApplyPinsAt(t, pins);
    var k :| 0 <= k < |u| && u[k] == r;
    assert t[k] in t;
    forall j ensures Enters(ms, next, j, r.id) ==> Named(ms, next, j, r.id) {
      if 0 <= j < |ms| {
        SyncLiveSettles(ms, next, j);
      }
    }
    NewPinsFrame(ms, next, flushed + pins, r.id);
  }

  lemma RowRecorded(t: Table, next: nat, ms: seq<Live>, flushed: map<nat, bool>, r: Row)
    requires WellFormed(t) && Below(t, next) && OwnRows(ms, next)
    requires RecordOk(t, flushed) && Known(ms, flushed, next) && UsersMatch(t, ms)
    requires r in SyncRows(t, next, ms, flushed) && r.id in SyncFlushed(ms, next, flushed)
    ensures SyncFlushed(ms, next, flushed)[r.id] == r.pinned
  {
    if i :| Named(ms, next, i, r.id) {
      RecordIsCache(t, ms, flushed, next);
      RecordedPins(ms, next, flushed, i);
      RowPinned(t, next, ms, flushed, i, r);
    } else {
      Unnamed(t, next, ms, flushed, r);
    }
  }

  /** A user message registered without a write overrides the record of its row. */
  lemma UserOverrides(t: Table, next: nat, ms: seq<Live>, flushed: map<nat, bool>, m: Live, r: Row)
    requires Below(t, next) && OwnRows(ms, next)
    requires m in ms && !m.seen && m.role == User && !Stores(m) && m.dbId == Some(r.id) && r in t
    ensures r in SyncRows(t, next, ms, flushed)
    ensures r.id in SyncFlushed(ms, next, flushed) && SyncFlushed(ms, next, flushed)[r.id] == m.pinned
  {
    var i :| 0 <= i < |ms| && ms[i] == m;
    var k :| 0 <= k < |t| && t[k] == r;
    var pins := PinUpdates(ms, flushed);
    SyncLiveSettles(ms, next, i);
    RecordedPins(ms, next, flushed, i);
    Untouched(ms, next, flushed, i);
    ApplyPinsAt(t, pins);
    assert ApplyPins(t, pins)[k] == r;
  }

  /** A sync keeps the record right exactly when the user messages it registers agree with their rows. */
  lemma SyncKeepsRecordIff(t: Table, next: nat, ms: seq<Live>, flushed: map<nat, bool>)
    requires WellFormed(t) && Below(t, next) && OwnRows(ms, next)
    requires RecordOk(t, flushed) && Known(ms, flushed, next)
    ensures RecordOk(SyncRows(t, next, ms, flushed), SyncFlushed(ms, next, flushed)) <==> UsersMatch(t, ms)
  {
    var t', flushed' := SyncRows(t, next, ms, flushed), SyncFlushed(ms, next, flushed);
    if UsersMatch(t, ms) {
      forall r | r in t' && r.id in flushed' ensures flushed'[r.id] == r.pinned {
        RowRecorded(t, next, ms, flushed, r);
      }
    } else {
      var m, r :| m in ms && !m.seen && m.role == User && !Stores(m) && m.dbId.Some? && r in t
                  && r.id == m.dbId.value && r.pinned != m.pinned;
      UserOverrides(t, next, ms, flushed, m, r);
    }
  }

  // ---- What a sync leaves of a row's pin, whatever came before -------------------------

  /** The pin of a registered message's row after a sync. */
  function SyncedPin(m: Live, r: Row, flushed: map<nat, bool>): bool {
    if m.pinned != Flushed(flushed, r.id) then m.pinned else r.pinned
  }

  lemma RowAfterSync(t: Table, next: nat, ms: seq<Live>, flushed: map<nat, bool>, m: Live, k: nat)
    requires OwnRows(ms, next) && m in ms && Tracked(m) && k < |t| && t[k].id == m.dbId.value
    ensures k < |SyncRows(t, next, ms, flushed)|
    ensures SyncRows(t, next, ms, flushed)[k] == t[k].(pinned := SyncedPin(m, t[k], flushed))
  {
    OwnRowsAgree(ms, next);
    PinUpdatesAre(ms, flushed);
    ApplyPinsAt(t, PinUpdates(ms, flushed));
    forall n | n in ms && n.dbId == m.dbId ensures n == m {
      var i :| 0 <= i < |ms| && ms[i] == m;
      var j :| 0 <= j < |ms| && ms[j] == n;
      assert i == j;
    }
  }

  /**
   Another writer flips the pin of a registered message's row between load and sync: the
   flip stands whatever the live flag is, the record takes the live flag, and the two agree
   exactly when the live flag was changed as well.
   */
  lemma ForeignFlipStands(t: Table, next: nat, ms: seq<Live>, flushed: map<nat, bool>, i: nat, k: nat)
    requires OwnRows(ms, next) && CacheOk(t, ms, flushed)
    requires i < |ms| && Tracked(ms[i]) && k < |t| && t[k].id == ms[i].dbId.value
    ensures var flipped := t[k := t[k].(pinned := !t[k].pinned)];
            var t', flushed' := SyncRows(flipped, next, ms, flushed), SyncFlushed(ms, next, flushed);
            && k < |t'| && t'[k] == flipped[k]
            && Flushed(flushed', t[k].id) == ms[i].pinned
            && (t'[k].pinned == ms[i].pinned <==> ms[i].pinned != t[k].pinned)
  {
    var flipped := t[k := t[k].(pinned := !t[k].pinned)];
    assert ms[i] in ms && t[k] in t;
    RowAfterSync(flipped, next, ms, flushed, ms[i], k);
    SyncLiveSettles(ms, next, i);
    RecordedPins(ms, next, flushed, i);
  }

  // ---- Runs ----------------------------------------------------------------------------

  /** One message object of the live list. */
  datatype Item = Item(oid: nat, live: Live)

  /** One checkpointer with its live list, and the session it shares with other writers. */
  datatype Desk = Desk(db: Db, items: seq<Item>, flushed: map<nat, bool>, nextOid: nat)

  /**
   `Fetch(hit)` replaces the list by what a load returns; messages served from the memo
   are not registered. `Add` puts a new message anywhere in the list. `Foreign` is another
   checkpointer's sync, and `Route` a row saved by anyone else.
   */
  datatype Act =
    | Fetch(hit: bool)
    | Add(at: nat, m: Live)
    | Mark(at: nat, pinned: bool, excluded: bool)
    | Flush
    | Foreign(ms: seq<Live>, flushed: map<nat, bool>)
    | Route(draft: Row)

  function Lives(items: seq<Item>): (ms: seq<Live>)
    ensures |ms| == |items|
  {
    seq(|items|, i requires 0 <= i < |items| => items[i].live)
  }

  function Relived(items: seq<Item>, ms: seq<Live>): (items': seq<Item>)
    requires |ms| == |items|
    ensures |items'| == |items|
  {
    seq(|items|, i requires 0 <= i < |items| => items[i].(live := ms[i]))
  }

  function NewItems(rows: seq<Row>, oid: nat, seen: bool): (items: seq<Item>)
    ensures |items| == |rows|
  {
    seq(|rows|, i requires 0 <= i < |rows| => Item(oid + i, RowLive(rows[i]).(seen := seen)))
  }

  /** A new message has no row yet, unless it is a user message its route has saved. */
  ghost predicate Enabled(d: Desk, op: Act) {
    match op
    case Add(at, m) =>
      && at <= |d.items| && !m.seen
      && (m.dbId.Some? ==>
            m.role == User && m.dbId.value < d.db.nextId && forall i :: 0 <= i < |d.items| ==>
                d.items[i].live.dbId != m.dbId)
    case Mark(at, _, _) => at < |d.items|
    case _ => true
  }

  function Do(d: Desk, op: Act, parses: string -> bool): Desk
    requires Enabled(d, op)
  {
    match op
    case Fetch(hit) =>
      var rows := Messages(LlmWindow(d.db.rows), parses);
      Desk(d.db, NewItems(rows, d.nextOid, !hit), if hit then d.flushed else FirstPins(RowsLive(rows), d.flushed),
           d.nextOid + |rows|)
    case Add(at, m) => d.(items := d.items[..at] + [Item(d.nextOid, m)] + d.items[at..], nextOid := d.nextOid + 1)
    case Mark(at, pinned, excluded) =>
      d.(items := d.items[at := d.items[at].(live := d.items[at].live.(pinned := pinned, excluded := excluded))])
    case Flush =>
      var ms := Lives(d.items);
      d.(db := Synced(d.db, ms, d.flushed), items := Relived(d.items, SyncLive(ms, d.db.nextId)),
         flushed := SyncFlushed(ms, d.db.nextId, d.flushed))
    case Foreign(ms, flushed) => d.(db := Synced(d.db, ms, flushed))
    case Route(draft) => d.(db := Saved(d.db, draft))
  }

  ghost predicate Leads(d: Desk, ops: seq<Act>, end: Desk, parses: string -> bool)
    decreases |ops|
  {
    if ops == [] then d == end
    else Enabled(d, ops[0]) && Leads(Do(d, ops[0], parses), ops[1..], end, parses)
  }

  // ---- What every run keeps ------------------------------------------------------------

  ghost predicate OwnIds(items: seq<Item>, nextOid: nat) {
    && (forall i, j :: 0 <= i < j < |items| ==> items[i].oid != items[j].oid)
    && (forall i :: 0 <= i < |items| ==> items[i].oid < nextOid)
  }

  ghost predicate DeskOk(d: Desk) {
    Sound(d.db) && OwnIds(d.items, d.nextOid) && OwnRows(Lives(d.items), d.db.nextId)
  }

  lemma NewItemsLives(rows: seq<Row>, oid: nat, hit: bool)
    ensures Lives(NewItems(rows, oid, !hit)) == LoadedLive(rows, hit)
    ensures OwnIds(NewItems(rows, oid, !hit), oid + |rows|)
  {
  }

  lemma NewRowsOwn(rows: seq<Row>, ms: seq<Live>, t: Table, next: nat)
    requires DistinctIds(rows) && DrawnFrom(rows, t) && Below(t, next)
    requires |ms| == |rows| && forall i :: 0 <= i < |ms| ==> ms[i].dbId == Some(rows[i].id)
    ensures OwnRows(ms, next)
  {
    forall i | 0 <= i < |rows| ensures rows[i].id < next {
      assert rows[i] in rows;
    }
  }

  lemma ReloadOk(d: Desk, hit: bool, parses: string -> bool)
    requires DeskOk(d)
    ensures DeskOk(Do(d, Fetch(hit), parses))
  {
    var rows := Messages(LlmWindow(d.db.rows), parses);
    LoadedDraws(d.db.rows, parses);
    NewItemsLives(rows, d.nextOid, hit);
    NewRowsOwn(rows, Lives(NewItems(rows, d.nextOid, !hit)), d.db.rows, d.db.nextId);
  }

  lemma AddedLives(items: seq<Item>, at: nat, item: Item)
    requires at <= |items|
    ensures Lives(items[..at] + [item] + items[at..]) == Lives(items)[..at] + [item.live] + Lives(items)[at..]
  {
  }

  lemma AddedRows(ms: seq<Live>, at: nat, m: Live, bound: nat)
    requires OwnRows(ms, bound) && at <= |ms|
    requires m.dbId.Some? ==> m.dbId.value < bound && forall i :: 0 <= i < |ms| ==> ms[i].dbId != m.dbId
    ensures OwnRows(ms[..at] + [m] + ms[at..], bound)
  {
    var ms' := ms[..at] + [m] + ms[at..];
    assert ms'[at] == m;
    assert forall i :: 0 <= i < at ==> ms'[i] == ms[i];
    assert forall i :: at < i < |ms'| ==> ms'[i] == ms[i - 1];
  }

  lemma AddedIds(items: seq<Item>, at: nat, item: Item)
    requires OwnIds(items, item.oid) && at <= |items|
    ensures OwnIds(items[..at] + [item] + items[at..], item.oid + 1)
  {
  }

  lemma AddOk(d: Desk, at: nat, m: Live, parses: string -> bool)
    requires DeskOk(d) && Enabled(d, Add(at, m))
    ensures DeskOk(Do(d, Add(at, m), parses))
  {
    AddedLives(d.items, at, Item(d.nextOid, m));
    AddedIds(d.items, at, Item(d.nextOid, m));
    if m.dbId.Some? {
      forall i | 0 <= i < |Lives(d.items)| ensures Lives(d.items)[i].dbId != m.dbId {
        assert d.items[i].live.dbId != m.dbId;
      }
    }
    AddedRows(Lives(d.items), at, m, d.db.nextId);
  }

  lemma MarkOk(d: Desk, at: nat, pinned: bool, excluded: bool, parses: string -> bool)
    requires DeskOk(d) && at < |d.items|
    ensures DeskOk(Do(d, Mark(at, pinned, excluded), parses))
  {
    var ms, ms' := Lives(d.items), Lives(Do(d, Mark(at, pinned, excluded), parses).items);
    assert forall i :: 0 <= i < |ms| ==> ms'[i].dbId == ms[i].dbId;
  }

  lemma SyncedRows(ms: seq<Live>, next: nat)
    requires OwnRows(ms, next)
    ensures OwnRows(SyncLive(ms, next), next + Taken(ms))
  {
    SyncedIds(ms, next, next);
  }

  lemma {:induction false} SyncedIds(ms: seq<Live>, next: nat, bound: nat)
    requires OwnRows(ms, bound) && bound <= next
    ensures OwnRows(SyncLive(ms, next), next + Taken(ms))
  {
    if ms != [] {
      OwnRowsTail(ms, bound);
      SyncedIds(ms[1..], next + Takes(ms[0]), bound);
      SyncLiveIds(ms[1..], next + Takes(ms[0]));
      var s := SyncLive(ms, next);
      forall j | 0 < j < |s| && s[0].dbId.Some? ensures s[0].dbId != s[j].dbId {
        assert s[j] == SyncLive(ms[1..], next + Takes(ms[0]))[j - 1];
        assert ms[1..][j - 1] == ms[j];
      }
    }
  }

  lemma RelivedLives(items: seq<Item>, ms: seq<Live>)
    requires |ms| == |items|
    ensures Lives(Relived(items, ms)) == ms
  {
  }

  lemma SyncOk(d: Desk, parses: string -> bool)
    requires DeskOk(d)
    ensures DeskOk(Do(d, Flush, parses))
  {
    var ms := Lives(d.items);
    SyncSound(d.db, ms, d.flushed);
    SyncedRows(ms, d.db.nextId);
    RelivedLives(d.items, SyncLive(ms, d.db.nextId));
  }

  lemma OthersOk(d: Desk, op: Act, parses: string -> bool)
    requires DeskOk(d) && (op.Foreign? || op.Route?)
    ensures DeskOk(Do(d, op, parses))
  {
    match op
    case Foreign(ms, flushed) => SyncSound(d.db, ms, flushed);
    case Route(draft) =>
  }

  lemma DoOk(d: Desk, op: Act, parses: string -> bool)
    requires DeskOk(d) && Enabled(d, op)
    ensures DeskOk(Do(d, op, parses))
  {
    match op
    case Fetch(hit) => ReloadOk(d, hit, parses);
    case Add(at, m) => AddOk(d, at, m, parses);
    case Mark(at, pinned, excluded) => MarkOk(d, at, pinned, excluded, parses);
    case Flush => SyncOk(d, parses);
    case _ => OthersOk(d, op, parses);
  }

  lemma {:induction false} LeadsOk(d: Desk, ops: seq<Act>, end: Desk, parses: string -> bool)
    requires DeskOk(d) && Leads(d, ops, end, parses)
    ensures DeskOk(end)
    decreases |ops|
  {
    if ops != [] {
      DoOk(d, ops[0], parses);
      LeadsOk(Do(d, ops[0], parses), ops[1..], end, parses);
    }
  }

  // ---- One row for each message --------------------------------------------------------

  predicate Holds(d: Desk, i: int, oid: nat) {
    0 <= i < |d.items| && d.items[i].oid == oid
  }

  /** This sync writes a row for the object. */
  ghost predicate Writes1(d: Desk, op: Act, oid: nat) {
    op.Flush? && exists i :: Holds(d, i, oid) && Takes(d.items[i].live) == 1
  }

  /** How many rows a run writes for the object. */
  ghost function Written(d: Desk, ops: seq<Act>, oid: nat, parses: string -> bool): nat
    decreases |ops|
  {
    if ops == [] || !Enabled(d, ops[0]) then 0
    else (if Writes1(d, ops[0], oid) then 1 else 0) + Written(Do(d, ops[0], parses), ops[1..], oid, parses)
  }

  /** The object is gone from the list, or registered: nothing will be written for it. */
  ghost predicate Done(d: Desk, oid: nat) {
    oid < d.nextOid && forall i :: Holds(d, i, oid) ==> d.items[i].live.seen
  }

  lemma DoneStays(d: Desk, op: Act, oid: nat, parses: string -> bool)
    requires DeskOk(d) && Enabled(d, op) && Done(d, oid)
    ensures Done(Do(d, op, parses), oid) && !Writes1(d, op, oid)
  {
    var d' := Do(d, op, parses);
    match op
    case Add(at, m) =>
      forall i | Holds(d', i, oid) ensures d'.items[i].live.seen {
        assert d'.items[i] == if i < at then d.items[i] else if i == at then Item(d.nextOid, m) else d.items[i - 1];
        assert Holds(d, if i < at then i else i - 1, oid);
      }
    case Mark(at, _, _) =>
      forall i | Holds(d', i, oid) ensures d'.items[i].live.seen {
        assert Holds(d, i, oid);
      }
    case Flush =>
      forall i | Holds(d', i, oid) ensures d'.items[i].live.seen {
        assert Holds(d, i, oid);
        SyncLiveSettles(Lives(d.items), d.db.nextId, i);
      }
    case Fetch(hit) =>
      forall i ensures !Holds(d', i, oid) {
      }
    case _ =>
      forall i | Holds(d', i, oid) ensures d'.items[i].live.seen {
        assert Holds(d, i, oid);
      }
  }

  lemma {:induction false} DoneWritesNothing(d: Desk, ops: seq<Act>, oid: nat, parses: string -> bool)
    requires DeskOk(d) && Done(d, oid)
    ensures Written(d, ops, oid, parses) == 0
    decreases |ops|
  {
    if ops != [] && Enabled(d, ops[0]) {
      DoneStays(d, ops[0], oid, parses);
      DoOk(d, ops[0], parses);
      DoneWritesNothing(Do(d, ops[0], parses), ops[1..], oid, parses);
    }
  }

  lemma WrittenIsDone(d: Desk, oid: nat, parses: string -> bool)
    requires DeskOk(d) && Writes1(d, Flush, oid)
    ensures Done(Do(d, Flush, parses), oid)
  {
    var d' := Do(d, Flush, parses);
    var i :| Holds(d, i, oid) && Takes(d.items[i].live) == 1;
    SyncLiveSettles(Lives(d.items), d.db.nextId, i);
    forall j | Holds(d', j, oid) ensures j == i {
      assert d.items[j].oid == d.items[i].oid;
    }
  }

  /** However often a run syncs, no message is ever given a second row. */
  lemma {:induction false} StoredOnce(d: Desk, ops: seq<Act>, oid: nat, parses: string -> bool)
    requires DeskOk(d)
    ensures Written(d, ops, oid, parses) <= 1
    decreases |ops|
  {
    if ops != [] && Enabled(d, ops[0]) {
      DoOk(d, ops[0], parses);
      if Writes1(d, ops[0], oid) {
        WrittenIsDone(d, oid, parses);
        DoneWritesNothing(Do(d, ops[0], parses), ops[1..], oid, parses);
      } else {
        StoredOnce(Do(d, ops[0], parses), ops[1..], oid, parses);
      }
    }
  }

  // ---- A message has a row exactly when one was written for it -------------------------

  /** The row says what the message says; its pin and position may have moved since. */
  predicate Says(r: Row, m: Live) {
    r.role == m.role && r.kind == KindFor(m) && r.content == m.content && r.calls == m.calls && r.replyTo == m.replyTo
  }

  ghost predicate Housed(t: Table, m: Live) {
    m.dbId.Some? ==> exists k :: 0 <= k < |t| && t[k].id == m.dbId.value && Says(t[k], m)
  }

  /** Every old row is kept where it is, up to its pin. */
  ghost predicate Keeps(t: Table, t': Table) {
    |t| <= |t'| && forall k :: 0 <= k < |t| ==> t'[k] == t[k].(pinned := t'[k].pinned)
  }

  lemma HousedStays(t: Table, t': Table, m: Live)
    requires Housed(t, m) && Keeps(t, t')
    ensures Housed(t', m)
  {
    if m.dbId.Some? {
      var k :| 0 <= k < |t| && t[k].id == m.dbId.value && Says(t[k], m);
      assert t'[k] == t[k].(pinned := t'[k].pinned);
    }
  }

  lemma SyncKeepsRows(t: Table, next: nat, ms: seq<Live>, flushed: map<nat, bool>)
    ensures Keeps(t, SyncRows(t, next, ms, flushed))
  {
    ApplyPinsAt(t, PinUpdates(ms, flushed));
  }

  lemma {:induction false} NewRowSays(t: Table, next: nat, tail: Option<int>, ms: seq<Live>,
                                      anchored: seq<Option<int>>, i: nat)
    requires |anchored| == |ms| && i < |ms| && Takes(ms[i]) == 1
    ensures exists r ::
              r in NewRows(t, next, tail, ms, anchored) && SyncLive(ms, next)[i].dbId == Some(r.id) && Says(r, ms[i])
    decreases |ms|
  {
    if Takes(ms[0]) == 0 {
      NewRowSays(t, next, tail, ms[1..], anchored[1..], i - 1);
    } else {
      var anchors := anchored[0].Some? && ms[0].role != Tool;
      var s := if anchors then anchored[0].value else NextTail(t, tail);
      var first := RowFor(ms[0], next, s);
      var more := if anchors then tail else Some(s);
      assert NewRows(t, next, tail, ms, anchored) == [first]
             + NewRows(t + [first], next + 1, more, ms[1..], anchored[1..]);
      if i == 0 {
        assert first in NewRows(t, next, tail, ms, anchored) && Says(first, ms[0]);
      } else {
        NewRowSays(t + [first], next + 1, more, ms[1..], anchored[1..], i - 1);
        var r :| r in NewRows(t + [first], next + 1, more, ms[1..], anchored[1..])
                 && SyncLive(ms[1..], next + 1)[i - 1].dbId == Some(r.id) && Says(r, ms[1..][i - 1]);
        assert r in NewRows(t, next, tail, ms, anchored);
      }
    }
  }

  lemma FlushHouses(t: Table, next: nat, ms: seq<Live>, flushed: map<nat, bool>, i: nat)
    requires i < |ms| && Housed(t, ms[i])
    ensures Housed(SyncRows(t, next, ms, flushed), SyncLive(ms, next)[i])
  {
    var t' := SyncRows(t, next, ms, flushed);
    var u := ApplyPins(t, PinUpdates(ms, flushed));
    SyncLiveSettles(ms, next, i);
    if Takes(ms[i]) == 1 {
      NewRowSays(u, next, None, ms, AnchoredSeqs(t, ms), i);
      var r :| r in NewRows(u, next, None, ms, AnchoredSeqs(t, ms)) && SyncLive(ms, next)[i].dbId == Some(r.id)
          && Says(r, ms[i]);
      assert r in t';
      var k :| 0 <= k < |t'| && t'[k] == r;
    } else {
      SyncKeepsRows(t, next, ms, flushed);
      HousedStays(t, t', ms[i]);
      SyncLiveIds(ms, next);
    }
  }

  /** Where item `i` is after a step that does not replace the list. */
  function Follow(op: Act, i: nat): nat {
    if op.Add? && op.at <= i then i + 1 else i
  }

  /** The message's row is stored, and it will not be written again. */
  ghost predicate Settled(d: Desk, i: nat)
    requires i < |d.items|
  {
    Housed(d.db.rows, d.items[i].live) && (d.items[i].live.dbId.Some? ==> d.items[i].live.seen)
  }

  lemma WritesItem(d: Desk, op: Act, i: nat)
    requires DeskOk(d) && i < |d.items|
    ensures Writes1(d, op, d.items[i].oid) <==> op.Flush? && Takes(d.items[i].live) == 1
  {
    assert Holds(d, i, d.items[i].oid);
    forall j | Holds(d, j, d.items[i].oid) ensures j == i {
      assert d.items[j].oid == d.items[i].oid;
    }
  }

  lemma FlushItem(d: Desk, i: nat, parses: string -> bool)
    requires i < |d.items|
    ensures Do(d, Flush, parses).items[i].live == SyncLive(Lives(d.items), d.db.nextId)[i]
    ensures Do(d, Flush, parses).db.rows == SyncRows(d.db.rows, d.db.nextId, Lives(d.items), d.flushed)
  {
  }

  lemma SettleIds(m: Live, n: nat)
    requires m.dbId.Some? ==> m.seen
    ensures Settle(m, n).dbId.Some? ==> Settle(m, n).seen
    ensures Settle(m, n).dbId.Some? <==> m.dbId.Some? || Takes(m) == 1
  {
  }

  lemma FlushSettles(d: Desk, i: nat, parses: string -> bool)
    requires DeskOk(d) && i < |d.items| && Settled(d, i)
    ensures Settled(Do(d, Flush, parses), i)
    ensures Do(d, Flush, parses).items[i].live.dbId.Some?
            <==> d.items[i].live.dbId.Some? || Takes(d.items[i].live) == 1
  {
    var ms, next := Lives(d.items), d.db.nextId;
    assert ms[i] == d.items[i].live;
    FlushItem(d, i, parses);
    FlushHouses(d.db.rows, next, ms, d.flushed, i);
    SyncLiveSettles(ms, next, i);
    var n :| n >= next && SyncLive(ms, next)[i] == Settle(ms[i], n);
    SettleIds(ms[i], n);
  }

  lemma OtherSettles(d: Desk, op: Act, i: nat, parses: string -> bool)
    requires DeskOk(d) && Enabled(d, op) && !op.Fetch? && !op.Flush? && i < |d.items| && Settled(d, i)
    ensures var d', j := Do(d, op, parses), Follow(op, i);
            && j < |d'.items| && d'.items[j].oid == d.items[i].oid && Settled(d', j)
            && d'.items[j].live.dbId == d.items[i].live.dbId
  {
    var d', j := Do(d, op, parses), Follow(op, i);
    match op
    case Add(at, m) =>
      assert d'.items[j] == d.items[i];
    case Mark(_, _, _) =>
    case Foreign(ms, flushed) =>
      SyncKeepsRows(d.db.rows, d.db.nextId, ms, flushed);
      HousedStays(d.db.rows, d'.db.rows, d.items[i].live);
    case Route(draft) =>
      assert Keeps(d.db.rows, d'.db.rows);
      HousedStays(d.db.rows, d'.db.rows, d.items[i].live);
  }

  /** An object that has left the list does not come back. */
  ghost predicate Gone(d: Desk, oid: nat) {
    oid < d.nextOid && forall i :: !Holds(d, i, oid)
  }

  lemma GoneStep(d: Desk, op: Act, oid: nat, parses: string -> bool)
    requires DeskOk(d) && Enabled(d, op) && Gone(d, oid)
    ensures Gone(Do(d, op, parses), oid)
  {
    var d' := Do(d, op, parses);
    forall i ensures !Holds(d', i, oid) {
      if 0 <= i < |d'.items| {
        match op
        case Add(at, m) =>
          assert d'.items[i] == if i < at then d.items[i] else if i == at then Item(d.nextOid, m) else d.items[i - 1];
          assert !Holds(d, i, oid) && !Holds(d, i - 1, oid);
        case Fetch(hit) =>
        case _ => assert !Holds(d, i, oid);
      }
    }
  }

  lemma {:induction false} GoneStays(d: Desk, ops: seq<Act>, end: Desk, oid: nat, parses: string -> bool)
    requires DeskOk(d) && Gone(d, oid) && Leads(d, ops, end, parses)
    ensures Gone(end, oid)
    decreases |ops|
  {
    if ops != [] {
      DoOk(d, ops[0], parses);
      GoneStep(d, ops[0], oid, parses);
      GoneStays(Do(d, ops[0], parses), ops[1..], end, oid, parses);
    }
  }

  lemma FetchGone(d: Desk, hit: bool, oid: nat, parses: string -> bool)
    requires DeskOk(d) && oid < d.nextOid
    ensures Gone(Do(d, Fetch(hit), parses), oid)
  {
  }

  lemma {:induction false} StoredRun(d: Desk, i: nat, ops: seq<Act>, end: Desk, j: nat, parses: string -> bool)
    requires DeskOk(d) && i < |d.items| && Settled(d, i) && Leads(d, ops, end, parses)
    requires j < |end.items| && end.items[j].oid == d.items[i].oid
    ensures Settled(end, j)
    ensures Written(d, ops, d.items[i].oid, parses)
            == if d.items[i].live.dbId.None? && end.items[j].live.dbId.Some? then 1 else 0
    ensures d.items[i].live.dbId.Some? ==> end.items[j].live.dbId.Some?
    decreases |ops|
  {
    if ops == [] {
      assert Holds(d, j, d.items[i].oid) && i == j;
    } else {
      var op, d' := ops[0], Do(d, ops[0], parses);
      var oid := d.items[i].oid;
      DoOk(d, op, parses);
      WritesItem(d, op, i);
      match op
      case Fetch(hit) =>
        FetchGone(d, hit, oid, parses);
        GoneStays(d', ops[1..], end, oid, parses);
        assert Holds(end, j, oid);
      case Flush =>
        FlushSettles(d, i, parses);
        StoredRun(d', i, ops[1..], end, j, parses);
      case _ =>
        OtherSettles(d, op, i, parses);
        StoredRun(d', Follow(op, i), ops[1..], end, j, parses);
    }
  }

  /**
   A new message followed through any run: it has a row id exactly when one row was written
   for it, and then the table holds one row of that id, which says what the message says.
   */
  lemma StoredIff(d: Desk, i: nat, ops: seq<Act>, end: Desk, j: nat, parses: string -> bool)
    requires DeskOk(d) && i < |d.items| && d.items[i].live.dbId == None && Leads(d, ops, end, parses)
    requires j < |end.items| && end.items[j].oid == d.items[i].oid
    ensures end.items[j].live.dbId.Some? <==> Written(d, ops, d.items[i].oid, parses) == 1
    ensures end.items[j].live.dbId.Some? ==>
              exists k :: 0 <= k < |end.db.rows| && end.db.rows[k].id == end.items[j].live.dbId.value
                          && Says(end.db.rows[k], end.items[j].live)
                          && forall n ::
                               0 <= n < |end.db.rows| && end.db.rows[n].id == end.items[j].live.dbId.value ==> n == k
  {
    StoredRun(d, i, ops, end, j, parses);
    LeadsOk(d, ops, end, parses);
    if end.items[j].live.dbId.Some? {
      var k :| 0 <= k < |end.db.rows| && end.db.rows[k].id == end.items[j].live.dbId.value
               && Says(end.db.rows[k], end.items[j].live);
    }
  }

  // ---- The record over runs ------------------------------------------------------------

  ghost predicate RecordRight(d: Desk) {
    RecordOk(d.db.rows, d.flushed) && Known(Lives(d.items), d.flushed, d.db.nextId)
  }

  /**
   What keeps the record right: a sync registers only user messages that agree with their
   rows, and another writer flips no row on record.
   */
  ghost predicate Careful(d: Desk, op: Act) {
    match op
    case Flush => UsersMatch(d.db.rows, Lives(d.items))
    case Foreign(ms, flushed) =>
      forall r :: r in d.db.rows && r.id in d.flushed && r.id in PinUpdates(ms, flushed) ==>
        PinUpdates(ms, flushed)[r.id] == r.pinned
    case _ => true
  }

  lemma {:induction false} FirstPinsAre(ms: seq<Live>, flushed: map<nat, bool>, id: nat)
    ensures id in flushed ==> id in FirstPins(ms, flushed) && FirstPins(ms, flushed)[id] == flushed[id]
    ensures id in FirstPins(ms, flushed) && id !in flushed ==>
              exists m :: m in ms && m.dbId == Some(id) && m.pinned == FirstPins(ms, flushed)[id]
    ensures (exists m :: m in ms && m.dbId == Some(id)) ==> id in FirstPins(ms, flushed)
  {
    if ms != [] {
      var f := if ms[0].dbId.Some? && ms[0].dbId.value !in flushed then flushed[ms[0].dbId.value := ms[0].pinned]
          else flushed;
      FirstPinsAre(ms[1..], f, id);
      assert ms[0] in ms && forall m :: m in ms[1..] ==> m in ms;
    }
  }

  lemma LoadedRow(t: Table, parses: string -> bool, m: Live)
    requires WellFormed(t) && m in RowsLive(Messages(LlmWindow(t), parses))
    ensures m.dbId.Some? && exists r :: r in t && r.id == m.dbId.value && r.pinned == m.pinned
  {
    var rows := Messages(LlmWindow(t), parses);
    LoadedDraws(t, parses);
    var i :| 0 <= i < |rows| && RowsLive(rows)[i] == m;
    assert rows[i] in rows;
    var r :| r in t && rows[i] == r.(calls := rows[i].calls);
  }

  lemma FetchRecordAt(d: Desk, parses: string -> bool, r: Row, flushed: map<nat, bool>)
    requires DeskOk(d) && RecordRight(d) && flushed
             == FirstPins(RowsLive(Messages(LlmWindow(d.db.rows), parses)), d.flushed)
    requires r in d.db.rows && r.id in flushed
    ensures flushed[r.id] == r.pinned
  {
    var ms := RowsLive(Messages(LlmWindow(d.db.rows), parses));
    FirstPinsAre(ms, d.flushed, r.id);
    if r.id !in d.flushed {
      var m :| m in ms && m.dbId == Some(r.id) && m.pinned == flushed[r.id];
      LoadedRow(d.db.rows, parses, m);
    }
  }

  lemma FetchKnown(d: Desk, parses: string -> bool, flushed: map<nat, bool>)
    requires DeskOk(d) && RecordRight(d) && flushed
             == FirstPins(RowsLive(Messages(LlmWindow(d.db.rows), parses)), d.flushed)
    ensures Known(Lives(Do(d, Fetch(false), parses).items), flushed, d.db.nextId)
  {
    var rows := Messages(LlmWindow(d.db.rows), parses);
    var ms, items := RowsLive(rows), Do(d, Fetch(false), parses).items;
    forall m | m in Lives(items) && Tracked(m) ensures m.dbId.value in flushed {
      var i :| 0 <= i < |items| && items[i].live == m;
      FirstPinsAre(ms, d.flushed, rows[i].id);
      assert ms[i] in ms && ms[i].dbId == Some(rows[i].id);
    }
    forall id | id in flushed ensures id < d.db.nextId {
      FirstPinsAre(ms, d.flushed, id);
      if id !in d.flushed {
        var m :| m in ms && m.dbId == Some(id) && m.pinned == flushed[id];
        LoadedRow(d.db.rows, parses, m);
      }
    }
  }

  lemma FetchRecord(d: Desk, hit: bool, parses: string -> bool)
    requires DeskOk(d) && RecordRight(d)
    ensures RecordRight(Do(d, Fetch(hit), parses))
  {
    var d' := Do(d, Fetch(hit), parses);
    if hit {
      forall m | m in Lives(d'.items) ensures !Tracked(m) {
      }
    } else {
      forall r | r in d'.db.rows && r.id in d'.flushed ensures d'.flushed[r.id] == r.pinned {
        FetchRecordAt(d, parses, r, d'.flushed);
      }
      FetchKnown(d, parses, d'.flushed);
    }
  }

  lemma FlushKnown(ms: seq<Live>, next: nat, flushed: map<nat, bool>)
    requires OwnRows(ms, next) && Known(ms, flushed, next)
    ensures Known(SyncLive(ms, next), SyncFlushed(ms, next, flushed), next + Taken(ms))
  {
    var ms', flushed' := SyncLive(ms, next), SyncFlushed(ms, next, flushed);
    forall m | m in ms' && Tracked(m) ensures m.dbId.value in flushed' {
      var i :| 0 <= i < |ms'| && ms'[i] == m;
      SyncLiveSettles(ms, next, i);
      RecordedPins(ms, next, flushed, i);
      if ms[i].seen {
        assert ms[i] in ms;
        KeysGrow(ms, next, flushed + PinUpdates(ms, flushed), m.dbId.value);
      }
    }
    forall id | id in flushed' ensures id < next + Taken(ms) {
      OnRecord(ms, next, flushed, id);
    }
  }

  lemma {:induction false} KeysGrow(ms: seq<Live>, next: nat, flushed: map<nat, bool>, id: nat)
    requires id in flushed
    ensures id in NewPins(ms, next, flushed)
  {
    if ms != [] {
      KeysGrow(ms[1..], next + Takes(ms[0]), Recorded(ms[0], next, flushed), id);
    }
  }

  lemma OnRecord(ms: seq<Live>, next: nat, flushed: map<nat, bool>, id: nat)
    requires OwnRows(ms, next) && Known(ms, flushed, next) && id in SyncFlushed(ms, next, flushed)
    ensures id < next + Taken(ms)
  {
    var ms' := SyncLive(ms, next);
    if i :| Enters(ms, next, i, id) {
      SyncedRows(ms, next);
    } else {
      NewPinsFrame(ms, next, flushed + PinUpdates(ms, flushed), id);
      OwnRowsAgree(ms, next);
      PinUpdatesAre(ms, flushed);
    }
  }

  lemma FlushRecordIff(d: Desk, parses: string -> bool)
    requires DeskOk(d) && RecordRight(d)
    ensures RecordRight(Do(d, Flush, parses)) <==> Careful(d, Flush)
  {
    var ms := Lives(d.items);
    SyncKeepsRecordIff(d.db.rows, d.db.nextId, ms, d.flushed);
    FlushKnown(ms, d.db.nextId, d.flushed);
    RelivedLives(d.items, SyncLive(ms, d.db.nextId));
  }

  lemma ForeignRecordIff(t: Table, next: nat, own: map<nat, bool>, ms: seq<Live>, flushed: map<nat, bool>)
    requires WellFormed(t) && Below(t, next) && RecordOk(t, own) && (forall id :: id in own ==> id < next)
    ensures RecordOk(SyncRows(t, next, ms, flushed), own)
            <==> forall r :: r in t && r.id in own && r.id in PinUpdates(ms, flushed) ==>
                PinUpdates(ms, flushed)[r.id] == r.pinned
  {
    var pins := PinUpdates(ms, flushed);
    var u := ApplyPins(t, pins);
    var added := NewRows(u, next, None, ms, AnchoredSeqs(t, ms));
    ApplyPinsAt(t, pins);
    NewRowsAre(u, next, None, ms, AnchoredSeqs(t, ms));
    if forall r :: r in t && r.id in own && r.id in pins ==> pins[r.id] == r.pinned {
      forall r: Row | r in u + added && r.id in own ensures own[r.id] == r.pinned {
        if r in u {
          var k :| 0 <= k < |u| && u[k] == r;
          assert t[k] in t;
        }
      }
    } else {
      var r :| r in t && r.id in own && r.id in pins && pins[r.id] != r.pinned;
      var k :| 0 <= k < |t| && t[k] == r;
      assert u[k] in u + added;
    }
  }

  lemma AddRecord(d: Desk, at: nat, m: Live, parses: string -> bool)
    requires DeskOk(d) && RecordRight(d) && Enabled(d, Add(at, m))
    ensures RecordRight(Do(d, Add(at, m), parses))
  {
    AddedLives(d.items, at, Item(d.nextOid, m));
    var ms' := Lives(Do(d, Add(at, m), parses).items);
    forall n | n in ms' && Tracked(n) ensures n in Lives(d.items) {
    }
  }

  lemma MarkRecord(d: Desk, at: nat, pinned: bool, excluded: bool, parses: string -> bool)
    requires DeskOk(d) && RecordRight(d) && at < |d.items|
    ensures RecordRight(Do(d, Mark(at, pinned, excluded), parses))
  {
    var ms, ms' := Lives(d.items), Lives(Do(d, Mark(at, pinned, excluded), parses).items);
    forall m | m in ms' && Tracked(m) ensures m.dbId.value in d.flushed {
      var i :| 0 <= i < |ms'| && ms'[i] == m;
      assert ms[i] in ms;
    }
  }

  /** A step keeps the record right exactly when it is careful. */
  lemma RecordStepIff(d: Desk, op: Act, parses: string -> bool)
    requires DeskOk(d) && RecordRight(d) && Enabled(d, op)
    ensures RecordRight(Do(d, op, parses)) <==> Careful(d, op)
  {
    match op
    case Fetch(hit) => FetchRecord(d, hit, parses);
    case Add(at, m) => AddRecord(d, at, m, parses);
    case Mark(at, pinned, excluded) => MarkRecord(d, at, pinned, excluded, parses);
    case Flush => FlushRecordIff(d, parses);
    case Foreign(ms, flushed) => ForeignRecordIff(d.db.rows, d.db.nextId, d.flushed, ms, flushed);
    case Route(draft) =>
  }

  ghost predicate AllCareful(d: Desk, ops: seq<Act>, parses: string -> bool)
    decreases |ops|
  {
    ops != [] && Enabled(d, ops[0]) ==> Careful(d, ops[0]) && AllCareful(Do(d, ops[0], parses), ops[1..], parses)
  }

  lemma {:induction false} RecordRun(d: Desk, ops: seq<Act>, end: Desk, parses: string -> bool)
    requires DeskOk(d) && RecordRight(d) && Leads(d, ops, end, parses) && AllCareful(d, ops, parses)
    ensures DeskOk(end) && RecordRight(end)
    decreases |ops|
  {
    if ops != [] {
      DoOk(d, ops[0], parses);
      RecordStepIff(d, ops[0], parses);
      RecordRun(Do(d, ops[0], parses), ops[1..], end, parses);
    }
  }

  /**
   From a new checkpointer on any session, after any careful run: the record holds the
   table's pin of every registered message, and the next sync leaves every registered
   message's row with the live flag exactly when its user messages agree with their rows.
   */
  lemma PinsAlwaysWritten(db: Db, ops: seq<Act>, end: Desk, parses: string -> bool)
    requires Sound(db)
    requires Leads(Desk(db, [], map[], 0), ops, end, parses) && AllCareful(Desk(db, [], map[], 0), ops, parses)
    ensures CacheOk(end.db.rows, Lives(end.items), end.flushed)
    ensures PinsWritten(Do(end, Flush, parses).db.rows, Lives(Do(end, Flush, parses).items))
            <==> UsersMatch(end.db.rows, Lives(end.items))
  {
    RecordRun(Desk(db, [], map[], 0), ops, end, parses);
    RecordIsCache(end.db.rows, Lives(end.items), end.flushed, end.db.nextId);
    PinsWrittenIff(end.db.rows, end.db.nextId, Lives(end.items), end.flushed);
    RelivedLives(end.items, SyncLive(Lives(end.items), end.db.nextId));
  }
}
