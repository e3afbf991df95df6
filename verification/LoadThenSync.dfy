/**
 A load followed by a sync of the list it returned. After a fresh load nothing is written;
 after a load served from the memo every storable message is written again.
 */
module LoadThenSync {
  import opened Wrappers
  import opened Transcript
  import opened Positions
  import opened Window
  import opened Queue
  import opened Checkpoint
  import opened WriteBack
  import opened HistoryCache
  import opened Loading
  import opened WriteBackRuns

  /** The loaded messages a sync would store if they were new. */
  function StoredRows(rows: seq<Row>): seq<Row> {
    Filter(rows, (r: Row) => Stores(RowLive(r)))
  }

  /** `copy` says what `r` says, pin included, under an id of its own. */
  predicate Copies(copy: Row, r: Row, id: nat) {
    Says(copy, RowLive(r)) && copy.pinned == r.pinned && copy.id == id
  }

  ghost predicate AllCopies(added: seq<Row>, rows: seq<Row>, next: nat) {
    |added| == |rows| && forall k :: 0 <= k < |added| ==> Copies(added[k], rows[k], next + k)
  }

  lemma CopiesCons(copy: Row, added: seq<Row>, r: Row, rows: seq<Row>, next: nat)
    requires Copies(copy, r, next) && AllCopies(added, rows, next + 1)
    ensures AllCopies([copy] + added, [r] + rows, next)
  {
    var all, from := [copy] + added, [r] + rows;
    forall k | 0 < k < |all| ensures Copies(all[k], from[k], next + k) {
      assert all[k] == added[k - 1] && from[k] == rows[k - 1];
      assert Copies(added[k - 1], rows[k - 1], next + 1 + (k - 1));
    }
  }

  lemma {:induction false} CopiesTaken(t: Table, next: nat, tail: Option<int>, rows: seq<Row>,
                                       anchored: seq<Option<int>>)
    requires |anchored| == |rows|
    ensures AllCopies(NewRows(t, next, tail, RowsLive(rows), anchored), StoredRows(rows), next)
    decreases |rows|
  {
    if rows != [] {
      var ms := RowsLive(rows);
      assert ms[1..] == RowsLive(rows[1..]) && ms[0] == RowLive(rows[0]);
      if Stores(ms[0]) {
        var anchors := anchored[0].Some? && ms[0].role != Tool;
        var s := if anchors then anchored[0].value else NextTail(t, tail);
        var r, more := RowFor(ms[0], next, s), if anchors then tail else Some(s);
        CopiesTaken(t + [r], next + 1, more, rows[1..], anchored[1..]);
        CopiesCons(r, NewRows(t + [r], next + 1, more, ms[1..], anchored[1..]), rows[0], StoredRows(rows[1..]), next);
      } else {
        CopiesTaken(t, next, tail, rows[1..], anchored[1..]);
        assert [] + StoredRows(rows[1..]) == StoredRows(rows[1..]);
      }
    }
  }

  lemma UnseenLive(rows: seq<Row>)
    ensures LoadedLive(rows, true) == RowsLive(rows)
  {
  }

  lemma {:induction false} NoPinsUnseen(ms: seq<Live>, flushed: map<nat, bool>)
    requires forall i :: 0 <= i < |ms| ==> !ms[i].seen
    ensures PinUpdates(ms, flushed) == map[]
  {
    NoPinUpdates(ms, flushed);
  }

  /** After a hit: the table stays, and behind it comes a copy of each storable message. */
  lemma HitStoresCopies(d: Db, rows: seq<Row>, flushed: map<nat, bool>)
    ensures var d' := Synced(d, LoadedLive(rows, true), flushed);
            && |d.rows| <= |d'.rows| && d'.rows[..|d.rows|] == d.rows
            && AllCopies(d'.rows[|d.rows|..], StoredRows(rows), d.nextId)
  {
    var ms := LoadedLive(rows, true);
    UnseenLive(rows);
    NoPinsUnseen(ms, flushed);
    NoPins(d.rows);
    CopiesTaken(d.rows, d.nextId, None, rows, AnchoredSeqs(d.rows, ms));
    var added := NewRows(d.rows, d.nextId, None, ms, AnchoredSeqs(d.rows, ms));
    assert (d.rows + added)[..|d.rows|] == d.rows && (d.rows + added)[|d.rows|..] == added;
  }

  /** After a miss: no row is added. */
  lemma MissAddsNothing(d: Db, rows: seq<Row>, flushed: map<nat, bool>)
    ensures |Synced(d, LoadedLive(rows, false), flushed).rows| == |d.rows|
  {
    var ms := LoadedLive(rows, false);
    NothingNew(ApplyPins(d.rows, PinUpdates(ms, flushed)), d.nextId, None, ms, AnchoredSeqs(d.rows, ms));
  }

  /** The pin record a load leaves. */
  function LoadedPins(rows: seq<Row>, hit: bool, flushed: map<nat, bool>): map<nat, bool> {
    if hit then flushed else FirstPins(RowsLive(rows), flushed)
  }

  /**
   Syncing the list a load returned adds no row exactly when the load missed or returned
   nothing storable. Otherwise it repeats each storable message in a row of its own.
   */
  lemma LoadSyncIff(d: Db, memo: Option<Memo>, flushed: map<nat, bool>, parses: string -> bool)
    ensures var rows := Load(d, memo, parses).0;
            var hit := memo.Some? && Fits(d, memo.value);
            var d' := Synced(d, LoadedLive(rows, hit), LoadedPins(rows, hit, flushed));
            && (|d'.rows| == |d.rows| <==> !hit || StoredRows(rows) == [])
            && (hit ==> |d.rows| <= |d'.rows| && d'.rows[..|d.rows|] == d.rows
                        && AllCopies(d'.rows[|d.rows|..], StoredRows(rows), d.nextId))
  {
    var rows := Load(d, memo, parses).0;
    if memo.Some? && Fits(d, memo.value) {
      HitStoresCopies(d, rows, flushed);
    } else {
      MissAddsNothing(d, rows, LoadedPins(rows, false, flushed));
    }
  }

  /** A miss writes nothing at all while the record is right. */
  lemma MissSyncsNothing(d: Db, memo: Option<Memo>, flushed: map<nat, bool>, parses: string -> bool)
    requires Sound(d) && RecordOk(d.rows, flushed) && !(memo.Some? && Fits(d, memo.value))
    ensures var rows := Load(d, memo, parses).0;
            Synced(d, LoadedLive(rows, false), LoadedPins(rows, false, flushed)) == d
  {
    var rows := Load(d, memo, parses).0;
    var ms, f := LoadedLive(rows, false), LoadedPins(rows, false, flushed);
    forall i | 0 <= i < |ms| ensures !PinDiffers(ms[i], f) {
      LoadedPinKnown(d.rows, rows, flushed, parses, i);
    }
    NoPinUpdates(ms, f);
    NoPins(d.rows);
    NothingNew(d.rows, d.nextId, None, ms, AnchoredSeqs(d.rows, ms));
    NoneTaken(ms);
    assert d.rows + [] == d.rows;
  }

  lemma {:induction false} NoneTaken(ms: seq<Live>)
    requires forall i :: 0 <= i < |ms| ==> ms[i].seen
    ensures Taken(ms) == 0 && !SavesSummary(ms)
  {
    if ms != [] {
      NoneTaken(ms[1..]);
    }
  }

  lemma LoadedPinKnown(t: Table, rows: seq<Row>, flushed: map<nat, bool>, parses: string -> bool, i: nat)
    requires WellFormed(t) && RecordOk(t, flushed) && rows == Messages(LlmWindow(t), parses) && i < |rows|
    ensures Flushed(FirstPins(RowsLive(rows), flushed), rows[i].id) == rows[i].pinned
  {
    var ms := RowsLive(rows);
    assert ms[i] in ms && ms[i].dbId == Some(rows[i].id);
    FirstPinsAre(ms, flushed, rows[i].id);
    LoadedDraws(t, parses);
    LoadedRow(t, parses, ms[i]);
    if rows[i].id !in flushed {
      var m :| m in ms && m.dbId == Some(rows[i].id) && m.pinned == FirstPins(ms, flushed)[rows[i].id];
      var k :| 0 <= k < |ms| && ms[k] == m;
      assert k == i;
    }
  }
}
