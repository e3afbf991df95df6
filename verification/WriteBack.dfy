/**
 The checkpointer's record of flushed pins is a write-back cache of the table, and a
 repeated sync writes nothing.
 */
module WriteBack {
  import opened Wrappers
  import opened Transcript
  import opened Positions
  import opened Queue
  import opened Checkpoint

  // ---- Pin updates leave the order alone -----------------------------------------------

  lemma {:induction false} ApplyPinsAt(t: seq<Row>, pins: map<nat, bool>)
    ensures forall i :: 0 <= i < |t| ==> ApplyPins(t, pins)[i] == Repin(t[i], pins)
  {
    if t != [] {
      ApplyPinsAt(t[1..], pins);
    }
  }

  lemma {:induction false} ApplyPinsConcat(a: seq<Row>, b: seq<Row>, pins: map<nat, bool>)
    ensures ApplyPins(a + b, pins) == ApplyPins(a, pins) + ApplyPins(b, pins)
  {
    ApplyPinsAt(a, pins);
    ApplyPinsAt(b, pins);
    ApplyPinsAt(a + b, pins);
  }

  lemma {:induction false} InsertPins(v: seq<Row>, r: Row, pins: map<nat, bool>)
    ensures ApplyPins(Insert(v, r), pins) == Insert(ApplyPins(v, pins), Repin(r, pins))
  {
    if v == [] || Before(r, v[0]) {
      ApplyPinsConcat([r], v, pins);
    } else {
      InsertPins(v[1..], r, pins);
      ApplyPinsConcat([v[0]], Insert(v[1..], r), pins);
    }
  }

  lemma {:induction false} ViewPins(t: Table, pins: map<nat, bool>)
    ensures View(ApplyPins(t, pins)) == ApplyPins(View(t), pins)
  {
    if t != [] {
      var init, last := t[..|t| - 1], t[|t| - 1];
      assert t == init + [last];
      ViewPins(init, pins);
      ApplyPinsConcat(init, [last], pins);
      ViewAppended(ApplyPins(init, pins), Repin(last, pins));
      InsertPins(View(init), last, pins);
    }
  }

  lemma PinsKeepShape(t: Table, pins: map<nat, bool>, bound: nat)
    requires WellFormed(t) && Below(t, bound)
    ensures WellFormed(ApplyPins(t, pins)) && Below(ApplyPins(t, pins), bound)
  {
    ApplyPinsAt(t, pins);
  }

  // ---- Which pins are written ----------------------------------------------------------

  predicate Tracked(m: Live) {
    m.seen && m.role != System && m.dbId.Some?
  }

  /** Registered messages of one row agree on its pin. */
  ghost predicate Agree(ms: seq<Live>) {
    forall m, n :: m in ms && n in ms && Tracked(m) && Tracked(n) && m.dbId == n.dbId ==> m.pinned == n.pinned
  }

  /** The record holds what the table holds, for every registered message. */
  ghost predicate CacheOk(t: Table, ms: seq<Live>, flushed: map<nat, bool>) {
    forall m, r :: m in ms && Tracked(m) && r in t && r.id == m.dbId.value ==> r.pinned == Flushed(flushed, r.id)
  }

  /** Every registered message's row carries the live flag. */
  ghost predicate PinsWritten(t: Table, ms: seq<Live>) {
    forall m, r :: m in ms && Tracked(m) && r in t && r.id == m.dbId.value ==> r.pinned == m.pinned
  }

  lemma {:induction false} PinUpdatesAre(ms: seq<Live>, flushed: map<nat, bool>)
    requires Agree(ms)
    ensures forall m :: m in ms && PinDiffers(m, flushed) ==>
              m.dbId.value in PinUpdates(ms, flushed) && PinUpdates(ms, flushed)[m.dbId.value] == m.pinned
    ensures forall id :: id in PinUpdates(ms, flushed) ==>
              exists m :: m in ms && PinDiffers(m, flushed) && m.dbId == Some(id)
  {
    if ms != [] {
      var init, last := ms[..|ms| - 1], ms[|ms| - 1];
      assert ms == init + [last];
      PinUpdatesAre(init, flushed);
      forall id | id in PinUpdates(ms, flushed)
        ensures exists m :: m in ms && PinDiffers(m, flushed) && m.dbId == Some(id)
      {
        if PinDiffers(last, flushed) && last.dbId == Some(id) {
          assert last in ms;
        } else {
          assert id in PinUpdates(init, flushed);
        }
      }
    }
  }

  lemma PinAfter(t: Table, ms: seq<Live>, flushed: map<nat, bool>, m: Live, r: Row)
    requires Agree(ms) && CacheOk(t, ms, flushed)
    requires m in ms && Tracked(m) && r in t && r.id == m.dbId.value
    ensures Repin(r, PinUpdates(ms, flushed)).pinned == m.pinned
    ensures Flushed(flushed + PinUpdates(ms, flushed), r.id) == m.pinned
  {
    PinUpdatesAre(ms, flushed);
  }

  // ---- After a sync --------------------------------------------------------------------

  /** Each live message has its own row, and row ids are ids already handed out. */
  ghost predicate OwnRows(ms: seq<Live>, bound: nat) {
    && (forall i, j :: 0 <= i < j < |ms| && ms[i].dbId.Some? ==> ms[i].dbId != ms[j].dbId)
    && (forall i :: 0 <= i < |ms| && ms[i].dbId.Some? ==> ms[i].dbId.value < bound)
  }

  lemma OwnRowsTail(ms: seq<Live>, bound: nat)
    requires OwnRows(ms, bound) && ms != []
    ensures OwnRows(ms[1..], bound)
  {
    forall i, j | 0 <= i < j < |ms[1..]| && ms[1..][i].dbId.Some? ensures ms[1..][i].dbId != ms[1..][j].dbId {
      assert ms[i + 1].dbId != ms[j + 1].dbId;
    }
  }

  lemma {:induction false} SyncLiveIds(ms: seq<Live>, next: nat)
    ensures forall i :: 0 <= i < |ms| ==>
              var m := SyncLive(ms, next)[i];
              if Takes(ms[i]) == 1 then m.dbId.Some? && m.dbId.value >= next else m.dbId == ms[i].dbId
  {
    if ms != [] {
      SyncLiveIds(ms[1..], next + Takes(ms[0]));
    }
  }

  /** Message `i` is registered by this sync under row `id`. */
  predicate Enters(ms: seq<Live>, next: nat, i: int, id: nat) {
    && 0 <= i < |ms| && !ms[i].seen
    && SyncLive(ms, next)[i].seen && SyncLive(ms, next)[i].dbId == Some(id)
  }

  lemma {:induction false} NewPinsFrame(ms: seq<Live>, next: nat, flushed: map<nat, bool>, id: nat)
    requires forall i :: !Enters(ms, next, i, id)
    ensures Flushed(NewPins(ms, next, flushed), id) == Flushed(flushed, id)
    ensures id in NewPins(ms, next, flushed) <==> id in flushed
  {
    if ms != [] {
      var m, rest, more := Settle(ms[0], next), ms[1..], next + Takes(ms[0]);
      assert !Enters(ms, next, 0, id);
      forall i ensures !Enters(rest, more, i, id) {
        assert !Enters(ms, next, i + 1, id);
      }
      var f := if !ms[0].seen && m.seen && m.dbId.Some? then flushed[m.dbId.value := m.pinned] else flushed;
      NewPinsFrame(rest, more, f, id);
    }
  }

  lemma {:induction false} NewPinsHit(ms: seq<Live>, next: nat, bound: nat, flushed: map<nat, bool>, i: nat, id: nat)
    requires OwnRows(ms, bound) && bound <= next && Enters(ms, next, i, id)
    ensures Flushed(NewPins(ms, next, flushed), id) == ms[i].pinned
    ensures id in NewPins(ms, next, flushed)
  {
    var m, rest, more := Settle(ms[0], next), ms[1..], next + Takes(ms[0]);
    var f := if !ms[0].seen && m.seen && m.dbId.Some? then flushed[m.dbId.value := m.pinned] else flushed;
    OwnRowsTail(ms, bound);
    if i > 0 {
      assert Enters(rest, more, i - 1, id);
      NewPinsHit(rest, more, bound, f, i - 1, id);
    } else {
      SyncLiveIds(rest, more);
      forall j ensures !Enters(rest, more, j, id) {
        assert 0 <= j < |rest| ==> rest[j] == ms[j + 1];
      }
      NewPinsFrame(rest, more, f, id);
    }
  }

  lemma OwnRowsAgree(ms: seq<Live>, bound: nat)
    requires OwnRows(ms, bound)
    ensures Agree(ms)
  {
    forall m, n | m in ms && n in ms && Tracked(m) && Tracked(n) && m.dbId == n.dbId ensures m.pinned == n.pinned {
      var i :| 0 <= i < |ms| && ms[i] == m;
      var j :| 0 <= j < |ms| && ms[j] == n;
      assert i == j;
    }
  }

  /** After a sync the record holds the live flag of every registered message. */
  lemma RecordedPins(ms: seq<Live>, next: nat, flushed: map<nat, bool>, i: nat)
    requires OwnRows(ms, next) && i < |ms| && Tracked(SyncLive(ms, next)[i])
    ensures Flushed(SyncFlushed(ms, next, flushed), SyncLive(ms, next)[i].dbId.value) == SyncLive(ms, next)[i].pinned
    ensures !ms[i].seen ==> SyncLive(ms, next)[i].dbId.value in SyncFlushed(ms, next, flushed)
  {
    var m := SyncLive(ms, next)[i];
    var id, f := m.dbId.value, flushed + PinUpdates(ms, flushed);
    SyncLiveSettles(ms, next, i);
    SyncLiveIds(ms, next);
    if !ms[i].seen {
      assert Enters(ms, next, i, id);
      NewPinsHit(ms, next, next, f, i, id);
    } else {
      forall j ensures !Enters(ms, next, j, id) {
        assert 0 <= j < |ms| && j != i ==> ms[j].dbId != ms[i].dbId;
      }
      NewPinsFrame(ms, next, f, id);
      OwnRowsAgree(ms, next);
      assert ms[i] in ms && Tracked(ms[i]);
      PinUpdatesAre(ms, flushed);
    }
  }

  lemma {:induction false} SyncLiveSettles(ms: seq<Live>, next: nat, i: nat)
    requires i < |ms|
    ensures exists n :: n >= next && SyncLive(ms, next)[i] == Settle(ms[i], n)
  {
    if i == 0 {
      assert SyncLive(ms, next)[0] == Settle(ms[0], next);
    } else {
      SyncLiveSettles(ms[1..], next + Takes(ms[0]), i - 1);
    }
  }

  // ---- A second sync -------------------------------------------------------------------

  lemma {:induction false} NoPinUpdates(ms: seq<Live>, flushed: map<nat, bool>)
    requires forall i :: 0 <= i < |ms| ==> !PinDiffers(ms[i], flushed)
    ensures PinUpdates(ms, flushed) == map[]
  {
    if ms != [] {
      NoPinUpdates(ms[..|ms| - 1], flushed);
    }
  }

  lemma {:induction false} NothingNew(t: Table, next: nat, tail: Option<int>, ms: seq<Live>, anchored: seq<Option<int>>)
    requires |anchored| == |ms|
    requires forall i :: 0 <= i < |ms| ==> ms[i].seen || !Stores(ms[i])
    ensures NewRows(t, next, tail, ms, anchored) == []
  {
    if ms != [] {
      NothingNew(t, next, tail, ms[1..], anchored[1..]);
    }
  }

  lemma {:induction false} NoPins(t: seq<Row>)
    ensures ApplyPins(t, map[]) == t
  {
    if t != [] {
      NoPins(t[1..]);
      assert [t[0]] + t[1..] == t;
    }
  }

  /** Syncing the same list again writes no row, flips no pin and changes no revision. */
  lemma SyncTwice(t: Table, next: nat, ms: seq<Live>, flushed: map<nat, bool>, again: nat)
    requires OwnRows(ms, next)
    ensures var ms' := SyncLive(ms, next); var flushed' := SyncFlushed(ms, next, flushed);
            var t' := SyncRows(t, next, ms, flushed);
            && SyncRows(t', again, ms', flushed') == t'
            && !Structural(ms', flushed')
  {
    var ms', flushed' := SyncLive(ms, next), SyncFlushed(ms, next, flushed);
    var t' := SyncRows(t, next, ms, flushed);
    forall i | 0 <= i < |ms'| ensures !PinDiffers(ms'[i], flushed') && (ms'[i].seen || !Stores(ms'[i])) {
      SyncLiveSettles(ms, next, i);
      if Tracked(ms'[i]) {
        RecordedPins(ms, next, flushed, i);
      }
    }
    NoPinUpdates(ms', flushed');
    NoPins(t');
    NothingNew(t', again, None, ms', AnchoredSeqs(t', ms'));
    assert t' + [] == t';
  }

  // ---- The table carries the live flags ------------------------------------------------

  /** Newly seen user messages that name a row agree with it: no flag is written for them. */
  ghost predicate UsersMatch(t: Table, ms: seq<Live>) {
    forall m, r ::
      m in ms && !m.seen && m.role == User && !Stores(m) && m.dbId.Some? && r in t && r.id == m.dbId.value
      ==> r.pinned == m.pinned
  }

  lemma {:induction false} NewRowsAre(t: Table, next: nat, tail: Option<int>, ms: seq<Live>, anchored: seq<Option<int>>)
    requires |anchored| == |ms|
    ensures forall r :: r in NewRows(t, next, tail, ms, anchored) ==> r.id >= next
    ensures forall r, i ::
              r in NewRows(t, next, tail, ms, anchored) && 0 <= i < |ms| && Takes(ms[i]) == 1
              && SyncLive(ms, next)[i].dbId == Some(r.id)
              ==> r.pinned == ms[i].pinned
    decreases |ms|
  {
    if ms != [] {
      if ms[0].seen || !Stores(ms[0]) {
        NewRowsAre(t, next, tail, ms[1..], anchored[1..]);
      } else {
        var s := if anchored[0].Some? && ms[0].role != Tool then anchored[0].value else NextTail(t, tail);
        var more := if anchored[0].Some? && ms[0].role != Tool then tail else Some(s);
        var r := RowFor(ms[0], next, s);
        NewRowsAre(t + [r], next + 1, more, ms[1..], anchored[1..]);
        SyncLiveIds(ms[1..], next + 1);
      }
    }
  }

  /**
   After a sync every registered message's row carries the live flag, exactly when the
   user messages it registers without writing already agreed with their rows.
   */
  lemma PinsWrittenIff(t: Table, next: nat, ms: seq<Live>, flushed: map<nat, bool>)
    requires WellFormed(t) && Below(t, next) && OwnRows(ms, next) && CacheOk(t, ms, flushed)
    ensures PinsWritten(SyncRows(t, next, ms, flushed), SyncLive(ms, next)) <==> UsersMatch(t, ms)
  {
    var pins := PinUpdates(ms, flushed);
    var u := ApplyPins(t, pins);
    var added := NewRows(u, next, None, ms, AnchoredSeqs(t, ms));
    var ms' := SyncLive(ms, next);
    OwnRowsAgree(ms, next);
    PinUpdatesAre(ms, flushed);
    ApplyPinsAt(t, pins);
    NewRowsAre(u, next, None, ms, AnchoredSeqs(t, ms));
    SyncLiveIds(ms, next);
    if UsersMatch(t, ms) {
      forall m, r: Row | m in ms' && Tracked(m) && r in u + added && r.id == m.dbId.value ensures r.pinned == m.pinned {
        var i :| 0 <= i < |ms'| && ms'[i] == m;
        SyncLiveSettles(ms, next, i);
        RowPinned(t, next, ms, flushed, i, r);
      }
    } else {
      var m, r :| m in ms && !m.seen && m.role == User && !Stores(m) && m.dbId.Some? && r in t
                  && r.id == m.dbId.value && r.pinned != m.pinned;
      var i :| 0 <= i < |ms| && ms[i] == m;
      var k :| 0 <= k < |t| && t[k] == r;
      SyncLiveSettles(ms, next, i);
      assert ms'[i] in ms' && Tracked(ms'[i]);
      Untouched(ms, next, flushed, i);
      assert u[k] == r && r in u + added;
    }
  }

  /** No pin is written for a message that is not yet registered. */
  lemma Untouched(ms: seq<Live>, next: nat, flushed: map<nat, bool>, i: nat)
    requires OwnRows(ms, next) && i < |ms| && !ms[i].seen && ms[i].dbId.Some?
    ensures ms[i].dbId.value !in PinUpdates(ms, flushed)
  {
    OwnRowsAgree(ms, next);
    PinUpdatesAre(ms, flushed);
    forall m | m in ms && m.dbId == ms[i].dbId ensures m == ms[i] {
      var j :| 0 <= j < |ms| && ms[j] == m;
    }
  }

  lemma RowPinned(t: Table, next: nat, ms: seq<Live>, flushed: map<nat, bool>, i: nat, r: Row)
    requires WellFormed(t) && Below(t, next) && OwnRows(ms, next) && CacheOk(t, ms, flushed) && UsersMatch(t, ms)
    requires i < |ms| && Tracked(SyncLive(ms, next)[i])
    requires r in SyncRows(t, next, ms, flushed) && r.id == SyncLive(ms, next)[i].dbId.value
    ensures r.pinned == SyncLive(ms, next)[i].pinned
  {
    var pins := PinUpdates(ms, flushed);
    var u := ApplyPins(t, pins);
    var added := NewRows(u, next, None, ms, AnchoredSeqs(t, ms));
    SyncLiveSettles(ms, next, i);
    SyncLiveIds(ms, next);
    NewRowsAre(u, next, None, ms, AnchoredSeqs(t, ms));
    ApplyPinsAt(t, pins);
    OwnRowsAgree(ms, next);
    assert ms[i] in ms;
    if r in added {
      assert r.id >= next;
    } else {
      var k :| 0 <= k < |u| && u[k] == r;
      assert t[k] in t && t[k].id == r.id < next;
      if ms[i].seen {
        PinAfter(t, ms, flushed, ms[i], t[k]);
      } else {
        Untouched(ms, next, flushed, i);
      }
    }
  }
}
