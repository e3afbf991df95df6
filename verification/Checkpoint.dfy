/**
 What one checkpoint writes, as a function of the live message list and the table: pin
 flips for rows already stored, then a row for each new message worth storing.
 */
module Checkpoint {
  import opened Wrappers
  import opened Text
  import opened Transcript
  import opened Positions
  import opened Queue

  /**
   One live message as `sync` sees it. `seen` says that its object is registered as stored,
   `excluded` that compaction took it out of the context, `hidden` that the user never sees
   it, `thinks` that it carries reasoning.
   */
  datatype Live = Live(
    seen: bool,
    dbId: Option<nat>,
    pinned: bool,
    excluded: bool,
    role: Role,
    isSummary: bool,
    hidden: bool,
    content: string,
    thinks: bool,
    calls: seq<ToolCall>,
    replyTo: string)

  /** Which new messages get a row: empty assistants and ordinary user messages do not. */
  predicate Stores(m: Live) {
    match m.role
    case Assistant => !Blank(m.content) || m.thinks || m.calls != [] || m.isSummary
    case Tool => true
    case User => m.isSummary || m.hidden
    case _ => false
  }

  /** Which messages `sync` registers; user messages are stored by the route instead. */
  predicate Registers(m: Live) {
    Stores(m) || m.role == User
  }

  function KindFor(m: Live): Kind {
    if m.isSummary && m.role != Tool then Summary else if m.hidden then Note else Chat
  }

  function RowFor(m: Live, id: nat, seqNo: int): Row {
    Row(id, seqNo, m.role, KindFor(m), m.pinned, m.content, m.calls, m.replyTo, None)
  }

  // ---- Pins ----------------------------------------------------------------------------

  function Flushed(flushed: map<nat, bool>, id: nat): bool {
    if id in flushed then flushed[id] else false
  }

  predicate PinDiffers(m: Live, flushed: map<nat, bool>) {
    m.seen && m.role != System && m.dbId.Some? && Flushed(flushed, m.dbId.value) != m.pinned
  }

  function PinUpdates(ms: seq<Live>, flushed: map<nat, bool>): map<nat, bool> {
    if ms == [] then map[]
    else
      var m := ms[|ms| - 1];
      var before := PinUpdates(ms[..|ms| - 1], flushed);
      if PinDiffers(m, flushed) then before[m.dbId.value := m.pinned] else before
  }

  function Repin(r: Row, pins: map<nat, bool>): Row {
    if r.id in pins then r.(pinned := pins[r.id]) else r
  }

  function ApplyPins(t: seq<Row>, pins: map<nat, bool>): (u: seq<Row>)
    ensures |u| == |t|
  {
    if t == [] then [] else [Repin(t[0], pins)] + ApplyPins(t[1..], pins)
  }

  // ---- Anchors -------------------------------------------------------------------------

  /** The first stored, kept, unpinned message: the row a summary must sort ahead of. */
  function AnchorId(rest: seq<Live>): Option<nat> {
    if rest == [] then None
    else if rest[0].dbId.Some? && !rest[0].excluded && !rest[0].pinned then rest[0].dbId
    else AnchorId(rest[1..])
  }

  function AnchoredSeq(t: Table, m: Live, rest: seq<Live>): Option<int> {
    if !m.isSummary || m.seen then None
    else
      var anchor := AnchorId(rest);
      if anchor.None? then None
      else
        var row := RowById(t, anchor.value);
        if row.None? then None else Some(SeqBeforeRow(t, row.value.seqNo))
  }

  function AnchoredSeqs(t: Table, ms: seq<Live>): (s: seq<Option<int>>)
    ensures |s| == |ms|
  {
    if ms == [] then [] else [AnchoredSeq(t, ms[0], ms[1..])] + AnchoredSeqs(t, ms[1..])
  }

  // ---- New rows ------------------------------------------------------------------------

  function NextTail(t: Table, tail: Option<int>): int {
    if tail.Some? then tail.value + SEQ_STEP else NextSeq(t)
  }

  /** The rows appended for the new messages of `ms`; tool replies never take an anchor. */
  function NewRows(t: Table, next: nat, tail: Option<int>, ms: seq<Live>, anchored: seq<Option<int>>): seq<Row>
    requires |anchored| == |ms|
    decreases |ms|
  {
    if ms == [] then []
    else if ms[0].seen || !Stores(ms[0]) then NewRows(t, next, tail, ms[1..], anchored[1..])
    else if anchored[0].Some? && ms[0].role != Tool then
      var r := RowFor(ms[0], next, anchored[0].value);
      [r] + NewRows(t + [r], next + 1, tail, ms[1..], anchored[1..])
    else
      var s := NextTail(t, tail);
      var r := RowFor(ms[0], next, s);
      [r] + NewRows(t + [r], next + 1, Some(s), ms[1..], anchored[1..])
  }

  function SyncRows(t: Table, next: nat, ms: seq<Live>, flushed: map<nat, bool>): Table {
    var u := ApplyPins(t, PinUpdates(ms, flushed));
    u + NewRows(u, next, None, ms, AnchoredSeqs(t, ms))
  }

  // ---- Loading -------------------------------------------------------------------------

  /** The message a row is loaded as, before it is registered. */
  function RowLive(r: Row): Live {
    Live(false, Some(r.id), r.pinned, false, r.role, r.kind == Summary, r.kind == Note, r.content, false, r.calls,
         r.replyTo)
  }

  function RowsLive(rows: seq<Row>): seq<Live> {
    seq(|rows|, i requires 0 <= i < |rows| => RowLive(rows[i]))
  }

  /** What a load hands out: messages served from the memo are not registered. */
  function LoadedLive(rows: seq<Row>, hit: bool): seq<Live> {
    seq(|rows|, i requires 0 <= i < |rows| => RowLive(rows[i]).(seen := !hit))
  }

  /** Registering loaded messages records their pins, except where one is on record. */
  function FirstPins(ms: seq<Live>, flushed: map<nat, bool>): map<nat, bool> {
    if ms == [] then flushed
    else if ms[0].dbId.Some? && ms[0].dbId.value !in flushed then
      FirstPins(ms[1..], flushed[ms[0].dbId.value := ms[0].pinned])
    else FirstPins(ms[1..], flushed)
  }

  // ---- What the live side looks like afterwards ----------------------------------------

  function Settle(m: Live, next: nat): Live {
    if m.seen then m
    else if Stores(m) then m.(seen := true, dbId := Some(next))
    else m.(seen := Registers(m))
  }

  function Takes(m: Live): nat {
    if !m.seen && Stores(m) then 1 else 0
  }

  function Taken(ms: seq<Live>): nat {
    if ms == [] then 0 else Takes(ms[0]) + Taken(ms[1..])
  }

  function SyncLive(ms: seq<Live>, next: nat): (s: seq<Live>)
    ensures |s| == |ms|
  {
    if ms == [] then [] else [Settle(ms[0], next)] + SyncLive(ms[1..], next + Takes(ms[0]))
  }

  /** The pin record after one new message is handled. */
  function Recorded(l: Live, next: nat, flushed: map<nat, bool>): map<nat, bool> {
    var m := Settle(l, next);
    if !l.seen && m.seen && m.dbId.Some? then flushed[m.dbId.value := m.pinned] else flushed
  }

  /** Registering a message records its flag, whether or not a row was written for it. */
  function NewPins(ms: seq<Live>, next: nat, flushed: map<nat, bool>): map<nat, bool> {
    if ms == [] then flushed
    else NewPins(ms[1..], next + Takes(ms[0]), Recorded(ms[0], next, flushed))
  }

  function SyncFlushed(ms: seq<Live>, next: nat, flushed: map<nat, bool>): map<nat, bool> {
    NewPins(ms, next, flushed + PinUpdates(ms, flushed))
  }

  predicate SavesSummary(ms: seq<Live>) {
    exists i :: 0 <= i < |ms| && !ms[i].seen && Stores(ms[i]) && ms[i].isSummary && ms[i].role != Tool
  }

  /** A sync that flips a pin or stores a summary changes what a reload would show. */
  predicate Structural(ms: seq<Live>, flushed: map<nat, bool>) {
    PinUpdates(ms, flushed) != map[] || SavesSummary(ms)
  }
}
