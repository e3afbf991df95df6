/**
 Producers, one flusher thread and shutdown, in every interleaving: nothing accepted is
 lost or written twice, each file holds its records in order, and once the flusher has
 ended every record accepted before the close is on disk.
 */
module JsonlRuns {
  import opened Wrappers
  import opened JsonlWriter

  datatype Config = Config(maxQueue: nat, batchSize: nat)

  /** Where the flusher stands; `LastFlush` has found the queue empty after the stop. */
  datatype Pc = Check | Waiting | Draining | Deciding | Final | LastFlush | Done

  /**
   `accepted` and `flushed` are the histories of records queued and handed to a flush,
   `mark` how many had been accepted when the stop flag was first set, and `broken` the
   partitions an append has failed on.
   */
  datatype State = State(
    queue: seq<Item>,
    stop: bool,
    files: Files,
    batch: seq<Rec>,
    pc: Pc,
    accepted: seq<Rec>,
    flushed: seq<Rec>,
    mark: Option<nat>,
    broken: set<string>)

  datatype Action =
    | Write(rec: Rec)
    | SetStop
    | PushSentinel
    | Flusher(late: bool, disk: Disk)

  function Init(): State {
    State([], false, map[], [], Check, [], [], None, {})
  }

  predicate IsFull(c: Config, s: State) {
    c.maxQueue > 0 && |s.queue| >= c.maxQueue
  }

  function FlushBatch(s: State, disk: Disk): State {
    s.(files := Flushed(s.files, s.batch, disk), flushed := s.flushed + s.batch, batch := [],
       broken := s.broken + set r | r in s.batch && disk(r.key).Some? :: r.key)
  }

  /** Takes the head of the queue: a record joins the batch, a sentinel is dropped. */
  function Take(s: State): State
    requires s.queue != []
  {
    var s' := s.(queue := s.queue[1..]);
    match s.queue[0]
    case Data(rec) => s'.(batch := s.batch + [rec])
    case Sentinel => s'
  }

  function FlusherStep(c: Config, s: State, late: bool, disk: Disk): State {
    match s.pc
    case Check => s.(pc := if s.stop then Final else Waiting)
    case Waiting =>
      if s.queue == [] then s.(pc := Draining)
      else Take(s).(pc := if s.queue[0] == Sentinel then Final else Draining)
    case Draining =>
      if |s.batch| >= c.batchSize || s.queue == [] then s.(pc := Deciding)
      else Take(s).(pc := if s.queue[0] == Sentinel then Deciding else Draining)
    case Deciding =>
      (if s.batch != [] && (|s.batch| >= c.batchSize || late) then FlushBatch(s, disk) else s).(pc := Check)
    case Final => if s.queue == [] then s.(pc := LastFlush) else Take(s)
    case LastFlush => (if s.batch != [] then FlushBatch(s, disk) else s).(pc := Done)
    case Done => s
  }

  function Do(c: Config, s: State, a: Action): State {
    match a
    case Write(rec) =>
      if IsFull(c, s) then s else s.(queue := s.queue + [Data(rec)], accepted := s.accepted + [rec])
    case SetStop => s.(stop := true, mark := if s.stop then s.mark else Some(|s.accepted|))
    case PushSentinel => if s.stop && !IsFull(c, s) then s.(queue := s.queue + [Sentinel]) else s
    case Flusher(late, disk) => FlusherStep(c, s, late, disk)
  }

  function Run(c: Config, s: State, actions: seq<Action>): State
    decreases |actions|
  {
    if actions == [] then s else Run(c, Do(c, s, actions[0]), actions[1..])
  }

  // ---- One queue -----------------------------------------------------------------------

  function Recs(queue: seq<Item>): seq<Rec> {
    if queue == [] then [] else (if queue[0].Data? then [queue[0].rec] else []) + Recs(queue[1..])
  }

  lemma Reassociate(a: seq<Rec>, b: seq<Rec>, c: seq<Rec>)
    ensures a + b + c == a + (b + c)
  {
  }

  lemma {:induction false} RecsSnoc(queue: seq<Item>, item: Item)
    ensures Recs(queue + [item]) == Recs(queue) + if item.Data? then [item.rec] else []
  {
    if queue == [] {
      assert queue + [item] == [item] && [item][1..] == [];
    } else {
      var tail := if item.Data? then [item.rec] else [];
      assert (queue + [item])[1..] == queue[1..] + [item];
      RecsSnoc(queue[1..], item);
      Reassociate(if queue[0].Data? then [queue[0].rec] else [], Recs(queue[1..]), tail);
    }
  }

  /** Accepted, in order: what was flushed, then the batch, then the queue. */
  ghost predicate Fifo(s: State) {
    s.accepted == s.flushed + s.batch + Recs(s.queue)
  }

  lemma FifoTake(s: State)
    requires Fifo(s) && s.queue != []
    ensures Fifo(Take(s))
  {
  }

  lemma FifoFlush(s: State, disk: Disk)
    requires Fifo(s)
    ensures Fifo(FlushBatch(s, disk))
  {
    assert s.flushed + s.batch + [] == s.flushed + s.batch;
  }

  lemma FifoFlusher(c: Config, s: State, late: bool, disk: Disk)
    requires Fifo(s)
    ensures Fifo(FlusherStep(c, s, late, disk))
  {
    match s.pc
    case Deciding => FifoFlush(s, disk);
    case LastFlush => FifoFlush(s, disk);
    case Waiting => if s.queue != [] { FifoTake(s); }
    case Draining => if s.queue != [] { FifoTake(s); }
    case Final => if s.queue != [] { FifoTake(s); }
    case _ =>
  }

  lemma FifoKept(c: Config, s: State, a: Action)
    requires Fifo(s)
    ensures Fifo(Do(c, s, a))
  {
    match a
    case Write(rec) => RecsSnoc(s.queue, Data(rec));
    case SetStop =>
    case PushSentinel => RecsSnoc(s.queue, Sentinel);
    case Flusher(late, disk) => FifoFlusher(c, s, late, disk);
  }

  // ---- Shutdown ------------------------------------------------------------------------

  ghost predicate StopOk(s: State) {
    && (Sentinel in s.queue ==> s.stop)
    && (s.pc == Final || s.pc == LastFlush || s.pc == Done ==> s.stop)
    && (s.stop <==> s.mark.Some?)
    && (s.mark.Some? ==> s.mark.value <= |s.accepted|)
    && (s.pc == LastFlush ==> s.mark.value <= |s.flushed| + |s.batch|)
    && (s.pc == Done ==> s.batch == [] && s.mark.value <= |s.flushed|)
  }

  lemma StopKept(c: Config, s: State, a: Action)
    requires Fifo(s) && StopOk(s)
    ensures StopOk(Do(c, s, a))
  {
    if a.Flusher? && s.queue != [] {
      assert s.queue == [s.queue[0]] + s.queue[1..];
    }
    assert s.queue == [] ==> |s.accepted| == |s.flushed| + |s.batch|;
  }

  /** Until shutdown a batch never outgrows its size. */
  ghost predicate BatchOk(c: Config, s: State) {
    && (s.pc == Check || s.pc == Waiting ==> |s.batch| < c.batchSize || s.batch == [])
    && (s.pc == Draining || s.pc == Deciding ==> |s.batch| <= c.batchSize || |s.batch| <= 1)
  }

  lemma BatchKept(c: Config, s: State, a: Action)
    requires BatchOk(c, s)
    ensures BatchOk(c, Do(c, s, a))
  {
  }

  // ---- Files ---------------------------------------------------------------------------

  ghost predicate FileOk(s: State, key: string) {
    key !in s.broken ==> FileOf(s.files, key) == OfKey(s.flushed, key)
  }

  lemma FlushKeeps(s: State, disk: Disk, key: string)
    requires FileOk(s, key)
    ensures FileOk(FlushBatch(s, disk), key)
  {
    FlushedFile(s.files, s.batch, disk, key);
    OfKeyConcat(s.flushed, s.batch, key);
    OfKeyNone(s.batch, key);
    if key !in FlushBatch(s, disk).broken && key in KeysOf(s.batch) {
      var r :| r in s.batch && r.key == key;
      assert disk(r.key).None?;
    }
  }

  lemma FileFlusher(c: Config, s: State, late: bool, disk: Disk, key: string)
    requires FileOk(s, key)
    ensures FileOk(FlusherStep(c, s, late, disk), key)
  {
    match s.pc
    case Deciding => FlushKeeps(s, disk, key);
    case LastFlush => FlushKeeps(s, disk, key);
    case _ =>
      var s' := FlusherStep(c, s, late, disk);
      assert s'.files == s.files && s'.flushed == s.flushed && s'.broken == s.broken;
  }

  lemma FileKept(c: Config, s: State, a: Action, key: string)
    requires FileOk(s, key)
    ensures FileOk(Do(c, s, a), key)
  {
    match a
    case Flusher(late, disk) => FileFlusher(c, s, late, disk, key);
    case _ =>
  }

  // ---- Every run -----------------------------------------------------------------------

  ghost predicate Inv(c: Config, s: State) {
    Fifo(s) && StopOk(s) && BatchOk(c, s)
  }

  lemma {:induction false} InvAlways(c: Config, s: State, actions: seq<Action>)
    requires Inv(c, s)
    ensures Inv(c, Run(c, s, actions))
    decreases |actions|
  {
    if actions != [] {
      FifoKept(c, s, actions[0]);
      StopKept(c, s, actions[0]);
      BatchKept(c, s, actions[0]);
      InvAlways(c, Do(c, s, actions[0]), actions[1..]);
    }
  }

  lemma {:induction false} FileAlways(c: Config, s: State, actions: seq<Action>, key: string)
    requires FileOk(s, key)
    ensures FileOk(Run(c, s, actions), key)
    decreases |actions|
  {
    if actions != [] {
      FileKept(c, s, actions[0], key);
      FileAlways(c, Do(c, s, actions[0]), actions[1..], key);
    }
  }

  /** Nothing is lost, doubled or reordered between the producers and the files. */
  lemma RecordsConserved(c: Config, actions: seq<Action>, key: string)
    ensures var s := Run(c, Init(), actions);
            && s.accepted == s.flushed + s.batch + Recs(s.queue)
            && (key !in s.broken ==>
                  OfKey(s.accepted, key) == FileOf(s.files, key) + OfKey(s.batch, key) + OfKey(Recs(s.queue), key))
  {
    var s := Run(c, Init(), actions);
    InvAlways(c, Init(), actions);
    FileAlways(c, Init(), actions, key);
    OfKeyConcat(s.flushed + s.batch, Recs(s.queue), key);
    OfKeyConcat(s.flushed, s.batch, key);
  }

  /** Until the shutdown drain the batch keeps to its size; the queue always keeps to its limit. */
  lemma BoundedMemory(c: Config, actions: seq<Action>)
    ensures var s := Run(c, Init(), actions);
            s.pc != Final && s.pc != LastFlush ==> |s.batch| <= c.batchSize || |s.batch| <= 1
    ensures c.maxQueue > 0 ==> |Run(c, Init(), actions).queue| <= c.maxQueue
  {
    InvAlways(c, Init(), actions);
    QueueBounded(c, Init(), actions);
  }

  lemma {:induction false} QueueBounded(c: Config, s: State, actions: seq<Action>)
    requires c.maxQueue > 0 ==> |s.queue| <= c.maxQueue
    ensures c.maxQueue > 0 ==> |Run(c, s, actions).queue| <= c.maxQueue
    decreases |actions|
  {
    if actions != [] {
      QueueBounded(c, Do(c, s, actions[0]), actions[1..]);
    }
  }

  /** Once the stop flag is set, the number accepted before it never changes. */
  lemma {:induction false} MarkStays(c: Config, s: State, actions: seq<Action>)
    requires s.stop
    ensures Run(c, s, actions).stop && Run(c, s, actions).mark == s.mark
    ensures s.accepted <= Run(c, s, actions).accepted
    decreases |actions|
  {
    if actions != [] {
      MarkStays(c, Do(c, s, actions[0]), actions[1..]);
    }
  }

  /**
   When the flusher has ended, the records accepted before the close head their files, each
   once and in order, in every partition no append failed on.
   */
  lemma ClosedWritesAll(c: Config, before: seq<Action>, after: seq<Action>, key: string)
    requires var s := Run(c, Init(), before); !s.stop
    requires Run(c, Do(c, Run(c, Init(), before), SetStop), after).pc == Done
    ensures var s := Run(c, Init(), before); var end := Run(c, Do(c, s, SetStop), after);
            key !in end.broken ==> OfKey(s.accepted, key) <= FileOf(end.files, key)
  {
    var s := Run(c, Init(), before);
    var t := Do(c, s, SetStop);
    var end := Run(c, t, after);
    InvAlways(c, Init(), before);
    FileAlways(c, Init(), before, key);
    FifoKept(c, s, SetStop);
    StopKept(c, s, SetStop);
    InvAlways(c, t, after);
    FileAlways(c, t, after, key);
    MarkStays(c, t, after);
    var rest := end.flushed[|s.accepted|..];
    assert s.accepted <= end.accepted && |s.accepted| <= |end.flushed|;
    assert end.flushed[..|s.accepted|] == s.accepted by {
      assert end.accepted[..|s.accepted|] == s.accepted;
      assert end.accepted == end.flushed + [] + Recs(end.queue);
    }
    assert end.flushed == s.accepted + rest;
    OfKeyConcat(s.accepted, rest, key);
  }

  // ---- The last look at the queue ------------------------------------------------------

  /** From the last look on, what will have been flushed is settled. */
  ghost predicate Settled(s: State, all: seq<Rec>) {
    (s.pc == LastFlush && s.flushed + s.batch == all) || (s.pc == Done && s.flushed == all && s.batch == [])
  }

  lemma SettledKept(c: Config, s: State, a: Action, all: seq<Rec>)
    requires Settled(s, all)
    ensures Settled(Do(c, s, a), all)
  {
    assert s.batch == [] ==> s.flushed + s.batch == s.flushed;
  }

  lemma {:induction false} SettledAlways(c: Config, s: State, actions: seq<Action>, all: seq<Rec>)
    requires Settled(s, all)
    ensures Settled(Run(c, s, actions), all)
    decreases |actions|
  {
    if actions != [] {
      SettledKept(c, s, actions[0], all);
      SettledAlways(c, Do(c, s, actions[0]), actions[1..], all);
    }
  }

  lemma {:induction false} AcceptedGrows(c: Config, s: State, actions: seq<Action>)
    ensures s.accepted <= Run(c, s, actions).accepted
    decreases |actions|
  {
    if actions != [] {
      AcceptedGrows(c, Do(c, s, actions[0]), actions[1..]);
    }
  }

  predicate Over(pc: Pc) {
    pc == LastFlush || pc == Done
  }

  /** Action `k` of the run is the flusher's last look: it finds the queue empty after the stop. */
  ghost predicate LastLook(c: Config, s: State, actions: seq<Action>, k: nat) {
    && k < |actions|
    && Run(c, s, actions[..k]).pc == Final && Run(c, s, actions[..k]).queue == []
    && actions[k].Flusher?
  }

  lemma {:induction false} RunSplits(c: Config, s: State, actions: seq<Action>, k: nat)
    requires k < |actions|
    ensures Run(c, s, actions) == Run(c, Do(c, Run(c, s, actions[..k]), actions[k]), actions[k + 1..])
    decreases |actions|
  {
    if k > 0 {
      assert actions[..k][1..] == actions[1..][..k - 1] && actions[1..][k - 1 + 1..] == actions[k + 1..];
      RunSplits(c, Do(c, s, actions[0]), actions[1..], k - 1);
    }
  }

  /** A flusher that has ended took its last look at one point of the run. */
  lemma {:induction false} LookTaken(c: Config, s: State, actions: seq<Action>) returns (k: nat)
    requires !Over(s.pc) && Over(Run(c, s, actions).pc)
    ensures LastLook(c, s, actions, k)
    decreases |actions|
  {
    var t := Do(c, s, actions[0]);
    if Over(t.pc) {
      k := 0;
    } else {
      var i := LookTaken(c, t, actions[1..]);
      k := i + 1;
      assert actions[..k][1..] == actions[1..][..i];
    }
  }

  /**
   The records flushed by a flusher that has ended are exactly those accepted before its last
   look; the others stay in the queue, however long the run goes on.
   */
  lemma FlushedByLastLook(c: Config, actions: seq<Action>, k: nat)
    requires LastLook(c, Init(), actions, k) && Run(c, Init(), actions).pc == Done
    ensures var s, end := Run(c, Init(), actions[..k]), Run(c, Init(), actions);
            && end.flushed == s.accepted && end.accepted == s.accepted + Recs(end.queue)
            && forall key :: key !in end.broken ==> FileOf(end.files, key) == OfKey(s.accepted, key)
  {
    var s, end := Run(c, Init(), actions[..k]), Run(c, Init(), actions);
    var t := Do(c, s, actions[k]);
    InvAlways(c, Init(), actions[..k]);
    InvAlways(c, Init(), actions);
    RunSplits(c, Init(), actions, k);
    assert s.accepted == s.flushed + s.batch + [];
    assert Settled(t, s.accepted);
    SettledAlways(c, t, actions[k + 1..], s.accepted);
    assert end.flushed + [] == end.flushed;
    forall key ensures key !in end.broken ==> FileOf(end.files, key) == OfKey(s.accepted, key) {
      FileAlways(c, Init(), actions, key);
    }
  }

  /**
   A record reaches the disk exactly when it was accepted before the flusher's last look at
   the queue, in every run in which the flusher has ended and no append of its key failed.
   */
  lemma WrittenIffBeforeLastLook(c: Config, actions: seq<Action>) returns (k: nat)
    requires Run(c, Init(), actions).pc == Done
    ensures LastLook(c, Init(), actions, k)
    ensures var s, end := Run(c, Init(), actions[..k]), Run(c, Init(), actions);
            && s.mark.Some? && s.mark.value <= |s.accepted| && s.accepted <= end.accepted
            && end.flushed == s.accepted && Recs(end.queue) == end.accepted[|s.accepted|..]
            && forall key :: key !in end.broken ==> FileOf(end.files, key) == OfKey(s.accepted, key)
  {
    k := LookTaken(c, Init(), actions);
    FlushedByLastLook(c, actions, k);
    InvAlways(c, Init(), actions[..k]);
  }

  function Late(rec: Rec): seq<Action> {
    var tick := Flusher(false, key => None);
    [SetStop, tick, tick, Write(rec), tick]
  }

  lemma RunOne(c: Config, s: State, a: Action, rest: seq<Action>)
    ensures Run(c, s, [a] + rest) == Run(c, Do(c, s, a), rest)
  {
    assert ([a] + rest)[1..] == rest;
  }

  /** Writers are not refused after the close, so the other half of the condition occurs. */
  lemma LateRecordUnwritten(c: Config, rec: Rec)
    ensures var end := Run(c, Init(), Late(rec));
            end.pc == Done && end.accepted == [rec] && end.flushed == [] && FileOf(end.files, rec.key) == []
  {
    var tick := Flusher(false, key => None);
    var s1 := Do(c, Init(), SetStop);
    var s2 := Do(c, s1, tick);
    var s3 := Do(c, s2, tick);
    var s4 := Do(c, s3, Write(rec));
    assert s3.pc == LastFlush && s4.accepted == [rec];
    assert Late(rec) == [SetStop] + ([tick] + ([tick] + ([Write(rec)] + ([tick] + []))));
    RunOne(c, Init(), SetStop, [tick] + ([tick] + ([Write(rec)] + ([tick] + []))));
    RunOne(c, s1, tick, [tick] + ([Write(rec)] + ([tick] + [])));
    RunOne(c, s2, tick, [Write(rec)] + ([tick] + []));
    RunOne(c, s3, Write(rec), [tick] + []);
    RunOne(c, s4, tick, []);
  }
}
