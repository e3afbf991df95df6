/**
 What the flusher's steps come to: what a writer's call queues, when a batch is written,
 what a failing append leaves, what the sentinel does, and that a shutdown ends.
 */
module JsonlLaws {
  import opened Wrappers
  import opened JsonlWriter
  import opened JsonlRuns

  // ---- Writers -------------------------------------------------------------------------

  /** A record is accepted, behind all others, exactly when the queue is unbounded or has room. */
  lemma WriteQueues(c: Config, s: State, rec: Rec)
    ensures var s' := Do(c, s, Write(rec));
            if c.maxQueue == 0 || |s.queue| < c.maxQueue
            then s' == s.(queue := s.queue + [Data(rec)], accepted := s.accepted + [rec])
            else s' == s
  {
  }

  /** A close leaves the flag set and, if there is room, one sentinel behind all records. */
  lemma CloseQueues(c: Config, s: State)
    ensures var s' := Do(c, Do(c, s, SetStop), PushSentinel);
            && s'.stop && s'.accepted == s.accepted && s'.batch == s.batch && s'.files == s.files
            && s'.queue == (if c.maxQueue == 0 || |s.queue| < c.maxQueue then s.queue + [Sentinel] else s.queue)
            && (!s.stop ==> s'.mark == Some(|s.accepted|))
  {
  }

  // ---- Batches -------------------------------------------------------------------------

  /** When a batch is due it is written whole; otherwise it waits as it is. */
  lemma BatchWritten(c: Config, s: State, late: bool, disk: Disk)
    requires s.pc == Deciding
    ensures var s' := Do(c, s, Flusher(late, disk));
            && s'.pc == Check && s'.queue == s.queue
            && (late || |s.batch| >= c.batchSize ==> s'.batch == [] && s'.flushed == s.flushed + s.batch)
            && (!late && |s.batch| < c.batchSize ==>
                  s'.batch == s.batch && s'.flushed == s.flushed && s'.files == s.files)
  {
  }

  lemma FlushGains(s: State, disk: Disk, key: string)
    ensures FileOf(FlushBatch(s, disk).files, key) == FileOf(s.files, key) + Reached(OfKey(s.batch, key), disk(key))
  {
    FlushedFile(s.files, s.batch, disk, key);
    assert Cut(OfKey(s.batch, key), disk(key)) == Reached(OfKey(s.batch, key), disk(key));
  }

  /** Each file gains the lines of its partition, in order, as far as its append reaches. */
  lemma FileGains(c: Config, s: State, late: bool, disk: Disk, key: string)
    requires (s.pc == Deciding && (late || |s.batch| >= c.batchSize)) || s.pc == LastFlush
    ensures FileOf(Do(c, s, Flusher(late, disk)).files, key)
            == FileOf(s.files, key) + Reached(OfKey(s.batch, key), disk(key))
  {
    if s.batch != [] {
      FlushGains(s, disk, key);
    }
  }

  /** The lines of a group that an append reaching `reach` lines leaves in the file. */
  function Reached(group: seq<Rec>, reach: Option<nat>): (lines: seq<Rec>)
    ensures lines <= group
    ensures |lines| == match reach case None => |group| case Some(n) => if n < |group| then n else |group|
  {
    match reach
    case None => group
    case Some(n) => if n < |group| then group[..n] else group
  }

  // ---- The sentinel --------------------------------------------------------------------

  /** A sentinel ends a wait by going to the shutdown drain, and a gathering by deciding; it is never written. */
  lemma SentinelStops(c: Config, s: State, late: bool, disk: Disk)
    requires s.queue != [] && s.queue[0] == Sentinel
    ensures var s' := Do(c, s, Flusher(late, disk));
            && (s.pc == Waiting ==> s'.pc == Final && s'.queue == s.queue[1..])
            && (s.pc == Draining && |s.batch| < c.batchSize ==> s'.pc == Deciding && s'.queue == s.queue[1..])
            && (s.pc == Final ==> s'.pc == Final && s'.queue == s.queue[1..])
            && (s.pc in {Waiting, Draining, Final} ==> s'.batch == s.batch && s'.flushed == s.flushed)
  {
  }

  /** A record at the head joins the batch, as long as the batch is not full. */
  lemma RecordJoins(c: Config, s: State, late: bool, disk: Disk)
    requires s.queue != [] && s.queue[0].Data?
    ensures var s' := Do(c, s, Flusher(late, disk));
            (s.pc in {Waiting, Final} || (s.pc == Draining && |s.batch| < c.batchSize)) ==>
              s'.batch == s.batch + [s.queue[0].rec] && s'.queue == s.queue[1..]
              && s'.pc == if s.pc == Final then Final else Draining
  {
  }

  // ---- A shutdown ends -----------------------------------------------------------------

  /** The flusher's steps still to come once the stop flag is set and nobody writes. */
  function StepsLeft(s: State): nat {
    match s.pc
    case Done => 0
    case LastFlush => 1
    case Final => |s.queue| + 2
    case Check => |s.queue| + 3
    case Deciding => |s.queue| + 4
    case Draining => |s.queue| + 5
    case Waiting => |s.queue| + 6
  }

  lemma StepEnds(c: Config, s: State, late: bool, disk: Disk)
    requires s.stop && s.pc != Done
    ensures Do(c, s, Flusher(late, disk)).stop && StepsLeft(Do(c, s, Flusher(late, disk))) < StepsLeft(s)
  {
  }

  ghost predicate OnlyFlusher(actions: seq<Action>) {
    forall i :: 0 <= i < |actions| ==> actions[i].Flusher?
  }

  lemma {:induction false} DoneStays(c: Config, s: State, actions: seq<Action>)
    requires s.pc == Done && OnlyFlusher(actions)
    ensures Run(c, s, actions) == s
    decreases |actions|
  {
    if actions != [] {
      DoneStays(c, s, actions[1..]);
    }
  }

  /**
   Once the stop flag is set and writers are quiet the flusher ends within its queue's
   length and six steps, whatever the clock and the disk do.
   */
  lemma {:induction false} ShutdownEnds(c: Config, s: State, actions: seq<Action>)
    requires s.stop && OnlyFlusher(actions) && |actions| >= |s.queue| + 6
    ensures Run(c, s, actions).pc == Done
  {
    EndsWithin(c, s, actions);
  }

  lemma {:induction false} EndsWithin(c: Config, s: State, actions: seq<Action>)
    requires s.stop && OnlyFlusher(actions) && |actions| >= StepsLeft(s)
    ensures Run(c, s, actions).pc == Done
    decreases |actions|
  {
    if s.pc == Done {
      DoneStays(c, s, actions);
    } else {
      StepEnds(c, s, actions[0].late, actions[0].disk);
      assert Do(c, s, actions[0]) == Do(c, s, Flusher(actions[0].late, actions[0].disk));
      EndsWithin(c, Do(c, s, actions[0]), actions[1..]);
    }
  }

  /** With nobody writing, a flusher past its last look has an empty queue. */
  ghost predicate Settles(s: State) {
    (s.pc in {LastFlush, Done} ==> s.queue == []) && (s.pc == Done ==> s.batch == [])
  }

  lemma {:induction false} QuietKeeps(c: Config, s: State, actions: seq<Action>, end: State)
    requires Fifo(s) && OnlyFlusher(actions) && Settles(s) && end == Run(c, s, actions)
    ensures end.accepted == s.accepted && Fifo(end) && Settles(end)
    decreases |actions|
  {
    if actions != [] {
      FifoKept(c, s, actions[0]);
      QuietKeeps(c, Do(c, s, actions[0]), actions[1..], end);
    }
  }

  lemma ClosedState(c: Config, before: seq<Action>, s: State, closed: State)
    requires s == Run(c, Init(), before) && !s.stop && closed == Do(c, Do(c, s, SetStop), PushSentinel)
    ensures closed.stop && |closed.queue| <= |s.queue| + 1 && closed.accepted == s.accepted && Fifo(closed)
            && Settles(closed)
  {
    InvAlways(c, Init(), before);
    FifoKept(c, s, SetStop);
    FifoKept(c, Do(c, s, SetStop), PushSentinel);
  }

  /**
   A first close, in any run, is followed by the end of the flusher with every record
   accepted by then flushed, when the writers are quiet after it.
   */
  lemma CloseFlushesAll(c: Config, before: seq<Action>, actions: seq<Action>)
    requires !Run(c, Init(), before).stop
    requires OnlyFlusher(actions) && |actions| >= |Run(c, Init(), before).queue| + 7
    ensures var s := Run(c, Init(), before);
            var end := Run(c, Do(c, Do(c, s, SetStop), PushSentinel), actions);
            end.pc == Done && end.flushed == s.accepted
  {
    var s := Run(c, Init(), before);
    var closed := Do(c, Do(c, s, SetStop), PushSentinel);
    ClosedState(c, before, s, closed);
    ShutdownEnds(c, closed, actions);
    QuietKeeps(c, closed, actions, Run(c, closed, actions));
    AllFlushed(Run(c, closed, actions));
  }

  lemma AllFlushed(s: State)
    requires Fifo(s) && Settles(s) && s.pc == Done
    ensures s.flushed == s.accepted
  {
    assert Recs([]) == [];
    assert s.flushed + [] + [] == s.flushed;
  }
}
