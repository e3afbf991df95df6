/**
 The bounded JSONL writer's data: a queue that refuses records when it is full, and a
 flush that groups a batch by partition and appends each group to its file.
 */
module JsonlWriter {
  import opened Wrappers

  /** One record, with the partition its timestamp falls in. */
  datatype Rec = Rec(line: string, key: string)

  datatype Item = Data(rec: Rec) | Sentinel

  type Files = map<string, seq<Rec>>

  /** How many lines of a group reach the disk: all of them, or fewer when the append fails. */
  type Disk = string -> Option<nat>

  function FileOf(files: Files, key: string): seq<Rec> {
    if key in files then files[key] else []
  }

  function OfKey(recs: seq<Rec>, key: string): seq<Rec> {
    if recs == [] then [] else (if recs[0].key == key then [recs[0]] else []) + OfKey(recs[1..], key)
  }

  function Cut(recs: seq<Rec>, reach: Option<nat>): seq<Rec> {
    if reach.Some? && reach.value <= |recs| then recs[..reach.value] else recs
  }

  function KeysOf(recs: seq<Rec>): set<string> {
    set r | r in recs :: r.key
  }

  /** The files after a flush. */
  function Flushed(files: Files, batch: seq<Rec>, disk: Disk): Files {
    map key | key in files.Keys + KeysOf(batch) :: FileOf(files, key) + Cut(OfKey(batch, key), disk(key))
  }

  lemma {:induction false} OfKeyConcat(a: seq<Rec>, b: seq<Rec>, key: string)
    ensures OfKey(a + b, key) == OfKey(a, key) + OfKey(b, key)
  {
    if a == [] {
      assert a + b == b;
    } else {
      OfKeyConcat(a[1..], b, key);
      assert (a + b)[1..] == a[1..] + b;
    }
  }

  lemma {:induction false} OfKeyNone(recs: seq<Rec>, key: string)
    ensures OfKey(recs, key) == [] <==> key !in KeysOf(recs)
  {
    if recs != [] {
      OfKeyNone(recs[1..], key);
      assert recs == [recs[0]] + recs[1..] && recs[0] in recs;
      if key in KeysOf(recs) && recs[0].key != key {
        var r :| r in recs && r.key == key;
        assert r in recs[1..];
      }
      if key in KeysOf(recs[1..]) {
        var r :| r in recs[1..] && r.key == key;
        assert r in recs;
      }
    }
  }

  lemma FlushedFile(files: Files, batch: seq<Rec>, disk: Disk, key: string)
    ensures FileOf(Flushed(files, batch, disk), key) == FileOf(files, key) + Cut(OfKey(batch, key), disk(key))
  {
    OfKeyNone(batch, key);
  }

  ghost predicate Grouped(groups: map<string, seq<Rec>>, order: seq<string>, done: seq<Rec>) {
    && (forall i, j :: 0 <= i < j < |order| ==> order[i] != order[j])
    && (forall key :: key in order <==> key in groups)
    && (forall key :: key in groups ==> groups[key] == OfKey(done, key) && groups[key] != [])
    && (forall key :: key !in groups ==> OfKey(done, key) == [])
  }

  lemma GroupedNext(groups: map<string, seq<Rec>>, order: seq<string>, done: seq<Rec>, r: Rec,
                    groups': map<string, seq<Rec>>, order': seq<string>)
    requires Grouped(groups, order, done)
    requires groups' == groups[r.key := (if r.key in groups then groups[r.key] else []) + [r]]
    requires order' == if r.key in groups then order else order + [r.key]
    ensures Grouped(groups', order', done + [r])
  {
    forall key ensures OfKey(done + [r], key) == OfKey(done, key) + if r.key == key then [r] else [] {
      OfKeyConcat(done, [r], key);
    }
  }

  class JsonlBatchWriter {
    const maxQueue: nat
    var queue: seq<Item>
    var stop: bool
    var files: Files

    constructor (maxQueue: nat)
      ensures this.maxQueue == maxQueue && queue == [] && !stop && files == map[]
    {
      this.maxQueue := maxQueue;
      queue, stop, files := [], false, map[];
    }

    predicate Full()
      reads this
    {
      maxQueue > 0 && |queue| >= maxQueue
    }

    method Write(rec: Rec) returns (accepted: bool)
      modifies this`queue
      ensures accepted == !old(Full())
      ensures queue == if accepted then old(queue) + [Data(rec)] else old(queue)
    {
      if Full() {
        return false;
      }
      queue := queue + [Data(rec)];
      accepted := true;
    }

    /** The flag first, then a sentinel to wake the flusher, unless the queue is full. */
    method Close()
      modifies this`queue, this`stop
      ensures stop && queue == if old(Full()) then old(queue) else old(queue) + [Sentinel]
    {
      stop := true;
      if !Full() {
        queue := queue + [Sentinel];
      }
    }

    /** Groups the batch by partition and appends each group to its file. */
    method Flush(batch: seq<Rec>, disk: Disk) returns (written: nat)
      modifies this`files
      ensures files == Flushed(old(files), batch, disk)
      ensures (forall key :: disk(key) == None) ==> written == |batch|
    {
      var groups, order := Group(batch);
      written := 0;
      ghost var was := files;
      for j := 0 to |order|
        invariant Appended(was, files, batch, disk, order[..j])
        invariant written == Total(order[..j], batch, disk)
      {
        var key := order[j];
        AppendedNext(was, files, batch, disk, order, j);
        files := files[key := FileOf(files, key) + Cut(groups[key], disk(key))];
        if disk(key).None? {
          written := written + |groups[key]|;
        }
      }
      assert order[..|order|] == order;
      AllKeys(batch, order);
      AppendedAll(was, files, batch, disk, order);
      if forall key :: disk(key) == None {
        TotalIs(order, batch, batch, disk);
      }
    }

    static method Group(batch: seq<Rec>) returns (groups: map<string, seq<Rec>>, order: seq<string>)
      ensures Grouped(groups, order, batch)
    {
      groups, order := map[], [];
      for i := 0 to |batch|
        invariant Grouped(groups, order, batch[..i])
      {
        ghost var groups0, order0 := groups, order;
        var key := batch[i].key;
        if key !in groups {
          groups, order := groups[key := []], order + [key];
        }
        groups := groups[key := groups[key] + [batch[i]]];
        GroupedNext(groups0, order0, batch[..i], batch[i], groups, order);
        assert batch[..i + 1] == batch[..i] + [batch[i]];
      }
      assert batch[..|batch|] == batch;
    }
  }

  lemma AllKeys(batch: seq<Rec>, order: seq<string>)
    requires forall key :: key in order <==> OfKey(batch, key) != []
    ensures (set key | key in order) == KeysOf(batch)
  {
    forall key ensures key in order <==> key in KeysOf(batch) {
      OfKeyNone(batch, key);
    }
  }

  /** The groups of the keys `done` have been appended. */
  ghost predicate Appended(was: Files, files: Files, batch: seq<Rec>, disk: Disk, done: seq<string>) {
    && files.Keys == was.Keys + (set key | key in done)
    && (forall key :: key in done ==> files[key] == FileOf(was, key) + Cut(OfKey(batch, key), disk(key)))
    && (forall key :: key in was && key !in done ==> files[key] == was[key])
  }

  lemma AppendedOne(was: Files, files: Files, batch: seq<Rec>, disk: Disk, done: seq<string>, key: string)
    requires Appended(was, files, batch, disk, done) && key !in done
    ensures Appended(was, files[key := FileOf(was, key) + Cut(OfKey(batch, key), disk(key))], batch, disk, done + [key])
    ensures FileOf(files, key) == FileOf(was, key)
  {
  }

  lemma AppendedNext(was: Files, files: Files, batch: seq<Rec>, disk: Disk, order: seq<string>, j: nat)
    requires j < |order| && Appended(was, files, batch, disk, order[..j])
    requires forall i, k :: 0 <= i < k < |order| ==> order[i] != order[k]
    ensures order[..j + 1][..j] == order[..j] && order[..j + 1][j] == order[j]
    ensures Appended(was, files[order[j] := FileOf(files, order[j]) + Cut(OfKey(batch, order[j]), disk(order[j]))],
                     batch, disk, order[..j + 1])
  {
    assert order[..j + 1] == order[..j] + [order[j]];
    assert order[j] !in order[..j];
    AppendedOne(was, files, batch, disk, order[..j], order[j]);
  }

  lemma AppendedAll(was: Files, files: Files, batch: seq<Rec>, disk: Disk, order: seq<string>)
    requires Appended(was, files, batch, disk, order) && (set key | key in order) == KeysOf(batch)
    ensures files == Flushed(was, batch, disk)
  {
    forall key | key in files ensures files[key] == Flushed(was, batch, disk)[key] {
      if key in order {
      } else {
        assert key !in KeysOf(batch);
        OfKeyNone(batch, key);
        assert was[key] + [] == was[key];
      }
    }
  }

  /** The number of lines of the groups that were written whole. */
  function Total(done: seq<string>, batch: seq<Rec>, disk: Disk): nat {
    if done == [] then 0
    else
      var key := done[|done| - 1];
      Total(done[..|done| - 1], batch, disk) + if disk(key).None? then |OfKey(batch, key)| else 0
  }

  ghost function DropKey(recs: seq<Rec>, key: string): (rest: seq<Rec>)
    ensures |rest| + |OfKey(recs, key)| == |recs|
  {
    if recs == [] then [] else (if recs[0].key == key then [] else [recs[0]]) + DropKey(recs[1..], key)
  }

  lemma {:induction false} DropKeyKeeps(recs: seq<Rec>, key: string, other: string)
    ensures OfKey(DropKey(recs, key), other) == if other == key then [] else OfKey(recs, other)
  {
    if recs != [] {
      DropKeyKeeps(recs[1..], key, other);
      OfKeyConcat(if recs[0].key == key then [] else [recs[0]], DropKey(recs[1..], key), other);
    }
  }

  lemma NothingLeft(recs: seq<Rec>)
    requires forall key :: OfKey(recs, key) == []
    ensures recs == []
  {
    assert recs != [] ==> OfKey(recs, recs[0].key) != [];
  }

  /** Distinct keys that cover a batch account for all of its lines. */
  lemma {:induction false} TotalIs(done: seq<string>, recs: seq<Rec>, batch: seq<Rec>, disk: Disk)
    requires forall i, j :: 0 <= i < j < |done| ==> done[i] != done[j]
    requires forall key :: key in done ==> OfKey(recs, key) == OfKey(batch, key)
    requires forall key :: key !in done ==> OfKey(recs, key) == []
    requires forall key :: disk(key) == None
    ensures Total(done, batch, disk) == |recs|
    decreases |done|
  {
    if done == [] {
      NothingLeft(recs);
    } else {
      var init, key := done[..|done| - 1], done[|done| - 1];
      assert done == init + [key] && key !in init;
      forall other ensures OfKey(DropKey(recs, key), other) == if other == key then [] else OfKey(recs, other) {
        DropKeyKeeps(recs, key, other);
      }
      TotalIs(init, DropKey(recs, key), batch, disk);
    }
  }
}
