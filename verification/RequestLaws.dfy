/**
 What each call of the app comes to, said on the client's stream alone: which message a
 read hands over, when a send goes out, and that what is sent is the app's own messages.
 */
module RequestLaws {
  import opened Wrappers
  import opened RequestLimit

  lemma NextOfStream(s: State, stream: seq<Msg>, max: nat)
    requires RequestLimit.Ok(s, stream, max)
    ensures |s.delivered| + |s.buffered| == |s.taken| && s.delivered == stream[..|s.delivered|]
    ensures s.buffered != [] ==> stream[|s.delivered|] == s.buffered[0]
    ensures s.buffered == [] && s.inbox != [] ==> stream[|s.delivered|] == s.inbox[0]
  {
    assert stream[..|s.delivered|] == s.taken[..|s.delivered|] == s.delivered;
  }

  /**
   A read hands over the next message of the stream, waits exactly at its end, and fails
   exactly when that message takes the body over the limit.
   */
  lemma ReadOutcome(s: State, stream: seq<Msg>, max: nat)
    requires Conforms(stream) && RequestLimit.Ok(s, stream, max)
    ensures var n := |s.delivered|; var (s', o) := Receive(s, max);
            if n == |stream| then o == Blocked
            else if BodySize(stream[..n + 1]) > max then o == TooLarge
            else o == Fine(Some(stream[n])) && s'.delivered == stream[..n + 1]
  {
    var n := |s.delivered|;
    NextOfStream(s, stream, max);
    if n < |stream| {
      assert stream[..n + 1] == s.delivered + [stream[n]];
      if s.buffered != [] {
        assert s.taken == stream[..n + 1] + s.buffered[1..];
        BodySizePrefix(stream[..n + 1], s.buffered[1..]);
      } else {
        assert s.taken == s.delivered;
        BodySizeSnoc(s.delivered, stream[n]);
        BodySizePrefix(stream[..n + 1], stream[n + 1..]);
      }
    }
  }

  lemma ConsumedStream(stream: seq<Msg>, a: seq<Msg>, b: seq<Msg>)
    requires stream == a + b && Conforms(stream) && exists i :: 0 <= i < |a| && Last(a[i])
    ensures BodySize(stream) == BodySize(a)
  {
    var i :| 0 <= i < |a| && Last(a[i]);
    forall j | 0 <= j < |b| ensures !b[j].Request? {
      assert stream[i] == a[i] && stream[|a| + j] == b[j];
    }
    NoBody(b);
    BodySizeConcat(a, b);
  }

  lemma {:induction false} NoBody(ms: seq<Msg>)
    requires forall j :: 0 <= j < |ms| ==> !ms[j].Request?
    ensures BodySize(ms) == 0
  {
    if ms != [] {
      NoBody(ms[1..]);
    }
  }

  ghost predicate Ends(stream: seq<Msg>) {
    exists i :: 0 <= i < |stream| && Last(stream[i])
  }

  lemma {:induction false} ConsumeOutcome(s: State, stream: seq<Msg>, max: nat)
    requires Conforms(stream) && RequestLimit.Ok(s, stream, max)
    ensures Consume(s, max).1
            == if BodySize(stream) > max then TooLarge else if Ends(stream) then Fine(None) else Blocked
    decreases |s.inbox|
  {
    if s.complete {
      ConsumedStream(stream, s.taken, s.inbox);
      var i :| 0 <= i < |s.taken| && Last(s.taken[i]);
      assert stream[i] == s.taken[i];
    } else if s.inbox == [] {
      assert stream == s.taken;
    } else {
      var m := s.inbox[0];
      var s' := Taken(s).(buffered := s.buffered + [m]);
      TakeOne(s, stream, max);
      if m.Request? && s'.bytes > max {
        BodySizePrefix(s'.taken, s'.inbox);
      } else {
        assert s'.taken == s.delivered + (s.buffered + [m]);
        ConsumeOutcome(s'.(complete := Complete(s.complete, m)), stream, max);
      }
    }
  }

  /**
   A send goes out exactly when the whole body is within the limit and the request ends;
   it waits exactly when the body is within the limit so far and no end has come.
   */
  lemma SendOutcome(s: State, id: int, stream: seq<Msg>, max: nat)
    requires Conforms(stream) && RequestLimit.Ok(s, stream, max)
    ensures var (s', o) := Send(s, id, max);
            && o == (if BodySize(stream) > max then TooLarge else if Ends(stream) then Fine(None) else Blocked)
            && s'.sent == s.sent + (if o.Fine? then [Forwarded(id)] else [])
  {
    ConsumeOutcome(s, stream, max);
    ConsumeSends(s, max);
  }

  lemma {:induction false} ConsumeSends(s: State, max: nat)
    ensures Consume(s, max).0.sent == s.sent
    decreases |s.inbox|
  {
    if !s.complete && s.inbox != [] {
      var m := s.inbox[0];
      var s' := Taken(s).(buffered := s.buffered + [m]);
      if !(m.Request? && s'.bytes > max) {
        ConsumeSends(s'.(complete := Complete(s.complete, m)), max);
      }
    }
  }

  lemma {:induction false} ConsumeDelivers(s: State, max: nat)
    ensures Consume(s, max).0.delivered == s.delivered
    decreases |s.inbox|
  {
    if !s.complete && s.inbox != [] {
      var m := s.inbox[0];
      var s' := Taken(s).(buffered := s.buffered + [m]);
      if !(m.Request? && s'.bytes > max) {
        ConsumeDelivers(s'.(complete := Complete(s.complete, m)), max);
      }
    }
  }

  /** What one call sends of the app's own. */
  function Response(call: Call): seq<Out> {
    match call
    case Read => []
    case Respond(id) => [Forwarded(id)]
  }

  function Responses(calls: seq<Call>): seq<Out> {
    if calls == [] then [] else Response(calls[0]) + Responses(calls[1..])
  }

  function Reads(calls: seq<Call>): nat {
    if calls == [] then 0 else (if calls[0].Read? then 1 else 0) + Reads(calls[1..])
  }

  lemma FineCall(s: State, call: Call, stream: seq<Msg>, max: nat, s': State)
    requires Conforms(stream) && RequestLimit.Ok(s, stream, max) && Called(s, call, max).1.Fine?
             && s' == Called(s, call, max).0
    ensures RequestLimit.Ok(s', stream, max) && s'.sent == s.sent + Response(call)
    ensures |s'.delivered| == |s.delivered| + if call.Read? then 1 else 0
  {
    match call
    case Read =>
      ReadOutcome(s, stream, max);
      ReceiveKept(s, stream, max);
    case Respond(id) =>
      SendOutcome(s, id, stream, max);
      SendKept(s, id, stream, max);
      ConsumeDelivers(s, max);
  }

  lemma ServeFine(s: State, calls: seq<Call>, max: nat, s': State)
    requires calls != [] && Called(s, calls[0], max).1.Fine? && s' == Called(s, calls[0], max).0
    ensures Serve(s, calls, max) == Serve(s', calls[1..], max)
  {
  }

  lemma {:induction false} FineRun(s: State, calls: seq<Call>, stream: seq<Msg>, max: nat, end: State)
    requires Conforms(stream) && RequestLimit.Ok(s, stream, max) && AllFine(s, calls, max)
             && end == Serve(s, calls, max)
    ensures RequestLimit.Ok(end, stream, max)
    ensures |end.delivered| == |s.delivered| + Reads(calls) && end.sent == s.sent + Responses(calls)
    decreases |calls|
  {
    if calls != [] {
      var s' := Called(s, calls[0], max).0;
      FineCall(s, calls[0], stream, max, s');
      ServeFine(s, calls, max, s');
      FineRun(s', calls[1..], stream, max, end);
      SentSplit(s.sent, Response(calls[0]), Responses(calls[1..]));
    }
  }

  lemma SentSplit(a: seq<Out>, b: seq<Out>, c: seq<Out>)
    ensures a + b + c == a + (b + c)
  {
  }

  /**
   While no call fails or waits, the app's n reads have handed it the first n messages of
   the stream, and what was sent is its own messages in order.
   */
  lemma CallsInOrder(stream: seq<Msg>, calls: seq<Call>, max: nat)
    requires Conforms(stream) && AllFine(Start(stream), calls, max)
    ensures var end := Serve(Start(stream), calls, max);
            Reads(calls) <= |stream| && end.delivered == stream[..Reads(calls)] && end.sent == Responses(calls)
  {
    FineRun(Start(stream), calls, stream, max, Serve(Start(stream), calls, max));
    NextOfStream(Serve(Start(stream), calls, max), stream, max);
  }
}
