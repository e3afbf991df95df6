/**
 The streaming request limiter: counts a body while it is received, replays to the app what
 it had to read ahead, and answers 413 instead of a response, never after one.
 The app makes one call at a time; `Blocked` is a call that waits for a client message.
 */
module RequestLimit {
  import opened Wrappers

  datatype Msg = Request(body: string, more: bool) | Disconnect | Other

  datatype Out = Forwarded(id: int) | TooLarge413

  datatype Outcome = Fine(got: Option<Msg>) | TooLarge | Blocked

  /**
   `taken` has been received from the client, `delivered` handed to the app, and `lost` is
   what a read received and raised the size error for.
   */
  datatype State = State(
    inbox: seq<Msg>,
    taken: seq<Msg>,
    bytes: nat,
    complete: bool,
    buffered: seq<Msg>,
    delivered: seq<Msg>,
    lost: seq<Msg>,
    sent: seq<Out>)

  function Start(stream: seq<Msg>): State {
    State(stream, [], 0, false, [], [], [], [])
  }

  function Size(m: Msg): nat {
    if m.Request? then |m.body| else 0
  }

  function BodySize(ms: seq<Msg>): nat {
    if ms == [] then 0 else Size(ms[0]) + BodySize(ms[1..])
  }

  /** A message after which the client sends no more of its body. */
  predicate Last(m: Msg) {
    m.Disconnect? || (m.Request? && !m.more)
  }

  predicate Conforms(stream: seq<Msg>) {
    forall i, j :: 0 <= i < j < |stream| && Last(stream[i]) ==> !stream[j].Request?
  }

  // ---- The wrappers --------------------------------------------------------------------

  /** Takes the next message off the client and counts it. */
  function Taken(s: State): State
    requires s.inbox != []
  {
    var m := s.inbox[0];
    s.(inbox := s.inbox[1..], taken := s.taken + [m], bytes := s.bytes + Size(m))
  }

  function Complete(was: bool, m: Msg): bool {
    match m
    case Request(_, more) => !more
    case Disconnect => true
    case Other => was
  }

  /** Reads ahead to the end of the request; what is read is kept for the app. */
  function Consume(s: State, max: nat): (State, Outcome)
    decreases |s.inbox|
  {
    if s.complete then (s, Fine(None))
    else if s.inbox == [] then (s, Blocked)
    else
      var m := s.inbox[0];
      var s' := Taken(s).(buffered := s.buffered + [m]);
      if m.Request? && s'.bytes > max then (s', TooLarge)
      else Consume(s'.(complete := Complete(s.complete, m)), max)
  }

  function Send(s: State, id: int, max: nat): (State, Outcome) {
    var (s', o) := Consume(s, max);
    if o.Fine? then (s'.(sent := s'.sent + [Forwarded(id)]), o) else (s', o)
  }

  function Receive(s: State, max: nat): (State, Outcome) {
    if s.buffered != [] then
      (s.(buffered := s.buffered[1..], delivered := s.delivered + [s.buffered[0]]), Fine(Some(s.buffered[0])))
    else if s.inbox == [] then (s, Blocked)
    else
      var m := s.inbox[0];
      var s' := Taken(s);
      if m.Request? && s'.bytes > max then (s'.(lost := s.lost + [m]), TooLarge)
      else (s'.(complete := Complete(s.complete, m), delivered := s'.delivered + [m]), Fine(Some(m)))
  }

  class RequestSizeLimit {
    const maxBytes: nat
    var inbox: seq<Msg>
    var taken: seq<Msg>
    var receivedBytes: nat
    var requestComplete: bool
    var bufferedRequests: seq<Msg>
    var delivered: seq<Msg>
    var lost: seq<Msg>
    var sent: seq<Out>

    constructor (maxBytes: nat, stream: seq<Msg>)
      ensures this.maxBytes == maxBytes && Now() == Start(stream)
    {
      this.maxBytes := maxBytes;
      inbox, taken, receivedBytes, requestComplete := stream, [], 0, false;
      bufferedRequests, delivered, lost, sent := [], [], [], [];
    }

    function Now(): State
      reads this
    {
      State(inbox, taken, receivedBytes, requestComplete, bufferedRequests, delivered, lost, sent)
    }

    method ConsumeRequest() returns (o: Outcome)
      modifies this
      ensures (Now(), o) == Consume(old(Now()), maxBytes)
    {
      ghost var goal := Consume(Now(), maxBytes);
      while !requestComplete
        invariant Consume(Now(), maxBytes) == goal
        decreases |inbox|, if requestComplete then 0 else 1
      {
        if inbox == [] {
          return Blocked;
        }
        var message := inbox[0];
        inbox, taken := inbox[1..], taken + [message];
        bufferedRequests := bufferedRequests + [message];
        match message
        case Request(body, more) =>
          receivedBytes := receivedBytes + |body|;
          if receivedBytes > maxBytes {
            return TooLarge;
          }
          requestComplete := !more;
        case Disconnect =>
          requestComplete := true;
        case Other =>
      }
      o := Fine(None);
    }

    method SendWrapper(id: int) returns (o: Outcome)
      modifies this
      ensures (Now(), o) == Send(old(Now()), id, maxBytes)
    {
      o := Fine(None);
      if !requestComplete {
        o := ConsumeRequest();
      }
      if o.Fine? {
        sent := sent + [Forwarded(id)];
      }
    }

    method ReceiveWrapper() returns (o: Outcome)
      modifies this
      ensures (Now(), o) == Receive(old(Now()), maxBytes)
    {
      if bufferedRequests != [] {
        var message := bufferedRequests[0];
        bufferedRequests, delivered := bufferedRequests[1..], delivered + [message];
        return Fine(Some(message));
      }
      if inbox == [] {
        return Blocked;
      }
      var message := inbox[0];
      inbox, taken := inbox[1..], taken + [message];
      match message {
        case Request(body, more) =>
          receivedBytes := receivedBytes + |body|;
          if receivedBytes > maxBytes {
            lost := lost + [message];
            return TooLarge;
          }
          requestComplete := !more;
        case Disconnect =>
          requestComplete := true;
        case Other =>
      }
      delivered := delivered + [message];
      o := Fine(Some(message));
    }
  }

  // ---- A whole request -----------------------------------------------------------------

  datatype Call = Read | Respond(id: int)

  function Called(s: State, call: Call, max: nat): (State, Outcome) {
    match call
    case Read => Receive(s, max)
    case Respond(id) => Send(s, id, max)
  }

  /** The app's calls in order; a size error it lets pass is answered by the middleware. */
  function Serve(s: State, calls: seq<Call>, max: nat): State
    decreases |calls|
  {
    if calls == [] then s
    else
      var (s', o) := Called(s, calls[0], max);
      match o
      case Fine(_) => Serve(s', calls[1..], max)
      case TooLarge => s'.(sent := s'.sent + [TooLarge413])
      case Blocked => s'
  }

  /** A declared length over the limit is refused unread; other lengths are not trusted. */
  function Handled(stream: seq<Msg>, declared: Option<int>, calls: seq<Call>, max: nat): State {
    if declared.Some? && declared.value > max then Start(stream).(sent := [TooLarge413])
    else Serve(Start(stream), calls, max)
  }

  // ---- What holds between calls --------------------------------------------------------

  lemma {:induction false} BodySizeSnoc(ms: seq<Msg>, m: Msg)
    ensures BodySize(ms + [m]) == BodySize(ms) + Size(m)
  {
    if ms == [] {
      assert ms + [m] == [m];
    } else {
      assert (ms + [m])[1..] == ms[1..] + [m];
      BodySizeSnoc(ms[1..], m);
    }
  }

  lemma {:induction false} BodySizePrefix(a: seq<Msg>, b: seq<Msg>)
    ensures BodySize(a) <= BodySize(a + b)
  {
    if a == [] {
    } else {
      assert (a + b)[1..] == a[1..] + b;
      BodySizePrefix(a[1..], b);
    }
  }

  /** Nothing is lost or reordered, the count is right, and the end is known when it is past. */
  ghost predicate Ok(s: State, stream: seq<Msg>, max: nat) {
    && s.taken + s.inbox == stream
    && s.taken == s.delivered + s.buffered && s.lost == []
    && s.bytes == BodySize(s.taken) <= max
    && (s.complete <==> exists i :: 0 <= i < |s.taken| && Last(s.taken[i]))
    && (s.sent != [] ==> s.complete)
    && TooLarge413 !in s.sent
  }

  lemma TakeOne(s: State, stream: seq<Msg>, max: nat)
    requires Conforms(stream) && Ok(s, stream, max) && s.inbox != []
    ensures var m := s.inbox[0]; var s' := Taken(s);
            && s'.taken + s'.inbox == stream && s'.bytes == BodySize(s'.taken)
            && (Complete(s.complete, m) <==> exists i :: 0 <= i < |s'.taken| && Last(s'.taken[i]))
            && (s.complete ==> !m.Request?)
            && (s.complete ==> Complete(s.complete, m))
  {
    var m, s' := s.inbox[0], Taken(s);
    BodySizeSnoc(s.taken, m);
    assert stream[|s.taken|] == m && s'.taken[|s.taken|] == m;
    if s.complete {
      var i :| 0 <= i < |s.taken| && Last(s.taken[i]);
      assert stream[i] == s.taken[i] && s'.taken[i] == s.taken[i];
    }
    if j :| 0 <= j < |s'.taken| && Last(s'.taken[j]) {
      assert j < |s.taken| ==> s.taken[j] == s'.taken[j];
    }
  }

  /** What one call leaves: all in order, or a size error with nothing yet answered. */
  ghost predicate Kept(s: State, o: Outcome, stream: seq<Msg>, max: nat) {
    if o == TooLarge then
      s.sent == [] && BodySize(s.delivered) <= max && s.taken + s.inbox == stream
      && s.delivered <= s.taken && BodySize(s.taken) > max
    else Ok(s, stream, max)
  }

  lemma OverLimit(s: State, stream: seq<Msg>, max: nat, s': State)
    requires Conforms(stream) && Ok(s, stream, max) && s.inbox != [] && s.inbox[0].Request? && Taken(s).bytes > max
    requires s'.taken == Taken(s).taken && s'.inbox == Taken(s).inbox && s'.sent == s.sent
             && s'.delivered == s.delivered
    ensures Kept(s', TooLarge, stream, max)
  {
    TakeOne(s, stream, max);
    BodySizePrefix(s.delivered, s.buffered);
    assert s'.taken == s.delivered + (s.buffered + [s.inbox[0]]);
  }

  lemma {:induction false} ConsumeKept(s: State, stream: seq<Msg>, max: nat)
    requires Conforms(stream) && Ok(s, stream, max)
    ensures Kept(Consume(s, max).0, Consume(s, max).1, stream, max)
    ensures Consume(s, max).1.Fine? ==> Consume(s, max).0.complete
    decreases |s.inbox|
  {
    if !s.complete && s.inbox != [] {
      var m := s.inbox[0];
      var s' := Taken(s).(buffered := s.buffered + [m]);
      if m.Request? && s'.bytes > max {
        OverLimit(s, stream, max, s');
      } else {
        TakeOne(s, stream, max);
        assert s'.taken == s.delivered + (s.buffered + [m]);
        ConsumeKept(s'.(complete := Complete(s.complete, m)), stream, max);
      }
    }
  }

  lemma SendKept(s: State, id: int, stream: seq<Msg>, max: nat)
    requires Conforms(stream) && Ok(s, stream, max)
    ensures Kept(Send(s, id, max).0, Send(s, id, max).1, stream, max)
  {
    ConsumeKept(s, stream, max);
  }

  lemma ReceiveKept(s: State, stream: seq<Msg>, max: nat)
    requires Conforms(stream) && Ok(s, stream, max)
    ensures Kept(Receive(s, max).0, Receive(s, max).1, stream, max)
  {
    if s.buffered != [] {
      assert s.delivered + s.buffered == s.delivered + [s.buffered[0]] + s.buffered[1..];
    } else if s.inbox != [] {
      var m, s' := s.inbox[0], Taken(s);
      if m.Request? && s'.bytes > max {
        OverLimit(s, stream, max, s');
      } else {
        TakeOne(s, stream, max);
        assert s'.taken == (s.delivered + [m]) + [];
      }
    }
  }

  /** How a request ends: everything in order, or one 413 and no other response. */
  ghost predicate Ended(s: State, stream: seq<Msg>, max: nat) {
    && BodySize(s.delivered) <= max && s.delivered <= stream && s.taken + s.inbox == stream
    && (TooLarge413 in s.sent ==> s.sent == [TooLarge413] && BodySize(s.taken) > max)
    && (TooLarge413 !in s.sent ==> s.taken == s.delivered + s.buffered && BodySize(s.taken) <= max)
  }

  lemma {:induction false} ServeEnds(s: State, calls: seq<Call>, stream: seq<Msg>, max: nat)
    requires Conforms(stream) && Ok(s, stream, max)
    ensures Ended(Serve(s, calls, max), stream, max)
    decreases |calls|
  {
    if calls == [] {
      OkEnds(s, stream, max);
    } else {
      var (s', o) := Called(s, calls[0], max);
      match calls[0] {
        case Read => ReceiveKept(s, stream, max);
        case Respond(id) => SendKept(s, id, stream, max);
      }
      match o
      case Fine(_) => ServeEnds(s', calls[1..], stream, max);
      case TooLarge =>
      case Blocked => OkEnds(s', stream, max);
    }
  }

  lemma OkEnds(s: State, stream: seq<Msg>, max: nat)
    requires Ok(s, stream, max)
    ensures Ended(s, stream, max)
  {
    BodySizePrefix(s.delivered, s.buffered);
    assert s.delivered + (s.buffered + s.inbox) == stream;
  }

  /**
   For every conforming request and every order of the app's calls: the app is handed a
   prefix of the stream within the limit, what was received is what was handed over and what
   is kept for it, and a 413 is sent exactly when the limit was passed, with no response before.
   */
  lemma LimitHolds(stream: seq<Msg>, calls: seq<Call>, max: nat)
    requires Conforms(stream)
    ensures Ended(Serve(Start(stream), calls, max), stream, max)
  {
    ServeEnds(Start(stream), calls, stream, max);
  }

  /** An oversized declaration is refused before anything is received. */
  lemma DeclaredRefused(stream: seq<Msg>, declared: Option<int>, calls: seq<Call>, max: nat)
    requires Conforms(stream)
    ensures declared.Some? && declared.value > max ==>
              Handled(stream, declared, calls, max).sent == [TooLarge413]
                  && Handled(stream, declared, calls, max).taken == []
    ensures !(declared.Some? && declared.value > max) ==> Ended(Handled(stream, declared, calls, max), stream, max)
  {
    LimitHolds(stream, calls, max);
  }

  // ---- An app that catches the error ---------------------------------------------------

  /** The app's calls in order, whatever they raise. */
  function Drive(s: State, calls: seq<Call>, max: nat): State
    decreases |calls|
  {
    if calls == [] then s
    else
      var (s', o) := Called(s, calls[0], max);
      if o == Blocked then s' else Drive(s', calls[1..], max)
  }

  predicate AllFine(s: State, calls: seq<Call>, max: nat)
    decreases |calls|
  {
    calls == [] || (Called(s, calls[0], max).1.Fine? && AllFine(Called(s, calls[0], max).0, calls[1..], max))
  }

  lemma {:induction false} BodySizeConcat(a: seq<Msg>, b: seq<Msg>)
    ensures BodySize(a + b) == BodySize(a) + BodySize(b)
  {
    if a == [] {
      assert a + b == b;
    } else {
      assert (a + b)[1..] == a[1..] + b;
      BodySizeConcat(a[1..], b);
    }
  }

  /** The count is what was handed over, is still buffered, or was lost. */
  ghost predicate Accounted(s: State) {
    s.bytes == BodySize(s.delivered) + BodySize(s.buffered) + BodySize(s.lost)
  }

  lemma {:induction false} ConsumeAccounted(s: State, max: nat)
    requires Accounted(s)
    ensures Accounted(Consume(s, max).0)
    decreases |s.inbox|
  {
    if !s.complete && s.inbox != [] {
      var m := s.inbox[0];
      var s' := Taken(s).(buffered := s.buffered + [m]);
      BodySizeSnoc(s.buffered, m);
      if !(m.Request? && s'.bytes > max) {
        ConsumeAccounted(s'.(complete := Complete(s.complete, m)), max);
      }
    }
  }

  lemma ReceiveAccounted(s: State, max: nat)
    requires Accounted(s)
    ensures Accounted(Receive(s, max).0)
  {
    if s.buffered != [] {
      BodySizeSnoc(s.delivered, s.buffered[0]);
    } else if s.inbox != [] {
      BodySizeSnoc(s.delivered, s.inbox[0]);
      BodySizeSnoc(s.lost, s.inbox[0]);
    }
  }

  /**
   Whatever an app does with the errors, it has been handed more than the limit exactly when
   the count is past the limit by more than is still buffered or was lost by failing reads.
   */
  lemma {:induction false} OverHandedIff(s: State, calls: seq<Call>, max: nat)
    requires Accounted(s)
    ensures var end := Drive(s, calls, max);
            BodySize(end.delivered) > max <==> end.bytes > max + BodySize(end.buffered) + BodySize(end.lost)
    decreases |calls|
  {
    if calls != [] {
      match calls[0] {
        case Read => ReceiveAccounted(s, max);
        case Respond(id) => ConsumeAccounted(s, max);
      }
      OverHandedIff(Called(s, calls[0], max).0, calls[1..], max);
    }
  }

  /** After an error from a send at message `k`: nothing is lost before that message is read. */
  ghost predicate SendFailed(s: State, upTo: seq<Msg>) {
    if |s.delivered| < |upTo| then s.delivered + s.buffered == s.taken && upTo <= s.taken && s.lost == []
    else upTo <= s.delivered
  }

  lemma {:induction false} ConsumeKeepsFailed(s: State, upTo: seq<Msg>, max: nat)
    requires SendFailed(s, upTo)
    ensures SendFailed(Consume(s, max).0, upTo)
    decreases |s.inbox|
  {
    if !s.complete && s.inbox != [] {
      var m := s.inbox[0];
      var s' := Taken(s).(buffered := s.buffered + [m]);
      assert s.delivered + (s.buffered + [m]) == s.delivered + s.buffered + [m];
      if !(m.Request? && s'.bytes > max) {
        ConsumeKeepsFailed(s'.(complete := Complete(s.complete, m)), upTo, max);
      }
    }
  }

  lemma ReceiveKeepsFailed(s: State, upTo: seq<Msg>, max: nat)
    requires SendFailed(s, upTo)
    ensures SendFailed(Receive(s, max).0, upTo)
  {
    if s.buffered != [] {
      assert s.delivered + [s.buffered[0]] + s.buffered[1..] == s.delivered + s.buffered;
    } else {
      assert s.delivered + s.buffered == s.delivered;
    }
  }

  lemma {:induction false} DriveKeepsFailed(s: State, calls: seq<Call>, upTo: seq<Msg>, max: nat)
    requires SendFailed(s, upTo)
    ensures SendFailed(Drive(s, calls, max), upTo)
    decreases |calls|
  {
    if calls != [] {
      match calls[0] {
        case Read => ReceiveKeepsFailed(s, upTo, max);
        case Respond(id) => ConsumeKeepsFailed(s, upTo, max);
      }
      DriveKeepsFailed(Called(s, calls[0], max).0, calls[1..], upTo, max);
    }
  }

  lemma {:induction false} FineKeeps(s: State, calls: seq<Call>, stream: seq<Msg>, max: nat)
    requires Conforms(stream) && Ok(s, stream, max) && AllFine(s, calls, max)
    ensures Ok(Drive(s, calls, max), stream, max)
    decreases |calls|
  {
    if calls != [] {
      match calls[0] {
        case Read => ReceiveKept(s, stream, max);
        case Respond(id) => SendKept(s, id, stream, max);
      }
      FineKeeps(Called(s, calls[0], max).0, calls[1..], stream, max);
    }
  }

  /** A failing send stops at the message that passed the limit, which it has buffered. */
  lemma {:induction false} FailedSendState(s: State, stream: seq<Msg>, max: nat)
    requires Conforms(stream) && Ok(s, stream, max) && Consume(s, max).1 == TooLarge
    ensures var t := Consume(s, max).0;
            && t.taken == t.delivered + t.buffered && t.lost == [] && t.delivered == s.delivered && t.buffered != []
            && BodySize(t.taken) > max && BodySize(t.taken[..|t.taken| - 1]) <= max
    decreases |s.inbox|
  {
    var m := s.inbox[0];
    var s' := Taken(s).(buffered := s.buffered + [m]);
    TakeOne(s, stream, max);
    assert s'.taken == s.delivered + (s.buffered + [m]);
    if m.Request? && s'.bytes > max {
      assert s'.taken[..|s'.taken| - 1] == s.taken;
    } else {
      FailedSendState(s'.(complete := Complete(s.complete, m)), stream, max);
    }
  }

  lemma CaughtFrom(s: State, stream: seq<Msg>, after: seq<Call>, max: nat, failed: State)
    requires Conforms(stream) && Ok(s, stream, max) && Consume(s, max) == (failed, TooLarge)
    ensures BodySize(Drive(failed, after, max).delivered) > max
            <==> |Drive(failed, after, max).delivered| > |failed.taken| - 1
  {
    FailedSendState(s, stream, max);
    DriveKeepsFailed(failed, after, failed.taken, max);
    PastTheMark(Drive(failed, after, max), failed.taken, max);
  }

  /**
   When the first error comes from a send, at the message that follows `k` others, an app
   that carries on is handed more than the limit exactly when its reads reach that message.
   */
  lemma CaughtSendIff(stream: seq<Msg>, before: seq<Call>, id: int, after: seq<Call>, max: nat)
    requires Conforms(stream) && AllFine(Start(stream), before, max)
    requires Send(Drive(Start(stream), before, max), id, max).1 == TooLarge
    ensures var failed := Send(Drive(Start(stream), before, max), id, max).0;
            var k, end := |failed.taken| - 1, Drive(failed, after, max);
            BodySize(end.delivered) > max <==> |end.delivered| > k
  {
    FineKeeps(Start(stream), before, stream, max);
    var s := Drive(Start(stream), before, max);
    CaughtFrom(s, stream, after, max, Consume(s, max).0);
  }

  lemma PastTheMark(end: State, upTo: seq<Msg>, max: nat)
    requires SendFailed(end, upTo) && upTo != []
    requires BodySize(upTo) > max && BodySize(upTo[..|upTo| - 1]) <= max
    ensures BodySize(end.delivered) > max <==> |end.delivered| > |upTo| - 1
  {
    if |end.delivered| >= |upTo| {
      PrefixBody(upTo, end.delivered);
    } else {
      ShortOf(end.delivered, end.buffered, end.taken, upTo);
      PrefixBody(end.delivered, upTo[..|upTo| - 1]);
    }
  }

  lemma PrefixBody(a: seq<Msg>, b: seq<Msg>)
    requires a <= b
    ensures BodySize(a) <= BodySize(b)
  {
    BodySizePrefix(a, b[|a|..]);
    assert a + b[|a|..] == b;
  }

  lemma ShortOf(delivered: seq<Msg>, buffered: seq<Msg>, taken: seq<Msg>, upTo: seq<Msg>)
    requires delivered + buffered == taken && upTo <= taken && |delivered| < |upTo|
    ensures delivered <= upTo[..|upTo| - 1]
  {
    assert delivered == taken[..|delivered|] && upTo == taken[..|upTo|];
  }

  /** No call of the list is a send. */
  predicate OnlyReads(calls: seq<Call>) {
    forall i :: 0 <= i < |calls| ==> calls[i].Read?
  }

  /** Reads alone: the buffer is empty, and every further body message is lost. */
  lemma {:induction false} ReadsLose(s: State, calls: seq<Call>, max: nat)
    requires OnlyReads(calls) && s.buffered == [] && s.bytes > max
    ensures BodySize(Drive(s, calls, max).delivered) == BodySize(s.delivered)
    decreases |calls|
  {
    if calls != [] {
      assert calls[0].Read?;
      forall i | 0 <= i < |calls[1..]| ensures calls[1..][i].Read? {
        assert calls[i + 1].Read?;
      }
      if s.inbox != [] {
        BodySizeSnoc(s.delivered, s.inbox[0]);
        ReadsLose(Receive(s, max).0, calls[1..], max);
      }
    }
  }

  /** When the first error comes from a read, an app that only reads on never gets past the limit. */
  lemma CaughtReadKeeps(stream: seq<Msg>, before: seq<Call>, after: seq<Call>, max: nat)
    requires Conforms(stream) && AllFine(Start(stream), before, max) && OnlyReads(after)
    requires Receive(Drive(Start(stream), before, max), max).1 == TooLarge
    ensures BodySize(Drive(Receive(Drive(Start(stream), before, max), max).0, after, max).delivered) <= max
  {
    var s := Drive(Start(stream), before, max);
    FineKeeps(Start(stream), before, stream, max);
    TakeOne(s, stream, max);
    BodySizePrefix(s.delivered, s.buffered);
    ReadsLose(Receive(s, max).0, after, max);
  }

  /** The condition of a caught send occurs: one oversized message, a send, then a read. */
  lemma CaughtErrorReplays(body: string, max: nat)
    requires |body| > max
    ensures var failed := Send(Start([Request(body, false)]), 0, max);
            failed.1 == TooLarge && Drive(failed.0, [Read], max).delivered == [Request(body, false)]
  {
    var s := Send(Start([Request(body, false)]), 0, max).0;
    assert s.buffered == [Request(body, false)];
    assert Drive(s, [Read], max) == Drive(Receive(s, max).0, [Read][1..], max);
  }
}
