/** `subscribe`: the blocking long-poll loop. The PHP method calls itself
    after each poll with `args['timetoken']` overwritten; here that
    recursion is the specification (`Listen`, `Deliver`) and the method
    `Subscribe` runs it as a loop over a mutable cursor, recording what it
    does as a trace of events.

    The network is a script of poll outcomes, one per poll, and the user
    callback is an oracle. A run is bounded by a number of polls (`fuel`)
    and by the length of the script: the source itself never ends unless
    the callback stops it. */
module SubscribeLoop {
  import opened PhpValues
  import opened PathEncoder
  import opened PubnubClient

  /** What one poll yields: the decoded response's elements 0 and 1 (a
      failed fetch decodes to null, so it is `Response(Null, Null)`), or an
      `Exception` raised before line 114 is reached. */
  datatype PollOutcome = Response(messages: Value, next: Value) | Raised

  /** What one call of the callback does: return a value, or raise an
      `Exception`, which the same `catch` block handles. */
  datatype Reply = Returned(value: Value) | Threw

  /** The callback, given how many calls came before this one and the
      message. */
  type Callback = (nat, Value) -> Reply

  datatype Event =
    | Polled(segments: seq<Bytes>)   // a subscribe request with these raw segments
    | Delivered(message: Value)      // one call of the callback
    | Slept                          // `sleep(1)` in the catch block

  /** How a run ends. The first two return false before any request; a
      falsy callback result returns null. `Exhausted` means the model's
      bound on polls or script was reached, not an end in the source. */
  datatype Ending = MissingChannel | MissingCallback | Stopped | Exhausted

  datatype Run = Run(events: seq<Event>, ending: Ending)

  /** What stays fixed across one subscribe call. */
  datatype Listener = Listener(cfg: Settings, channel: Bytes, callback: Callback)

  /** `isset($args['timetoken']) ? $args['timetoken'] : '0'`: a null cursor
      is not set, so the poll after a failed fetch asks for "0". Any other
      cursor goes through `_encode`, which sends an array as "". */
  function Timetoken(cursor: Value): (tt: Bytes)
    ensures cursor.Null? ==> tt == "0"
    ensures cursor.Arr? ==> tt == ""
    ensures !cursor.Null? && !cursor.Arr? ==> tt == ToStr(cursor)
  {
    if cursor.Null? then "0" else SegmentText(cursor)
  }

  function PollSegments(l: Listener, cursor: Value): seq<Bytes> {
    ["subscribe", l.cfg.subKey, l.channel, "0", Timetoken(cursor)]
  }

  function Prepend(events: seq<Event>, r: Run): Run {
    Run(events + r.events, r.ending)
  }

  /** A reply that lets the loop go on: a returned truthy value. */
  predicate Accepts(reply: Reply) {
    reply.Returned? && !Falsy(reply.value)
  }

  /** One call of the PHP method with the channel and callback checked:
      poll with the cursor, then either sleep and retry with the same
      cursor (an exception), re-poll with the returned cursor (no message),
      or hand the batch to the callback. */
  function Listen(l: Listener, script: seq<PollOutcome>, cursor: Value, calls: nat, fuel: nat): Run
    decreases fuel, 1
  {
    if fuel == 0 || script == [] then Run([], Exhausted)
    else
      var poll := Polled(PollSegments(l, cursor));
      match script[0]
      case Raised =>
        Prepend([poll, Slept], Listen(l, script[1..], cursor, calls, fuel - 1))
      case Response(messages, next) =>
        if Count(messages) == 0 then
          Prepend([poll], Listen(l, script[1..], next, calls, fuel - 1))
        else
          Prepend([poll], Deliver(l, Elements(messages), script[1..], next, calls, fuel - 1))
  }

  /** The `foreach` over a batch, with the cursor already replaced: each
      message goes to the callback in order; a falsy result ends the call,
      an exception sleeps and retries, and a finished batch polls again. */
  function Deliver(l: Listener, batch: seq<Value>, script: seq<PollOutcome>, cursor: Value, calls: nat, fuel: nat): Run
    decreases fuel, |batch| + 2
  {
    if batch == [] then Listen(l, script, cursor, calls, fuel)
    else
      var got := Delivered(batch[0]);
      match l.callback(calls, batch[0])
      case Threw =>
        Prepend([got, Slept], Listen(l, script, cursor, calls + 1, fuel))
      case Returned(v) =>
        if Falsy(v) then Run([got], Stopped)
        else Prepend([got], Deliver(l, batch[1..], script, cursor, calls + 1, fuel))
  }

  /** The whole `subscribe` call: a falsy channel or a missing callback
      returns false with no request; otherwise the first poll uses the
      supplied timetoken, or "0" when none is set. */
  function Subscription(cfg: Settings, channel: Value, callback: Option<Callback>, timetoken: Value,
                        script: seq<PollOutcome>, fuel: nat): (r: Run)
    ensures r.ending == MissingChannel <==> Falsy(channel)
    ensures r.ending == MissingCallback <==> !Falsy(channel) && callback.None?
    ensures r.ending.MissingChannel? || r.ending.MissingCallback? ==> r.events == []
    ensures !Falsy(channel) && callback.Some? && fuel > 0 && script != [] ==>
      r.events != [] &&
      r.events[0] == Polled(["subscribe", cfg.subKey, SegmentText(channel), "0", Timetoken(timetoken)])
  {
    if Falsy(channel) then Run([], MissingChannel)
    else if callback.None? then Run([], MissingCallback)
    else
      var l := Listener(cfg, SegmentText(channel), callback.value);
      ListenShape(l, script, timetoken, 0, fuel);
      Listen(l, script, timetoken, 0, fuel)
  }

  /** A run with the checks passed ends only by a falsy callback result or
      by the bound; it is empty exactly when no poll is allowed or
      scripted, and it starts with the poll for the current cursor. */
  lemma {:induction false} ListenShape(l: Listener, script: seq<PollOutcome>, cursor: Value, calls: nat, fuel: nat)
    decreases fuel, 1
    ensures var r := Listen(l, script, cursor, calls, fuel);
      && (r.ending == Stopped || r.ending == Exhausted)
      && (r.events == [] <==> fuel == 0 || script == [])
      && (r.events != [] ==> r.events[0] == Polled(PollSegments(l, cursor)))
  {
    if fuel > 0 && script != [] {
      match script[0]
      case Raised =>
        ListenShape(l, script[1..], cursor, calls, fuel - 1);
      case Response(messages, next) =>
        if Count(messages) == 0 {
          ListenShape(l, script[1..], next, calls, fuel - 1);
        } else {
          DeliverShape(l, Elements(messages), script[1..], next, calls, fuel - 1);
        }
    }
  }

  /** The same for a batch: a nonempty one starts with the delivery of its
      first message. */
  lemma {:induction false} DeliverShape(l: Listener, batch: seq<Value>, script: seq<PollOutcome>, cursor: Value,
                                        calls: nat, fuel: nat)
    decreases fuel, |batch| + 2
    ensures var r := Deliver(l, batch, script, cursor, calls, fuel);
      && (r.ending == Stopped || r.ending == Exhausted)
      && (batch != [] ==> r.events != [] && r.events[0] == Delivered(batch[0]))
  {
    if batch == [] {
      ListenShape(l, script, cursor, calls, fuel);
    } else {
      match l.callback(calls, batch[0])
      case Threw =>
        ListenShape(l, script, cursor, calls + 1, fuel);
      case Returned(v) =>
        if !Falsy(v) {
          DeliverShape(l, batch[1..], script, cursor, calls + 1, fuel);
        }
    }
  }

  /** The `foreach` of one batch: the events it adds and how it leaves the
      batch. `stopped` is a falsy callback result; otherwise the loop polls
      again after the batch or after an exception, having made the calls
      counted in `callsAfter`. */
  method DispatchBatch(l: Listener, batch: seq<Value>, ghost script: seq<PollOutcome>, cursor: Value,
                       calls: nat, ghost fuel: nat)
    returns (events: seq<Event>, callsAfter: nat, stopped: bool)
    ensures stopped ==> Deliver(l, batch, script, cursor, calls, fuel) == Run(events, Stopped)
    ensures !stopped ==>
      Deliver(l, batch, script, cursor, calls, fuel) == Prepend(events, Listen(l, script, cursor, callsAfter, fuel))
  {
    events, callsAfter, stopped := [], calls, false;
    var rest := batch;
    assert [] + Deliver(l, batch, script, cursor, calls, fuel).events == Deliver(l, batch, script, cursor, calls, fuel).events;
    while rest != []
      invariant Deliver(l, batch, script, cursor, calls, fuel)
             == Prepend(events, Deliver(l, rest, script, cursor, callsAfter, fuel))
    {
      var message := rest[0];
      var reply := l.callback(callsAfter, message);
      if reply.Threw? {
        DeliverOnThrew(l, rest, script, cursor, callsAfter, fuel);
        PrependTwice(events, [Delivered(message), Slept], Listen(l, script, cursor, callsAfter + 1, fuel));
        events, callsAfter := events + [Delivered(message), Slept], callsAfter + 1;
        return;
      }
      if Falsy(reply.value) {
        DeliverOnRefused(l, rest, script, cursor, callsAfter, fuel);
        events, callsAfter, stopped := events + [Delivered(message)], callsAfter + 1, true;
        return;
      }
      DeliverOnAccepted(l, rest, script, cursor, callsAfter, fuel);
      PrependTwice(events, [Delivered(message)], Deliver(l, rest[1..], script, cursor, callsAfter + 1, fuel));
      events, callsAfter := events + [Delivered(message)], callsAfter + 1;
      rest := rest[1..];
    }
    assert events + [] == events;
  }

  lemma PrependTwice(a: seq<Event>, b: seq<Event>, r: Run)
    ensures Prepend(a, Prepend(b, r)) == Prepend(a + b, r)
  {
    assert a + (b + r.events) == (a + b) + r.events;
  }

  /** `Listen` after an exception, an empty batch and a nonempty one. */
  lemma ListenOnRaised(l: Listener, script: seq<PollOutcome>, cursor: Value, calls: nat, fuel: nat)
    requires fuel > 0 && script != [] && script[0].Raised?
    ensures Listen(l, script, cursor, calls, fuel)
         == Prepend([Polled(PollSegments(l, cursor)), Slept], Listen(l, script[1..], cursor, calls, fuel - 1))
  {
  }

  lemma ListenOnEmpty(l: Listener, script: seq<PollOutcome>, cursor: Value, calls: nat, fuel: nat)
    requires fuel > 0 && script != [] && script[0].Response? && Count(script[0].messages) == 0
    ensures Listen(l, script, cursor, calls, fuel)
         == Prepend([Polled(PollSegments(l, cursor))], Listen(l, script[1..], script[0].next, calls, fuel - 1))
  {
  }

  lemma ListenOnBatch(l: Listener, script: seq<PollOutcome>, cursor: Value, calls: nat, fuel: nat)
    requires fuel > 0 && script != [] && script[0].Response? && Count(script[0].messages) != 0
    ensures Listen(l, script, cursor, calls, fuel)
         == Prepend([Polled(PollSegments(l, cursor))],
                    Deliver(l, Elements(script[0].messages), script[1..], script[0].next, calls, fuel - 1))
  {
  }

  /** `Deliver` after an exception, a falsy and a truthy result of the
      callback. */
  lemma DeliverOnThrew(l: Listener, batch: seq<Value>, script: seq<PollOutcome>, cursor: Value, calls: nat, fuel: nat)
    requires batch != [] && l.callback(calls, batch[0]).Threw?
    ensures Deliver(l, batch, script, cursor, calls, fuel)
         == Prepend([Delivered(batch[0]), Slept], Listen(l, script, cursor, calls + 1, fuel))
  {
  }

  lemma DeliverOnRefused(l: Listener, batch: seq<Value>, script: seq<PollOutcome>, cursor: Value, calls: nat, fuel: nat)
    requires batch != [] && l.callback(calls, batch[0]).Returned? && Falsy(l.callback(calls, batch[0]).value)
    ensures Deliver(l, batch, script, cursor, calls, fuel) == Run([Delivered(batch[0])], Stopped)
  {
  }

  lemma DeliverOnAccepted(l: Listener, batch: seq<Value>, script: seq<PollOutcome>, cursor: Value, calls: nat, fuel: nat)
    requires batch != [] && Accepts(l.callback(calls, batch[0]))
    ensures Deliver(l, batch, script, cursor, calls, fuel)
         == Prepend([Delivered(batch[0])], Deliver(l, batch[1..], script, cursor, calls + 1, fuel))
  {
  }

  /** One execution of the body of `subscribe`: one request, then the
      sleep, the empty batch or the batch. Unless the callback stopped it,
      it leaves the cursor and the call count for the next request. */
  method PollOnce(l: Listener, outcome: PollOutcome, ghost script: seq<PollOutcome>, cursor: Value,
                  calls: nat, ghost fuel: nat)
    returns (events: seq<Event>, cursorAfter: Value, callsAfter: nat, stopped: bool)
    requires fuel > 0 && script != [] && script[0] == outcome
    ensures stopped ==> Listen(l, script, cursor, calls, fuel) == Run(events, Stopped)
    ensures !stopped ==>
      Listen(l, script, cursor, calls, fuel) == Prepend(events, Listen(l, script[1..], cursorAfter, callsAfter, fuel - 1))
  {
    var poll := Polled(PollSegments(l, cursor));
    if outcome.Raised? {
      ListenOnRaised(l, script, cursor, calls, fuel);
      return [poll, Slept], cursor, calls, false;
    }
    if Count(outcome.messages) == 0 {
      ListenOnEmpty(l, script, cursor, calls, fuel);
      return [poll], outcome.next, calls, false;
    }
    ListenOnBatch(l, script, cursor, calls, fuel);
    var batchEvents;
    batchEvents, callsAfter, stopped := DispatchBatch(l, Elements(outcome.messages), script[1..], outcome.next, calls, fuel - 1);
    events, cursorAfter := [poll] + batchEvents, outcome.next;
    if !stopped {
      PrependTwice([poll], batchEvents, Listen(l, script[1..], cursorAfter, callsAfter, fuel - 1));
    }
  }

  /** The loop of `subscribe` past its two checks: `cursor` is
      `args['timetoken']`, `rest` the outcomes still to come, `left` the
      polls still allowed and `calls` the callback calls made. */
  method Poll(l: Listener, script: seq<PollOutcome>, timetoken: Value, fuel: nat) returns (r: Run)
    ensures r == Listen(l, script, timetoken, 0, fuel)
  {
    ghost var spec := Listen(l, script, timetoken, 0, fuel);
    var trace: seq<Event> := [];
    var cursor := timetoken;
    var rest, left, calls := script, fuel, 0;
    assert [] + spec.events == spec.events;
    while left > 0 && rest != []
      invariant Prepend(trace, Listen(l, rest, cursor, calls, left)) == spec
      decreases left
    {
      var events, cursorAfter, callsAfter, stopped := PollOnce(l, rest[0], rest, cursor, calls, left);
      if stopped {
        return Run(trace + events, Stopped);
      }
      PrependTwice(trace, events, Listen(l, rest[1..], cursorAfter, callsAfter, left - 1));
      trace, cursor, calls := trace + events, cursorAfter, callsAfter;
      rest, left := rest[1..], left - 1;
    }
    assert trace + [] == trace;
    r := Run(trace, Exhausted);
  }

  /** `subscribe`: the two checks, then the loop with the supplied
      timetoken as the first cursor. */
  method Subscribe(cfg: Settings, channel: Value, callback: Option<Callback>, timetoken: Value,
                   script: seq<PollOutcome>, fuel: nat) returns (r: Run)
    ensures r == Subscription(cfg, channel, callback, timetoken, script, fuel)
  {
    if Falsy(channel) {
      return Run([], MissingChannel);
    }
    if callback.None? {
      return Run([], MissingCallback);
    }
    r := Poll(Listener(cfg, SegmentText(channel), callback.value), script, timetoken, fuel);
  }
}
