/** What a `subscribe` run does, proved of the recursive specification that
    the loop in `SubscribeLoop.Subscribe` is proved equal to: which requests
    it issues and with which cursor, in which order the callback sees the
    messages, when it stops, and when it sleeps. */
module SubscribeProperties {
  import opened PhpValues
  import opened PathEncoder
  import opened PubnubClient
  import opened SubscribeLoop

  /** The cursor after one outcome: line 114 replaces it by `response[1]`;
      an exception raised before that line leaves it as it was. */
  function After(cursor: Value, o: PollOutcome): Value {
    if o.Raised? then cursor else o.next
  }

  /** The cursor after a sequence of outcomes. */
  function CursorAfter(cursor: Value, outcomes: seq<PollOutcome>): Value
    decreases |outcomes|
  {
    if outcomes == [] then cursor else CursorAfter(After(cursor, outcomes[0]), outcomes[1..])
  }

  /** The requests a run would issue if nothing stopped it: one per
      outcome, each with the cursor the previous outcomes left. This is
      independent of the callback and of how batches are dispatched. */
  function PlannedPolls(l: Listener, cursor: Value, script: seq<PollOutcome>): (polls: seq<seq<Bytes>>)
    ensures |polls| == |script|
    decreases |script|
  {
    if script == [] then []
    else [PollSegments(l, cursor)] + PlannedPolls(l, After(cursor, script[0]), script[1..])
  }

  /** The segment lists of the requests in a trace, in order. */
  function Polls(events: seq<Event>): seq<seq<Bytes>> {
    if events == [] then []
    else (if events[0].Polled? then [events[0].segments] else []) + Polls(events[1..])
  }

  /** The events of handing each message of a batch to the callback. */
  function Dispatched(batch: seq<Value>): seq<Event> {
    if batch == [] then [] else [Delivered(batch[0])] + Dispatched(batch[1..])
  }

  /** A reply that ends `subscribe`: a returned falsy value. */
  predicate Refuses(reply: Reply) {
    reply.Returned? && Falsy(reply.value)
  }

  /** The callback refuses message m on its n-th call. */
  predicate RefusedAt(l: Listener, n: nat, m: Value) {
    Refuses(l.callback(n, m))
  }

  /** Every sleep comes right after a request or a callback call, never
      after another sleep, and the next event, if any, is a new request. */
  predicate SleepsRetry(events: seq<Event>) {
    forall i :: 0 <= i < |events| && events[i].Slept? ==>
      && 0 < i && !events[i - 1].Slept?
      && (i + 1 < |events| ==> events[i + 1].Polled?)
  }

  lemma {:induction false} PollsAppend(a: seq<Event>, b: seq<Event>)
    ensures Polls(a + b) == Polls(a) + Polls(b)
  {
    if a == [] {
      assert a + b == b;
    } else {
      assert (a + b)[0] == a[0] && (a + b)[1..] == a[1..] + b;
      PollsAppend(a[1..], b);
    }
  }

  /** The k-th request of the plan uses the cursor left by the first k
      outcomes: the supplied one for the first request, then `response[1]`
      of each response, unchanged across an exception. */
  lemma {:induction false} PlannedPollAt(l: Listener, cursor: Value, script: seq<PollOutcome>, k: nat)
    requires k < |script|
    ensures PlannedPolls(l, cursor, script)[k] == PollSegments(l, CursorAfter(cursor, script[..k]))
    decreases k
  {
    if k > 0 {
      PlannedPollAt(l, After(cursor, script[0]), script[1..], k - 1);
      assert script[..k][0] == script[0] && script[..k][1..] == script[1..][..k - 1];
    }
  }

  /** What the plan and the bound say of the requests of one run. */
  predicate PollsFit(polls: seq<seq<Bytes>>, plan: seq<seq<Bytes>>, fuel: nat, ending: Ending) {
    && polls <= plan
    && |polls| <= fuel
    && (ending == Exhausted ==> |polls| == if fuel < |plan| then fuel else |plan|)
  }

  /** One more request in front of a run that fits the rest of the plan. */
  lemma PollsFitCons(poll: seq<Bytes>, polls: seq<seq<Bytes>>, plan: seq<seq<Bytes>>, fuel: nat, ending: Ending)
    requires PollsFit(polls, plan, fuel, ending)
    ensures PollsFit([poll] + polls, [poll] + plan, fuel + 1, ending)
  {
    assert ([poll] + polls)[1..] == polls && ([poll] + plan)[1..] == plan;
  }

  /** A head holding one request in front of a run that fits the rest of
      the plan. */
  lemma PollsFitPrepend(head: seq<Event>, poll: seq<Bytes>, r: Run, plan: seq<seq<Bytes>>, fuel: nat)
    requires Polls(head) == [poll]
    requires PollsFit(Polls(r.events), plan, fuel, r.ending)
    ensures PollsFit(Polls(Prepend(head, r).events), [poll] + plan, fuel + 1, r.ending)
  {
    PollsAppend(head, r.events);
    PollsFitCons(poll, Polls(r.events), plan, fuel, r.ending);
  }

  /** The requests of a run are a prefix of the plan; there are at most
      `fuel` of them, and all of them unless the callback stopped the run. */
  lemma {:induction false} ListenPolls(l: Listener, script: seq<PollOutcome>, cursor: Value, calls: nat, fuel: nat)
    decreases fuel, 1
    ensures var r := Listen(l, script, cursor, calls, fuel);
      PollsFit(Polls(r.events), PlannedPolls(l, cursor, script), fuel, r.ending)
  {
    if fuel > 0 && script != [] {
      if script[0].Raised? {
        RaisedPolls(l, script, cursor, calls, fuel);
      } else {
        ResponsePolls(l, script, cursor, calls, fuel);
      }
    }
  }

  lemma {:induction false} RaisedPolls(l: Listener, script: seq<PollOutcome>, cursor: Value, calls: nat, fuel: nat)
    requires fuel > 0 && script != [] && script[0].Raised?
    decreases fuel, 0
    ensures var r := Listen(l, script, cursor, calls, fuel);
      PollsFit(Polls(r.events), PlannedPolls(l, cursor, script), fuel, r.ending)
  {
    var poll := Polled(PollSegments(l, cursor));
    var rest := Listen(l, script[1..], cursor, calls, fuel - 1);
    assert PlannedPolls(l, cursor, script) == [poll.segments] + PlannedPolls(l, cursor, script[1..]);
    ListenPolls(l, script[1..], cursor, calls, fuel - 1);
    ListenOnRaised(l, script, cursor, calls, fuel);
    assert [poll, Slept][1..] == [Slept] && [Slept][1..] == [];
    assert Polls([poll, Slept]) == [poll.segments];
    PollsFitPrepend([poll, Slept], poll.segments, rest, PlannedPolls(l, cursor, script[1..]), fuel - 1);
  }

  lemma {:induction false} ResponsePolls(l: Listener, script: seq<PollOutcome>, cursor: Value, calls: nat, fuel: nat)
    requires fuel > 0 && script != [] && script[0].Response?
    decreases fuel, 0
    ensures var r := Listen(l, script, cursor, calls, fuel);
      PollsFit(Polls(r.events), PlannedPolls(l, cursor, script), fuel, r.ending)
  {
    var poll := Polled(PollSegments(l, cursor));
    var next := script[0].next;
    var plan := PlannedPolls(l, next, script[1..]);
    assert PlannedPolls(l, cursor, script) == [poll.segments] + plan;
    assert Polls([poll]) == [poll.segments];
    if Count(script[0].messages) == 0 {
      ListenPolls(l, script[1..], next, calls, fuel - 1);
      ListenOnEmpty(l, script, cursor, calls, fuel);
      PollsFitPrepend([poll], poll.segments, Listen(l, script[1..], next, calls, fuel - 1), plan, fuel - 1);
    } else {
      var batch := Elements(script[0].messages);
      DeliverPolls(l, batch, script[1..], next, calls, fuel - 1);
      ListenOnBatch(l, script, cursor, calls, fuel);
      PollsFitPrepend([poll], poll.segments, Deliver(l, batch, script[1..], next, calls, fuel - 1), plan, fuel - 1);
    }
  }

  lemma {:induction false} DeliverPolls(l: Listener, batch: seq<Value>, script: seq<PollOutcome>, cursor: Value,
                                        calls: nat, fuel: nat)
    decreases fuel, |batch| + 2
    ensures var r := Deliver(l, batch, script, cursor, calls, fuel);
      PollsFit(Polls(r.events), PlannedPolls(l, cursor, script), fuel, r.ending)
  {
    if batch == [] {
      ListenPolls(l, script, cursor, calls, fuel);
    } else {
      var got := Delivered(batch[0]);
      var reply := l.callback(calls, batch[0]);
      if reply.Threw? {
        var rest := Listen(l, script, cursor, calls + 1, fuel);
        DeliverOnThrew(l, batch, script, cursor, calls, fuel);
        ListenPolls(l, script, cursor, calls + 1, fuel);
        PollsAppend([got, Slept], rest.events);
        assert [got, Slept][1..] == [Slept] && [Slept][1..] == [];
        assert Polls([got, Slept]) == [];
      } else if Falsy(reply.value) {
        DeliverOnRefused(l, batch, script, cursor, calls, fuel);
        assert Polls([got]) == [];
      } else {
        var rest := Deliver(l, batch[1..], script, cursor, calls + 1, fuel);
        DeliverOnAccepted(l, batch, script, cursor, calls, fuel);
        DeliverPolls(l, batch[1..], script, cursor, calls + 1, fuel);
        PollsAppend([got], rest.events);
        assert Polls([got]) == [];
      }
    }
  }

  /** The requests of a whole `subscribe` call: none when it is refused;
      otherwise a prefix of the plan that starts from the supplied
      timetoken. */
  lemma SubscriptionPolls(cfg: Settings, channel: Value, callback: Option<Callback>, timetoken: Value,
                          script: seq<PollOutcome>, fuel: nat)
    ensures var r := Subscription(cfg, channel, callback, timetoken, script, fuel);
      && (Falsy(channel) || callback.None? ==> Polls(r.events) == [])
      && (!Falsy(channel) && callback.Some? ==>
            Polls(r.events) <= PlannedPolls(Listener(cfg, SegmentText(channel), callback.value), timetoken, script))
  {
    if !Falsy(channel) && callback.Some? {
      ListenPolls(Listener(cfg, SegmentText(channel), callback.value), script, timetoken, 0, fuel);
    }
  }

  /** The callback accepts the first j messages of a batch, its first
      call being call number `calls`. */
  predicate AcceptsFirst(l: Listener, batch: seq<Value>, calls: nat, j: nat) {
    j <= |batch| && forall i :: 0 <= i < j ==> Accepts(l.callback(calls + i, batch[i]))
  }

  lemma AcceptsFirstTail(l: Listener, batch: seq<Value>, calls: nat, j: nat)
    requires 0 < j && AcceptsFirst(l, batch, calls, j)
    ensures Accepts(l.callback(calls, batch[0])) && AcceptsFirst(l, batch[1..], calls + 1, j - 1)
  {
    assert Accepts(l.callback(calls + 0, batch[0]));
    forall i | 0 <= i < j - 1 ensures Accepts(l.callback(calls + 1 + i, batch[1..][i])) {
      assert Accepts(l.callback(calls + (i + 1), batch[i + 1]));
    }
  }

  /** A batch whose every message the callback accepts reaches it whole,
      one message at a time and in order, and then the loop polls again. */
  lemma {:induction false} DeliverAccepted(l: Listener, batch: seq<Value>, script: seq<PollOutcome>, cursor: Value,
                                           calls: nat, fuel: nat)
    requires AcceptsFirst(l, batch, calls, |batch|)
    ensures Deliver(l, batch, script, cursor, calls, fuel)
         == Prepend(Dispatched(batch), Listen(l, script, cursor, calls + |batch|, fuel))
  {
    var retry := Listen(l, script, cursor, calls + |batch|, fuel);
    if batch == [] {
      assert [] + retry.events == retry.events;
    } else {
      AcceptsFirstTail(l, batch, calls, |batch|);
      DeliverOnAccepted(l, batch, script, cursor, calls, fuel);
      DeliverAccepted(l, batch[1..], script, cursor, calls + 1, fuel);
      PrependTwice([Delivered(batch[0])], Dispatched(batch[1..]), retry);
    }
  }

  /** The dispatch events of a prefix, one message longer. */
  lemma DispatchedPrefix(batch: seq<Value>, j: nat)
    requires j < |batch|
    ensures Dispatched(batch[..j + 1]) == [Delivered(batch[0])] + Dispatched(batch[1..][..j])
  {
    assert batch[..j + 1][0] == batch[0] && batch[..j + 1][1..] == batch[1..][..j];
  }

  /** The first falsy callback result, at message j, ends `subscribe`: the
      messages up to j are delivered in order, none after it, and no
      further request is issued. */
  lemma {:induction false} DeliverStops(l: Listener, batch: seq<Value>, script: seq<PollOutcome>, cursor: Value,
                                        calls: nat, fuel: nat, j: nat)
    requires j < |batch| && AcceptsFirst(l, batch, calls, j)
    requires Refuses(l.callback(calls + j, batch[j]))
    ensures Deliver(l, batch, script, cursor, calls, fuel) == Run(Dispatched(batch[..j + 1]), Stopped)
  {
    DispatchedPrefix(batch, j);
    if j == 0 {
      assert calls + j == calls;
      DeliverOnRefused(l, batch, script, cursor, calls, fuel);
    } else {
      AcceptsFirstTail(l, batch, calls, j);
      assert calls + 1 + (j - 1) == calls + j && batch[1..][j - 1] == batch[j];
      DeliverOnAccepted(l, batch, script, cursor, calls, fuel);
      DeliverStops(l, batch[1..], script, cursor, calls + 1, fuel, j - 1);
    }
  }

  /** An exception raised by the callback at message j: the messages up to
      j were delivered in order, the loop sleeps, and it polls again with
      the cursor it already took from this response. */
  lemma {:induction false} DeliverThrows(l: Listener, batch: seq<Value>, script: seq<PollOutcome>, cursor: Value,
                                         calls: nat, fuel: nat, j: nat)
    requires j < |batch| && AcceptsFirst(l, batch, calls, j)
    requires l.callback(calls + j, batch[j]).Threw?
    ensures Deliver(l, batch, script, cursor, calls, fuel)
         == Prepend(Dispatched(batch[..j + 1]) + [Slept], Listen(l, script, cursor, calls + j + 1, fuel))
  {
    var retry := Listen(l, script, cursor, calls + j + 1, fuel);
    DispatchedPrefix(batch, j);
    if j == 0 {
      assert calls + j == calls;
      DeliverOnThrew(l, batch, script, cursor, calls, fuel);
    } else {
      AcceptsFirstTail(l, batch, calls, j);
      assert calls + 1 + (j - 1) == calls + j && batch[1..][j - 1] == batch[j];
      DeliverOnAccepted(l, batch, script, cursor, calls, fuel);
      DeliverThrows(l, batch[1..], script, cursor, calls + 1, fuel, j - 1);
      assert calls + 1 + (j - 1) + 1 == calls + j + 1;
      var tail := Dispatched(batch[1..][..j]) + [Slept];
      PrependTwice([Delivered(batch[0])], tail, retry);
      assert [Delivered(batch[0])] + tail == Dispatched(batch[..j + 1]) + [Slept];
    }
  }

  /** The number of callback calls among some events: one per delivery. */
  function CallsIn(events: seq<Event>): nat {
    if events == [] then 0 else (if events[0].Delivered? then 1 else 0) + CallsIn(events[1..])
  }

  lemma {:induction false} CallsInAppend(a: seq<Event>, b: seq<Event>)
    ensures CallsIn(a + b) == CallsIn(a) + CallsIn(b)
  {
    if a == [] {
      assert a + b == b;
    } else {
      assert (a + b)[0] == a[0] && (a + b)[1..] == a[1..] + b;
      CallsInAppend(a[1..], b);
    }
  }

  lemma CallsInOne(e: Event)
    ensures CallsIn([e]) == if e.Delivered? then 1 else 0
  {
    assert [e][1..] == [];
  }

  lemma CallsInTwo(e: Event)
    ensures CallsIn([e, Slept]) == CallsIn([e])
  {
    CallsInAppend([e], [Slept]);
    assert [e] + [Slept] == [e, Slept];
    CallsInOne(Slept);
  }

  /** A stopped run that began after `calls` callback calls ends with a
      delivery, and the callback refused that message on that very call:
      the last of the calls the run made. */
  predicate EndsRefused(l: Listener, calls: nat, r: Run) {
    r.ending == Stopped ==>
      && r.events != []
      && r.events[|r.events| - 1].Delivered?
      && CallsIn(r.events) > 0
      && Refuses(l.callback(calls + CallsIn(r.events) - 1, r.events[|r.events| - 1].message))
  }

  lemma EndsRefusedPrepend(l: Listener, calls: nat, head: seq<Event>, r: Run)
    requires EndsRefused(l, calls + CallsIn(head), r)
    ensures EndsRefused(l, calls, Prepend(head, r))
  {
    if r.ending == Stopped {
      var events := Prepend(head, r).events;
      CallsInAppend(head, r.events);
      assert events[|events| - 1] == r.events[|r.events| - 1];
    }
  }

  /** A stopped run ends with a delivery that the callback refused on the
      call that delivered it: nothing is dispatched or requested after the
      falsy result. */
  lemma {:induction false} ListenStops(l: Listener, script: seq<PollOutcome>, cursor: Value, calls: nat, fuel: nat)
    decreases fuel, 1, 0
    ensures EndsRefused(l, calls, Listen(l, script, cursor, calls, fuel))
  {
    if fuel > 0 && script != [] {
      var poll := Polled(PollSegments(l, cursor));
      var head, rest;
      if script[0].Raised? {
        head, rest := [poll, Slept], Listen(l, script[1..], cursor, calls, fuel - 1);
        ListenStops(l, script[1..], cursor, calls, fuel - 1);
        ListenOnRaised(l, script, cursor, calls, fuel);
        CallsInTwo(poll);
        CallsInOne(poll);
      } else if Count(script[0].messages) == 0 {
        head, rest := [poll], Listen(l, script[1..], script[0].next, calls, fuel - 1);
        ListenStops(l, script[1..], script[0].next, calls, fuel - 1);
        ListenOnEmpty(l, script, cursor, calls, fuel);
        CallsInOne(poll);
      } else {
        head, rest := [poll], Deliver(l, Elements(script[0].messages), script[1..], script[0].next, calls, fuel - 1);
        DeliverStopsAt(l, Elements(script[0].messages), script[1..], script[0].next, calls, fuel - 1);
        ListenOnBatch(l, script, cursor, calls, fuel);
        CallsInOne(poll);
      }
      EndsRefusedPrepend(l, calls, head, rest);
    }
  }

  lemma {:induction false} DeliverStopsAt(l: Listener, batch: seq<Value>, script: seq<PollOutcome>, cursor: Value,
                                          calls: nat, fuel: nat)
    decreases fuel, |batch| + 2, 1
    ensures EndsRefused(l, calls, Deliver(l, batch, script, cursor, calls, fuel))
  {
    if batch == [] {
      ListenStops(l, script, cursor, calls, fuel);
    } else if l.callback(calls, batch[0]).Threw? {
      ThrewStopsAt(l, batch, script, cursor, calls, fuel);
    } else if Falsy(l.callback(calls, batch[0]).value) {
      DeliverOnRefused(l, batch, script, cursor, calls, fuel);
      CallsInOne(Delivered(batch[0]));
    } else {
      AcceptedStopsAt(l, batch, script, cursor, calls, fuel);
    }
  }

  lemma {:induction false} ThrewStopsAt(l: Listener, batch: seq<Value>, script: seq<PollOutcome>, cursor: Value,
                                        calls: nat, fuel: nat)
    requires batch != [] && l.callback(calls, batch[0]).Threw?
    decreases fuel, |batch| + 2, 0
    ensures EndsRefused(l, calls, Deliver(l, batch, script, cursor, calls, fuel))
  {
    var got := Delivered(batch[0]);
    DeliverOnThrew(l, batch, script, cursor, calls, fuel);
    ListenStops(l, script, cursor, calls + 1, fuel);
    CallsInTwo(got);
    CallsInOne(got);
    EndsRefusedPrepend(l, calls, [got, Slept], Listen(l, script, cursor, calls + 1, fuel));
  }

  lemma {:induction false} AcceptedStopsAt(l: Listener, batch: seq<Value>, script: seq<PollOutcome>, cursor: Value,
                                           calls: nat, fuel: nat)
    requires batch != [] && Accepts(l.callback(calls, batch[0]))
    decreases fuel, |batch| + 2, 0
    ensures EndsRefused(l, calls, Deliver(l, batch, script, cursor, calls, fuel))
  {
    var got := Delivered(batch[0]);
    DeliverOnAccepted(l, batch, script, cursor, calls, fuel);
    DeliverStopsAt(l, batch[1..], script, cursor, calls + 1, fuel);
    CallsInOne(got);
    EndsRefusedPrepend(l, calls, [got], Deliver(l, batch[1..], script, cursor, calls + 1, fuel));
  }

  /** A callback that never returns a falsy value never stops the loop. */
  lemma NeverStops(l: Listener, script: seq<PollOutcome>, cursor: Value, calls: nat, fuel: nat)
    requires forall n: nat, m: Value :: !RefusedAt(l, n, m)
    ensures Listen(l, script, cursor, calls, fuel).ending == Exhausted
  {
    ListenShape(l, script, cursor, calls, fuel);
    ListenStops(l, script, cursor, calls, fuel);
    var r := Listen(l, script, cursor, calls, fuel);
    if r.ending == Stopped {
      assert RefusedAt(l, calls + CallsIn(r.events) - 1, r.events[|r.events| - 1].message);
    }
  }

  lemma SleepsRetryAppend(a: seq<Event>, b: seq<Event>)
    requires SleepsRetry(a) && SleepsRetry(b)
    requires a != [] && !a[0].Slept?
    requires b != [] ==> !b[0].Slept?
    requires b != [] && a[|a| - 1].Slept? ==> b[0].Polled?
    ensures SleepsRetry(a + b)
  {
    var s := a + b;
    forall i | 0 <= i < |s| && s[i].Slept?
      ensures 0 < i && !s[i - 1].Slept? && (i + 1 < |s| ==> s[i + 1].Polled?)
    {
      if i < |a| {
        assert s[i] == a[i];
        if i + 1 < |a| {
          assert s[i + 1] == a[i + 1];
        } else if i + 1 < |s| {
          assert s[i + 1] == b[0];
        }
      } else {
        assert s[i] == b[i - |a|];
        if i == |a| {
          assert false;
        } else {
          assert s[i - 1] == b[i - |a| - 1];
        }
        if i + 1 < |s| {
          assert s[i + 1] == b[i + 1 - |a|];
        }
      }
    }
  }

  /** Every sleep of a run is the `catch` block's: it follows the request
      or the callback call that raised, and the next event is the retry. */
  lemma {:induction false} ListenSleepsRetry(l: Listener, script: seq<PollOutcome>, cursor: Value, calls: nat, fuel: nat)
    decreases fuel, 1
    ensures SleepsRetry(Listen(l, script, cursor, calls, fuel).events)
  {
    if fuel > 0 && script != [] {
      if script[0].Raised? {
        RaisedSleepsRetry(l, script, cursor, calls, fuel);
      } else if Count(script[0].messages) == 0 {
        EmptySleepsRetry(l, script, cursor, calls, fuel);
      } else {
        BatchSleepsRetry(l, script, cursor, calls, fuel);
      }
    }
  }

  lemma {:induction false} RaisedSleepsRetry(l: Listener, script: seq<PollOutcome>, cursor: Value, calls: nat, fuel: nat)
    requires fuel > 0 && script != [] && script[0].Raised?
    decreases fuel, 0
    ensures SleepsRetry(Listen(l, script, cursor, calls, fuel).events)
  {
    var poll := Polled(PollSegments(l, cursor));
    ListenSleepsRetry(l, script[1..], cursor, calls, fuel - 1);
    ListenOnRaised(l, script, cursor, calls, fuel);
    SleepsRetryAppend([poll, Slept], Listen(l, script[1..], cursor, calls, fuel - 1).events);
  }

  lemma {:induction false} EmptySleepsRetry(l: Listener, script: seq<PollOutcome>, cursor: Value, calls: nat, fuel: nat)
    requires fuel > 0 && script != [] && script[0].Response? && Count(script[0].messages) == 0
    decreases fuel, 0
    ensures SleepsRetry(Listen(l, script, cursor, calls, fuel).events)
  {
    var next := script[0].next;
    ListenSleepsRetry(l, script[1..], next, calls, fuel - 1);
    ListenOnEmpty(l, script, cursor, calls, fuel);
    SleepsRetryAppend([Polled(PollSegments(l, cursor))], Listen(l, script[1..], next, calls, fuel - 1).events);
  }

  lemma {:induction false} BatchSleepsRetry(l: Listener, script: seq<PollOutcome>, cursor: Value, calls: nat, fuel: nat)
    requires fuel > 0 && script != [] && script[0].Response? && Count(script[0].messages) != 0
    decreases fuel, 0
    ensures SleepsRetry(Listen(l, script, cursor, calls, fuel).events)
  {
    var next := script[0].next;
    var batch := Elements(script[0].messages);
    DeliverSleepsRetry(l, batch, script[1..], next, calls, fuel - 1);
    ListenOnBatch(l, script, cursor, calls, fuel);
    SleepsRetryAppend([Polled(PollSegments(l, cursor))], Deliver(l, batch, script[1..], next, calls, fuel - 1).events);
  }

  lemma {:induction false} DeliverSleepsRetry(l: Listener, batch: seq<Value>, script: seq<PollOutcome>,
                                              cursor: Value, calls: nat, fuel: nat)
    decreases fuel, |batch| + 2
    ensures var r := Deliver(l, batch, script, cursor, calls, fuel);
      SleepsRetry(r.events) && (r.events != [] ==> !r.events[0].Slept?)
  {
    if batch == [] {
      ListenSleepsRetry(l, script, cursor, calls, fuel);
    } else {
      var got := Delivered(batch[0]);
      var reply := l.callback(calls, batch[0]);
      if reply.Threw? {
        ListenSleepsRetry(l, script, cursor, calls + 1, fuel);
        DeliverOnThrew(l, batch, script, cursor, calls, fuel);
        SleepsRetryAppend([got, Slept], Listen(l, script, cursor, calls + 1, fuel).events);
      } else if Falsy(reply.value) {
        DeliverOnRefused(l, batch, script, cursor, calls, fuel);
      } else {
        DeliverSleepsRetry(l, batch[1..], script, cursor, calls + 1, fuel);
        DeliverOnAccepted(l, batch, script, cursor, calls, fuel);
        SleepsRetryAppend([got], Deliver(l, batch[1..], script, cursor, calls + 1, fuel).events);
      }
    }
  }

  /** No poll of the script raises. */
  predicate NeverRaises(script: seq<PollOutcome>) {
    forall k :: 0 <= k < |script| ==> !script[k].Raised?
  }

  /** The callback never raises. */
  ghost predicate NeverThrows(l: Listener) {
    forall n: nat, m: Value :: !l.callback(n, m).Threw?
  }

  lemma NoSleepPrepend(head: seq<Event>, r: Run)
    requires Slept !in head && Slept !in r.events
    ensures Slept !in Prepend(head, r).events
  {
  }

  /** Without an exception there is no sleep: an empty or failed poll is
      followed at once by the next request. */
  lemma {:induction false} ListenQuiet(l: Listener, script: seq<PollOutcome>, cursor: Value, calls: nat, fuel: nat)
    requires NeverRaises(script) && NeverThrows(l)
    decreases fuel, 1
    ensures Slept !in Listen(l, script, cursor, calls, fuel).events
  {
    if fuel > 0 && script != [] {
      var poll := Polled(PollSegments(l, cursor));
      assert !script[0].Raised?;
      assert NeverRaises(script[1..]) by {
        forall k | 0 <= k < |script| - 1 ensures !script[1..][k].Raised? {
          assert script[1..][k] == script[k + 1];
        }
      }
      var next := script[0].next;
      if Count(script[0].messages) == 0 {
        ListenQuiet(l, script[1..], next, calls, fuel - 1);
        ListenOnEmpty(l, script, cursor, calls, fuel);
        NoSleepPrepend([poll], Listen(l, script[1..], next, calls, fuel - 1));
      } else {
        var batch := Elements(script[0].messages);
        DeliverQuiet(l, batch, script[1..], next, calls, fuel - 1);
        ListenOnBatch(l, script, cursor, calls, fuel);
        NoSleepPrepend([poll], Deliver(l, batch, script[1..], next, calls, fuel - 1));
      }
    }
  }

  lemma {:induction false} DeliverQuiet(l: Listener, batch: seq<Value>, script: seq<PollOutcome>, cursor: Value,
                                        calls: nat, fuel: nat)
    requires NeverRaises(script) && NeverThrows(l)
    decreases fuel, |batch| + 2
    ensures Slept !in Deliver(l, batch, script, cursor, calls, fuel).events
  {
    if batch == [] {
      ListenQuiet(l, script, cursor, calls, fuel);
    } else {
      var reply := l.callback(calls, batch[0]);
      assert !reply.Threw?;
      if Falsy(reply.value) {
        DeliverOnRefused(l, batch, script, cursor, calls, fuel);
      } else {
        DeliverQuiet(l, batch[1..], script, cursor, calls + 1, fuel);
        DeliverOnAccepted(l, batch, script, cursor, calls, fuel);
        NoSleepPrepend([Delivered(batch[0])], Deliver(l, batch[1..], script, cursor, calls + 1, fuel));
      }
    }
  }

  /** An empty batch re-polls at once with the new cursor; a batch of two
      messages that the callback accepts reaches it in order, and the run
      goes on from the cursor of the second response. */
  lemma EmptyBatchThenTwoMessages(l: Listener, t1: Value, t2: Value, a: Value, b: Value,
                                  rest: seq<PollOutcome>, fuel: nat)
    requires Accepts(l.callback(0, a)) && Accepts(l.callback(1, b))
    ensures
      Listen(l, [Response(Arr([]), t1), Response(Arr([a, b]), t2)] + rest, Null, 0, fuel + 2)
        == Prepend([Polled(PollSegments(l, Null)), Polled(PollSegments(l, t1)), Delivered(a), Delivered(b)],
                   Listen(l, rest, t2, 2, fuel))
  {
    var script := [Response(Arr([]), t1), Response(Arr([a, b]), t2)] + rest;
    assert script[1..] == [Response(Arr([a, b]), t2)] + rest;
    BatchOfTwo(l, t1, t2, a, b, rest, fuel);
    ListenOnEmpty(l, script, Null, 0, fuel + 2);
    PrependTwice([Polled(PollSegments(l, Null))], [Polled(PollSegments(l, t1)), Delivered(a), Delivered(b)],
                 Listen(l, rest, t2, 2, fuel));
  }

  lemma BatchOfTwo(l: Listener, t1: Value, t2: Value, a: Value, b: Value, rest: seq<PollOutcome>, fuel: nat)
    requires Accepts(l.callback(0, a)) && Accepts(l.callback(1, b))
    ensures Listen(l, [Response(Arr([a, b]), t2)] + rest, t1, 0, fuel + 1)
         == Prepend([Polled(PollSegments(l, t1)), Delivered(a), Delivered(b)], Listen(l, rest, t2, 2, fuel))
  {
    var script := [Response(Arr([a, b]), t2)] + rest;
    assert script[1..] == rest;
    TwoAccepted(l, a, b, rest, t2, 0, fuel);
    ListenOnBatch(l, script, t1, 0, fuel + 1);
    PrependTwice([Polled(PollSegments(l, t1))], [Delivered(a), Delivered(b)], Listen(l, rest, t2, 2, fuel));
  }

  /** Two accepted messages in a row are both delivered. */
  lemma TwoAccepted(l: Listener, a: Value, b: Value, script: seq<PollOutcome>, cursor: Value, calls: nat, fuel: nat)
    requires Accepts(l.callback(calls, a)) && Accepts(l.callback(calls + 1, b))
    ensures Deliver(l, [a, b], script, cursor, calls, fuel)
         == Prepend([Delivered(a), Delivered(b)], Listen(l, script, cursor, calls + 2, fuel))
  {
    var last := Listen(l, script, cursor, calls + 2, fuel);
    DeliverOnAccepted(l, [b], script, cursor, calls + 1, fuel);
    assert [b][1..] == [];
    DeliverOnAccepted(l, [a, b], script, cursor, calls, fuel);
    assert [a, b][1..] == [b];
    PrependTwice([Delivered(a)], [Delivered(b)], last);
  }

  /** A callback that refuses the first message of a batch: the second is
      never dispatched and no further request is issued. */
  lemma StopOnFirstMessage(cfg: Settings, channel: Bytes, later: PollOutcome)
    ensures
      var l := Listener(cfg, channel, (n: nat, m: Value) => Returned(Bool(m != Str("a"))));
      var script := [Response(Arr([Str("a"), Str("b")]), Str("2")), later];
      Listen(l, script, Null, 0, 2) == Run([Polled(PollSegments(l, Null)), Delivered(Str("a"))], Stopped)
  {
  }

  /** A failed fetch decodes to null: the batch is empty, the cursor becomes
      null, and the next request asks for "0" at once, without a sleep. */
  lemma FailedFetchRestartsFromZero(l: Listener, cursor: Value, later: PollOutcome)
    ensures
      var r := Listen(l, [Response(Null, Null), later], cursor, 0, 2);
      && |r.events| >= 2
      && r.events[..2] == [Polled(PollSegments(l, cursor)), Polled(PollSegments(l, Null))]
      && PollSegments(l, Null)[4] == "0"
  {
    assert [Response(Null, Null), later][1..] == [later];
  }

  /** An exception sleeps once and retries with the very same cursor. */
  lemma RaisedRetriesSameCursor(l: Listener, cursor: Value, later: PollOutcome)
    ensures
      var r := Listen(l, [Raised, later], cursor, 0, 2);
      && |r.events| >= 3
      && r.events[..3] == [Polled(PollSegments(l, cursor)), Slept, Polled(PollSegments(l, cursor))]
  {
    assert [Raised, later][1..] == [later];
  }
}
