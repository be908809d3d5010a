/** The pipeline together with the event loop that drives it. Besides the
    program's variables, the event loop holds at most one continuation of the
    delivery loop: a publish waiting for its callback, or the 200 ms timeout
    before the next `sendValue`. Every callback the program registers is an
    event here, so runs of events can be reasoned about as a whole. */
module Scheduling {
  import opened Optional
  import opened Delivery
  import opened Machine

  /** The pending continuation of the delivery loop, if any. */
  datatype Flight =
    | Idle
    | AwaitingAck(payload: Payload, rest: seq<string>) // publish issued, callback pending
    | Paced(rest: seq<string>)                         // `setTimeout(() => sendValue(rest), 200)`

  /** The program state, the pending continuation, the messages the broker
      acknowledged, and lines the delivery loop abandoned. */
  datatype World = World(state: State, flight: Flight, acked: seq<Payload>, dropped: seq<string>)

  const Start: World := World(Initial, Idle, [], [])

  datatype Event =
    | LinkUp                          // client `connect`
    | LinkDown                        // client `reconnect`, `close` or `offline`
    | LinesRead(lines: seq<string>)   // a file-change callback or `sendFile` pushed these
    | IntervalFired(now: int)         // the interval ran `handleBuffer`
    | PublishDone(ok: bool, now: int) // the publish callback ran
    | PacingDone(now: int)            // the timeout ran `sendValue(rest)`

  /** Lines an event brings into the pipeline. */
  function Incoming(e: Event): seq<string>
  {
    if e.LinesRead? then e.lines else []
  }

  function IncomingAll(es: seq<Event>): seq<string>
  {
    if es == [] then [] else Incoming(es[0]) + IncomingAll(es[1..])
  }

  /** Install the continuation a `sendValue` step leaves behind. */
  function AfterStep(w: World, sent: Sent): World
  {
    match sent.step
    case Published(p, rest) => w.(state := sent.next, flight := AwaitingAck(p, rest))
    case _ => w.(state := sent.next, flight := Idle)
  }

  /** One event, as the program handles it. A failed publish calls
      `sendValue` on an identifier that does not exist, so the loop ends
      there: its lines are abandoned and `sending` stays set. */
  function Apply(w: World, e: Event): World
  {
    match e
    case LinkUp => w.(state := Connect(w.state))
    case LinkDown => w.(state := Disconnect(w.state))
    case LinesRead(lines) => w.(state := Ingest(w.state, lines))
    case IntervalFired(now) =>
      if !w.state.intervalActive then w
      else
        var t := Tick(w.state, now);
        if t.started.Some? then AfterStep(w, Sent(t.next, t.started.value))
        else w.(state := t.next)
    case PublishDone(ok, now) =>
      if !w.flight.AwaitingAck? then w
      else if ok then w.(acked := w.acked + [w.flight.payload], flight := Paced(w.flight.rest))
      else w.(dropped := w.dropped + w.flight.payload.data + w.flight.rest, flight := Idle)
    case PacingDone(now) =>
      if !w.flight.Paced? then w
      else AfterStep(w, SendValue(w.state, w.flight.rest, now))
  }

  function Run(w: World, es: seq<Event>): World
    decreases |es|
  {
    if es == [] then w else Run(Apply(w, es[0]), es[1..])
  }

  /** The lines of a sequence of messages, in order. */
  function DataOf(ps: seq<Payload>): seq<string>
  {
    if ps == [] then [] else ps[0].data + DataOf(ps[1..])
  }

  /** Lines held by the pending continuation. */
  function InFlight(f: Flight): seq<string>
  {
    match f
    case Idle => []
    case AwaitingAck(p, rest) => p.data + rest
    case Paced(rest) => rest
  }

  /** Every line not abandoned, in delivery order: acknowledged, in flight,
      still buffered. */
  function Stream(w: World): seq<string>
  {
    DataOf(w.acked) + InFlight(w.flight) + w.state.dataBuffer
  }

  /** What the program keeps true: a continuation exists only while `sending`
      is set, and the interval is installed exactly while the link is up. */
  ghost predicate Inv(w: World)
  {
    (w.flight != Idle ==> w.state.sending) && w.state.connected == w.state.intervalActive
  }

  /** `sending` is set but no continuation exists, so nothing can clear it. */
  predicate Stalled(w: World)
  {
    w.state.sending && w.flight == Idle
  }

  /** The step that puts undelivered lines behind newer ones. */
  predicate Requeues(w: World, e: Event)
  {
    e.PacingDone? && w.flight.Paced? && !w.state.connected
  }

  /** The step that abandons lines. */
  predicate Fails(w: World, e: Event)
  {
    e.PublishDone? && !e.ok && w.flight.AwaitingAck?
  }

  lemma {:induction false} DataOfAppend(a: seq<Payload>, b: seq<Payload>)
    ensures DataOf(a + b) == DataOf(a) + DataOf(b)
    decreases |a|
  {
    if a == [] {
      assert a + b == b;
    } else {
      assert (a + b)[0] == a[0];
      assert (a + b)[1..] == a[1..] + b;
      DataOfAppend(a[1..], b);
    }
  }

  lemma DataOfSnoc(ps: seq<Payload>, p: Payload)
    ensures DataOf(ps + [p]) == DataOf(ps) + p.data
  {
    DataOfAppend(ps, [p]);
    assert DataOf([p]) == p.data + DataOf([]);
  }

  lemma {:induction false} RunAppend(w: World, a: seq<Event>, b: seq<Event>)
    ensures Run(w, a + b) == Run(Run(w, a), b)
    decreases |a|
  {
    if a == [] {
      assert a + b == b;
    } else {
      assert (a + b)[0] == a[0];
      assert (a + b)[1..] == a[1..] + b;
      RunAppend(Apply(w, a[0]), a[1..], b);
    }
  }

  lemma RunTwo(w: World, a: Event, b: Event)
    ensures Run(w, [a, b]) == Apply(Apply(w, a), b)
  {
    var w1 := Apply(w, a);
    assert [a, b][0] == a && [a, b][1..] == [b];
    assert Run(w, [a, b]) == Run(w1, [b]);
    assert [b][0] == b && [b][1..] == [];
    assert Run(w1, [b]) == Run(Apply(w1, b), []);
  }

  lemma IncomingAllCons(e: Event, es: seq<Event>)
    ensures IncomingAll([e] + es) == Incoming(e) + IncomingAll(es)
  {
    assert ([e] + es)[0] == e;
    assert ([e] + es)[1..] == es;
  }

  /** The program starts in a state that satisfies the invariant. */
  lemma StartIsValid()
    ensures Inv(Start) && Stream(Start) == [] && !Stalled(Start)
  {
  }

  /** Every event keeps the invariant. */
  lemma ApplyKeepsInv(w: World, e: Event)
    requires Inv(w)
    ensures Inv(Apply(w, e))
  {
  }

  /** Single flight: while a delivery loop is pending, the interval does not
      start a second one and changes nothing at all. */
  lemma SingleFlight(w: World, now: int)
    requires Inv(w) && w.flight != Idle
    ensures Apply(w, IntervalFired(now)) == w
  {
  }

  /** The interval keeps the delivery order: the swapped-out batch becomes
      the continuation's lines. */
  lemma IntervalKeepsOrder(w: World, now: int)
    requires Inv(w)
    ensures Stream(Apply(w, IntervalFired(now))) == Stream(w)
    ensures Apply(w, IntervalFired(now)).dropped == w.dropped
  {
    var w' := Apply(w, IntervalFired(now));
    if w.state.intervalActive && w.state.connected && !w.state.sending && w.state.dataBuffer != [] {
      var t := Tick(w.state, now);
      var p := t.started.value.payload;
      assert w' == w.(state := t.next, flight := AwaitingAck(p, t.started.value.rest));
      assert Stream(w') == DataOf(w.acked) + (p.data + t.started.value.rest) + [];
    } else {
      assert w'.flight == w.flight && w'.acked == w.acked;
      assert w'.state.dataBuffer == w.state.dataBuffer;
    }
  }

  /** An acknowledged publish moves its chunk from in flight to acknowledged. */
  lemma AckKeepsOrder(w: World, now: int)
    ensures Stream(Apply(w, PublishDone(true, now))) == Stream(w)
    ensures Apply(w, PublishDone(true, now)).dropped == w.dropped
  {
    if w.flight.AwaitingAck? {
      DataOfSnoc(w.acked, w.flight.payload);
    }
  }

  /** The pacing timeout over a live link keeps the delivery order. */
  lemma PacingKeepsOrder(w: World, now: int)
    requires !Requeues(w, PacingDone(now))
    ensures Stream(Apply(w, PacingDone(now))) == Stream(w)
    ensures Apply(w, PacingDone(now)).dropped == w.dropped
  {
    if w.flight.Paced? {
      var sent := SendValue(w.state, w.flight.rest, now);
      if sent.step.Published? {
        assert InFlight(AfterStep(w, sent).flight) == w.flight.rest;
      }
    }
  }

  /** Except when it requeues or a publish fails, every event keeps the
      delivery order: acknowledged, then in flight, then buffered lines, with
      newly read lines at the end. */
  lemma ApplyKeepsOrder(w: World, e: Event)
    requires Inv(w) && !Requeues(w, e) && !Fails(w, e)
    ensures Stream(Apply(w, e)) == Stream(w) + Incoming(e)
    ensures Apply(w, e).dropped == w.dropped
  {
    match e
    case LinesRead(lines) =>
      assert Stream(Apply(w, e)) == DataOf(w.acked) + InFlight(w.flight) + (w.state.dataBuffer + lines);
    case IntervalFired(now) => IntervalKeepsOrder(w, now);
    case PublishDone(ok, now) => if ok { AckKeepsOrder(w, now); }
    case PacingDone(now) => PacingKeepsOrder(w, now);
    case LinkUp =>
    case LinkDown =>
  }

  /** The requeue step moves the undelivered lines behind the buffer. */
  lemma RequeueConserves(w: World, now: int)
    requires Inv(w) && Requeues(w, PacingDone(now))
    ensures multiset(Stream(Apply(w, PacingDone(now))) + Apply(w, PacingDone(now)).dropped)
            == multiset(Stream(w) + w.dropped)
  {
    var w' := Apply(w, PacingDone(now));
    var rest := w.flight.rest;
    assert w' == w.(state := w.state.(dataBuffer := w.state.dataBuffer + rest), flight := Idle);
    assert Stream(w') == DataOf(w.acked) + [] + (w.state.dataBuffer + rest);
    assert Stream(w) == DataOf(w.acked) + rest + w.state.dataBuffer;
  }

  /** The failure step moves the chunk and the rest to the abandoned lines. */
  lemma FailureConserves(w: World, now: int)
    requires Inv(w) && Fails(w, PublishDone(false, now))
    ensures multiset(Stream(Apply(w, PublishDone(false, now))) + Apply(w, PublishDone(false, now)).dropped)
            == multiset(Stream(w) + w.dropped)
  {
    var w' := Apply(w, PublishDone(false, now));
    var lost := w.flight.payload.data + w.flight.rest;
    assert w' == w.(dropped := w.dropped + lost, flight := Idle);
    assert Stream(w') == DataOf(w.acked) + [] + w.state.dataBuffer;
    assert Stream(w) == DataOf(w.acked) + lost + w.state.dataBuffer;
  }

  /** No event loses or duplicates a line: every line read is acknowledged,
      in flight, buffered or abandoned, exactly as often as it was read. */
  lemma ApplyConserves(w: World, e: Event)
    requires Inv(w)
    ensures multiset(Stream(Apply(w, e)) + Apply(w, e).dropped)
            == multiset(Stream(w) + w.dropped) + multiset(Incoming(e))
  {
    if Requeues(w, e) {
      RequeueConserves(w, e.now);
    } else if Fails(w, e) {
      FailureConserves(w, e.now);
    } else {
      ApplyKeepsOrder(w, e);
      var w' := Apply(w, e);
      assert Stream(w') + w'.dropped == Stream(w) + Incoming(e) + w.dropped;
    }
  }

  /** Over any run from a valid world, lines read are conserved. */
  lemma {:induction false} RunConserves(w: World, es: seq<Event>)
    requires Inv(w)
    ensures Inv(Run(w, es))
    ensures multiset(Stream(Run(w, es)) + Run(w, es).dropped)
            == multiset(Stream(w) + w.dropped) + multiset(IncomingAll(es))
    decreases |es|
  {
    if es != [] {
      ApplyKeepsInv(w, es[0]);
      ApplyConserves(w, es[0]);
      RunConserves(Apply(w, es[0]), es[1..]);
      IncomingAllCons(es[0], es[1..]);
      assert [es[0]] + es[1..] == es;
    }
  }

  /** One event on a stalled pipeline leaves it stalled and only buffers. */
  lemma StalledStep(w: World, e: Event)
    requires Stalled(w)
    ensures StalledAfter(w, Apply(w, e), Incoming(e))
  {
    match e
    case LinesRead(lines) =>
    case _ => assert Incoming(e) == [];
  }

  /** `later` is still stalled, has published and dropped nothing since `w`,
      and has buffered exactly `added` on top of `w`'s buffer. */
  predicate StalledAfter(w: World, later: World, added: seq<string>)
  {
    Stalled(later) && later.acked == w.acked && later.dropped == w.dropped
    && later.state.dataBuffer == w.state.dataBuffer + added
  }

  lemma StalledAfterTrans(w: World, w1: World, r: World, a: seq<string>, b: seq<string>)
    requires StalledAfter(w, w1, a) && StalledAfter(w1, r, b)
    ensures StalledAfter(w, r, a + b)
  {
  }

  /** A stalled pipeline stays stalled whatever happens: no message is ever
      published again, and every line read afterwards piles up in the
      buffer. */
  lemma {:induction false} StalledForever(w: World, es: seq<Event>)
    requires Stalled(w)
    ensures StalledAfter(w, Run(w, es), IncomingAll(es))
    decreases |es|
  {
    if es == [] {
      assert w.state.dataBuffer + [] == w.state.dataBuffer;
    } else {
      var e, more := es[0], es[1..];
      var w1 := Apply(w, e);
      StalledStep(w, e);
      StalledForever(w1, more);
      StalledAfterTrans(w, w1, Run(w1, more), Incoming(e), IncomingAll(more));
      assert Run(w, es) == Run(w1, more);
      assert IncomingAll(es) == Incoming(e) + IncomingAll(more);
    }
  }

  /** The interval firing while the link is up and the buffer is empty sets
      `sending` without starting a loop: the pipeline is stalled. */
  lemma EmptyTickStalls(w: World, now: int)
    requires Inv(w) && w.state.connected && !w.state.sending && w.state.dataBuffer == []
    ensures Stalled(Apply(w, IntervalFired(now)))
  {
  }

  /** The link dropping while the loop waits out its pacing delay requeues
      the undelivered lines behind the buffer and leaves `sending` set: the
      pipeline is stalled, also after the link comes back. */
  lemma DisconnectWhilePacedStalls(w: World, now: int)
    requires Inv(w) && w.flight.Paced? && !w.state.connected
    ensures Stalled(Apply(w, PacingDone(now)))
    ensures Apply(w, PacingDone(now)).state.dataBuffer == w.state.dataBuffer + w.flight.rest
  {
  }

  /** A requeue after newer lines were read puts those newer lines first. */
  lemma RequeueReorders()
    ensures var w := World(State(["c"], false, true, false), Paced(["b"]), [], []);
            Stream(w) == ["b", "c"] && Stream(Apply(w, PacingDone(0))) == ["c", "b"]
  {
    var w := World(State(["c"], false, true, false), Paced(["b"]), [], []);
    assert Stream(w) == [] + ["b"] + ["c"];
    assert Stream(Apply(w, PacingDone(0))) == [] + [] + (["c"] + ["b"]);
  }

  // ---------------------------------------------------------------------
  // The corrected pipeline: an empty batch does not set
  // `sending`, a requeue clears `sending` and puts the lines back in front,
  // and a failed publish retries the same chunk.

  /** `handleBuffer` that does nothing when there is nothing to send. */
  function TickFixed(s: State, now: int): (r: Ticked)
    ensures s.connected && !s.sending && s.dataBuffer != [] ==> r == Tick(s, now)
    ensures !(s.connected && !s.sending && s.dataBuffer != []) ==> r == Ticked(s, None)
  {
    if !s.connected || s.sending || s.dataBuffer == [] then Ticked(s, None)
    else Tick(s, now)
  }

  /** `sendValue` that requeues in front and ends the loop. */
  function SendValueFixed(s: State, values: seq<string>, now: int): (r: Sent)
    ensures !s.connected ==> r == Sent(s.(dataBuffer := values + s.dataBuffer, sending := false), Requeued)
    ensures s.connected ==> r == SendValue(s, values, now)
  {
    if !s.connected then Sent(s.(dataBuffer := values + s.dataBuffer, sending := false), Requeued)
    else SendValue(s, values, now)
  }

  function ApplyFixed(w: World, e: Event): World
  {
    match e
    case LinkUp => w.(state := Connect(w.state))
    case LinkDown => w.(state := Disconnect(w.state))
    case LinesRead(lines) => w.(state := Ingest(w.state, lines))
    case IntervalFired(now) =>
      if !w.state.intervalActive then w
      else
        var t := TickFixed(w.state, now);
        if t.started.Some? then AfterStep(w, Sent(t.next, t.started.value))
        else w.(state := t.next)
    case PublishDone(ok, now) =>
      if !w.flight.AwaitingAck? then w
      else if ok then w.(acked := w.acked + [w.flight.payload], flight := Paced(w.flight.rest))
      else AfterStep(w, SendValueFixed(w.state, w.flight.payload.data + w.flight.rest, now))
    case PacingDone(now) =>
      if !w.flight.Paced? then w
      else AfterStep(w, SendValueFixed(w.state, w.flight.rest, now))
  }

  function RunFixed(w: World, es: seq<Event>): World
    decreases |es|
  {
    if es == [] then w else RunFixed(ApplyFixed(w, es[0]), es[1..])
  }

  /** The corrected invariant: `sending` is set exactly while a continuation
      is pending, so a pipeline can never stall. */
  ghost predicate FixedInv(w: World)
  {
    (w.state.sending <==> w.flight != Idle) && w.state.connected == w.state.intervalActive
  }

  lemma FixedInvNeverStalled(w: World)
    requires FixedInv(w)
    ensures !Stalled(w)
  {
  }

  /** Every event of the corrected pipeline keeps the corrected invariant. */
  lemma ApplyFixedKeepsInv(w: World, e: Event)
    requires FixedInv(w)
    ensures FixedInv(ApplyFixed(w, e))
  {
  }

  /** In the corrected pipeline a failed publish retries the same lines. */
  lemma FixedFailureKeepsOrder(w: World, now: int)
    requires w.flight.AwaitingAck?
    ensures Stream(ApplyFixed(w, PublishDone(false, now))) == Stream(w)
    ensures ApplyFixed(w, PublishDone(false, now)).dropped == w.dropped
  {
    var w' := ApplyFixed(w, PublishDone(false, now));
    var values := w.flight.payload.data + w.flight.rest;
    if !w.state.connected {
      assert Stream(w') == DataOf(w.acked) + [] + (values + w.state.dataBuffer);
    } else {
      var sent := SendValue(w.state, values, now);
      if sent.step.Published? {
        assert InFlight(w'.flight) == values;
      } else {
        assert values == [];
      }
    }
  }

  /** In the corrected pipeline the pacing timeout requeues in front or goes on. */
  lemma FixedPacingKeepsOrder(w: World, now: int)
    ensures Stream(ApplyFixed(w, PacingDone(now))) == Stream(w)
    ensures ApplyFixed(w, PacingDone(now)).dropped == w.dropped
  {
    var w' := ApplyFixed(w, PacingDone(now));
    if w.flight.Paced? {
      var rest := w.flight.rest;
      if !w.state.connected {
        assert Stream(w') == DataOf(w.acked) + [] + (rest + w.state.dataBuffer);
      } else {
        var sent := SendValue(w.state, rest, now);
        if sent.step.Published? {
          assert InFlight(w'.flight) == rest;
        }
      }
    }
  }

  /** In the corrected pipeline the interval fires exactly as in the
      original whenever it starts a delivery. */
  lemma FixedIntervalKeepsOrder(w: World, now: int)
    requires FixedInv(w)
    ensures Stream(ApplyFixed(w, IntervalFired(now))) == Stream(w)
    ensures ApplyFixed(w, IntervalFired(now)).dropped == w.dropped
  {
    if w.state.intervalActive && w.state.connected && !w.state.sending && w.state.dataBuffer != [] {
      assert ApplyFixed(w, IntervalFired(now)) == Apply(w, IntervalFired(now));
      IntervalKeepsOrder(w, now);
    }
  }

  /** In the corrected pipeline every event keeps the delivery order and
      abandons nothing, whether it requeues or retries. */
  lemma ApplyFixedKeepsOrder(w: World, e: Event)
    requires FixedInv(w)
    ensures Stream(ApplyFixed(w, e)) == Stream(w) + Incoming(e)
    ensures ApplyFixed(w, e).dropped == w.dropped
  {
    match e
    case LinesRead(lines) =>
      assert Stream(ApplyFixed(w, e)) == DataOf(w.acked) + InFlight(w.flight) + (w.state.dataBuffer + lines);
    case IntervalFired(now) => FixedIntervalKeepsOrder(w, now);
    case PublishDone(ok, now) =>
      if ok { AckFixedKeepsOrder(w, now); } else if w.flight.AwaitingAck? { FixedFailureKeepsOrder(w, now); }
    case PacingDone(now) => FixedPacingKeepsOrder(w, now);
    case LinkUp =>
    case LinkDown =>
  }

  /** In the corrected pipeline an acknowledgement is handled as in the original. */
  lemma AckFixedKeepsOrder(w: World, now: int)
    ensures Stream(ApplyFixed(w, PublishDone(true, now))) == Stream(w)
    ensures ApplyFixed(w, PublishDone(true, now)).dropped == w.dropped
  {
    assert ApplyFixed(w, PublishDone(true, now)) == Apply(w, PublishDone(true, now));
    AckKeepsOrder(w, now);
  }

  /** The corrected pipeline keeps its invariant over any run, so it never
      stalls. */
  lemma {:induction false} RunFixedKeepsInv(w: World, es: seq<Event>)
    requires FixedInv(w)
    ensures FixedInv(RunFixed(w, es)) && !Stalled(RunFixed(w, es))
    decreases |es|
  {
    if es != [] {
      var w1 := ApplyFixed(w, es[0]);
      assert RunFixed(w, es) == RunFixed(w1, es[1..]);
      ApplyFixedKeepsInv(w, es[0]);
      RunFixedKeepsInv(w1, es[1..]);
    } else {
      FixedInvNeverStalled(w);
    }
  }

  /** Over any run of the corrected pipeline, lines are delivered in the
      order they were read and none is abandoned. */
  lemma {:induction false} RunFixedKeepsOrder(w: World, es: seq<Event>)
    requires FixedInv(w)
    ensures Stream(RunFixed(w, es)) == Stream(w) + IncomingAll(es)
    ensures RunFixed(w, es).dropped == w.dropped
    decreases |es|
  {
    if es == [] {
      assert Stream(w) + [] == Stream(w);
    } else {
      var e, more := es[0], es[1..];
      var w1 := ApplyFixed(w, e);
      var r := RunFixed(w1, more);
      assert RunFixed(w, es) == r;
      assert FixedInv(w1) by { ApplyFixedKeepsInv(w, e); }
      assert Stream(w1) == Stream(w) + Incoming(e) && w1.dropped == w.dropped by {
        ApplyFixedKeepsOrder(w, e);
      }
      assert Stream(r) == Stream(w1) + IncomingAll(more) && r.dropped == w1.dropped by {
        RunFixedKeepsOrder(w1, more);
      }
      assert IncomingAll(es) == Incoming(e) + IncomingAll(more);
    }
  }

  /** In the corrected pipeline the interval starts a delivery whenever the
      link is up, no loop runs and lines are waiting. */
  lemma FixedTickPublishes(w: World, now: int)
    requires FixedInv(w) && w.state.connected && !w.state.sending && w.state.dataBuffer != []
    ensures ApplyFixed(w, IntervalFired(now)).flight.AwaitingAck?
  {
  }

  // ---------------------------------------------------------------------
  // A delivery in which every publish succeeds.

  /** The messages the chunks go out as, stamped with successive clock readings. */
  function Messages(chunks: seq<seq<string>>, times: seq<int>): (ps: seq<Payload>)
    requires |times| >= |chunks|
    ensures |ps| == |chunks|
  {
    if chunks == [] then [] else [Payload(times[0], chunks[0])] + Messages(chunks[1..], times[1..])
  }

  /** Message i carries chunk i and clock reading i. */
  lemma {:induction false} MessagesAt(chunks: seq<seq<string>>, times: seq<int>)
    requires |times| >= |chunks|
    ensures forall i :: 0 <= i < |chunks| ==> Messages(chunks, times)[i] == Payload(times[i], chunks[i])
    decreases |chunks|
  {
    if chunks != [] {
      MessagesAt(chunks[1..], times[1..]);
    }
  }

  /** The callbacks of a delivery of `values` in which every publish
      succeeds: each pacing timeout publishes, each publish is acknowledged,
      and a last timeout finds nothing left. */
  function AllAcked(values: seq<string>, times: seq<int>): seq<Event>
    decreases |times|
  {
    if times == [] then []
    else if values == [] then [PacingDone(times[0])]
    else [PacingDone(times[0]), PublishDone(true, times[0])] + AllAcked(values[ChunkEnd(values)..], times[1..])
  }

  /** The pacing timeout over a steady link publishes the next chunk. */
  lemma PacedStepPublishes(w: World, values: seq<string>, now: int)
    requires w.state.connected && w.flight == Paced(values) && values != []
    ensures Apply(w, PacingDone(now))
            == w.(flight := AwaitingAck(Payload(now, values[..ChunkEnd(values)]), values[ChunkEnd(values)..]))
  {
  }

  /** An acknowledged publish records the message and schedules the rest. */
  lemma AckStep(w: World, p: Payload, rest: seq<string>, now: int)
    requires w.flight == AwaitingAck(p, rest)
    ensures Apply(w, PublishDone(true, now)) == w.(acked := w.acked + [p], flight := Paced(rest))
  {
  }

  /** The last pacing timeout finds nothing left and ends the loop. */
  lemma PacedDeliveryEnds(w: World, now: int)
    requires w.state.connected && w.flight == Paced([])
    ensures Run(w, [PacingDone(now)]) == w.(state := w.state.(sending := false), flight := Idle)
  {
    var e := PacingDone(now);
    assert [e][0] == e && [e][1..] == [];
    assert Run(w, [e]) == Run(Apply(w, e), []);
  }

  /** One chunk published and acknowledged, then the rest of the run. */
  lemma PacedChunkThenRest(w: World, values: seq<string>, now: int, tail: seq<Event>)
    requires w.state.connected && w.flight == Paced(values) && values != []
    ensures var k := ChunkEnd(values);
            Run(w, [PacingDone(now), PublishDone(true, now)] + tail)
            == Run(w.(flight := Paced(values[k..]), acked := w.acked + [Payload(now, values[..k])]), tail)
  {
    var k := ChunkEnd(values);
    var p := Payload(now, values[..k]);
    PacedStepPublishes(w, values, now);
    var w1 := w.(flight := AwaitingAck(p, values[k..]));
    AckStep(w1, p, values[k..], now);
    RunAppend(w, [PacingDone(now), PublishDone(true, now)], tail);
    RunTwo(w, PacingDone(now), PublishDone(true, now));
  }

  lemma MessagesOfChunks(values: seq<string>, times: seq<int>)
    requires values != [] && |times| >= |Chunks(values)|
    ensures var k := ChunkEnd(values);
            Messages(Chunks(values), times)
            == [Payload(times[0], values[..k])] + Messages(Chunks(values[k..]), times[1..])
  {
    var k := ChunkEnd(values);
    assert Chunks(values) == [values[..k]] + Chunks(values[k..]);
    assert Chunks(values)[1..] == Chunks(values[k..]);
  }

  /** A paced delivery of `values` over a steady link publishes exactly the
      chunks of `values`, in order, then clears `sending`. */
  lemma {:induction false} PacedDeliveryPublishesChunks(w: World, values: seq<string>, times: seq<int>)
    requires w.state.connected && w.flight == Paced(values)
    requires |times| == |Chunks(values)| + 1
    ensures Run(w, AllAcked(values, times))
            == w.(state := w.state.(sending := false), flight := Idle,
                  acked := w.acked + Messages(Chunks(values), times))
    decreases |values|
  {
    if values == [] {
      assert AllAcked(values, times) == [PacingDone(times[0])];
      PacedDeliveryEnds(w, times[0]);
      assert w.acked + Messages([], times) == w.acked;
    } else {
      var k := ChunkEnd(values);
      var t := times[0];
      var p := Payload(t, values[..k]);
      var w2 := w.(flight := Paced(values[k..]), acked := w.acked + [p]);
      var tail := AllAcked(values[k..], times[1..]);
      var msgs := Messages(Chunks(values[k..]), times[1..]);
      assert Run(w, AllAcked(values, times)) == Run(w2, tail) by {
        assert AllAcked(values, times) == [PacingDone(t), PublishDone(true, t)] + tail;
        PacedChunkThenRest(w, values, t, tail);
      }
      assert Run(w2, tail) == w2.(state := w2.state.(sending := false), flight := Idle, acked := w2.acked + msgs) by {
        PacedDeliveryPublishesChunks(w2, values[k..], times[1..]);
      }
      assert w.acked + [p] + msgs == w.acked + Messages(Chunks(values), times) by {
        MessagesOfChunks(values, times);
      }
    }
  }

  /** The interval over a steady link with lines waiting swaps the buffer
      out and publishes its first chunk. */
  lemma TickStepPublishes(w: World, now: int)
    requires Inv(w) && w.state.connected && !w.state.sending && w.state.dataBuffer != []
    ensures var b := w.state.dataBuffer;
            Apply(w, IntervalFired(now))
            == w.(state := w.state.(dataBuffer := [], sending := true),
                  flight := AwaitingAck(Payload(now, b[..ChunkEnd(b)]), b[ChunkEnd(b)..]))
  {
  }

  /** A batch swapped out by the interval over a steady link with every
      publish succeeding goes out as ceil(n/10) messages of at most 10 lines,
      whose lines are the batch in order, stamped with the clock readings in
      order; then `sending` is cleared. */
  lemma BatchDeliveredInOrder(w: World, t0: int, times: seq<int>)
    requires Inv(w) && w.state.connected && !w.state.sending && w.state.dataBuffer != []
    requires |times| == |Chunks(w.state.dataBuffer)|
    ensures var batch := w.state.dataBuffer;
            var k := ChunkEnd(batch);
            var w' := Run(w, [IntervalFired(t0), PublishDone(true, t0)] + AllAcked(batch[k..], times));
            var sent := Messages(Chunks(batch), [t0] + times);
            w'.acked == w.acked + sent
            && |sent| == MessageCount(|batch|)
            && DataOf(sent) == batch
            && (forall i :: 0 <= i < |sent| ==> 1 <= |sent[i].data| <= MaxObjCount)
            && (forall i :: 0 <= i < |sent| ==> sent[i].timestamp == ([t0] + times)[i])
            && w'.state == w.state.(dataBuffer := [], sending := false)
            && w'.flight == Idle && w'.dropped == w.dropped
  {
    var batch := w.state.dataBuffer;
    var k := ChunkEnd(batch);
    var p := Payload(t0, batch[..k]);
    var w1 := w.(state := w.state.(dataBuffer := [], sending := true), flight := AwaitingAck(p, batch[k..]));
    TickStepPublishes(w, t0);
    AckStep(w1, p, batch[k..], t0);
    var w2 := w1.(acked := w.acked + [p], flight := Paced(batch[k..]));
    RunAppend(w, [IntervalFired(t0), PublishDone(true, t0)], AllAcked(batch[k..], times));
    RunTwo(w, IntervalFired(t0), PublishDone(true, t0));
    assert Chunks(batch) == [batch[..k]] + Chunks(batch[k..]);
    PacedDeliveryPublishesChunks(w2, batch[k..], times);
    var msgs := Messages(Chunks(batch), [t0] + times);
    assert msgs == [p] + Messages(Chunks(batch[k..]), times);
    var w' := Run(w, [IntervalFired(t0), PublishDone(true, t0)] + AllAcked(batch[k..], times));
    assert w'.acked == w.acked + msgs;
    ChunkShape(batch);
    FlattenChunks(batch);
    DataOfMessages(Chunks(batch), [t0] + times);
    MessagesAt(Chunks(batch), [t0] + times);
  }

  lemma {:induction false} DataOfMessages(chunks: seq<seq<string>>, times: seq<int>)
    requires |times| >= |chunks|
    ensures DataOf(Messages(chunks, times)) == Flatten(chunks)
    decreases |chunks|
  {
    if chunks != [] {
      DataOfMessages(chunks[1..], times[1..]);
    }
  }
}
