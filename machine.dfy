/** The pipeline's state and its transitions, as the event handlers,
    `handleBuffer` and `sendValue` perform them. */
module Machine {
  import opened Optional
  import opened Delivery

  /** The module-level variables of the program: the pending lines, whether
      the broker link is up, whether a delivery loop is running, and whether
      the buffer-handling interval is installed. */
  datatype State = State(dataBuffer: seq<string>, connected: bool, sending: bool, intervalActive: bool)

  const Initial: State := State([], false, false, false)

  /** The `connect` handler. */
  function Connect(s: State): (r: State)
    ensures r.connected && r.intervalActive
    ensures r.dataBuffer == s.dataBuffer && r.sending == s.sending
  {
    s.(connected := true, intervalActive := true)
  }

  /** The `reconnect`, `close` and `offline` handlers, which are identical. */
  function Disconnect(s: State): (r: State)
    ensures !r.connected && !r.intervalActive
    ensures r.dataBuffer == s.dataBuffer && r.sending == s.sending
  {
    s.(connected := false, intervalActive := false)
  }

  /** Lines pushed onto the buffer by the file watcher or the bulk loader. */
  function Ingest(s: State, lines: seq<string>): (r: State)
    ensures s.dataBuffer <= r.dataBuffer && r.dataBuffer[|s.dataBuffer|..] == lines
    ensures r.connected == s.connected && r.sending == s.sending && r.intervalActive == s.intervalActive
  {
    s.(dataBuffer := s.dataBuffer + lines)
  }

  /** What `handleBuffer` did: returned early, or swapped the buffer out. */
  datatype Swap = Skipped | Swapped(batch: seq<string>)

  datatype Handled = Handled(next: State, swap: Swap)

  /** `handleBuffer` up to its call of `sendValue`. */
  function HandleBuffer(s: State): (r: Handled)
    ensures r.swap.Skipped? <==> !s.connected || s.sending
    ensures r.swap.Skipped? ==> r.next == s
    ensures r.swap.Swapped? ==>
              r.swap.batch == s.dataBuffer && r.next.dataBuffer == [] && r.next.sending
              && r.next.connected == s.connected && r.next.intervalActive == s.intervalActive
  {
    if !s.connected || s.sending then Handled(s, Skipped)
    else Handled(s.(sending := true, dataBuffer := []), Swapped(s.dataBuffer))
  }

  /** The outcome of one `sendValue` call. */
  datatype Step =
    | Requeued                                     // disconnected: values pushed back
    | Drained                                      // nothing left: loop finished
    | Published(payload: Payload, rest: seq<string>) // one message handed to the client

  datatype Sent = Sent(next: State, step: Step)

  /** One `sendValue(values)` call at time `now`. */
  function SendValue(s: State, values: seq<string>, now: int): (r: Sent)
    ensures r.step == Requeued <==> !s.connected
    ensures r.step == Requeued ==>
              r.next.dataBuffer == s.dataBuffer + values && r.next.sending == s.sending
              && r.next.connected == s.connected && r.next.intervalActive == s.intervalActive
    ensures r.step == Drained <==> s.connected && values == []
    ensures r.step == Drained ==> r.next == s.(sending := false)
    ensures r.step.Published? ==>
              r.next == s && r.step.payload.timestamp == now
              && 1 <= |r.step.payload.data| <= MaxObjCount
              && (r.step.rest != [] ==> |r.step.payload.data| == MaxObjCount)
              && r.step.payload.data + r.step.rest == values
  {
    if !s.connected then Sent(s.(dataBuffer := s.dataBuffer + values), Requeued)
    else
      var snd := values[..ChunkEnd(values)];
      if |snd| == 0 then Sent(s.(sending := false), Drained)
      else
        var rest := values[ChunkEnd(values)..];
        assert snd + rest == values;
        Sent(s, Published(Payload(now, snd), rest))
  }

  datatype Ticked = Ticked(next: State, started: Option<Step>)

  /** One run of `handleBuffer`, including the first `sendValue` step it
      starts when the swapped-out batch is not empty. */
  function Tick(s: State, now: int): (r: Ticked)
    ensures !s.connected || s.sending ==> r == Ticked(s, None)
    ensures s.connected && !s.sending && s.dataBuffer == [] ==> r == Ticked(s.(sending := true), None)
    ensures s.connected && !s.sending && s.dataBuffer != [] ==>
              r.next == s.(sending := true, dataBuffer := [])
              && r.started.Some? && r.started.value.Published?
              && r.started.value.payload.data + r.started.value.rest == s.dataBuffer
  {
    var h := HandleBuffer(s);
    if h.swap.Swapped? && h.swap.batch != [] then
      var sent := SendValue(h.next, h.swap.batch, now);
      Ticked(sent.next, Some(sent.step))
    else Ticked(h.next, None)
  }

  /** A published step sends the first chunk of its values and leaves the
      remaining chunks for the steps after it. */
  lemma PublishedIsFirstChunk(s: State, values: seq<string>, now: int)
    requires SendValue(s, values, now).step.Published?
    ensures var step := SendValue(s, values, now).step;
            Chunks(values) == [step.payload.data] + Chunks(step.rest)
  {
    var step := SendValue(s, values, now).step;
    assert step.payload.data == values[..ChunkEnd(values)];
  }
}
