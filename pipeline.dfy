/** The program's mutable state as one object whose methods are the event
    handlers, `sendFile`, `handleBuffer` and `sendValue`. Timers, the file
    watcher and publish acknowledgements are the callers of these methods. */
module App {
  import opened Optional
  import opened Text
  import opened FileWatch
  import opened Delivery
  import opened Machine

  class Pipeline {
    var dataBuffer: seq<string>
    var connected: bool
    var sending: bool
    var intervalActive: bool

    /** The fields as one value of the pure model. */
    function Snapshot(): State
      reads this
    {
      State(dataBuffer, connected, sending, intervalActive)
    }

    /** Start-up: an empty buffer, no link, no delivery, no interval. */
    constructor ()
      ensures Snapshot() == Initial
    {
      dataBuffer := [];
      connected := false;
      sending := false;
      intervalActive := false;
    }

    /** The `connect` handler: mark the link up and install the interval. */
    method OnConnect()
      modifies this
      ensures Snapshot() == Connect(old(Snapshot()))
    {
      connected := true;
      intervalActive := true;
    }

    /** The `reconnect`, `close` and `offline` handlers: mark the link down
      and clear the interval if one is installed. */
    method OnDisconnect()
      modifies this
      ensures Snapshot() == Disconnect(old(Snapshot()))
    {
      connected := false;
      if intervalActive {
        intervalActive := false;
      }
    }

    /** The file watcher's callback: read the changed range of `content` and
      push its non-empty lines. */
    method FileChanged(prevSize: nat, currSize: nat, content: string)
      modifies this
      ensures Snapshot() == Ingest(old(Snapshot()), NewLines(prevSize, currSize, content))
    {
      var range := RangeToRead(prevSize, currSize);
      var str := Region(content, range);
      var lines := Split(str);
      var i := 0;
      while i < |lines|
        invariant 0 <= i <= |lines|
        invariant dataBuffer == old(dataBuffer) + NonBlank(lines[..i])
        invariant connected == old(connected) && sending == old(sending)
        invariant intervalActive == old(intervalActive)
      {
        assert lines[..i + 1] == lines[..i] + [lines[i]];
        NonBlankAppend(lines[..i], [lines[i]]);
        if lines[i] != "" {
          dataBuffer := dataBuffer + [lines[i]];
        }
        i := i + 1;
      }
      assert lines[..i] == lines;
    }

    /** `sendFile`: push every newline-separated field of a whole file,
      empty ones included. */
    method SendFile(content: string)
      modifies this
      ensures Snapshot() == Ingest(old(Snapshot()), Split(content))
    {
      var lines := Split(content);
      var i := 0;
      while i < |lines|
        invariant 0 <= i <= |lines|
        invariant dataBuffer == old(dataBuffer) + lines[..i]
        invariant connected == old(connected) && sending == old(sending)
        invariant intervalActive == old(intervalActive)
      {
        assert lines[..i + 1] == lines[..i] + [lines[i]];
        dataBuffer := dataBuffer + [lines[i]];
        i := i + 1;
      }
      assert lines[..i] == lines;
    }

    /** `sendValue(values)` at time `now`: requeue when the link is down,
      finish when nothing is left, otherwise publish the first chunk and
      hand back the rest for the next step. */
    method SendStep(values: seq<string>, now: int) returns (step: Step)
      modifies this
      ensures Sent(Snapshot(), step) == SendValue(old(Snapshot()), values, now)
    {
      if !connected {
        var i := 0;
        while i < |values|
          invariant 0 <= i <= |values|
          invariant dataBuffer == old(dataBuffer) + values[..i]
          invariant connected == old(connected) && sending == old(sending)
          invariant intervalActive == old(intervalActive)
        {
          assert values[..i + 1] == values[..i] + [values[i]];
          dataBuffer := dataBuffer + [values[i]];
          i := i + 1;
        }
        assert values[..i] == values;
        return Requeued;
      }
      var sndValues := values[..ChunkEnd(values)];
      if |sndValues| == 0 {
        sending := false;
        return Drained;
      }
      var toSend := values[ChunkEnd(values)..];
      return Published(Payload(now, sndValues), toSend);
    }

    /** `handleBuffer` at time `now`: single-flight, gated on the link; swap
      the buffer for an empty one and start delivering the old contents. */
    method Tick(now: int) returns (started: Option<Step>)
      modifies this
      ensures Ticked(Snapshot(), started) == Machine.Tick(old(Snapshot()), now)
    {
      if !connected || sending {
        return None;
      }
      sending := true;
      var toSend := dataBuffer;
      dataBuffer := [];
      started := None;
      if |toSend| > 0 {
        var step := SendStep(toSend, now);
        started := Some(step);
      }
    }
  }
}
