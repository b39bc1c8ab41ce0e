/** `DecodeStreamer` (esphome/components/nabu/media_player/streamer.cpp): the
    codec boundary of a pipeline. Its task copies bytes unchanged from its
    input ring buffer to its output ring buffer, as many as the output has room
    for, and stops immediately on STOP or once drained after STOP_GRACEFULLY. */
module DecodeStreamers {
  import opened Common
  import opened RingBuffers

  const BUFFER_SIZE: nat := 2048
  /** Both ring buffers hold `BUFFER_SIZE` 16-bit samples. */
  const RING_BUFFER_BYTES: nat := BUFFER_SIZE * 2

  /** The two ring buffers of a decoder, as sequences. */
  datatype Buffers = Buffers(input: seq<byte>, output: seq<byte>)

  /** One transfer of the decode loop: move as many bytes as the output has room
      for from the front of the input to the back of the output. */
  function Transfer(b: Buffers, outputCapacity: nat): (r: Buffers)
    requires |b.output| <= outputCapacity
    // nothing is lost, duplicated or reordered across the hop
    ensures r.output + r.input == b.output + b.input
    // the output only grows and never exceeds its capacity
    ensures |b.output| <= |r.output| <= outputCapacity
    // the hop stops only because the input is drained or the output is full
    ensures r.input == [] || |r.output| == outputCapacity
    ensures |r.output| - |b.output| == Min(outputCapacity - |b.output|, |b.input|)
  {
    var k := Min(outputCapacity - |b.output|, |b.input|);
    assert b.input[..k] + b.input[k..] == b.input;
    Buffers(b.input[k..], b.output + b.input[..k])
  }

  class DecodeStreamer {
    const input: RingBuffer
    const output: RingBuffer
    /** The task-local `stopping` flag set by STOP_GRACEFULLY. */
    var stopping: bool
    var task: TaskState
    var commands: seq<Command>
    var events: seq<Event>

    ghost predicate Valid()
      reads input, output
    {
      input != output && input.Valid() && output.Valid()
    }

    ghost function Contents(): Buffers
      reads this, input, output
    {
      Buffers(input.contents, output.contents)
    }

    constructor ()
      ensures Valid() && fresh(input) && fresh(output)
      ensures input.capacity == RING_BUFFER_BYTES && output.capacity == RING_BUFFER_BYTES
      ensures Contents() == Buffers([], []) && !stopping
      ensures task == NoTask && commands == [] && events == []
    {
      input := new RingBuffer(RING_BUFFER_BYTES);
      output := new RingBuffer(RING_BUFFER_BYTES);
      stopping := false;
      task := NoTask;
      commands := [];
      events := [];
    }

    /** `start(priority)`: creates the decode task unless one exists. */
    method Start()
      modifies this`task
      ensures task == if old(task) == NoTask then Created else old(task)
    {
      if task == NoTask {
        task := Created;
      }
    }

    method SendCommand(c: Command)
      modifies this`commands
      ensures commands == old(commands) + [c]
    {
      commands := commands + [c];
    }

    /** `input_free()`. */
    function InputFree(): (r: nat)
      reads this, input, output
      requires Valid()
    {
      input.Free()
    }

    /** `write(buffer, length)`: stores `min(length, free)` bytes in the input
        ring buffer, leaving it untouched when that is 0. */
    method Write(data: seq<byte>) returns (n: nat)
      requires Valid()
      modifies input
      ensures Valid()
      ensures n == Min(|data|, old(input.Free()))
      ensures input.contents == old(input.contents) + data[..n]
    {
      var freeBytes := input.Free();
      var bytesToWrite := Min(|data|, freeBytes);
      if bytesToWrite > 0 {
        n := input.Write(data[..bytesToWrite]);
      } else {
        n := 0;
      }
    }

    /** `reset_ring_buffers()`. */
    method ResetRingBuffers()
      requires Valid()
      modifies input, output
      ensures Valid() && Contents() == Buffers([], [])
    {
      input.Reset();
      output.Reset();
    }

    /** The prologue of `decode_task_`: a failed scratch-buffer allocation (`scratchOk` false) reports
        WARNING(no memory) and STOPPED and parks; otherwise STARTED. */
    method Launch(scratchOk: bool)
      requires task == Created
      modifies this`task, this`stopping, this`events
      ensures task == (if scratchOk then Looping else Parked)
      ensures events == old(events) + (if scratchOk then [Started] else [Warning(NoMem), Stopped])
      ensures scratchOk ==> !stopping
    {
      if !scratchOk {
        events := events + [Warning(NoMem), Stopped];
        task := Parked;
        return;
      }
      events := events + [Started];
      stopping := false;
      task := Looping;
    }

    /** The transfer half of one `decode_task_` iteration: move
        `min(output free, input available)` bytes, report RUNNING or IDLE, and
        say whether a graceful stop has drained both buffers. */
    method Decode() returns (drained: bool)
      requires Valid()
      modifies input, output, this`events
      ensures Valid()
      ensures Contents() == Transfer(old(Contents()), output.capacity)
      ensures var busy := input.contents != [] || output.contents != [];
        && events == old(events) + [if busy then Running else Idle]
        && drained == (stopping && !busy)
    {
      var bytesAvailable := input.Available();
      var bytesFree := output.Free();
      var bytesToRead := Min(bytesFree, bytesAvailable);
      var chunk: seq<byte> := [];
      if bytesToRead > 0 {
        chunk := input.Read(bytesToRead);
      }
      if |chunk| > 0 {
        var written := output.Write(chunk);
      }
      if input.Available() > 0 || output.Available() > 0 {
        events := events + [Running];
      } else {
        events := events + [Idle];
      }
      drained := stopping && input.Available() == 0 && output.Available() == 0;
    }

    /** One iteration of the `decode_task_` loop, followed by the task's exit
        path when the iteration breaks out of the loop. */
    method Step() returns (exit: bool)
      requires Valid() && task == Looping
      modifies this, input, output
      ensures Valid() && commands == Rest(old(commands))
      ensures task == (if exit then Parked else Looping)
      // STOP leaves the loop before any transfer; the exit path resets both buffers
      ensures Front(old(commands)) == Some(Command.Stop) ==>
        && exit && stopping == old(stopping)
        && Contents() == Buffers([], [])
        && events == old(events) + [Stopping, Stopped]
      ensures Front(old(commands)) != Some(Command.Stop) ==>
        var cmd := Front(old(commands));
        // START resets both buffers before the transfer
        var before := if cmd == Some(Command.Start) then Buffers([], []) else old(Contents());
        var after := Transfer(before, output.capacity);
        var busy := after.input != [] || after.output != [];
        && Contents() == after
        && stopping == (old(stopping) || cmd == Some(StopGracefully))
        // a graceful stop ends the loop only once both buffers are empty
        && exit == (stopping && !busy)
        && events == old(events) + [if busy then Running else Idle] + (if exit then [Stopping, Stopped] else [])
    {
      var cmd := Front(commands);
      commands := Rest(commands);
      exit := false;
      if cmd == Some(Command.Start) {
        ResetRingBuffers();
      } else if cmd == Some(Command.Stop) {
        exit := true;
      } else if cmd == Some(StopGracefully) {
        stopping := true;
      }
      if !exit {
        exit := Decode();
      }
      if exit {
        events := events + [Stopping];
        ResetRingBuffers();
        events := events + [Stopped];
        task := Parked;
      }
    }
  }
}
