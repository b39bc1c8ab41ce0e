/** `HTTPStreamer` (esphome/components/nabu/media_player/streamer.cpp): the
    reader of a pipeline. Its task owns one HTTP connection handle, fetches at
    most as many bytes as its output ring buffer has room for, closes the
    connection when the transfer is complete, and ends its loop by itself once
    the connection is closed and the buffer has drained. The `esp_http_client`
    calls are parameters: what `init`/`open`/`fetch_headers` report, what a
    read returns, and whether the transfer is complete. */
module HttpStreamers {
  import opened Common
  import opened RingBuffers

  const HTTP_BUFFER_SIZE: nat := 8192
  /** The output ring buffer holds `HTTP_BUFFER_SIZE` 16-bit samples. */
  const HTTP_RING_BUFFER_BYTES: nat := HTTP_BUFFER_SIZE * 2

  /** An open `esp_http_client_handle_t`, identified by the URI it was opened for. */
  datatype Connection = Connection(uri: string)

  /** What the client library reports while a connection is established:
      whether `esp_http_client_init` returned a handle, whether
      `esp_http_client_open` succeeded, and the content length
      `esp_http_client_fetch_headers` returned. */
  datatype ConnectReply = ConnectReply(initialised: bool, openOk: bool, contentLength: int)

  /** The result of `esp_http_client_read`: a non-negative count of bytes, or
      a negative error value. */
  datatype Received = Bytes(bytes: seq<byte>) | ReadError

  /** The connection `establish_connection_` leaves open. */
  predicate Opens(uri: string, reply: ConnectReply)
  {
    uri != [] && reply.initialised && reply.openOk && reply.contentLength > 0
  }

  function Handles(c: Option<Connection>): seq<Connection>
  {
    if c.Some? then [c.value] else []
  }

  /** The handles `establish_connection_` closes: the previous one first, then
      the new one when opening it or fetching its headers fails. */
  function EstablishCloses(previous: Option<Connection>, uri: string, reply: ConnectReply): seq<Connection>
  {
    Handles(previous) + (if uri != [] && reply.initialised && !Opens(uri, reply) then [Connection(uri)] else [])
  }

  class HTTPStreamer {
    const output: RingBuffer
    var currentUri: string
    /** The task-local `client` handle; `None` is `nullptr`. */
    var client: Option<Connection>
    /** Every handle passed to `esp_http_client_close`/`cleanup`, in order. */
    var closed: seq<Connection>
    var task: TaskState
    var commands: seq<Command>
    var events: seq<Event>

    ghost predicate Valid()
      reads output
    {
      output.Valid()
    }

    constructor ()
      ensures Valid() && fresh(output)
      ensures output.capacity == HTTP_RING_BUFFER_BYTES && output.contents == []
      ensures currentUri == [] && client == None && closed == []
      ensures task == NoTask && commands == [] && events == []
    {
      output := new RingBuffer(HTTP_RING_BUFFER_BYTES);
      currentUri := [];
      client := None;
      closed := [];
      task := NoTask;
      commands := [];
      events := [];
    }

    method SendCommand(c: Command)
      modifies this`commands
      ensures commands == old(commands) + [c]
    {
      commands := commands + [c];
    }

    /** `start(priority)`: creates the read task unless one exists, then queues START. */
    method Start()
      modifies this`task, this`commands
      ensures task == if old(task) == NoTask then Created else old(task)
      ensures commands == old(commands) + [Command.Start]
    {
      if task == NoTask {
        task := Created;
      }
      SendCommand(Command.Start);
    }

    /** `start(uri, priority)`: records the URI, then `start(priority)`. */
    method StartUri(uri: string)
      modifies this`currentUri, this`task, this`commands
      ensures currentUri == uri
      ensures task == if old(task) == NoTask then Created else old(task)
      ensures commands == old(commands) + [Command.Start]
    {
      currentUri := uri;
      Start();
    }

    /** `cleanup_connection_`: closes and frees a non-null handle; a no-op on
        a null one. The handle is null afterwards in both cases. */
    method CleanupConnection()
      modifies this`client, this`closed
      ensures client == None
      ensures closed == old(closed) + Handles(old(client))
    {
      if client.Some? {
        closed := closed + [client.value];
        client := None;
      }
    }

    /** `establish_connection_`: always closes the previous handle first; an
        empty URI, a failed open or a content length <= 0 leaves no connection. */
    method EstablishConnection(reply: ConnectReply)
      modifies this`client, this`closed
      ensures client == (if Opens(currentUri, reply) then Some(Connection(currentUri)) else None)
      ensures closed == old(closed) + EstablishCloses(old(client), currentUri, reply)
    {
      CleanupConnection();
      if currentUri == [] {
        return;
      }
      if reply.initialised {
        client := Some(Connection(currentUri));
      }
      // The source's null test looks at the address of the handle, which is
      // never null, so a handle that failed to initialise goes on to the open.
      // The model assumes that `esp_http_client_open` reports failure for a
      // null handle; the cleanup of a null handle does nothing.
      if !(reply.initialised && reply.openOk) {
        CleanupConnection();
        return;
      }
      if reply.contentLength <= 0 {
        CleanupConnection();
        return;
      }
    }

    /** `reset_ring_buffers()`. */
    method ResetRingBuffers()
      requires Valid()
      modifies output
      ensures Valid() && output.contents == []
    {
      output.Reset();
    }

    /** The prologue of `read_task_`. */
    method Launch(scratchOk: bool)
      requires task == Created
      modifies this`task, this`client, this`events
      ensures task == (if scratchOk then Looping else Parked)
      ensures events == old(events) + (if scratchOk then [Started] else [Warning(NoMem), Stopped])
      ensures scratchOk ==> client == None
    {
      if !scratchOk {
        events := events + [Warning(NoMem), Stopped];
        task := Parked;
        return;
      }
      client := None;
      events := events + [Started];
      task := Looping;
    }

    /** One iteration of the `read_task_` loop, followed by the task's exit
        path when the iteration breaks out of the loop. `connect` is what the
        client library reports if this iteration handles START, `read(n)` what
        a read of at most `n` bytes returns, and `complete` what
        `esp_http_client_is_complete_data_received` answers afterwards. */
    method Step(connect: ConnectReply, read: nat -> Received, complete: bool) returns (exit: bool)
      requires Valid() && task == Looping
      requires forall n: nat :: read(n).Bytes? ==> |read(n).bytes| <= n
      modifies this, output
      ensures Valid() && commands == Rest(old(commands)) && currentUri == old(currentUri)
      ensures task == (if exit then Parked else Looping)
      ensures
        var cmd := Front(old(commands));
        var closing := cmd == Some(Command.Stop) || cmd == Some(StopGracefully);
        // the handle after the command: START reconnects, either stop closes
        var connected :=
          if cmd == Some(Command.Start) then (if Opens(currentUri, connect) then Some(Connection(currentUri)) else None)
          else if closing then None else old(client);
        var commandCloses :=
          if cmd == Some(Command.Start) then EstablishCloses(old(client), currentUri, connect)
          else if closing then Handles(old(client)) else [];
        // START resets the buffer before connecting
        var buffered := if cmd == Some(Command.Start) then [] else old(output.contents);
        var request := output.capacity - |buffered|;
        var got := if connected.Some? && request > 0 && read(request).Bytes? then read(request).bytes else [];
        && exit == (cmd == Some(Command.Stop) || (connected.None? && buffered == []))
        && client == (if connected.Some? && !complete then connected else None)
        && closed == old(closed) + commandCloses + (if connected.Some? && complete then [connected.value] else [])
        && output.contents == (if exit then [] else buffered + got)
        && events == old(events)
             + (if cmd == Some(Command.Stop) then [] else if connected.Some? then [Running] else if buffered != [] then [Idle] else [])
             + (if exit then [Stopping, Stopped] else [])
    {
      var cmd := Front(commands);
      commands := Rest(commands);
      exit := false;
      if cmd == Some(Command.Start) {
        ResetRingBuffers();
        EstablishConnection(connect);
      } else if cmd == Some(Command.Stop) {
        CleanupConnection();
        exit := true;
      } else if cmd == Some(StopGracefully) {
        // the buffered output still drains before the loop ends
        CleanupConnection();
      }
      if !exit {
        if client.Some? {
          var readBytes := output.Free();
          var received := Bytes([]);
          if readBytes > 0 {
            received := read(readBytes);
          }
          if received.Bytes? && |received.bytes| > 0 {
            var written := output.Write(received.bytes);
          }
          if complete {
            CleanupConnection();
          }
          events := events + [Running];
        } else if output.Available() > 0 {
          events := events + [Idle];
        } else {
          exit := true;
        }
      }
      if exit {
        events := events + [Stopping];
        ResetRingBuffers();
        events := events + [Stopped];
        task := Parked;
      }
    }
  }
}
