/** `Pipeline` (esphome/components/nabu/media_player/streamer.cpp): binds one
    reader and one decoder to a mixer input chosen by its role. Its transfer
    task forwards stop commands upstream and moves bytes over two hops each
    iteration, decoder to mixer and reader to decoder, each bounded by the free
    space downstream. The reader's and decoder's `read` and the pipeline's
    `watch_` are not part of this model: what they return is a parameter. */
module Pipelines {
  import opened Common
  import opened RingBuffers
  import DecodeStreamers
  import HttpStreamers
  import CombineStreamers

  /** `PipelineType`: which mixer input the decoder output feeds. */
  datatype PipelineType = Media | Announcement

  /** The `reading_` and `decoding_` flags as `watch_` leaves them. */
  datatype Activity = Activity(reading: bool, decoding: bool)

  class Pipeline {
    const kind: PipelineType
    const reader: HttpStreamers.HTTPStreamer
    const decoder: DecodeStreamers.DecodeStreamer
    const mixer: CombineStreamers.CombineStreamer
    var reading: bool
    var decoding: bool
    /** The task-local `stopping` flag; the loop never reads it. */
    var stopping: bool
    var task: TaskState
    var commands: seq<Command>
    var events: seq<Event>

    ghost predicate Valid()
      reads reader.output, decoder.input, decoder.output, mixer.media, mixer.announcement, mixer.output
    {
      && reader.Valid() && decoder.Valid() && mixer.Valid()
      && decoder.input != mixer.media && decoder.input != mixer.announcement
    }

    /** The mixer input this pipeline's role selects. */
    function Target(): (r: RingBuffer)
    {
      if kind == Media then mixer.media else mixer.announcement
    }

    /** A pipeline whose transfer task has been created (the pipeline's own
        `start` is not part of this model). */
    constructor (kind: PipelineType, reader: HttpStreamers.HTTPStreamer,
                 decoder: DecodeStreamers.DecodeStreamer, mixer: CombineStreamers.CombineStreamer)
      requires reader.Valid() && decoder.Valid() && mixer.Valid()
      requires decoder.input != mixer.media && decoder.input != mixer.announcement
      ensures Valid()
      ensures this.kind == kind && this.reader == reader && this.decoder == decoder && this.mixer == mixer
      ensures task == Created && commands == [] && events == []
    {
      this.kind := kind;
      this.reader := reader;
      this.decoder := decoder;
      this.mixer := mixer;
      reading := false;
      decoding := false;
      stopping := false;
      task := Created;
      commands := [];
      events := [];
    }

    method SendCommand(c: Command)
      modifies this`commands
      ensures commands == old(commands) + [c]
    {
      commands := commands + [c];
    }

    /** The prologue of `transfer_task_`: STARTING, then either the
        no-memory report or STARTED with both activity flags raised. */
    method Launch(scratchOk: bool)
      requires task == Created
      modifies this`task, this`stopping, this`reading, this`decoding, this`events
      ensures task == (if scratchOk then Looping else Parked)
      ensures events == old(events) + (if scratchOk then [Starting, Started] else [Starting, Warning(NoMem), Stopped])
      ensures scratchOk ==> reading && decoding && !stopping
    {
      events := events + [Starting];
      if !scratchOk {
        events := events + [Warning(NoMem), Stopped];
        task := Parked;
        return;
      }
      events := events + [Started];
      stopping := false;
      reading := true;
      decoding := true;
      task := Looping;
    }

    /** The first hop: decoder output to the mixer input of this role. */
    method MoveToMixer(decoded: nat -> seq<byte>)
      requires Valid()
      requires forall n: nat :: |decoded(n)| <= n
      modifies mixer.media, mixer.announcement
      ensures Valid()
      ensures Target().contents == old(Target().contents) + decoded(Target().capacity - |old(Target().contents)|)
      ensures kind == Media ==> mixer.announcement.contents == old(mixer.announcement.contents)
      ensures kind == Announcement ==> mixer.media.contents == old(mixer.media.contents)
    {
      if kind == Media {
        var bytesToRead := mixer.MediaFree();
        var chunk := decoded(bytesToRead);
        var written := mixer.WriteMedia(chunk);
      } else {
        var bytesToRead := mixer.AnnouncementFree();
        var chunk := decoded(bytesToRead);
        var written := mixer.WriteAnnouncement(chunk);
      }
    }

    /** The second hop: reader output to the decoder input. */
    method MoveToDecoder(fetched: nat -> seq<byte>)
      requires Valid()
      requires forall n: nat :: |fetched(n)| <= n
      modifies decoder.input
      ensures Valid()
      ensures decoder.input.contents == old(decoder.input.contents)
                + fetched(decoder.input.capacity - |old(decoder.input.contents)|)
    {
      var bytesToRead := decoder.InputFree();
      var chunk := fetched(bytesToRead);
      var written := decoder.Write(chunk);
    }

    /** The body of a `transfer_task_` iteration that did not receive STOP:
        forward STOP_GRACEFULLY to the reader, make the two hops, and take
        the activity flags from `watch_`. */
    method Iterate(graceful: bool, decoded: nat -> seq<byte>, fetched: nat -> seq<byte>, activity: Activity) returns (exit: bool)
      requires Valid()
      requires forall n: nat :: |decoded(n)| <= n
      requires forall n: nat :: |fetched(n)| <= n
      modifies this`stopping, this`reading, this`decoding, reader`commands, decoder.input, mixer.media, mixer.announcement
      ensures Valid()
      ensures reader.commands == old(reader.commands) + (if graceful then [StopGracefully] else [])
      ensures stopping == (old(stopping) || graceful)
      ensures Target().contents == old(Target().contents) + decoded(Target().capacity - |old(Target().contents)|)
      ensures kind == Media ==> mixer.announcement.contents == old(mixer.announcement.contents)
      ensures kind == Announcement ==> mixer.media.contents == old(mixer.media.contents)
      ensures decoder.input.contents == old(decoder.input.contents)
                + fetched(decoder.input.capacity - |old(decoder.input.contents)|)
      ensures reading == activity.reading && decoding == activity.decoding
      ensures exit == (!activity.reading && !activity.decoding)
    {
      if graceful {
        reader.SendCommand(StopGracefully);
        stopping := true;
      }
      label hops:
      MoveToMixer(decoded);
      MoveToDecoder(fetched);
      assert Target().contents == old@hops(Target().contents)
        + decoded(Target().capacity - |old@hops(Target().contents)|);
      reading := activity.reading;
      decoding := activity.decoding;
      exit := !reading && !decoding;
    }

    /** One iteration of the `transfer_task_` loop, followed by the task's
        exit path. `decoded(n)` and `fetched(n)` are what the decoder's and
        the reader's `read` return when asked for at most `n` bytes;
        `activity` is what `watch_` leaves in the two flags. */
    method Step(decoded: nat -> seq<byte>, fetched: nat -> seq<byte>, activity: Activity) returns (exit: bool)
      requires Valid() && task == Looping
      requires forall n: nat :: |decoded(n)| <= n
      requires forall n: nat :: |fetched(n)| <= n
      modifies this, reader`commands, decoder`commands, decoder.input, mixer.media, mixer.announcement
      ensures Valid() && commands == Rest(old(commands))
      ensures task == (if exit then Parked else Looping)
      // STOP goes to both reader and decoder, then the loop ends before any transfer
      ensures Front(old(commands)) == Some(Command.Stop) ==>
        && exit
        && reader.commands == old(reader.commands) + [Command.Stop]
        && decoder.commands == old(decoder.commands) + [Command.Stop]
        && decoder.input.contents == old(decoder.input.contents)
        && mixer.media.contents == old(mixer.media.contents)
        && mixer.announcement.contents == old(mixer.announcement.contents)
        && reading == old(reading) && decoding == old(decoding) && stopping == old(stopping)
        && events == old(events) + [Stopping, Stopped]
      ensures Front(old(commands)) != Some(Command.Stop) ==>
        var cmd := Front(old(commands));
        // STOP_GRACEFULLY goes to the reader only
        && reader.commands == old(reader.commands) + (if cmd == Some(StopGracefully) then [StopGracefully] else [])
        && decoder.commands == old(decoder.commands)
        && stopping == (old(stopping) || cmd == Some(StopGracefully))
        // decoder to mixer: at most the free space of the role's buffer
        && Target().contents == old(Target().contents) + decoded(Target().capacity - |old(Target().contents)|)
        && (kind == Media ==> mixer.announcement.contents == old(mixer.announcement.contents))
        && (kind == Announcement ==> mixer.media.contents == old(mixer.media.contents))
        // reader to decoder: at most the free space of the decoder input
        && decoder.input.contents == old(decoder.input.contents)
             + fetched(decoder.input.capacity - |old(decoder.input.contents)|)
        && reading == activity.reading && decoding == activity.decoding
        // the loop ends exactly when neither upstream stage is active
        && exit == (!activity.reading && !activity.decoding)
        && events == old(events) + (if exit then [Stopping, Stopped] else [])
    {
      var cmd := Front(commands);
      commands := Rest(commands);
      if cmd == Some(Command.Stop) {
        reader.SendCommand(Command.Stop);
        decoder.SendCommand(Command.Stop);
        exit := true;
      } else {
        exit := Iterate(cmd == Some(StopGracefully), decoded, fetched, activity);
      }
      if exit {
        events := events + [Stopping, Stopped];
        task := Parked;
      }
    }
  }
}
