/** `CombineStreamer` (esphome/components/nabu/media_player/streamer.cpp): the
    mixer. Its task merges the media and announcement ring buffers into one
    output ring buffer, honouring a pause flag for media and a Q15 ducking
    gain. The esp-dsp sample operations are parameters of the model: a
    length-preserving gain and a length-preserving sum. */
module CombineStreamers {
  import opened Common
  import opened RingBuffers

  const BUFFER_SIZE: nat := 2048
  /** Each ring buffer holds `BUFFER_SIZE` 16-bit samples. */
  const RING_BUFFER_BYTES: nat := BUFFER_SIZE * 2
  /** Unity gain in Q15 fixed point, 2^15. */
  const Q15_ONE: int := 32768

  /** `dsps_mulc_s16_ae32`, applied to a chunk of media with the Q15 ratio. */
  type Gain = f: (seq<byte>, int) -> seq<byte> | forall s, q :: |f(s, q)| == |s|
    witness (s: seq<byte>, q: int) => s

  /** `dsps_add_s16_aes3` with its shift by one: combines two chunks of equal length. */
  type Sum = f: (seq<byte>, seq<byte>) -> seq<byte> | forall m, a :: |m| == |a| ==> |f(m, a)| == |m|
    witness (m: seq<byte>, a: seq<byte>) => m

  /** The iteration does any work only when the output has room and some
      eligible stream (media only while it is transferred) holds data. */
  predicate Eligible(outputFree: nat, mediaAvailable: nat, announcementAvailable: nat, transferMedia: bool)
  {
    outputFree > 0 && ((transferMedia && mediaAvailable > 0) || announcementAvailable > 0)
  }

  /** `bytes_to_read`: the output's free space, narrowed by every stream that
      holds data (media narrows it even while paused). */
  function Narrow(outputFree: nat, mediaAvailable: nat, announcementAvailable: nat): (n: nat)
    ensures n <= outputFree
    ensures mediaAvailable > 0 ==> n <= mediaAvailable
    ensures announcementAvailable > 0 ==> n <= announcementAvailable
    // the largest count within all those bounds
    ensures n == outputFree || (mediaAvailable > 0 && n == mediaAvailable)
                            || (announcementAvailable > 0 && n == announcementAvailable)
    // so an eligible iteration always moves something
    ensures outputFree > 0 ==> n > 0
  {
    var n := outputFree;
    var n := if mediaAvailable > 0 then Min(n, mediaAvailable) else n;
    if announcementAvailable > 0 then Min(n, announcementAvailable) else n
  }

  /** The bytes one iteration writes to the output, given the media chunk `m`
      and the announcement chunk `a` it read. */
  function Mixed(gain: Gain, sum: Sum, q15: int, m: seq<byte>, a: seq<byte>): (r: seq<byte>)
    requires m == [] || a == [] || |m| == |a|
    ensures |r| == (if m != [] then |m| else |a|)
    // against a silent announcement stream, undimmed media passes through unchanged
    ensures a == [] && q15 >= Q15_ONE ==> r == m
    // against a silent media stream, the announcement passes through unchanged
    ensures m == [] ==> r == a
    // ducking is applied to media only below unity
    ensures m != [] && a != [] && q15 >= Q15_ONE ==> r == sum(m, a)
    ensures m != [] && a == [] && q15 < Q15_ONE ==> r == gain(m, q15)
    // ducked media is what gets summed with the announcement
    ensures m != [] && a != [] && q15 < Q15_ONE ==> r == sum(gain(m, q15), a)
  {
    var ducked := if m != [] && q15 < Q15_ONE then gain(m, q15) else m;
    if ducked != [] && a != [] then sum(ducked, a)
    else if ducked != [] then ducked
    else a
  }

  class CombineStreamer {
    const media: RingBuffer
    const announcement: RingBuffer
    const output: RingBuffer
    const gain: Gain
    const sum: Sum
    /** The task-local `q15_ducking_ratio`. */
    var q15: int
    /** The task-local `transfer_media` flag, cleared by PAUSE_MEDIA. */
    var transferMedia: bool
    var task: TaskState
    var commands: seq<Command>
    var events: seq<Event>

    ghost predicate Valid()
      reads media, announcement, output
    {
      && media != announcement && media != output && announcement != output
      && media.Valid() && announcement.Valid() && output.Valid()
    }

    constructor (gain: Gain, sum: Sum)
      ensures Valid() && fresh(media) && fresh(announcement) && fresh(output)
      ensures media.capacity == RING_BUFFER_BYTES && announcement.capacity == RING_BUFFER_BYTES
      ensures output.capacity == RING_BUFFER_BYTES
      ensures media.contents == [] && announcement.contents == [] && output.contents == []
      ensures this.gain == gain && this.sum == sum
      ensures task == NoTask && commands == [] && events == []
    {
      media := new RingBuffer(RING_BUFFER_BYTES);
      announcement := new RingBuffer(RING_BUFFER_BYTES);
      output := new RingBuffer(RING_BUFFER_BYTES);
      this.gain := gain;
      this.sum := sum;
      q15 := Q15_ONE;
      transferMedia := true;
      task := NoTask;
      commands := [];
      events := [];
    }

    /** `start(priority)`: creates the combine task unless one exists. */
    method Start()
      modifies this`task
      ensures task == if old(task) == NoTask then Created else old(task)
    {
      if task == NoTask {
        task := Created;
      }
    }

    method SendCommand(c: Command)
      modifies this`commands
      ensures commands == old(commands) + [c]
    {
      commands := commands + [c];
    }

    /** `media_free()`. */
    function MediaFree(): (r: nat)
      reads this, media, announcement, output
      requires Valid()
    {
      media.Free()
    }

    /** `announcement_free()`. */
    function AnnouncementFree(): (r: nat)
      reads this, media, announcement, output
      requires Valid()
    {
      announcement.Free()
    }

    /** `write_media(buffer, length)`: stores `min(length, free)` bytes,
        leaving the buffer untouched when that is 0. */
    method WriteMedia(data: seq<byte>) returns (n: nat)
      requires Valid()
      modifies media
      ensures Valid()
      ensures n == Min(|data|, old(media.Free()))
      ensures media.contents == old(media.contents) + data[..n]
    {
      var freeBytes := MediaFree();
      var bytesToWrite := Min(|data|, freeBytes);
      if bytesToWrite > 0 {
        n := media.Write(data[..bytesToWrite]);
      } else {
        n := 0;
      }
    }

    /** `write_announcement(buffer, length)`: as `write_media`, on the
        announcement buffer. */
    method WriteAnnouncement(data: seq<byte>) returns (n: nat)
      requires Valid()
      modifies announcement
      ensures Valid()
      ensures n == Min(|data|, old(announcement.Free()))
      ensures announcement.contents == old(announcement.contents) + data[..n]
    {
      var freeBytes := AnnouncementFree();
      var bytesToWrite := Min(|data|, freeBytes);
      if bytesToWrite > 0 {
        n := announcement.Write(data[..bytesToWrite]);
      } else {
        n := 0;
      }
    }

    /** `reset_ring_buffers()`. */
    method ResetRingBuffers()
      requires Valid()
      modifies media, announcement, output
      ensures Valid()
      ensures media.contents == [] && announcement.contents == [] && output.contents == []
    {
      output.Reset();
      media.Reset();
      announcement.Reset();
    }

    /** The prologue of `combine_task_`: unity gain and media enabled.
        `scratchOk` says whether the media and the announcement scratch
        buffers were allocated, the only two allocations the task tests. */
    method Launch(scratchOk: bool)
      requires task == Created
      modifies this`task, this`q15, this`transferMedia, this`events
      ensures task == (if scratchOk then Looping else Parked)
      ensures events == old(events) + (if scratchOk then [Started] else [Warning(NoMem), Stopped])
      ensures scratchOk ==> q15 == Q15_ONE && transferMedia
    {
      if !scratchOk {
        events := events + [Warning(NoMem), Stopped];
        task := Parked;
        return;
      }
      events := events + [Started];
      q15 := Q15_ONE;
      transferMedia := true;
      task := Looping;
    }

    /** The transfer half of one `combine_task_` iteration, with the ratio
        and the pause flag as the command left them. */
    method Combine()
      requires Valid()
      modifies media, announcement, output, this`events
      ensures Valid()
      ensures
        var m, a, o := old(media.contents), old(announcement.contents), old(output.contents);
        var outputFree := output.capacity - |o|;
        if !Eligible(outputFree, |m|, |a|, transferMedia) then
          // no read, no write, no event
          media.contents == m && announcement.contents == a && output.contents == o
          && events == old(events)
        else
          var n := Narrow(outputFree, |m|, |a|);
          // media is read only while it is transferred
          var mc := if transferMedia && m != [] then m[..n] else [];
          var ac := if a != [] then a[..n] else [];
          && media.contents == m[|mc|..] && announcement.contents == a[|ac|..]
          && output.contents == o + Mixed(gain, sum, q15, mc, ac)
          && events == old(events) + [Running]
    {
      var mediaAvailable := media.Available();
      var announcementAvailable := announcement.Available();
      var outputFree := output.Free();
      if outputFree > 0 && ((transferMedia && mediaAvailable > 0) || announcementAvailable > 0) {
        var bytesToRead := outputFree;
        if mediaAvailable > 0 {
          bytesToRead := Min(bytesToRead, mediaAvailable);
        }
        if announcementAvailable > 0 {
          bytesToRead := Min(bytesToRead, announcementAvailable);
        }
        assert bytesToRead == Narrow(outputFree, mediaAvailable, announcementAvailable);
        var mediaChunk: seq<byte> := [];
        var ducked: seq<byte> := [];
        if transferMedia && mediaAvailable > 0 {
          mediaChunk := media.Read(bytesToRead);
          ducked := mediaChunk;
          if |mediaChunk| > 0 && q15 < Q15_ONE {
            ducked := gain(mediaChunk, q15);
          }
        }
        var announcementChunk: seq<byte> := [];
        if announcementAvailable > 0 {
          announcementChunk := announcement.Read(bytesToRead);
        }
        ghost var payload := Mixed(gain, sum, q15, mediaChunk, announcementChunk);
        assert |payload| <= outputFree;
        var written := 0;
        if |ducked| > 0 && |announcementChunk| > 0 {
          assert payload == sum(ducked, announcementChunk);
          written := output.Write(sum(ducked, announcementChunk));
        } else if |ducked| > 0 {
          assert payload == ducked;
          written := output.Write(ducked);
        } else if |announcementChunk| > 0 {
          assert payload == announcementChunk;
          written := output.Write(announcementChunk);
        }
        assert output.contents == old(output.contents) + payload;
        var outputEmpty := output.Available() == 0;
        var event: Option<Event> := None;
        if written > 0 {
          event := Some(Running);
        } else if outputEmpty {
          event := Some(Idle);
        }
        if event.Some? {
          events := events + [event.value];
        }
      }
    }

    /** One iteration of the `combine_task_` loop, followed by the task's exit
        path on STOP. */
    method Step() returns (exit: bool)
      requires Valid() && task == Looping
      modifies this, media, announcement, output
      ensures Valid() && commands == Rest(old(commands))
      ensures task == (if exit then Parked else Looping)
      ensures exit == (Front(old(commands)) == Some(Command.Stop))
      ensures exit ==>
        && q15 == old(q15) && transferMedia == old(transferMedia)
        && media.contents == [] && announcement.contents == [] && output.contents == []
        && events == old(events) + [Stopping, Stopped]
      ensures !exit ==>
        var cmd := Front(old(commands));
        // DUCK, PAUSE_MEDIA and RESUME_MEDIA only update the ratio or the flag
        && q15 == (if cmd.Some? && cmd.value.Duck? then cmd.value.q15 else old(q15))
        && transferMedia == (if cmd == Some(PauseMedia) then false
                             else if cmd == Some(ResumeMedia) then true
                             else old(transferMedia))
        && var m, a, o := old(media.contents), old(announcement.contents), old(output.contents);
           var outputFree := output.capacity - |o|;
           if !Eligible(outputFree, |m|, |a|, transferMedia) then
             media.contents == m && announcement.contents == a && output.contents == o
             && events == old(events)
           else
             var n := Narrow(outputFree, |m|, |a|);
             var mc := if transferMedia && m != [] then m[..n] else [];
             var ac := if a != [] then a[..n] else [];
             && media.contents == m[|mc|..] && announcement.contents == a[|ac|..]
             && output.contents == o + Mixed(gain, sum, q15, mc, ac)
             && events == old(events) + [Running]
    {
      var cmd := Front(commands);
      commands := Rest(commands);
      exit := cmd == Some(Command.Stop);
      if cmd.Some? {
        match cmd.value
        case Duck(ratio) => q15 := ratio;
        case PauseMedia => transferMedia := false;
        case ResumeMedia => transferMedia := true;
        case _ =>
      }
      if exit {
        events := events + [Stopping];
        ResetRingBuffers();
        events := events + [Stopped];
        task := Parked;
      } else {
        Combine();
      }
    }
  }
}
