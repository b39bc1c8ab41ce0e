# Audio streaming stages and I2S speaker, modelled in Dafny

This project models the byte-moving core of the voice-assistant media player:

- the streaming stages in `esphome/components/nabu/media_player/streamer.cpp`: the decoder, the HTTP reader, the mixer and the pipeline transfer task;
- the I2S speaker in `esphome/components/i2s_audio/speaker/i2s_audio_speaker.cpp`.

Each stage is a FreeRTOS task that runs `while (true)`. Here each stage is a Dafny class: its ring buffers are `const` fields, and its task-local flags, command queue and event queue are fields. One `Step` method performs one loop iteration. It takes the front of the command queue the way `xQueueReceive` would, and it also runs the task's exit path when the iteration leaves the loop. A `TaskState` field records whether the task is absent, created, looping or parked in its final `while (true) delay(10)`.

The ring buffer is a bounded byte FIFO (`RingBuffers.RingBuffer`) with the non-blocking contract the stages rely on:

- a write stores `min(len, free)` bytes;
- a read takes from the front;
- `reset` empties it.

Calls the model cannot see become parameters of the step:

- the HTTP client's replies;
- the decoder's and reader's `read`;
- the `watch_` activity flags;
- the number of bytes the I2S driver accepts;
- the availability of scratch memory;
- the esp-dsp sample operations, modelled as length-preserving functions.

Every contract states the whole new state of the stage in terms of pure functions. Those functions carry the properties:

- `Transfer` of the decoder: conservation, capacity, maximality;
- `Narrow`/`Mixed` of the mixer;
- `Stored`/`Taken` of the ring buffer;
- the `Absorb`/`Observe`/`Watched`/`Looped` owner state machine of the speaker.

Lemmas prove what those functions promise across several events or writes.

The speaker's owner side is an `Owner` value, which the methods are tied to through `Snapshot()`. It holds:

- `state_`, `is_playing_` and the warning status;
- the player task handle and the I2S lock;
- the ring buffer contents;
- both play queues.

Where the code behaves in a surprising way, the model follows the code:

- A negative `esp_http_client_read` result is ignored the same way as a zero read. No warning is raised (`streamer.cpp:267-271`).
- The pipeline's `stopping` flag is set but never read (`streamer.cpp:511, 525`). The loop ends only on STOP or when both activity flags are false.
- The mixer's IDLE branch (`streamer.cpp:457-460`) cannot be reached. An iteration that passes the gate always writes at least one byte (`CombineStreamers.Narrow` is positive and the write fits), so it reports RUNNING.
- The HTTP streamer's null test after `esp_http_client_init` (`streamer.cpp:170`) tests the address of the handle, which is never null. A handle that failed to initialise therefore goes on to `open`. The model assumes that `open` then reports failure, and the cleanup of a null handle does nothing.
- `watch_` only logs STARTED (`i2s_audio_speaker.cpp:257-259`), so `state_` never becomes RUNNING: it is assigned only STARTING, STOPPED and STOPPING (lines 201, 217, 220, 271). See "Findings".

The speaker is the exception to that rule. Its owner chain (`Absorb`, `Observe`, `Watched`, `Looped`, and the methods `Handle`, `Watch`, `Loop` and `StopTasks`) models the corrected behaviour of both "Findings" rows: STARTED moves the speaker to RUNNING, and `stop_` sends a feed stop only to a feed task that exists. The code as written is modelled beside it by `AbsorbAsWritten`, `ObserveAsWritten` and `StopTasksAsWritten`.

## Model

| member | source | states |
|---|---|---|
| RingBuffers.Stored | esphome/components/nabu/media_player/streamer.cpp:49-53 | a write keeps the old contents as a prefix and appends a prefix of the data; the result never exceeds the capacity; all of the data is kept whenever the result stays below capacity |
| RingBuffers.Taken | esphome/components/nabu/media_player/streamer.cpp:101-105 | a read of at most `max` bytes returns a prefix of the contents; it returns all of them when fewer than `max` are buffered |
| RingBuffers.WritesThatFitAreReadBack | esphome/components/nabu/media_player/streamer.cpp:48-55 | writes whose total fits the free space are all kept, in order; reading back everything buffered returns exactly the old contents followed by those writes |
| RingBuffers.RingBuffer.Write | esphome/components/nabu/media_player/streamer.cpp:52 | stores `min(len, free)` bytes, returns that count, and keeps the capacity bound |
| RingBuffers.RingBuffer.Read | esphome/components/nabu/media_player/streamer.cpp:104 | returns `min(max, available)` bytes from the front; the old contents are exactly those bytes followed by the new contents |
| RingBuffers.RingBuffer.Reset | esphome/components/nabu/media_player/streamer.cpp:139-142 | empties the buffer |
| DecodeStreamers.Transfer | esphome/components/nabu/media_player/streamer.cpp:97-110 | moves exactly `min(output free, input available)` bytes; output followed by input is unchanged (nothing lost, duplicated or reordered); the output never exceeds capacity; the hop stops only at an empty input or a full output |
| DecodeStreamers.DecodeStreamer.constructor | esphome/components/nabu/media_player/streamer.cpp:21-23 | two distinct empty ring buffers of `BUFFER_SIZE * 2` bytes |
| DecodeStreamers.DecodeStreamer.Start | esphome/components/nabu/media_player/streamer.cpp:34-38 | creates the decode task only if none exists |
| DecodeStreamers.DecodeStreamer.Write | esphome/components/nabu/media_player/streamer.cpp:48-55 | accepts `min(length, free)` bytes and appends exactly those to the input; nothing changes when that is 0 |
| DecodeStreamers.DecodeStreamer.ResetRingBuffers | esphome/components/nabu/media_player/streamer.cpp:139-142 | both buffers end empty |
| DecodeStreamers.DecodeStreamer.Launch | esphome/components/nabu/media_player/streamer.cpp:63-85 | a failed scratch allocation reports WARNING(no memory) then STOPPED and parks; otherwise STARTED and the loop begins with `stopping` false |
| DecodeStreamers.DecodeStreamer.Decode | esphome/components/nabu/media_player/streamer.cpp:97-123 | the buffers become `Transfer` of the old ones; RUNNING iff either buffer is non-empty afterwards, else IDLE; it reports "drained" iff a graceful stop is pending and both buffers are empty |
| DecodeStreamers.DecodeStreamer.Step | esphome/components/nabu/media_player/streamer.cpp:86-132 | START resets both buffers before the transfer; STOP exits before any transfer; after STOP_GRACEFULLY the loop exits only once both buffers are empty; event order; on exit STOPPING, both buffers reset, STOPPED, parked |
| HttpStreamers.HTTPStreamer.constructor | esphome/components/nabu/media_player/streamer.cpp:144-153 | an empty output ring buffer of `HTTP_BUFFER_SIZE * 2` bytes, no connection, no task |
| HttpStreamers.HTTPStreamer.Start | esphome/components/nabu/media_player/streamer.cpp:193-201 | creates the read task only if none exists, and always queues START |
| HttpStreamers.HTTPStreamer.StartUri | esphome/components/nabu/media_player/streamer.cpp:203-206 | records the URI, then behaves as `Start` |
| HttpStreamers.HTTPStreamer.CleanupConnection | esphome/components/nabu/media_player/streamer.cpp:208-214 | closes the handle if there is one; a no-op on a null handle; the handle is null afterwards |
| HttpStreamers.HTTPStreamer.EstablishConnection | esphome/components/nabu/media_player/streamer.cpp:155-191 | always closes the previous handle first; an empty URI, a failed init or open, or a content length <= 0 leaves no connection, and any handle that was initialised is closed again; otherwise the connection to the URI is open |
| HttpStreamers.HTTPStreamer.Launch | esphome/components/nabu/media_player/streamer.cpp:222-244 | a failed scratch allocation reports WARNING(no memory) then STOPPED and parks; otherwise STARTED with a null handle |
| HttpStreamers.HTTPStreamer.Step | esphome/components/nabu/media_player/streamer.cpp:246-296 | START resets the buffer, then reconnects; STOP closes the connection and exits; STOP_GRACEFULLY only closes it; while connected it requests at most `free` bytes and stores only a positive received count; complete data closes the handle; connected reports RUNNING; closed with data reports IDLE; closed and empty exits; the exit path resets the buffer |
| CombineStreamers.Narrow | esphome/components/nabu/media_player/streamer.cpp:403-412 | `bytes_to_read` is at most the output's free space and at most the available count of every non-empty stream, media included even while paused; it is the largest such count, so it is positive whenever the output has room |
| CombineStreamers.Mixed | esphome/components/nabu/media_player/streamer.cpp:414-452 | the written length is that of the stream read; a lone announcement passes through unchanged; lone undimmed media passes through unchanged; the gain is applied to media only when `q15 < 2^15`, lone or before it is summed with the announcement; two undimmed streams are summed |
| CombineStreamers.CombineStreamer.constructor | esphome/components/nabu/media_player/streamer.cpp:303-306 | three distinct empty ring buffers of `BUFFER_SIZE * 2` bytes |
| CombineStreamers.CombineStreamer.WriteMedia | esphome/components/nabu/media_player/streamer.cpp:318-325 | accepts `min(length, media free)` bytes, appended to the media buffer only |
| CombineStreamers.CombineStreamer.WriteAnnouncement | esphome/components/nabu/media_player/streamer.cpp:327-335 | accepts `min(length, announcement free)` bytes, appended to the announcement buffer only |
| CombineStreamers.CombineStreamer.Start | esphome/components/nabu/media_player/streamer.cpp:337-341 | creates the combine task only if none exists |
| CombineStreamers.CombineStreamer.ResetRingBuffers | esphome/components/nabu/media_player/streamer.cpp:343-347 | all three buffers end empty |
| CombineStreamers.CombineStreamer.Launch | esphome/components/nabu/media_player/streamer.cpp:358-383 | a failed media or announcement scratch allocation reports WARNING(no memory) then STOPPED and parks; otherwise STARTED, unity ratio, media transferred |
| CombineStreamers.CombineStreamer.Combine | esphome/components/nabu/media_player/streamer.cpp:399-460 | without output room or eligible data: no read, no write, no event; otherwise `Narrow` bytes are read from each eligible non-empty stream, media only while transferred; `Mixed` of them is appended to the output and RUNNING is reported |
| CombineStreamers.CombineStreamer.Step | esphome/components/nabu/media_player/streamer.cpp:385-473 | STOP exits and resets all buffers; DUCK, PAUSE_MEDIA and RESUME_MEDIA only set the ratio or the flag; then `Combine` |
| Pipelines.Pipeline.Launch | esphome/components/nabu/media_player/streamer.cpp:486-514 | STARTING; a failed allocation reports WARNING(no memory) then STOPPED and parks; otherwise STARTED with both activity flags set |
| Pipelines.Pipeline.MoveToMixer | esphome/components/nabu/media_player/streamer.cpp:533-542 | the decoder output goes to the mixer input that the pipeline type chooses, at most its free space; the other input is untouched |
| Pipelines.Pipeline.MoveToDecoder | esphome/components/nabu/media_player/streamer.cpp:544-547 | the reader output goes to the decoder input, at most its free space |
| Pipelines.Pipeline.Iterate | esphome/components/nabu/media_player/streamer.cpp:523-554 | STOP_GRACEFULLY goes to the reader only; both hops are bounded by downstream free space; the loop exits iff neither reading nor decoding |
| Pipelines.Pipeline.Step | esphome/components/nabu/media_player/streamer.cpp:516-563 | STOP goes to reader and decoder, then the loop exits with no transfer; otherwise `Iterate`; on exit STOPPING, STOPPED, parked |
| I2SSpeakers.AfterStart | esphome/components/i2s_audio/speaker/i2s_audio_speaker.cpp:196-202 | unchanged when failed or RUNNING, otherwise STARTING |
| I2SSpeakers.AfterStop | esphome/components/i2s_audio/speaker/i2s_audio_speaker.cpp:213-221 | unchanged when STOPPED or failed; STARTING goes straight to STOPPED; RUNNING and STOPPING go to STOPPING |
| I2SSpeakers.Absorb | esphome/components/i2s_audio/speaker/i2s_audio_speaker.cpp:253-287 | corrected behaviour: STOPPED: state STOPPED, task handle cleared, lock released, ring buffer reset, both play queues emptied; RUNNING sets playing and clears the warning; IDLE clears playing; WARNING sets the warning; STARTED moves to RUNNING (as written it is only logged); nothing else changes |
| I2SSpeakers.ObserveSnoc | esphome/components/i2s_audio/speaker/i2s_audio_speaker.cpp:252 | with no STOPPED, draining one more event absorbs it last |
| I2SSpeakers.ObserveDiscardsAfterStopped | esphome/components/i2s_audio/speaker/i2s_audio_speaker.cpp:270-279 | events queued behind a STOPPED have no effect, because the queue is reset |
| I2SSpeakers.ObserveReclaims | esphome/components/i2s_audio/speaker/i2s_audio_speaker.cpp:270-279 | any STOPPED leaves the speaker STOPPED, with no task, the lock free, an empty ring buffer and empty play queues |
| I2SSpeakers.ObserveWithoutStopped | esphome/components/i2s_audio/speaker/i2s_audio_speaker.cpp:252-287 | corrected behaviour: without a STOPPED, the task, the lock, the buffer and the queues are untouched; the state becomes RUNNING exactly when a STARTED was seen |
| I2SSpeakers.ObservePlaying | esphome/components/i2s_audio/speaker/i2s_audio_speaker.cpp:260-266 | `is_playing_` ends as the last RUNNING/IDLE event says, or keeps its value when there is none |
| I2SSpeakers.ObserveWarning | esphome/components/i2s_audio/speaker/i2s_audio_speaker.cpp:263-286 | the warning ends set iff the last RUNNING/WARNING event is a WARNING, or keeps its value when there is none |
| I2SSpeakers.Observe | esphome/components/i2s_audio/speaker/i2s_audio_speaker.cpp:250-288 | corrected behaviour: draining events in order empties the event queue exactly when a STOPPED was among them, and otherwise leaves it as it was |
| I2SSpeakers.Watched | esphome/components/i2s_audio/speaker/i2s_audio_speaker.cpp:250-288 | corrected behaviour: `watch_` always leaves the play event queue empty |
| I2SSpeakers.Looped | esphome/components/i2s_audio/speaker/i2s_audio_speaker.cpp:233-248 | corrected behaviour: after watching, the state, flags and ring buffer are unchanged and the event queue is empty; STARTING takes the lock and creates the task exactly when the lock was free; STOPPING puts a stop command in front of the queued ones; the other states only watch |
| I2SSpeakers.StartStopCycleReleasesLock | esphome/components/i2s_audio/speaker/i2s_audio_speaker.cpp:196-288 | one start/stop cycle from an idle speaker runs through STARTING, RUNNING and STOPPING and ends STOPPED, with the task reclaimed, the lock released and both queues empty |
| I2SSpeakers.AbsorbAsWritten | esphome/components/i2s_audio/speaker/i2s_audio_speaker.cpp:257-259 | STARTED as written changes nothing; every other event is handled as in `Absorb` |
| I2SSpeakers.ObserveAsWritten | esphome/components/i2s_audio/speaker/i2s_audio_speaker.cpp:250-288 | as written: the queued events are absorbed in order with `AbsorbAsWritten`; a STOPPED among them leaves the state STOPPED |
| I2SSpeakers.AsWrittenNeverRunning | esphome/components/i2s_audio/speaker/i2s_audio_speaker.cpp:196-288 | as written, a speaker that is STOPPED or STARTING stays in those two states through `start()`, `stop()` and any events `watch_` drains, so it never reaches RUNNING or STOPPING and `stop_` is never called |
| I2SSpeakers.StartedIgnoredKeepsTaskAndLock | esphome/components/i2s_audio/speaker/i2s_audio_speaker.cpp:213-221 | as written, a started speaker is still STARTING, so `stop()` goes to STOPPED, no stop command is ever sent, and the running task and the lock are kept |
| I2SSpeakers.SendToFront | esphome/components/i2s_audio/speaker/i2s_audio_speaker.cpp:226-230 | a send to the front of a bounded queue waits forever exactly when the queue is full; otherwise the item is put first |
| I2SSpeakers.ThirdFeedStopBlocks | esphome/components/i2s_audio/speaker/i2s_audio_speaker.cpp:228-230 | with nobody draining the two-entry feed queue, the third feed stop blocks |
| I2SSpeakers.I2SAudioComponent.TryLock | esphome/components/i2s_audio/speaker/i2s_audio_speaker.cpp:205 | succeeds exactly when the lock was free; the lock is held afterwards |
| I2SSpeakers.I2SAudioComponent.Unlock | esphome/components/i2s_audio/speaker/i2s_audio_speaker.cpp:275 | the lock is free afterwards |
| I2SSpeakers.I2SAudioSpeaker.constructor | esphome/components/i2s_audio/speaker/i2s_audio_speaker.cpp:24-38 | an empty ring buffer of `RING_BUFFER_SIZE * 2` bytes, empty queues, no tasks, STOPPED |
| I2SSpeakers.I2SAudioSpeaker.Start | esphome/components/i2s_audio/speaker/i2s_audio_speaker.cpp:196-202 | the state becomes `AfterStart` of the old one |
| I2SSpeakers.I2SAudioSpeaker.Stop | esphome/components/i2s_audio/speaker/i2s_audio_speaker.cpp:213-221 | the state becomes `AfterStop` of the old one |
| I2SSpeakers.I2SAudioSpeaker.StartTask | esphome/components/i2s_audio/speaker/i2s_audio_speaker.cpp:204-211 | the player task is created only when `try_lock` succeeds |
| I2SSpeakers.I2SAudioSpeaker.StopTasks | esphome/components/i2s_audio/speaker/i2s_audio_speaker.cpp:223-231 | corrected behaviour: a stop command goes to the front of the play queue; a feed stop is queued only for a feed task that exists |
| I2SSpeakers.I2SAudioSpeaker.StopTasksAsWritten | esphome/components/i2s_audio/speaker/i2s_audio_speaker.cpp:223-231 | as written: the play stop goes first, and the feed stop always goes to the feed queue; the call blocks for good when that queue is full |
| I2SSpeakers.I2SAudioSpeaker.Handle | esphome/components/i2s_audio/speaker/i2s_audio_speaker.cpp:253-287 | corrected behaviour: one event changes the owner state exactly as `Absorb` says; STOPPED also clears the rest of the event queue |
| I2SSpeakers.I2SAudioSpeaker.Watch | esphome/components/i2s_audio/speaker/i2s_audio_speaker.cpp:250-288 | corrected behaviour: the owner state becomes `Watched` of the old one (the loop drains the whole queue) |
| I2SSpeakers.I2SAudioSpeaker.Loop | esphome/components/i2s_audio/speaker/i2s_audio_speaker.cpp:233-248 | corrected behaviour: the owner state becomes `Looped` of the old one: watch first, then dispatch on the state; the feed queue changes only for a feed task in STOPPING |
| I2SSpeakers.I2SAudioSpeaker.Write | esphome/components/i2s_audio/speaker/i2s_audio_speaker.cpp:416-428 | calls `start()` when neither RUNNING nor STARTING; stores `min(length, free)` bytes, appended in order, and returns that count |
| I2SSpeakers.I2SAudioSpeaker.HasBufferedData | esphome/components/i2s_audio/speaker/i2s_audio_speaker.cpp:430 | true iff the ring buffer is non-empty |
| I2SSpeakers.I2SAudioSpeaker.PlayRound | esphome/components/i2s_audio/speaker/i2s_audio_speaker.cpp:329-332 | one round stores a prefix of the rest of the data behind the buffered bytes, then the player takes bytes from the front; nothing is lost or reordered |
| I2SSpeakers.I2SAudioSpeaker.Play | esphome/components/i2s_audio/speaker/i2s_audio_speaker.cpp:324-335 | `index + remaining == length` throughout; it returns the whole length unless the drain schedule runs out; the bytes written in and played out keep FIFO order with nothing lost |
| I2SSpeakers.I2SAudioSpeaker.PlayerLaunch | esphome/components/i2s_audio/speaker/i2s_audio_speaker.cpp:46-148 | STARTING; a failed allocation or driver set-up reports WARNING then STOPPED and parks; otherwise STARTED |
| I2SSpeakers.I2SAudioSpeaker.PlayerStep | esphome/components/i2s_audio/speaker/i2s_audio_speaker.cpp:150-189 | a stop command exits before reading; otherwise it reads `min(BUFFER_SIZE * 2, available)` bytes from the front; WARNING(timeout) exactly when the driver accepted a different count; RUNNING after a non-zero read, IDLE otherwise; on exit STOPPING, STOPPED, parked |
| I2SSpeakers.I2SAudioSpeaker.FeedLaunch | esphome/components/i2s_audio/speaker/i2s_audio_speaker.cpp:357-385 | STARTING and STARTED, then WARNING(no memory) and STOPPED when the receive buffer is missing; the bookkeeping starts at zero |
| I2SSpeakers.I2SAudioSpeaker.FeedStep | esphome/components/i2s_audio/speaker/i2s_audio_speaker.cpp:387-409 | a feed stop exits with STOPPED; a new feed sets `current` to 0 and `remaining` to its length; a FILE feed with bytes left writes the rest through `write`; every write keeps `current + remaining` equal to the feed length |

## Left out

- FreeRTOS task creation and deletion, and the parking loops: they appear only as `TaskState` values. Each task is a sequential step, and the interleaving of tasks is not modelled.
- Queue capacities and blocking sends: queues are unbounded `seq`s. The feed command queue is the exception; its capacity of 2 matters for the finding below.
- The RingBuffer implementation (`esphome/core/ring_buffer.h` is not part of this model): the assumed contract is non-blocking and FIFO.
- `send_command`, `read`, `input_free`, `media_free`, `announcement_free`, the HTTP streamer's `reset_ring_buffers`, and the pipeline's constructor and `watch_` live in `streamer.h`, which is not part of this model. They appear with their evident meaning, except for the reader's and decoder's `read`. The pipeline's activity flags and the reader's and decoder's read results are inputs to its step. The pipeline's hops therefore do not take the bytes out of the reader's or decoder's output buffer: a hop adds bytes downstream and removes none upstream.
- `OutputStreamer::stop` (`streamer.cpp:40-46`): a task deletion plus queue resets, done by an owner outside this core.
- The `esp_http_client` calls (TLS, redirects, headers): they are replaced by their reported outcomes.
- The I2S driver configuration, installation, pins, DAC, clock, `i2s_zero_dma_buffer`, `i2s_stop` and `i2s_driver_uninstall`: hardware calls. Only the error that stops the launch and the accepted byte count remain. The result of `i2s_set_clk` is ignored by the source and by the model.
- The esp-dsp operations `dsps_mulc_s16_ae32` and `dsps_add_s16_aes3`: foreign code, kept as length-preserving functions. The source passes them byte counts where sample counts are expected; the model does not look inside them.
- CombineStreamers.Mixed: the float ducking ratio and its conversion to `int16_t` are not modelled. The ratio is an integer, and the initial value is taken as 2^15. As an `int16_t`, `(int16_t) 32768.0` is out of range, and the test `q15 < 2^15` could never be false.
- The constructors' allocation checks (`streamer.cpp:29`, `309-310`) and the allocator sizes: memory plumbing. The speaker's `failed` flag stands for `mark_failed` in `setup`; the null ring buffer it leaves behind is not modelled.
- Logging, `setup` queue creation, the commented-out feed-event watch and mono duplication, the feed task creation that is commented out in `start_`, and `play_file`: left out as not part of the behaviour. The feed task's own steps are modelled. Nothing in the source creates that task.
- I2SSpeakers.I2SAudioSpeaker.Play: the source loops until every byte is stored, whatever the player does. The model runs one round per entry of a drain schedule, in which the player takes that many bytes. It returns early if the schedule runs out. The unused `to_send_length` is, as in the source, not applied.
- CombineStreamers.CombineStreamer.Launch: `scratchOk` stands for the media and announcement allocations, the two that line 363 tests. The source does not test the `combination_buffer` allocation (line 361), and the model does not include a missing combination buffer: if it is missing, the task still reports STARTED and later writes through a null pointer.
- HttpStreamers.HTTPStreamer.EstablishConnection: a failed `esp_http_client_init` is assumed to make `esp_http_client_open` fail on the null handle. That client library is not part of this model.
- I2SSpeakers.Absorb: the corrected STARTED handling does not cover a `stop()` made after `loop()` created the task but before STARTED is handled. That `stop()` takes the STARTING shortcut to STOPPED, and the later STARTED moves the speaker to RUNNING with the task and the lock held. `StartStopCycleReleasesLock` covers only a stop after STARTED.
- I2SSpeakers.I2SAudioSpeaker.Watch: the feed event queue is never read by the source (that code is commented out), so it only grows.

## Findings

| source | as written | input that shows it | evidently intended | confidence | as-written member | corrected member |
|---|---|---|---|---|---|---|
| esphome/components/i2s_audio/speaker/i2s_audio_speaker.cpp:257-259 | `watch_` only logs STARTED, so `state_` stays STARTING once the player task runs | `start()`, a `loop()` that creates the task, the events STARTING and STARTED, then `stop()`: the state goes straight to STOPPED, `stop_` is never called, and the task and the I2S lock are never released | STARTED moves the speaker to RUNNING, so `stop()` goes to STOPPING and `loop()` sends the stop command | medium, not executed | I2SSpeakers.StartedIgnoredKeepsTaskAndLock | I2SSpeakers.StartStopCycleReleasesLock |
| esphome/components/i2s_audio/speaker/i2s_audio_speaker.cpp:228-230 | `stop_` always sends a stop to the two-entry feed queue, waiting forever if it is full; no feed task exists (its creation at line 210 is commented out) and nothing resets that queue | as written `stop_` is never reached: it runs only in STOPPING (lines 242-243), STOPPING is entered only from RUNNING or STOPPING (lines 213-220), and RUNNING is never assigned (first row; `AsWrittenNeverRunning`). Once the first row is corrected, `loop()` calls `stop_()` on every pass while the speaker is STOPPING, and nothing empties the feed queue: the first two calls fill it, whether they fall in one stop cycle (the player's STOPPED not yet handled) or in several, and the third call blocks the main loop | send the feed stop only when a feed task exists | high, not executed | I2SSpeakers.I2SAudioSpeaker.StopTasksAsWritten | I2SSpeakers.I2SAudioSpeaker.StopTasks |
