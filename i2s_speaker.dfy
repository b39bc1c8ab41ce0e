/** The I2S speaker of the audio path: the owner-side state machine that the
    main loop drives (`start`, `stop`, `loop`, `watch_`), the direct-feed
    `write`, `play` and `has_buffered_data` calls, and one iteration each of
    the player task and of the feed task. */
module I2SSpeakers {
  import opened Common
  import opened RingBuffers

  const SAMPLE_RATE_HZ: nat := 16000
  /** Milliseconds of audio the input ring buffer holds. */
  const RING_BUFFER_LENGTH: nat := 64
  /** Samples in the input ring buffer. */
  const RING_BUFFER_SIZE: nat := SAMPLE_RATE_HZ / 1000 * RING_BUFFER_LENGTH
  /** The input ring buffer holds 16-bit samples. */
  const RING_BUFFER_BYTES: nat := RING_BUFFER_SIZE * 2
  /** Capacity of the play command and play event queues. */
  const BUFFER_COUNT: nat := 10
  /** Samples in the player task's scratch buffer. */
  const BUFFER_SIZE: nat := 256
  /** Bytes the player task takes from the ring buffer per iteration. */
  const PLAYER_CHUNK_BYTES: nat := BUFFER_SIZE * 2
  /** Capacity of the feed command and feed event queues. */
  const FEED_QUEUE_LENGTH: nat := 2

  /** `speaker::State`. */
  datatype SpeakerState = StateStopped | StateStarting | StateRunning | StateStopping

  /** `CommandEvent`: the only command the player task understands. */
  datatype PlayCommand = PlayCommand(stop: bool)

  /** `FeedType`: only a FILE feed is copied by the feed task. */
  datatype FeedType = FileFeed | OtherFeed

  /** `FeedCommandEvent`: stop, or a new block of bytes to feed. */
  datatype FeedCommand = FeedStop | Feed(kind: FeedType, data: seq<byte>)

  /** `start()`: ignored when the component failed or is already running,
      otherwise the speaker waits in STARTING for `loop` to start the task. */
  function AfterStart(s: SpeakerState, failed: bool): (r: SpeakerState)
    ensures failed ==> r == s
    ensures !failed ==> (r == StateRunning <==> s == StateRunning)
    ensures !failed && s != StateRunning ==> r == StateStarting
  {
    if failed || s == StateRunning then s else StateStarting
  }

  /** `stop()`: ignored when stopped or failed; a speaker still STARTING
      stops at once, any other goes to STOPPING so that `loop` sends the
      stop command. */
  function AfterStop(s: SpeakerState, failed: bool): (r: SpeakerState)
    ensures failed || s == StateStopped ==> r == s
    ensures !failed && s == StateStarting ==> r == StateStopped
    ensures !failed && (s == StateRunning || s == StateStopping) ==> r == StateStopping
  {
    if s == StateStopped || failed then s
    else if s == StateStarting then StateStopped
    else StateStopping
  }

  /** The owner-side view of the speaker that the main loop reads and
      writes: `state_`, `is_playing_`, the warning status, the player task
      handle, the I2S lock, the input ring buffer's contents and the two
      play queues. */
  datatype Owner = Owner(
    state: SpeakerState,
    playing: bool,
    warning: bool,
    player: TaskState,
    locked: bool,
    buffered: seq<byte>,
    commands: seq<PlayCommand>,
    events: seq<Event>)

  /** The effect of one player event on the owner, as `watch_` handles it.
      STARTED moves the speaker to RUNNING (see `AbsorbAsWritten` for the
      handling as written, which drops it). STOPPED reclaims the task and
      the lock, resets the ring buffer and empties both play queues. */
  function Absorb(o: Owner, e: Event): (r: Owner)
    ensures e == Stopped ==>
      r == o.(state := StateStopped, player := NoTask, locked := false, buffered := [], commands := [], events := [])
    ensures e != Stopped ==>
      r.player == o.player && r.locked == o.locked && r.buffered == o.buffered
      && r.commands == o.commands && r.events == o.events
    ensures r.state == (if e == Stopped then StateStopped else if e == Started then StateRunning else o.state)
    ensures r.playing == (if e == Running then true else if e == Idle then false else o.playing)
    ensures r.warning == (if e == Running then false else if e.Warning? then true else o.warning)
  {
    match e
    case Starting => o
    case Started => o.(state := StateRunning)
    case Idle => o.(playing := false)
    case Running => o.(playing := true, warning := false)
    case Stopping => o
    case Stopped =>
      o.(state := StateStopped, player := NoTask, locked := false, buffered := [], commands := [], events := [])
    case Warning(_) => o.(warning := true)
  }

  /** `watch_` draining `evs` in order. The queue reset done for STOPPED
      throws away whatever followed it, so the event queue is emptied
      exactly when a STOPPED was seen. */
  function Observe(o: Owner, evs: seq<Event>): (r: Owner)
    ensures r.events == (if Stopped in evs then [] else o.events)
    decreases |evs|
  {
    if evs == [] then o
    else if evs[0] == Stopped then Absorb(o, Stopped)
    else
      assert Stopped in evs <==> Stopped in evs[1..] by {
        assert evs == [evs[0]] + evs[1..];
      }
      Observe(Absorb(o, evs[0]), evs[1..])
  }

  /** One whole `watch_`: every queued event is taken off the queue. */
  function Watched(o: Owner): (r: Owner)
    ensures r.events == []
  {
    Observe(o.(events := []), o.events)
  }

  /** One `loop()`: `watch_`, then `start_` in STARTING (the task is created
      only when `try_lock` succeeds) or `stop_` in STOPPING (a stop command
      goes to the front of the play command queue). Neither changes the
      state, the flags or the ring buffer, and the event queue stays empty. */
  function Looped(o: Owner): (r: Owner)
    ensures var w := Watched(o);
      && r.events == []
      && r.state == w.state && r.playing == w.playing && r.warning == w.warning
      && r.buffered == w.buffered
      && r.locked == (w.locked || w.state == StateStarting)
      && r.player == (if w.state == StateStarting && !w.locked then Created else w.player)
      && r.commands == (if w.state == StateStopping then [PlayCommand(true)] + w.commands else w.commands)
  {
    var w := Watched(o);
    match w.state
    case StateStarting => if w.locked then w else w.(locked := true, player := Created)
    case StateStopping => w.(commands := [PlayCommand(true)] + w.commands)
    case _ => w
  }

  /** The last RUNNING or IDLE event of `evs`, as "is playing". */
  function LastActivity(evs: seq<Event>): (r: Option<bool>)
    decreases |evs|
  {
    if evs == [] then None
    else if evs[|evs| - 1] == Running then Some(true)
    else if evs[|evs| - 1] == Idle then Some(false)
    else LastActivity(evs[..|evs| - 1])
  }

  /** The last RUNNING or WARNING event of `evs`, as "warning is set". */
  function LastHealth(evs: seq<Event>): (r: Option<bool>)
    decreases |evs|
  {
    if evs == [] then None
    else if evs[|evs| - 1] == Running then Some(false)
    else if evs[|evs| - 1].Warning? then Some(true)
    else LastHealth(evs[..|evs| - 1])
  }

  /** Without a STOPPED, draining one more event is absorbing it last. */
  lemma {:induction false} ObserveSnoc(o: Owner, evs: seq<Event>, e: Event)
    requires Stopped !in evs
    ensures Observe(o, evs + [e]) == Absorb(Observe(o, evs), e)
    decreases |evs|
  {
    if evs == [] {
      assert evs + [e] == [e];
    } else {
      assert (evs + [e])[0] == evs[0];
      assert (evs + [e])[1..] == evs[1..] + [e];
      ObserveSnoc(Absorb(o, evs[0]), evs[1..], e);
    }
  }

  /** Events queued behind a STOPPED are discarded. */
  lemma {:induction false} ObserveDiscardsAfterStopped(o: Owner, evs: seq<Event>, later: seq<Event>)
    requires Stopped in evs
    ensures Observe(o, evs + later) == Observe(o, evs)
    decreases |evs|
  {
    assert (evs + later)[0] == evs[0];
    if evs[0] != Stopped {
      assert (evs + later)[1..] == evs[1..] + later;
      ObserveDiscardsAfterStopped(Absorb(o, evs[0]), evs[1..], later);
    }
  }

  /** A STOPPED among the events stops the speaker and reclaims everything
      the player task held. */
  lemma {:induction false} ObserveReclaims(o: Owner, evs: seq<Event>)
    requires Stopped in evs
    ensures var r := Observe(o, evs);
      && r.state == StateStopped && r.player == NoTask && !r.locked
      && r.buffered == [] && r.commands == [] && r.events == []
    decreases |evs|
  {
    if evs[0] != Stopped {
      ObserveReclaims(Absorb(o, evs[0]), evs[1..]);
    }
  }

  /** Without a STOPPED only the three flags can change: the state becomes
      RUNNING exactly when a STARTED was seen, and the task, the lock, the
      ring buffer and the queues are left alone. */
  lemma {:induction false} ObserveWithoutStopped(o: Owner, evs: seq<Event>)
    requires Stopped !in evs
    ensures var r := Observe(o, evs);
      && r.state == (if Started in evs then StateRunning else o.state)
      && r.player == o.player && r.locked == o.locked && r.buffered == o.buffered
      && r.commands == o.commands && r.events == o.events
    decreases |evs|
  {
    if evs != [] {
      ObserveWithoutStopped(Absorb(o, evs[0]), evs[1..]);
      assert Started in evs <==> evs[0] == Started || Started in evs[1..];
    }
  }

  /** `is_playing_` follows the last RUNNING or IDLE event. */
  lemma {:induction false} ObservePlaying(o: Owner, evs: seq<Event>)
    requires Stopped !in evs
    ensures Observe(o, evs).playing == match LastActivity(evs) case None => o.playing case Some(p) => p
    decreases |evs|
  {
    if evs != [] {
      var init, e := evs[..|evs| - 1], evs[|evs| - 1];
      assert evs == init + [e];
      ObserveSnoc(o, init, e);
      ObservePlaying(o, init);
    }
  }

  /** The warning status follows the last RUNNING (clears) or WARNING
      (sets) event. */
  lemma {:induction false} ObserveWarning(o: Owner, evs: seq<Event>)
    requires Stopped !in evs
    ensures Observe(o, evs).warning == match LastHealth(evs) case None => o.warning case Some(w) => w
    decreases |evs|
  {
    if evs != [] {
      var init, e := evs[..|evs| - 1], evs[|evs| - 1];
      assert evs == init + [e];
      ObserveSnoc(o, init, e);
      ObserveWarning(o, init);
    }
  }

  /** A whole start/stop cycle from an idle speaker: `start`, a `loop` that
      creates the task, a `loop` that sees STARTING then STARTED, `stop`, a
      `loop` that sends the stop command, and a `loop` that sees STOPPING
      then STOPPED. The speaker ends stopped with the task reclaimed, the
      lock released and both queues empty. */
  lemma StartStopCycleReleasesLock(o: Owner)
    requires o.state == StateStopped && o.player == NoTask && !o.locked && o.events == []
    ensures
      var o1 := Looped(o.(state := AfterStart(o.state, false)));
      var o2 := Looped(o1.(player := Looping, events := [Starting, Started]));
      var o3 := Looped(o2.(state := AfterStop(o2.state, false)));
      var o4 := Looped(o3.(player := Parked, commands := Rest(o3.commands), events := [Stopping, Stopped]));
      && o1.state == StateStarting && o1.player == Created && o1.locked
      && o2.state == StateRunning && o2.locked
      && o3.state == StateStopping && Front(o3.commands) == Some(PlayCommand(true))
      && o4.state == StateStopped && o4.player == NoTask && !o4.locked
      && o4.buffered == [] && o4.commands == [] && o4.events == []
  {
  }

  /** `watch_` as written: STARTED is only logged. */
  function AbsorbAsWritten(o: Owner, e: Event): (r: Owner)
    ensures e == Started ==> r == o
    ensures e != Started ==> r == Absorb(o, e)
  {
    if e == Started then o else Absorb(o, e)
  }

  /** `watch_` as written draining `evs`. */
  function ObserveAsWritten(o: Owner, evs: seq<Event>): (r: Owner)
    ensures Stopped in evs ==> r.state == StateStopped
    decreases |evs|
  {
    if evs == [] then o
    else if evs[0] == Stopped then AbsorbAsWritten(o, Stopped)
    else ObserveAsWritten(AbsorbAsWritten(o, evs[0]), evs[1..])
  }

  /** As written, a speaker that is STOPPED or STARTING stays in one of
      those two states whatever `start`, `stop` or `watch_` does, and the
      dispatch of `loop` never changes the state: the speaker never reaches
      RUNNING, hence never STOPPING, so `stop_` is never called. */
  lemma {:induction false} AsWrittenNeverRunning(o: Owner, evs: seq<Event>, failed: bool)
    requires o.state == StateStopped || o.state == StateStarting
    ensures var s := ObserveAsWritten(o, evs).state; s == StateStopped || s == StateStarting
    ensures var s := AfterStart(o.state, failed); s == StateStopped || s == StateStarting
    ensures var s := AfterStop(o.state, failed); s == StateStopped || s == StateStarting
    decreases |evs|
  {
    if evs != [] && evs[0] != Stopped {
      AsWrittenNeverRunning(AbsorbAsWritten(o, evs[0]), evs[1..], failed);
    }
  }

  /** As written, a speaker whose task has started stays in STARTING, so
      `stop` takes the STARTING shortcut straight to STOPPED: no stop
      command is ever sent, and the task and the I2S lock are never
      reclaimed, since only a STOPPED event from the task releases them. */
  lemma StartedIgnoredKeepsTaskAndLock(o: Owner)
    requires o.state == StateStarting && o.player == Looping && o.locked && o.events == []
    ensures var s := AbsorbAsWritten(AbsorbAsWritten(o, Starting), Started);
      var t := s.(state := AfterStop(s.state, false));
      && s.state == StateStarting
      && t.state == StateStopped
      && Looped(t) == t
      && t.player == Looping && t.locked
  {
  }

  /** `xQueueSendToFront` with `portMAX_DELAY`: `None` when the queue is
      full and nobody will ever make room, so the sender blocks for good. */
  function SendToFront<T>(q: seq<T>, x: T, capacity: nat): (r: Option<seq<T>>)
    ensures r.None? <==> |q| >= capacity
    ensures r.Some? ==> r.value == [x] + q && |r.value| <= capacity
  {
    if |q| >= capacity then None else Some([x] + q)
  }

  /** As written, every `stop_` queues a stop for the feed task, which is
      never created, and no code empties the feed queue: two stops fill it
      and the third blocks the main loop forever. */
  lemma ThirdFeedStopBlocks()
    ensures var q1 := SendToFront([], FeedStop, FEED_QUEUE_LENGTH);
      && q1.Some?
      && var q2 := SendToFront(q1.value, FeedStop, FEED_QUEUE_LENGTH);
      && q2.Some?
      && SendToFront(q2.value, FeedStop, FEED_QUEUE_LENGTH).None?
  {
  }

  /** The I2S bus owner (`parent_`) with the lock the speaker takes before
      starting its task. */
  class I2SAudioComponent {
    var locked: bool

    constructor ()
      ensures !locked
    {
      locked := false;
    }

    /** `try_lock`: succeeds exactly when the lock was free. */
    method TryLock() returns (ok: bool)
      modifies this
      ensures ok == !old(locked) && locked
    {
      ok := !locked;
      locked := true;
    }

    method Unlock()
      modifies this
      ensures !locked
    {
      locked := false;
    }
  }

  class I2SAudioSpeaker {
    const parent: I2SAudioComponent
    const input: RingBuffer
    /** `is_failed()`: set when the ring buffer could not be allocated. */
    const failed: bool
    var state: SpeakerState
    var isPlaying: bool
    var warning: bool
    var player: TaskState
    var playCommands: seq<PlayCommand>
    var playEvents: seq<Event>
    var feedTask: TaskState
    var feedCommands: seq<FeedCommand>
    var feedEvents: seq<Event>
    /** The feed task's locals `feed_type`, `data`, `current`, `remaining`. */
    var feedKind: FeedType
    var feedData: seq<byte>
    var feedCurrent: nat
    var feedRemaining: nat

    ghost predicate Valid()
      reads this, input
    {
      && input.Valid()
      && feedCurrent + feedRemaining == |feedData|
    }

    /** The owner-side view the main loop works on. */
    ghost function Snapshot(): Owner
      reads this, parent, input
    {
      Owner(state, isPlaying, warning, player, parent.locked, input.contents, playCommands, playEvents)
    }

    /** `setup()`, with `failed` telling whether the ring buffer allocation
        failed. */
    constructor (parent: I2SAudioComponent, failed: bool)
      ensures Valid() && fresh(input)
      ensures this.parent == parent && this.failed == failed
      ensures input.capacity == RING_BUFFER_BYTES && input.contents == []
      ensures state == StateStopped && !isPlaying && !warning
      ensures player == NoTask && playCommands == [] && playEvents == []
      ensures feedTask == NoTask && feedCommands == [] && feedEvents == []
      ensures feedCurrent == 0 && feedRemaining == 0 && feedData == []
    {
      this.parent := parent;
      this.failed := failed;
      input := new RingBuffer(RING_BUFFER_BYTES);
      state := StateStopped;
      isPlaying := false;
      warning := false;
      player := NoTask;
      playCommands := [];
      playEvents := [];
      feedTask := NoTask;
      feedCommands := [];
      feedEvents := [];
      feedKind := FileFeed;
      feedData := [];
      feedCurrent := 0;
      feedRemaining := 0;
    }

    method Start()
      modifies this`state
      ensures state == AfterStart(old(state), failed)
    {
      if failed {
        return;
      }
      if state == StateRunning {
        return;
      }
      state := StateStarting;
    }

    method Stop()
      modifies this`state
      ensures state == AfterStop(old(state), failed)
    {
      if state == StateStopped || failed {
        return;
      }
      if state == StateStarting {
        state := StateStopped;
        return;
      }
      state := StateStopping;
    }

    /** `start_`: create the player task once the I2S lock is taken. */
    method StartTask()
      modifies this`player, parent
      ensures parent.locked
      ensures player == (if old(parent.locked) then old(player) else Created)
    {
      var ok := parent.TryLock();
      if !ok {
        return;
      }
      player := Created;
    }

    /** `stop_` with the feed stop sent only to a feed task that exists. */
    method StopTasks()
      modifies this`playCommands, this`feedCommands
      ensures playCommands == [PlayCommand(true)] + old(playCommands)
      ensures feedCommands == (if feedTask != NoTask then [FeedStop] + old(feedCommands) else old(feedCommands))
    {
      playCommands := [PlayCommand(true)] + playCommands;
      if feedTask != NoTask {
        feedCommands := [FeedStop] + feedCommands;
      }
    }

    /** `stop_` as written: the feed stop is always sent, and blocks for
        good (`hangs`) once the feed queue is full. */
    method StopTasksAsWritten() returns (hangs: bool)
      modifies this`playCommands, this`feedCommands
      ensures playCommands == [PlayCommand(true)] + old(playCommands)
      ensures hangs == (|old(feedCommands)| >= FEED_QUEUE_LENGTH)
      ensures feedCommands == (if hangs then old(feedCommands) else [FeedStop] + old(feedCommands))
    {
      playCommands := [PlayCommand(true)] + playCommands;
      var sent := SendToFront(feedCommands, FeedStop, FEED_QUEUE_LENGTH);
      hangs := sent.None?;
      if sent.Some? {
        feedCommands := sent.value;
      }
    }

    /** The handling of one event taken off the play event queue. */
    method Handle(e: Event)
      requires Valid()
      modifies this`state, this`isPlaying, this`warning, this`player, this`playCommands, this`playEvents, parent, input
      ensures Valid()
      ensures Snapshot().(events := []) == Absorb(old(Snapshot()).(events := []), e)
      ensures playEvents == (if e == Stopped then [] else old(playEvents))
    {
      match e
      case Starting =>
      case Started =>
        state := StateRunning;
      case Idle =>
        isPlaying := false;
      case Running =>
        isPlaying := true;
        warning := false;
      case Stopping =>
      case Stopped =>
        state := StateStopped;
        player := NoTask;
        parent.Unlock();
        input.Reset();
        playEvents := [];
        playCommands := [];
      case Warning(_) =>
        warning := true;
    }

    /** `watch_`: drain the play event queue. */
    method Watch()
      requires Valid()
      modifies this`state, this`isPlaying, this`warning, this`player, this`playCommands, this`playEvents, parent, input
      ensures Valid()
      ensures Snapshot() == Watched(old(Snapshot()))
    {
      ghost var goal := Watched(Snapshot());
      while playEvents != []
        invariant Valid()
        invariant Observe(Snapshot().(events := []), playEvents) == goal
        decreases |playEvents|
      {
        var e := playEvents[0];
        ghost var rest := playEvents[1..];
        ghost var before := Snapshot().(events := []);
        playEvents := playEvents[1..];
        Handle(e);
        if e != Stopped {
          assert Snapshot().(events := []) == Absorb(before, e);
          assert playEvents == rest;
        }
      }
      assert Snapshot() == Snapshot().(events := []);
    }

    /** `loop()`. */
    method Loop()
      requires Valid()
      modifies this`state, this`isPlaying, this`warning, this`player, this`playCommands, this`playEvents
      modifies this`feedCommands, parent, input
      ensures Valid()
      ensures Snapshot() == Looped(old(Snapshot()))
      ensures feedCommands == (if Watched(old(Snapshot())).state == StateStopping && feedTask != NoTask
                               then [FeedStop] + old(feedCommands) else old(feedCommands))
    {
      Watch();
      ghost var w := Snapshot();
      match state
      case StateStarting =>
        StartTask();
        assert Snapshot() == (if w.locked then w else w.(locked := true, player := Created));
      case StateRunning =>
      case StateStopping =>
        StopTasks();
      case StateStopped =>
    }

    /** `write`: start the speaker unless it is running or starting, then
        store what fits. */
    method Write(data: seq<byte>) returns (written: nat)
      requires Valid()
      modifies this`state, input
      ensures Valid()
      ensures state == AfterStart(old(state), failed)
      ensures written == Min(|data|, input.capacity - |old(input.contents)|)
      ensures input.contents == old(input.contents) + data[..written]
    {
      if state != StateRunning && state != StateStarting {
        Start();
      }
      var freeSpace := input.Free();
      var howMuch := Min(|data|, freeSpace);
      written := 0;
      if howMuch > 0 {
        written := input.Write(data[..howMuch]);
      }
    }

    /** One round of `play`: a `write` of the rest of the data, then the
        `delay(10)` during which the player task takes up to `drain` bytes. */
    method PlayRound(rest: seq<byte>, drain: nat) returns (written: nat, taken: seq<byte>)
      requires Valid()
      modifies this`state, input
      ensures Valid()
      ensures state == AfterStart(old(state), failed)
      ensures written <= |rest|
      ensures old(input.contents) + rest[..written] == taken + input.contents
    {
      written := Write(rest);
      taken := input.Read(drain);
    }

    /** `play`: write the rest of `data` until all of it is stored. Between
        two writes the `delay(10)` lets the player task take `drains[k]`
        bytes; the loop stops early only when the schedule runs out. */
    method Play(data: seq<byte>, drains: seq<nat>) returns (index: nat, played: seq<byte>, rounds: nat)
      requires Valid()
      modifies this`state, input
      ensures Valid()
      ensures index <= |data| && rounds <= |drains|
      ensures index == |data| || rounds == |drains|
      ensures old(input.contents) + data[..index] == played + input.contents
      ensures state == (if |data| > 0 && |drains| > 0 then AfterStart(old(state), failed) else old(state))
    {
      var remaining: nat := |data|;
      index := 0;
      played := [];
      rounds := 0;
      while remaining > 0 && rounds < |drains|
        invariant Valid()
        invariant index + remaining == |data|
        invariant rounds <= |drains|
        invariant rounds == 0 ==> remaining == |data|
        invariant |data| == 0 ==> rounds == 0
        invariant old(input.contents) + data[..index] == played + input.contents
        invariant state == (if rounds > 0 then AfterStart(old(state), failed) else old(state))
        decreases |drains| - rounds
      {
        ghost var before := input.contents;
        var written, taken := PlayRound(data[index..], drains[rounds]);
        ghost var chunk := data[index..][..written];
        assert data[..index + written] == data[..index] + chunk;
        calc {
          old(input.contents) + data[..index + written];
          (old(input.contents) + data[..index]) + chunk;
          (played + before) + chunk;
          played + (before + chunk);
          played + (taken + input.contents);
          (played + taken) + input.contents;
        }
        remaining := remaining - written;
        index := index + written;
        played := played + taken;
        rounds := rounds + 1;
      }
    }

    /** The prologue of `player_task`: STARTING, then the scratch buffer and
        the I2S driver set-up; a failure is reported as a WARNING and
        STOPPED, after which the task parks. `driverError` is the first
        error of the driver install and the pin or DAC set-up. */
    method PlayerLaunch(scratchOk: bool, driverError: Option<int>)
      requires player == Created
      modifies this`player, this`playEvents
      ensures playEvents == old(playEvents) + [Starting] +
        (if !scratchOk then [Warning(NoMem), Stopped]
         else if driverError.Some? then [Warning(DriverError(driverError.value)), Stopped]
         else [Started])
      ensures player == (if scratchOk && driverError.None? then Looping else Parked)
    {
      playEvents := playEvents + [Starting];
      if !scratchOk {
        playEvents := playEvents + [Warning(NoMem), Stopped];
        player := Parked;
        return;
      }
      if driverError.Some? {
        playEvents := playEvents + [Warning(DriverError(driverError.value)), Stopped];
        player := Parked;
        return;
      }
      playEvents := playEvents + [Started];
      player := Looping;
    }

    /** One iteration of the `player_task` loop, followed by the task's exit
        path. `accepted` is the byte count `i2s_write_expand` reports. */
    method PlayerStep(accepted: nat) returns (exit: bool, sent: seq<byte>)
      requires Valid() && player == Looping
      modifies this`player, this`playCommands, this`playEvents, input
      ensures Valid() && playCommands == Rest(old(playCommands))
      ensures var cmd := Front(old(playCommands));
        exit == (cmd.Some? && cmd.value.stop)
      // a stop command leaves the loop before anything is read
      ensures exit ==>
        && sent == [] && input.contents == old(input.contents)
        && playEvents == old(playEvents) + [Stopping, Stopped] && player == Parked
      // otherwise at most one chunk is taken, in FIFO order
      ensures !exit ==>
        && sent == Taken(old(input.contents), PLAYER_CHUNK_BYTES)
        && old(input.contents) == sent + input.contents
        && playEvents == old(playEvents) +
             (if sent == [] then [Idle]
              else (if accepted != |sent| then [Warning(Timeout)] else []) + [Running])
        && player == Looping
    {
      var cmd := Front(playCommands);
      playCommands := Rest(playCommands);
      exit := cmd.Some? && cmd.value.stop;
      sent := [];
      if exit {
        playEvents := playEvents + [Stopping];
        playEvents := playEvents + [Stopped];
        player := Parked;
        return;
      }
      var bytesToRead := Min(PLAYER_CHUNK_BYTES, input.Available());
      sent := input.Read(bytesToRead);
      if |sent| > 0 {
        if accepted != |sent| {
          playEvents := playEvents + [Warning(Timeout)];
        }
        playEvents := playEvents + [Running];
      } else {
        playEvents := playEvents + [Idle];
      }
    }

    /** The prologue of `feed_task`: STARTING and STARTED, then the receive
        buffer check, which reports a WARNING and STOPPED on failure. */
    method FeedLaunch(scratchOk: bool)
      requires feedTask == Created
      modifies this`feedTask, this`feedEvents, this`feedCurrent, this`feedRemaining, this`feedData
      ensures feedEvents == old(feedEvents) + [Starting, Started] + (if scratchOk then [] else [Warning(NoMem), Stopped])
      ensures feedTask == (if scratchOk then Looping else Parked)
      ensures feedCurrent == 0 && feedRemaining == 0 && feedData == []
    {
      feedEvents := feedEvents + [Starting];
      feedData := [];
      feedRemaining := 0;
      feedCurrent := 0;
      feedEvents := feedEvents + [Started];
      if !scratchOk {
        feedEvents := feedEvents + [Warning(NoMem), Stopped];
        feedTask := Parked;
        return;
      }
      feedTask := Looping;
    }

    /** One iteration of the `feed_task` loop, followed by its exit path. A
        new feed restarts the bookkeeping; a FILE feed with bytes left is
        written on, and every write keeps `current + remaining` at the feed
        length. */
    method FeedStep() returns (exit: bool)
      requires Valid() && feedTask == Looping
      modifies this`state, this`feedTask, this`feedCommands, this`feedEvents
      modifies this`feedKind, this`feedData, this`feedCurrent, this`feedRemaining, input
      ensures Valid() && feedCommands == Rest(old(feedCommands))
      ensures exit == (Front(old(feedCommands)) == Some(FeedStop))
      ensures exit ==>
        && feedEvents == old(feedEvents) + [Stopped] && feedTask == Parked
        && input.contents == old(input.contents) && state == old(state)
        && feedKind == old(feedKind) && feedData == old(feedData)
        && feedCurrent == old(feedCurrent) && feedRemaining == old(feedRemaining)
      ensures !exit ==>
        var cmd := Front(old(feedCommands));
        var newFeed := cmd.Some? && cmd.value.Feed?;
        var kind := if newFeed then cmd.value.kind else old(feedKind);
        var data := if newFeed then cmd.value.data else old(feedData);
        var current := if newFeed then 0 else old(feedCurrent);
        var remaining := if newFeed then |data| else old(feedRemaining);
        var writes := remaining > 0 && kind == FileFeed;
        var written := |input.contents| - |old(input.contents)|;
        && feedTask == Looping && feedEvents == old(feedEvents)
        && feedKind == kind && feedData == data
        && (writes ==>
              && written == Min(remaining, input.capacity - |old(input.contents)|)
              && input.contents == old(input.contents) + data[current..][..written]
              && feedCurrent == current + written && feedRemaining == remaining - written
              && state == AfterStart(old(state), failed))
        && (!writes ==>
              && input.contents == old(input.contents) && state == old(state)
              && feedCurrent == current && feedRemaining == remaining)
    {
      var cmd := Front(feedCommands);
      feedCommands := Rest(feedCommands);
      if cmd == Some(FeedStop) {
        feedEvents := feedEvents + [Stopped];
        feedTask := Parked;
        return true;
      }
      exit := false;
      if cmd.Some? {
        feedKind := cmd.value.kind;
        feedData := cmd.value.data;
        feedRemaining := |cmd.value.data|;
        feedCurrent := 0;
      }
      if feedRemaining > 0 && feedKind == FileFeed {
        var written := Write(feedData[feedCurrent..]);
        feedRemaining := feedRemaining - written;
        feedCurrent := feedCurrent + written;
      }
    }

    function HasBufferedData(): (r: bool)
      reads this, input
      ensures r <==> input.contents != []
    {
      input.Available() > 0
    }
  }
}
