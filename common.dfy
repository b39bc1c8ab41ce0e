/** Types shared by every stage of the audio streaming pipeline: bytes, the
    command and event messages carried by the FreeRTOS queues, and the life
    cycle of a worker task. */
module Common {

  /** One byte of audio payload (`uint8_t`). */
  newtype byte = x: int | 0 <= x < 256

  datatype Option<T> = None | Some(value: T)

  function Min(a: nat, b: nat): (r: nat)
    ensures r <= a && r <= b && (r == a || r == b)
  {
    if a <= b then a else b
  }

  /** `CommandEventType`; a DUCK command carries its ratio already converted
      to the Q15 fixed-point integer the mixer stores. */
  datatype Command = Start | Stop | StopGracefully | Duck(q15: int) | PauseMedia | ResumeMedia

  /** The `esp_err_t` codes a task reports with a WARNING event. */
  datatype ErrorCode = NoMem | Timeout | DriverError(code: int)

  /** `EventType` / `TaskEventType`. */
  datatype Event = Starting | Started | Running | Idle | Stopping | Stopped | Warning(err: ErrorCode)

  /** The FreeRTOS task behind a stage: not created, created but not yet past
      its prologue, inside its `while (true)` loop, or parked in the final
      `while (true) delay(10)` after reporting STOPPED. */
  datatype TaskState = NoTask | Created | Looping | Parked

  /** What `xQueueReceive` with a short timeout hands a task: the oldest
      queued message, if there is one. */
  function Front<T>(q: seq<T>): (r: Option<T>)
    ensures r.Some? <==> q != []
    ensures r.Some? ==> r.value == q[0]
  {
    if q == [] then None else Some(q[0])
  }

  /** The queue after `Front` has been taken. */
  function Rest<T>(q: seq<T>): (r: seq<T>)
    ensures q == [] ==> r == []
    ensures q != [] ==> [q[0]] + r == q
  {
    if q == [] then [] else q[1..]
  }
}
