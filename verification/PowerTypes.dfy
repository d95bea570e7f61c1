/** Vocabulary shared by the models. */
module PowerTypes {

  datatype PowerState = Unknown | Off | Standby | On | LightSleep | DeepSleep

  datatype Status = ErrorNone | ErrorGeneral | ErrorInvalidParameter | ErrorIllegalState

  datatype Option<+T> = None | Some(value: T)

  type byte = x: int | 0 <= x < 0x100

  /** What an attempt to open and write a file comes to: it cannot be opened, it is opened (and
      created if missing) but not written, or it is written. */
  datatype Access = Unopened | Unwritten | Writable

  /** The power state of settings that were never loaded. */
  const DEFAULT_STATE: PowerState := On

  /** Number of values of the unsigned 32-bit counters of the source. */
  const U32_RANGE: int := 0x1_0000_0000

  function Max(a: int, b: int): int {
    if a < b then b else a
  }
}
