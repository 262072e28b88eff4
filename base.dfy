/** Value types shared by the engine stand-ins, the session model and the session class. */
module Base {

  /** C#'s 32-bit `int`; values are only stored and read back, so no wrap-around arises. */
  newtype int32 = x: int | -0x8000_0000 <= x < 0x8000_0000

  /** Presence or absence of a value, used where the C# code uses `null`. */
  datatype Option<+T> = None | Some(value: T)
}
