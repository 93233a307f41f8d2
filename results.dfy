/** Python-level outcomes of the client's coroutines: a value that may be
    `None`, and a call that either returns or raises `KeyError`. */
module Results {

  /** A Python value that may be `None`. */
  datatype Option<+T> = None | Some(value: T)

  /** What a coroutine does: return a value, or raise `KeyError` for a
      missing header (`headers["ETag"]`, `headers["Set-Cookie"]`). */
  datatype Outcome<+T> = Return(value: T) | RaiseKeyError(key: string)
}
