/** The PostgreSQL tables that the control plane's repositories share, as values. */
module Tables {

  /** A UUID column. `NIL` is Go's `uuid.Nil`, which several guards treat specially. */
  type Uuid = nat
  const NIL: Uuid := 0

  /** An instant, in nanoseconds. */
  type Time = int

  datatype Option<+T> = None | Some(value: T)

  function Max(x: int, y: int): int {
    if x < y then y else x
  }
}
