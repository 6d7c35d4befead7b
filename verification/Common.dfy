/** Small definitions shared by every component of the model. */
module Common {

  datatype Option<+T> = None | Some(value: T)

  /** Every clock in the model counts microseconds, the resolution of the source's timestamps. */
  const SECOND: int := 1_000_000

  /** `int(clock())`: the whole second an instant falls in (instants are never before the epoch). */
  function WholeSecond(t: nat): (r: nat)
    ensures r * 1_000_000 <= t < (r + 1) * 1_000_000
  {
    t / 1_000_000
  }
}
