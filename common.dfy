/** Types shared by several screens of the application. */
module Common {

  /** A value that may be absent (the source's `null` / `undefined`). */
  datatype Option<T> = None | Some(value: T)

  /** The two kinds of simulation the application offers: 'finite' and 'daily'. */
  datatype SimulationType = Finite | Daily
}
