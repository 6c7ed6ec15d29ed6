/** Shared vocabulary of the dashboard model: calendar days and optional values. */
module Common {

  /** A calendar date as a day number. Every date comparison in the dashboard
      is made on `.dt.date`, i.e. on whole days, so a day number is enough. */
  type Day = int

  /** A value that may be absent: a NaT date, a missing minimum, an empty view. */
  datatype Option<+T> = None | Some(value: T)

  /** The outcome of an operation that can raise: its value, or the error. */
  datatype Result<+T, +E> = Ok(value: T) | Err(error: E)

  /** The selector value that imposes no constraint. */
  const AllOption: string := "All"

  /** How many stores the top-store charts show. */
  const TopStoreCount: nat := 10
}
