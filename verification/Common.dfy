/** Names shared by every component. */
module Common {

  datatype Option<+T> = None | Some(value: T)

  /** The number a snowflake node generates; the program prints it in decimal. */
  type OrderNo = nat

  // Times and durations are nanoseconds, as in the program.
  const SECOND := 1_000_000_000
  const MINUTE := 60 * SECOND

  type UserId = int
  type ActivityId = int
  type ProductId = int
}
