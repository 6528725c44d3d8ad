/** The fixed sizes of the library. */
module Limits {
  /** The slots of a row of the subscriber table, 1 to 15. */
  const SLOTS := 15
  /** The rows of the table. */
  const BUSSES := 7
  /** The slots of the array of the pool, of which slot 0 stays free. */
  const POOL_SIZE := 128
}
