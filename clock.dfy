/** The stores read the clock through `Date.now()` and `new Date().toISOString()`. */
module Clock {

  /**
   * One reading of the clock, passed in by the caller: the milliseconds
   * since the epoch and the same instant as an ISO-8601 string.
   */
  datatype Instant = Instant(millis: nat, iso: string)
}
