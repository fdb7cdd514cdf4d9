/**
 * The ambient time-range selection that report components consume.
 * The provider component itself is not part of this model; only the shape of
 * the value it hands to consumers is.
 */
module TimeRangeContext {

  /** A selected window, as start and end timestamps. */
  datatype TimeRange = TimeRange(from: int, until: int)
}
