/** A value that may be absent: used where the source produces no usable
    number (an undefined statistic) or no result at all (no data loaded). */
module Wrappers {
  datatype Option<+T> = None | Some(value: T)
}
