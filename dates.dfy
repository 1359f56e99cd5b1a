/** Calendar instants. */
module Dates {
  /** A `Date`, abstracted to a whole day number counted from 1970-01-01. */
  type Date = int
}
