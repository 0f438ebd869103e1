/** Values that may be absent: the zero time.Time, a NULL column, pgx.ErrNoRows. */
module Wrappers {
  datatype Option<+T> = None | Some(value: T)
}
