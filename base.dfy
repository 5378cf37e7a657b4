/** Small shared vocabulary: optional values and opaque instants. */
module Base {

  /** A value that may be absent: Python's `None`, JavaScript's `null`. */
  datatype Option<+T> = None | Some(value: T)

  /** An instant as the database stores it (`db.DateTime`). Only its order matters here. */
  type Time = int
}
