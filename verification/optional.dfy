/** The absent-or-present value a sensor read produces. */
module Optional {

  /** `None` is a failed read; `Some(v)` carries the value read. */
  datatype Option<+T> = None | Some(value: T)
}
