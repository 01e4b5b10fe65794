/** The absent-or-present value used for Kotlin's nullable results and Go's error-or-value pairs. */
module Optional {

  datatype Option<+T> = None | Some(value: T)
}
