/** The optional value used wherever the source uses `None` or an empty result. */
module Optional {

  datatype Option<+T> = None | Some(value: T)
}
