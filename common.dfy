/** Small shared vocabulary. */
module Common {

  /** An optional value: `None` stands for "absent", as a missing file or dictionary key. */
  datatype Option<+T> = None | Some(value: T)
}
