/** Vocabulary shared by every component of the model. */
module Common {

  datatype Option<+T> = None | Some(value: T)

  /** Points of the wall clock, in seconds. */
  type Time = int
}
