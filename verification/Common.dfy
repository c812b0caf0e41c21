/** What several modules share. */
module Common {
  datatype Option<+T> = None | Some(value: T)

  const COMMA := ", "
}
