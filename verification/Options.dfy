/** The nullable column and the nullable pointer of the modelled program. */
module Options {
  datatype Option<+T> = None | Some(value: T)
}
