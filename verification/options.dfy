/** The optional-value datatype shared by the string layer and the Hack machine. */
module Options {

  datatype Option<+T> = None | Some(value: T)
}
