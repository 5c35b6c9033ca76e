/** The optional value used for the fields a JavaScript object may lack. */
module Options {

  datatype Option<+T> = None | Some(value: T)
}
