/** An optional value: the model of a JavaScript lookup that may yield undefined. */
module Options {

  datatype Option<+T> = None | Some(value: T)
}
