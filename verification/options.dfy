/** An optional value: a lookup that found something, or one that did not. */
module Options {

  datatype Option<T> = None | Some(value: T)
}
