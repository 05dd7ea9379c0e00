/** An optional value: what JavaScript expresses with `null`/`undefined`. */
module Options {

  datatype Option<T> = None | Some(value: T)

}
