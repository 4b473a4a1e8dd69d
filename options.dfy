/** The conventional Some/None datatype, used for "this overload set yields no viable call". */
module Options {

  datatype Option<+T> = None | Some(value: T)
}
