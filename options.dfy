/** The conventional optional value; `None` stands for a Java `null`. */
module Options {

  datatype Option<+T> = None | Some(value: T)
}
