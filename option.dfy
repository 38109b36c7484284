/** An optional value: `None` stands for a Python exception that ends the script. */
module Opt {
  datatype Option<+T> = None | Some(value: T)
}
