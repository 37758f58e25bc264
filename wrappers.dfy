/** A value that may be missing. In this model `None` stands for a result that
    single-precision arithmetic would produce as NaN or an infinity. */
module Wrappers {

  datatype Option<+T> = None | Some(value: T)
}
