/** Option and Result datatypes used for the outcomes of the find pipeline. */
module Wrappers {

  datatype Option<+T> = None | Some(value: T)

  /** Either a value or an error; stands for "returns normally" versus "throws". */
  datatype Result<+R, +E> = Ok(value: R) | Err(error: E)
}
