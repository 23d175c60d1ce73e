/** Option and Result types shared by the home-screen model. */
module Wrappers {

  datatype Option<T> = None | Some(value: T)

  /** The outcome of a computation that may hit `std::string::resize(size() - 5)`
      with `size() < 5`: the unsigned subtraction wraps around and the resize
      cannot be carried out (the firmware fails instead of drawing). */
  datatype Result<T> = Ok(value: T) | Underflow
}
