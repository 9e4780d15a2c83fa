/** Option and Result values for the outcomes the Python code signals with `None`-like
    "no selection" checks and with exceptions. */
module Results {

  datatype Option<+T> = None | Some(value: T)

  datatype Result<+R, +E> = Ok(value: R) | Err(error: E)
}
