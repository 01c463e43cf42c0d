/** Optional values and results with an error, standing in for Python's `None` and raised exceptions. */
module Wrappers {
  datatype Option<T> = None | Some(value: T)

  /** The exceptions the modelled code can raise. */
  datatype Error =
    | ValueError(msg: string)
    | KeyError(key: string)
    | IndexError
    | OverflowError
    | RuntimeError(msg: string)
    | AttributeError(msg: string)
    /** A file that does not exist; for a gadget's device node, the report ID whose `hid.usb<id>` function
        directory is missing. */
    | FileNotFoundError(reportId: int)
    | OSError(msg: string)

  datatype Result<T> = Ok(value: T) | Err(error: Error)
}
