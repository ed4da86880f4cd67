/** Optional values and hook status codes. */
module Wrappers {
  datatype Option<+T> = None | Some(value: T)

  /** The SPANK codes the plugin returns, kept distinct. */
  datatype Rc = Success | BadArg | Error
}
