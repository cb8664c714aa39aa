/** Optional values, results, and the exceptions the wrapper raises. */
module Results {

  datatype Option<+T> = None | Some(value: T) {
    function GetOr(default: T): T {
      match this
      case Some(v) => v
      case None => default
    }
  }

  datatype Result<+T, +E> = Success(value: T) | Failure(error: E)

  /** The exceptions raised on the modelled paths. The first five are the
      wrapper's own exception classes; the last three are the Python runtime
      errors that the code as written runs into. */
  datatype Error =
    | InvalidState                     // InvalidStateException
    | InvalidArguments                 // InvalidArgumentsException
    | NoEncryptionPassword             // NoEncryptionPasswordException
    | VaultNotUnlocked                 // VaultNotUnlockedException
    | AuthenticationFailed(email: string, url: string)
    | TypeError                        // subscripting or iterating `None`
    | ValueError                       // `str.index` finds no '='
    | AttributeError                   // `__eq__` against an item of another variant
}
