/** Shared value types: a nullable reference, the two exception kinds of the
    narrative code, and a result that carries one of them. */
module Common {

  /** A Java reference that may be null. */
  datatype Option<T> = None | Some(value: T)

  /** Why an operation failed.  GraphElementNotFound is the runtime's
      exception; the others are the editor's IllegalOperationException with
      its message key (Strings.ITEM_DOES_NOT_EXIST, ...), plus the two
      unchecked failures the editor code can run into. */
  datatype Error =
    | GraphElementNotFound(id: string)
    | ItemDoesNotExist(name: string)
    | ItemAlreadyExists(name: string)
    | CannotFormat(value: string)
    | NullReference
    | IndexOutOfBounds(index: int)
    | NothingToUndo
    | NothingToRedo
    | IOError

  datatype Result<T> = Ok(value: T) | Err(error: Error)
}
