/** Vocabulary shared by every service of the reservation saga: nullable
    values, the exceptions a service method throws, reference ids, the clock
    and money. */
module Common {

  /** A Java reference that may be null. */
  datatype Option<+T> = None | Some(value: T)

  /** The exceptions a service method ends with, by kind. A method that throws
      returns `Failure`; one that returns normally returns `Success`. */
  datatype Error =
    | ResourceNotFound(message: string)  // ResourceNotFoundException
    | BusinessRule(message: string)      // BusinessException
    | NullPointer                        // NullPointerException
    | IndexOutOfBounds                   // array or string index out of range
    | NegativeSize                       // NegativeArraySizeException
    | DuplicateKey(column: string)       // a unique constraint refused the save
    | NullColumn(column: string)         // a NOT NULL column refused the save
    | RemoteCallFailed(message: string)  // the REST call failed; the message names the call

  datatype Result<+T> = Success(value: T) | Failure(error: Error)

  /** Outcome of a service method that returns void. */
  datatype Status = Done | Failed(error: Error)

  /** Reference ids (UUIDs) in their text form: the booking side stores the
      ids of the journey side as strings and converts them back verbatim. */
  type Uuid = string

  /** Instants on an integer clock counting minutes. */
  type Time = int

  /** Fares, amounts and multipliers, which the source keeps in `Double`. */
  type Money = real
}
