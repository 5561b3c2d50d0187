/** Vocabulary shared by every module: identifiers, users, outcomes. */
module Common {

  datatype Option<+T> = None | Some(value: T)

  /** What a handler answers: a value, or one of the API's error outcomes. */
  datatype Result<+T> = Ok(value: T) | Err(error: Error)

  /** The error outcomes of the API, one per status the handlers send. */
  datatype Error =
    | BadRequest        // 400: a body field is missing or has a value outside its enum
    | AlreadyValidated  // 400: the caller's approval is already recorded
    | AlreadyRejected   // 400: a treasurer rejection is already recorded
    | Unauthorized      // 401: no usable credential, or no user id in the path
    | Forbidden         // 403: the caller's role is not allowed on the route
    | NotFound          // 404: the transaction or user does not exist
    | Internal          // 500: the handler's catch clause, or a crash in the middleware
    | ValidationFailed  // the schema refused the document when it was saved

  /** A user reference, in the string form the handlers compare and store. */
  type UserId = string

  /** A transaction's identifier: its position in the store. */
  type TxId = nat

  /** A timestamp; only its order matters to the model. */
  type Date = int

  /** A user as the middleware attaches it to a request (without the password). */
  datatype User = User(id: UserId, username: string, role: string)

  const Tresorier: string := "tresorier"
  const President: string := "president"
  const PCO: string := "PCO"
  const Member: string := "user"
}
