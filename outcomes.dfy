/** Outcomes shared by the storefront's handlers. */
module Outcomes {

  /** The failures the handlers report, one per distinct response of the server. */
  datatype Error =
    | MissingCredential   // no `auth-token` header
    | InvalidCredential   // a token that does not verify against the shared secret
    | UserNotFound        // a verified token whose user id matches no stored user
    | DuplicateEmail      // signup with an email that is already registered
    | UnknownEmail        // login with an email that no user has
    | WrongPassword       // login with a registered email and another password
    | OrderNotFound       // confirmation of an order id that is not stored
    | ValidationError     // a record the schema rejects at save: a required string is empty

  datatype Result<T> = Ok(value: T) | Err(error: Error)

  datatype Option<T> = None | Some(value: T)
}
