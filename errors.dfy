/** The errors the authenticator raises, and the Python exception class each one belongs to. */
module AuthErrors {

  /** The Python exception family an error is raised as. */
  datatype ErrorKind = ValueError | TypeError | OAuthError

  datatype AuthError =
    /** No subject id was passed and none has been bound before. */
    | MissingSubject
    /** The user argument is neither a string nor a User object. */
    | UnsupportedUserType
    /** An enterprise id was passed that differs from the one already bound. */
    | EnterpriseMismatch(given: string, bound: string)
    /** The token endpoint did not answer with an access token. */
    | TokenRequestFailed(statusCode: int, content: string)
  {
    function Kind(): ErrorKind {
      match this
      case MissingSubject => ValueError
      case UnsupportedUserType => TypeError
      case EnterpriseMismatch(_, _) => ValueError
      case TokenRequestFailed(_, _) => OAuthError
    }
  }
}
