/** The exceptions the client and the authorization flow raise, as values. */
module Errors {

  datatype Error =
    | ValueError(message: string)   // raised by the code's own guards
    | HttpError(status: int)        // raised by `raise_for_status` on a non-success response
    | KeyError(key: string)         // a missing key in a response or in the captured redirect

  /** Message of the credential check in both constructors. */
  const MissingCredentials: string := "Please set CLIENT_ID and CLIENT_SECRET in .env file"

  /** Message of the guard in `create_playlist`. */
  const CollaborativePublic: string := "A collaborative playlist cannot be public"

  /** Message of the redirect-state comparison in `authorize`. */
  const StateMismatch: string := "State parameter does not match"
}
