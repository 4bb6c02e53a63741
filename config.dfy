/**
 * The client credentials both entry points read from the environment, and the
 * check both constructors make before anything else happens.
 */
module Config {
  import opened Wrappers
  import opened Errors
  import opened Text

  /** A client id and secret that passed the check: both present and non-empty. */
  datatype Credentials = Credentials(clientId: string, clientSecret: string)

  /** Python truthiness of an environment lookup: present and not the empty string. */
  predicate Given(value: Option<string>) {
    value.Some? && value.value != ""
  }

  /** Both values must be given and non-empty, or the constructor raises a ValueError. */
  function LoadCredentials(clientId: Option<string>, clientSecret: Option<string>): (r: Result<Credentials, Error>)
    ensures r.Success? <==> Given(clientId) && Given(clientSecret)
    ensures r.Success? ==> r.value.clientId == clientId.value && r.value.clientSecret == clientSecret.value
    ensures r.Failure? ==> r.error == ValueError(MissingCredentials)
  {
    if !Given(clientId) || !Given(clientSecret) then Failure(ValueError(MissingCredentials))
    else Success(Credentials(clientId.value, clientSecret.value))
  }

  /**
   * The text `client_id:client_secret` that is base64-encoded into the Basic
   * authorization header of the token request.
   */
  function BasicCredentials(c: Credentials): string {
    c.clientId + ":" + c.clientSecret
  }

  /** A client id without a colon can be told apart from its secret in the Basic credential text. */
  lemma BasicCredentialsSplit(c: Credentials)
    requires ':' !in c.clientId
    ensures SplitFirst(BasicCredentials(c), ':') == (c.clientId, c.clientSecret)
  {
    SplitFirstAfter(c.clientId, c.clientSecret, ':');
  }
}
