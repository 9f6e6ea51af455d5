/**
 * The four client libraries the façade composes, each reduced to an opaque
 * handle that records what it was built with and the token it carries.
 */
module SubClients {
  import opened Wrappers

  /**
   * A query-builder client: its base URL, schema and the headers it was
   * built with, and the token of its latest `SetAuthToken` call.
   */
  datatype RestHandle = RestHandle(baseURL: string, schema: string, headers: map<string, string>, token: Option<string>)

  function NewRest(baseURL: string, schema: string, headers: map<string, string>): RestHandle
  {
    RestHandle(baseURL, schema, headers, None)
  }

  /** Sets the bearer token of the query-builder client in place. */
  function SetAuthToken(r: RestHandle, token: string): RestHandle
  {
    r.(token := Some(token))
  }

  /** A storage or functions client, fixed at construction: base URL, token, headers. */
  datatype Handle = Handle(baseURL: string, token: string, headers: map<string, string>)

  /**
   * An auth client: the project reference and key it was created with, the
   * custom auth URL it was pointed at, and the token it was cloned with.
   */
  datatype AuthHandle = AuthHandle(project: string, apiKey: string, customURL: Option<string>, token: Option<string>)

  function NewAuth(project: string, apiKey: string): AuthHandle
  {
    AuthHandle(project, apiKey, None, None)
  }

  function WithCustomAuthURL(a: AuthHandle, url: string): AuthHandle
  {
    a.(customURL := Some(url))
  }

  /** A new auth client like `a` but bound to `token`; `a` itself is a value and stays as it is. */
  function AuthWithToken(a: AuthHandle, token: string): AuthHandle
  {
    a.(token := Some(token))
  }
}
