/** Values exchanged between the extension's surfaces and the browser-tools server. */
module Protocol {

  datatype Option<+T> = None | Some(value: T)

  /** The literal a genuine browser-tools server puts in the `signature` field of `/.identity`. */
  const SIGNATURE: string := "mcp-browser-connector-24x7"

  /** A candidate server: a host name and a port. */
  datatype Endpoint = Endpoint(host: string, port: int)

  /** The settings the background scripts fall back on when none are stored. */
  const DEFAULT_ENDPOINT: Endpoint := Endpoint("localhost", 3025)

  /** What the stored `browserConnectorSettings` designate: the stored endpoint, else the default. */
  function Target(stored: Option<Endpoint>): (e: Endpoint)
    ensures stored.None? ==> e == DEFAULT_ENDPOINT
    ensures stored.Some? ==> e == stored.value
  {
    match stored
    case None => DEFAULT_ENDPOINT
    case Some(s) => s
  }

  /** The JSON body of an identity response: unparsable, or an object whose `signature` may be absent. */
  datatype Body = Malformed | Json(signature: Option<string>)

  /**
   * The answer to one `GET /.identity`: a transport failure (refused, timed out or aborted),
   * or an HTTP response with its `ok` flag and its body.
   */
  datatype Probe = TransportError | Response(ok: bool, body: Body)

  /** A string value as JavaScript tests it: present and non-empty. */
  predicate HasText(s: Option<string>)
  {
    s.Some? && s.value != ""
  }

  /** One call of `updateServerWithUrl(tabId, url, source)`, as the listeners issue it. */
  datatype UrlSync = UrlSync(tabId: int, url: string, source: string)

  /** An HTTP request a background script sends to the server. */
  datatype Request =
    | IdentityGet(target: Endpoint)
    | UrlPost(target: Endpoint, url: string, tabId: int, source: string)

  /** The runtime messages the devtools panel listens for. */
  datatype RuntimeMessage =
    | ConnectionStatusUpdate(isConnected: bool, tabId: int)
    | InitiateAutoDiscovery(reason: string, tabId: int, forceRestart: bool)
    | ServerValidationSuccess
    | ServerValidationFailed(reason: string)
    | WebSocketConnected
    | OtherMessage
}
