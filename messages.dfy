/**
 * Values exchanged between the four parts of the extension: the popup, the
 * background relay (api-client.ts), the page-side API client (content-api.ts)
 * and the page's token bridge (fetch-interceptor.js).
 */
module Messages {

  datatype Option<+T> = None | Some(value: T)

  /** A settled promise: fulfilled with a value, or rejected with an Error carrying `message`. */
  datatype Result<+T> = Ok(value: T) | Err(message: string)

  /** JavaScript truthiness of a value that is a string or absent (`undefined`/`null`): `''` is falsy too. */
  predicate Truthy(s: Option<string>) {
    s.Some? && s.value != ""
  }

  /**
   * What a fulfilled request carries in `data`: the `'pong'` answer to a
   * liveness probe, or a decoded JSON document, identified by its text.
   */
  datatype Data = Pong | Json(text: string)

  /** The `{success, data?, error?}` reply envelope of the content script. */
  datatype Envelope = Envelope(success: bool, data: Option<Data>, error: Option<string>)

  /** A message from the popup: `{action, offset?, limit?, id?}`; an absent field is `undefined`. */
  datatype Request = Request(action: string, offset: Option<int>, limit: Option<int>, id: Option<string>)

  const PING := "ping"
  const GET_CONVERSATIONS := "getConversations"
  const GET_MEMORIES := "getMemories"
  const DELETE_CONVERSATION := "deleteConversation"
  const DELETE_MEMORY := "deleteMemory"
  const CLEAR_TOKEN_CACHE := "clearTokenCache"

  /** A `window.postMessage` payload on the page: `{type, token?}`. */
  datatype WindowMessage = WindowMessage(kind: string, token: Option<string>)

  /** A `message` event: its payload, and whether `event.source === window`. */
  datatype WindowEvent = WindowEvent(fromSameWindow: bool, data: WindowMessage)

  const GET_AUTH_TOKEN := "GET_AUTH_TOKEN"
  const AUTH_TOKEN := "AUTH_TOKEN"

  /** The bridge's answer, carrying the stored token (or `null`). */
  function TokenAnswer(stored: Option<string>): WindowMessage {
    WindowMessage(AUTH_TOKEN, stored)
  }
}
