/**
 * The page-side API client (src/content-api.ts): the content script that
 * answers the popup's messages by calling the site's private HTTP API with
 * the captured credential. The network is an oracle: each `fetch` is given
 * as the outcome it had.
 */
module PageApi {
  import opened Messages
  import opened Text

  const ORIGIN := "https://chatgpt.com"
  const REQUEST_TIMEOUT_MS: nat := 30000

  const UNKNOWN_ACTION := "Unknown action"
  const NO_TOKEN := "No auth token found"
  const TOKEN_WAIT_EXPIRED := "Failed to get auth token"
  const LOGICAL_FAILURE := "Delete operation returned success: false"

  // ---------------------------------------------------------------------------
  // HTTP outcomes

  /** What `response.json()` gives: a document whose `success` field is truthy or not, or a parse error. */
  datatype JsonBody = Parsed(successTruthy: bool) | Unparsable(message: string)

  /** What one `fetch` did: answered, was aborted by the request timer, or rejected with an error. */
  datatype FetchOutcome =
    | Responded(status: nat, body: string, json: JsonBody)
    | Aborted
    | Threw(message: string)

  datatype HttpResponse = HttpResponse(status: nat, body: string, json: JsonBody)

  /** One request the client sent: method, endpoint, headers and body. */
  datatype HttpRequest = HttpRequest(verb: Verb, endpoint: Endpoint, headers: map<string, string>, body: Option<Payload>)

  datatype Verb = GET | POST | PATCH | DELETE

  /** The service endpoints the four operations call; `Url` spells each one out. */
  datatype Endpoint =
    | ConversationsPage(offset: int, limit: int)
    | MemoryList
    | ConversationEntry(conversationId: string)
    | MemoryCommand
    | MemoryEntry(memoryId: string)

  function Url(e: Endpoint): string {
    match e
    case ConversationsPage(offset, limit) =>
      ORIGIN + "/backend-api/conversations?offset=" + IntToString(offset) + "&limit=" + IntToString(limit)
    case MemoryList => ORIGIN + "/backend-api/memories?exclusive_to_gizmo=false&include_memory_entries=true"
    case ConversationEntry(id) => ORIGIN + "/backend-api/conversation/" + id
    case MemoryCommand => ORIGIN + "/ces/v1/m"
    case MemoryEntry(id) => ORIGIN + "/backend-api/memory/" + id
  }

  /** The JSON bodies the client sends; `PayloadText` spells each one out. */
  datatype Payload = HideConversation | DeleteMemoryCommand(memoryId: string)

  function PayloadText(p: Payload): string {
    match p
    case HideConversation => "{\"is_visible\":false}"
    case DeleteMemoryCommand(id) => "{\"id\":\"" + id + "\",\"action\":\"delete\"}"
  }

  /** `response.ok`. */
  predicate OkStatus(status: nat) {
    200 <= status <= 299
  }

  function TimeoutMessage(timeoutMs: nat): string {
    "Request timeout after " + NatToString(timeoutMs) + "ms"
  }

  /** `fetchWithTimeout`: an abort becomes the timeout error, any other rejection passes through unchanged. */
  function FetchWithTimeout(outcome: FetchOutcome, timeoutMs: nat): (r: Result<HttpResponse>)
    ensures r.Ok? <==> outcome.Responded?
    ensures r.Ok? ==> r.value == HttpResponse(outcome.status, outcome.body, outcome.json)
    ensures outcome.Aborted? ==> r == Err(TimeoutMessage(timeoutMs))
    ensures outcome.Threw? ==> r == Err(outcome.message)
  {
    match outcome
    case Responded(status, body, json) => Ok(HttpResponse(status, body, json))
    case Aborted => Err(TimeoutMessage(timeoutMs))
    case Threw(message) => Err(message)
  }

  /** The message for a non-2xx answer: what failed, the status, and at most 100 characters of the body. */
  function HttpError(what: string, status: nat, body: string): (m: string)
    ensures var head := "Failed to " + what + ": ";
      var digits := NatToString(status);
      && |m| == |head| + |digits| + 3 + Min(|body|, 100)
      && m[..|head|] == head
      && AllDigits(m[|head|..|head| + |digits|])
      && ParseNat(m[|head|..|head| + |digits|]) == status
      && m[|head| + |digits|..|head| + |digits| + 3] == " - "
      && m[|head| + |digits| + 3..] == body[..Min(|body|, 100)]
  {
    var head := "Failed to " + what + ": ";
    var digits := NatToString(status);
    var m := head + digits + " - " + Prefix(body, 100);
    assert m[..|head|] == head;
    assert m[|head|..|head| + |digits|] == digits;
    assert m[|head| + |digits|..|head| + |digits| + 3] == " - ";
    assert m[|head| + |digits| + 3..] == Prefix(body, 100);
    NatToStringRoundTrip(status);
    m
  }

  // ---------------------------------------------------------------------------
  // The credential

  /**
   * What decoding the token's payload gave: it threw (the cached account id is
   * then left as it was), or it read the account claim, which may be missing.
   */
  datatype ClaimOutcome = ClaimUnreadable | Claim(accountId: Option<string>)

  /** A same-window `AUTH_TOKEN` message: the only kind `getAuthToken`'s handler looks at. */
  predicate IsTokenAnswer(e: WindowEvent) {
    e.fromSameWindow && e.data.kind == AUTH_TOKEN
  }

  /** The position of the first token answer among the events delivered before the 5 s timer. */
  function FirstTokenAnswer(events: seq<WindowEvent>): (k: Option<nat>)
    ensures k.Some? ==> k.value < |events| && IsTokenAnswer(events[k.value])
    ensures k.Some? ==> forall j :: 0 <= j < k.value ==> !IsTokenAnswer(events[j])
    ensures k.None? ==> forall j :: 0 <= j < |events| ==> !IsTokenAnswer(events[j])
    decreases |events|
  {
    if events == [] then None
    else if IsTokenAnswer(events[0]) then Some(0)
    else match FirstTokenAnswer(events[1..])
      case None => None
      case Some(k) => Some(k + 1)
  }

  /** The result of `getAuthToken` and the cache it leaves; `posted` says whether it asked the page. */
  datatype Acquired = Acquired(result: Result<string>, token: Option<string>, accountId: Option<string>, posted: bool)

  /** The cache only ever holds a non-empty token. */
  predicate CacheInvariant(token: Option<string>) {
    token.None? || Truthy(token)
  }

  /** `getAuthToken` as a function of the cache, the window events that reach its handler, and the claim. */
  function Acquire(cachedToken: Option<string>, cachedAccount: Option<string>,
                   events: seq<WindowEvent>, claim: ClaimOutcome): (a: Acquired)
    requires CacheInvariant(cachedToken)
    ensures CacheInvariant(a.token)
    ensures cachedToken.Some? ==>
      a == Acquired(Ok(cachedToken.value), cachedToken, cachedAccount, false)
    ensures cachedToken.None? ==> a.posted
    ensures a.result.Ok? ==> a.token == Some(a.result.value)
    ensures a.result.Err? ==> a.token == cachedToken && a.accountId == cachedAccount
    ensures cachedToken.None? ==>
      match FirstTokenAnswer(events)
      case None => a.result == Err(TOKEN_WAIT_EXPIRED)
      case Some(k) =>
        (Truthy(events[k].data.token) ==> a.result == Ok(events[k].data.token.value)) &&
        (!Truthy(events[k].data.token) ==> a.result == Err(NO_TOKEN))
    ensures a.result.Ok? && a.posted && claim.Claim? ==> a.accountId == claim.accountId
    ensures claim.ClaimUnreadable? ==> a.accountId == cachedAccount
  {
    if Truthy(cachedToken) then Acquired(Ok(cachedToken.value), cachedToken, cachedAccount, false)
    else match FirstTokenAnswer(events)
      case None => Acquired(Err(TOKEN_WAIT_EXPIRED), cachedToken, cachedAccount, true)
      case Some(k) =>
        var token := events[k].data.token;
        if Truthy(token) then
          var account := if claim.Claim? then claim.accountId else cachedAccount;
          Acquired(Ok(token.value), token, account, true)
        else Acquired(Err(NO_TOKEN), cachedToken, cachedAccount, true)
  }

  /** The headers of every authenticated request; the account header is added iff the cached id is truthy. */
  function AuthHeaders(token: string, accountId: Option<string>): (h: map<string, string>)
    ensures "Content-Type" in h && h["Content-Type"] == "application/json"
    ensures "Authorization" in h && h["Authorization"] == token
    ensures "chatgpt-account-id" in h <==> Truthy(accountId)
    ensures "chatgpt-account-id" in h ==> h["chatgpt-account-id"] == accountId.value
    ensures h.Keys <= {"Content-Type", "Authorization", "chatgpt-account-id"}
  {
    var base := map["Content-Type" := "application/json", "Authorization" := token];
    if Truthy(accountId) then base["chatgpt-account-id" := accountId.value] else base
  }

  // ---------------------------------------------------------------------------
  // The four API calls, once the credential is in hand

  /** `${x}` of a message field that may be `undefined`. */
  function FieldText(s: Option<string>): string {
    if s.Some? then s.value else "undefined"
  }

  function ConversationsRequest(offset: int, limit: int, h: map<string, string>): HttpRequest {
    HttpRequest(GET, ConversationsPage(offset, limit), h, None)
  }

  function MemoriesRequest(h: map<string, string>): HttpRequest {
    HttpRequest(GET, MemoryList, h, None)
  }

  function HideConversationRequest(id: string, h: map<string, string>): HttpRequest {
    HttpRequest(PATCH, ConversationEntry(id), h, Some(HideConversation))
  }

  function MemoryPrimaryRequest(id: string, h: map<string, string>): HttpRequest {
    HttpRequest(POST, MemoryCommand, h, Some(DeleteMemoryCommand(id)))
  }

  function MemoryFallbackRequest(id: string, h: map<string, string>): HttpRequest {
    HttpRequest(DELETE, MemoryEntry(id), h, None)
  }

  /** A list call: a 2xx answer yields its JSON document, anything else a descriptive error. */
  function ListOutcome(what: string, outcome: FetchOutcome): (r: Result<Data>)
    ensures r.Ok? <==> outcome.Responded? && OkStatus(outcome.status) && outcome.json.Parsed?
    ensures r.Ok? ==> r.value == Json(outcome.body)
    ensures outcome.Responded? && !OkStatus(outcome.status) ==>
      r == Err(HttpError(what, outcome.status, outcome.body))
    ensures outcome.Responded? && OkStatus(outcome.status) && outcome.json.Unparsable? ==>
      r == Err(outcome.json.message)
    ensures outcome.Aborted? ==> r == Err(TimeoutMessage(REQUEST_TIMEOUT_MS))
    ensures outcome.Threw? ==> r == Err(outcome.message)
  {
    match FetchWithTimeout(outcome, REQUEST_TIMEOUT_MS)
    case Err(m) => Err(m)
    case Ok(response) =>
      if !OkStatus(response.status) then Err(HttpError(what, response.status, response.body))
      else match response.json
        case Unparsable(m) => Err(m)
        case Parsed(_) => Ok(Json(response.body))
  }

  /** `deleteConversation`: a 2xx answer still fails unless its body's `success` is truthy. */
  function ConversationDeletion(outcome: FetchOutcome): (r: Result<()>)
    ensures r.Ok? <==> outcome.Responded? && OkStatus(outcome.status) && outcome.json == Parsed(true)
    ensures outcome.Responded? && OkStatus(outcome.status) && outcome.json == Parsed(false) ==>
      r == Err(LOGICAL_FAILURE)
    ensures outcome.Responded? && !OkStatus(outcome.status) ==>
      r == Err(HttpError("delete conversation", outcome.status, outcome.body))
    ensures outcome.Responded? && OkStatus(outcome.status) && outcome.json.Unparsable? ==>
      r == Err(outcome.json.message)
    ensures outcome.Aborted? ==> r == Err(TimeoutMessage(REQUEST_TIMEOUT_MS))
    ensures outcome.Threw? ==> r == Err(outcome.message)
  {
    match FetchWithTimeout(outcome, REQUEST_TIMEOUT_MS)
    case Err(m) => Err(m)
    case Ok(response) =>
      if !OkStatus(response.status) then Err(HttpError("delete conversation", response.status, response.body))
      else match response.json
        case Unparsable(m) => Err(m)
        case Parsed(success) => if success then Ok(()) else Err(LOGICAL_FAILURE)
  }

  /** The outcome of `deleteMemory` and whether it had to send the fallback request. */
  datatype MemoryDeletion = MemoryDeletion(result: Result<()>, fallbackUsed: bool)

  /**
   * `deleteMemory`: the POST is tried first and a 2xx ends it; a non-2xx or a
   * failed POST is followed by exactly one DELETE, whose own answer decides.
   * The caller gets the same success either way.
   */
  function DeleteMemoryOutcome(primary: FetchOutcome, fallback: FetchOutcome): (d: MemoryDeletion)
    ensures !d.fallbackUsed <==> primary.Responded? && OkStatus(primary.status)
    ensures !d.fallbackUsed ==> d.result.Ok?
    ensures d.fallbackUsed ==> (d.result.Ok? <==> fallback.Responded? && OkStatus(fallback.status))
    ensures d.fallbackUsed && fallback.Responded? && !OkStatus(fallback.status) ==>
      d.result == Err(HttpError("delete memory", fallback.status, fallback.body))
    ensures d.fallbackUsed && fallback.Aborted? ==> d.result == Err(TimeoutMessage(REQUEST_TIMEOUT_MS))
    ensures d.fallbackUsed && fallback.Threw? ==> d.result == Err(fallback.message)
  {
    var first := FetchWithTimeout(primary, REQUEST_TIMEOUT_MS);
    if first.Ok? && OkStatus(first.value.status) then MemoryDeletion(Ok(()), false)
    else
      var second := FetchWithTimeout(fallback, REQUEST_TIMEOUT_MS);
      match second
      case Err(m) => MemoryDeletion(Err(m), true)
      case Ok(response) =>
        if OkStatus(response.status) then MemoryDeletion(Ok(()), true)
        else MemoryDeletion(Err(HttpError("delete memory", response.status, response.body)), true)
  }

  // ---------------------------------------------------------------------------
  // The operations as a whole, credential included

  /** The four API operations, with the message fields they use (defaults already applied). */
  datatype Operation =
    | ListConversations(offset: int, limit: int)
    | ListMemories
    | DeleteConversation(id: string)
    | DeleteMemory(id: string)

  /** What the network does during one operation: the window events, the claim, and the (up to two) fetches. */
  datatype PageEnv = PageEnv(events: seq<WindowEvent>, claim: ClaimOutcome, first: FetchOutcome, second: FetchOutcome)

  /** One operation's result, the requests it sent, and the cache it leaves. */
  datatype Performed = Performed(result: Result<Option<Data>>, sent: seq<HttpRequest>, token: Option<string>, accountId: Option<string>)

  function Lift(r: Result<()>): Result<Option<Data>> {
    match r
    case Ok(_) => Ok(None)
    case Err(m) => Err(m)
  }

  /** What one operation sends once it holds the headers, and what it settles with. */
  datatype Exchange = Exchange(result: Result<Option<Data>>, sent: seq<HttpRequest>)

  /** A list call: one GET, whose document is the operation's data. */
  function ListExchange(what: string, request: HttpRequest, outcome: FetchOutcome): (x: Exchange)
    ensures x.sent == [request]
    ensures x.result.Ok? <==> ListOutcome(what, outcome).Ok?
    ensures x.result.Ok? ==> x.result.value == Some(ListOutcome(what, outcome).value)
    ensures x.result.Err? ==> x.result.message == ListOutcome(what, outcome).message
  {
    var r := ListOutcome(what, outcome);
    Exchange(if r.Ok? then Ok(Some(r.value)) else Err(r.message), [request])
  }

  /** `deleteMemory` with its requests: the POST, then the DELETE only when the POST did not succeed. */
  function MemoryExchange(id: string, h: map<string, string>, env: PageEnv): (x: Exchange)
    ensures x.sent == [MemoryPrimaryRequest(id, h)] +
      (if env.first.Responded? && OkStatus(env.first.status) then [] else [MemoryFallbackRequest(id, h)])
    ensures x.result.Ok? <==>
      (env.first.Responded? && OkStatus(env.first.status)) || (env.second.Responded? && OkStatus(env.second.status))
    ensures x.result.Ok? ==> x.result.value.None?
    ensures x.result.Err? ==> x.result.message == DeleteMemoryOutcome(env.first, env.second).result.message
    ensures 1 <= |x.sent| <= 2
  {
    var d := DeleteMemoryOutcome(env.first, env.second);
    Exchange(Lift(d.result), [MemoryPrimaryRequest(id, h)] + (if d.fallbackUsed then [MemoryFallbackRequest(id, h)] else []))
  }

  /** The HTTP part of an operation: every request carries the given headers. */
  function Issue(op: Operation, h: map<string, string>, env: PageEnv): (x: Exchange)
    ensures forall k :: 0 <= k < |x.sent| ==> x.sent[k].headers == h
    ensures 1 <= |x.sent| <= (if op.DeleteMemory? then 2 else 1)
    ensures x.result.Ok? ==> (x.result.value.Some? <==> op.ListConversations? || op.ListMemories?)
  {
    match op
    case ListConversations(offset, limit) =>
      ListExchange("fetch conversations", ConversationsRequest(offset, limit, h), env.first)
    case ListMemories =>
      ListExchange("fetch memories", MemoriesRequest(h), env.first)
    case DeleteConversation(id) =>
      Exchange(Lift(ConversationDeletion(env.first)), [HideConversationRequest(id, h)])
    case DeleteMemory(id) =>
      MemoryExchange(id, h, env)
  }

  /** One operation from a cache state: first the credential, then the HTTP calls. */
  function Perform(op: Operation, cachedToken: Option<string>, cachedAccount: Option<string>, env: PageEnv): (p: Performed)
    requires CacheInvariant(cachedToken)
    ensures var a := Acquire(cachedToken, cachedAccount, env.events, env.claim);
      && p.token == a.token && p.accountId == a.accountId
      && (a.result.Err? ==> p.result == Err(a.result.message) && p.sent == [])
      && (a.result.Ok? ==> forall k :: 0 <= k < |p.sent| ==> p.sent[k].headers == AuthHeaders(a.result.value, a.accountId))
    ensures 1 <= |p.sent| || p.result.Err?
    ensures |p.sent| <= (if op.DeleteMemory? then 2 else 1)
    ensures p.result.Ok? ==> (p.result.value.Some? <==> op.ListConversations? || op.ListMemories?)
  {
    var a := Acquire(cachedToken, cachedAccount, env.events, env.claim);
    match a.result
    case Err(m) => Performed(Err(m), [], a.token, a.accountId)
    case Ok(token) =>
      var x := Issue(op, AuthHeaders(token, a.accountId), env);
      Performed(x.result, x.sent, a.token, a.accountId)
  }

  // ---------------------------------------------------------------------------
  // The dispatcher

  /** How the listener's `switch` classifies an action. */
  datatype Route = PingRoute | OperationRoute(op: Operation) | UnknownRoute

  /** The listener's branches; `getConversations` falls back to offset 0 and limit 28 for absent fields. */
  function RouteOf(msg: Request): (r: Route)
    ensures r.PingRoute? <==> msg.action == PING
    ensures r.UnknownRoute? <==>
      msg.action !in {PING, GET_CONVERSATIONS, GET_MEMORIES, DELETE_CONVERSATION, DELETE_MEMORY}
    ensures msg.action == GET_CONVERSATIONS ==>
      r == OperationRoute(ListConversations(if msg.offset.Some? then msg.offset.value else 0,
                                            if msg.limit.Some? then msg.limit.value else 28))
    ensures msg.action == GET_MEMORIES ==> r == OperationRoute(ListMemories)
    ensures msg.action == DELETE_CONVERSATION ==> r == OperationRoute(DeleteConversation(FieldText(msg.id)))
    ensures msg.action == DELETE_MEMORY ==> r == OperationRoute(DeleteMemory(FieldText(msg.id)))
  {
    if msg.action == PING then PingRoute
    else if msg.action == GET_CONVERSATIONS then
      OperationRoute(ListConversations(if msg.offset.Some? then msg.offset.value else 0,
                                       if msg.limit.Some? then msg.limit.value else 28))
    else if msg.action == GET_MEMORIES then OperationRoute(ListMemories)
    else if msg.action == DELETE_CONVERSATION then OperationRoute(DeleteConversation(FieldText(msg.id)))
    else if msg.action == DELETE_MEMORY then OperationRoute(DeleteMemory(FieldText(msg.id)))
    else UnknownRoute
  }

  const PONG_REPLY := Envelope(true, Some(Pong), None)
  const UNKNOWN_ACTION_REPLY := Envelope(false, None, Some(UNKNOWN_ACTION))

  /** The envelope for a settled operation: `{success:true, data}` or `{success:false, error}`. */
  function Reply(r: Result<Option<Data>>): (e: Envelope)
    ensures e.success <==> r.Ok?
    ensures e.success ==> e.data == r.value && e.error.None?
    ensures !e.success ==> e.data.None? && e.error == Some(r.message)
  {
    match r
    case Ok(data) => Envelope(true, data, None)
    case Err(m) => Envelope(false, None, Some(m))
  }

  /** `clearTokenCache` has no branch of its own: it is answered like any unknown action. */
  lemma ClearTokenCacheIsUnknown(msg: Request)
    requires msg.action == CLEAR_TOKEN_CACHE
    ensures RouteOf(msg) == UnknownRoute
  {
  }

  // ---------------------------------------------------------------------------
  // The content script's module state

  /** The module-level `cachedAuthToken` and `cachedAccountId`; no code path ever resets them. */
  class PageClient {
    var cachedAuthToken: Option<string>
    var cachedAccountId: Option<string>

    ghost predicate Valid()
      reads this
    {
      CacheInvariant(cachedAuthToken)
    }

    constructor ()
      ensures Valid() && cachedAuthToken == None && cachedAccountId == None
    {
      cachedAuthToken := None;
      cachedAccountId := None;
    }

    /**
     * `getAuthToken`: a cached token is returned without asking; otherwise the
     * query is posted and the handler looks at each delivered event until the
     * first same-window `AUTH_TOKEN` answer; none before the timer rejects.
     */
    method GetAuthToken(events: seq<WindowEvent>, claim: ClaimOutcome) returns (r: Result<string>, posted: bool)
      requires Valid()
      modifies this
      ensures Valid()
      ensures var a := Acquire(old(cachedAuthToken), old(cachedAccountId), events, claim);
        r == a.result && posted == a.posted && cachedAuthToken == a.token && cachedAccountId == a.accountId
    {
      if Truthy(cachedAuthToken) {
        return Ok(cachedAuthToken.value), false;
      }
      posted := true;
      var i := 0;
      while i < |events|
        invariant 0 <= i <= |events|
        invariant forall j :: 0 <= j < i ==> !IsTokenAnswer(events[j])
        invariant unchanged(this)
      {
        var event := events[i];
        if event.fromSameWindow && event.data.kind == AUTH_TOKEN {
          assert FirstTokenAnswer(events) == Some(i);
          if Truthy(event.data.token) {
            cachedAuthToken := event.data.token;
            if claim.Claim? {
              cachedAccountId := claim.accountId;
            }
            return Ok(event.data.token.value), true;
          }
          return Err(NO_TOKEN), true;
        }
        i := i + 1;
      }
      r := Err(TOKEN_WAIT_EXPIRED);
    }

    /** Runs one API operation: the credential first, then its requests. */
    method Run(op: Operation, env: PageEnv) returns (r: Result<Option<Data>>, sent: seq<HttpRequest>)
      requires Valid()
      modifies this
      ensures Valid()
      ensures var p := Perform(op, old(cachedAuthToken), old(cachedAccountId), env);
        r == p.result && sent == p.sent && cachedAuthToken == p.token && cachedAccountId == p.accountId
    {
      var token, _ := GetAuthToken(env.events, env.claim);
      if token.Err? {
        return Err(token.message), [];
      }
      var h := AuthHeaders(token.value, cachedAccountId);
      match op
      case ListConversations(offset, limit) =>
        sent := [ConversationsRequest(offset, limit, h)];
        var listed := ListOutcome("fetch conversations", env.first);
        r := if listed.Ok? then Ok(Some(listed.value)) else Err(listed.message);
      case ListMemories =>
        sent := [MemoriesRequest(h)];
        var listed := ListOutcome("fetch memories", env.first);
        r := if listed.Ok? then Ok(Some(listed.value)) else Err(listed.message);
      case DeleteConversation(id) =>
        sent := [HideConversationRequest(id, h)];
        r := Lift(ConversationDeletion(env.first));
      case DeleteMemory(id) =>
        sent := [MemoryPrimaryRequest(id, h)];
        var first := FetchWithTimeout(env.first, REQUEST_TIMEOUT_MS);
        if first.Ok? && OkStatus(first.value.status) {
          return Ok(None), sent;
        }
        sent := sent + [MemoryFallbackRequest(id, h)];
        var second := FetchWithTimeout(env.second, REQUEST_TIMEOUT_MS);
        if second.Err? {
          return Err(second.message), sent;
        }
        if !OkStatus(second.value.status) {
          return Err(HttpError("delete memory", second.value.status, second.value.body)), sent;
        }
        r := Ok(None);
    }

    /**
     * The `chrome.runtime.onMessage` listener: `ping` is answered at once, the
     * four operations reply with their envelope, anything else (including
     * `clearTokenCache`) with `'Unknown action'`, sending nothing and leaving
     * the cache as it was.
     */
    method HandleMessage(msg: Request, env: PageEnv) returns (reply: Envelope, sent: seq<HttpRequest>)
      requires Valid()
      modifies this
      ensures Valid()
      ensures RouteOf(msg).PingRoute? ==> reply == PONG_REPLY && sent == [] && unchanged(this)
      ensures RouteOf(msg).UnknownRoute? ==> reply == UNKNOWN_ACTION_REPLY && sent == [] && unchanged(this)
      ensures RouteOf(msg).OperationRoute? ==>
        var p := Perform(RouteOf(msg).op, old(cachedAuthToken), old(cachedAccountId), env);
        reply == Reply(p.result) && sent == p.sent && cachedAuthToken == p.token && cachedAccountId == p.accountId
    {
      match RouteOf(msg)
      case PingRoute =>
        reply, sent := PONG_REPLY, [];
      case UnknownRoute =>
        reply, sent := UNKNOWN_ACTION_REPLY, [];
      case OperationRoute(op) =>
        var r;
        r, sent := Run(op, env);
        reply := Reply(r);
    }
  }
}
