/**
 * The popup's API client (src/popup/api-client.ts): it finds the site's tab,
 * makes sure the content script is loaded there, forwards a request, turns
 * the reply envelope back into a settled promise, and retries the round trip
 * for the conversation list. The browser's tab list, the liveness probe, the
 * injection and the message channel are oracles.
 */
module Relay {
  import opened Messages
  import Text

  /** The prefix every tab query requires of a URL (the match pattern of the site, any path). */
  const SITE_PREFIX := "https://chatgpt.com/"

  const TAB_LOADING_WAIT_MS: nat := 1000
  const SETTLE_WAIT_MS: nat := 500
  const DEFAULT_MAX_RETRIES: int := 3

  const NO_TAB := "ChatGPTのタブが見つかりません。\n\nhttps://chatgpt.com/ を開いてから、もう一度お試しください。"
  const NO_TAB_ID := "タブIDが取得できません"
  const INJECTION_FAILED :=
    "⚠️ Content Scriptの読み込みに失敗しました。\n\n【解決方法】\n1. ChatGPTのページで「F5」キーを押す\n2. もう一度拡張機能を開く\n\nそれでも解決しない場合：\n- すべてのChatGPTタブを閉じる\n- 新しいタブでChatGPTを開く"
  const CHANNEL_FAILED_PREFIX :=
    "⚠️ ChatGPTと通信できません。\n\n【解決方法】\n1. ChatGPTのページで「F5」キーを押す\n2. もう一度拡張機能を開く\n\n詳細: "
  const NO_RESPONSE := "Content Scriptからの応答がありません"
  const UNKNOWN_ERROR := "Unknown error"
  const RETRIES_EXHAUSTED := "All retry attempts failed"

  // ---------------------------------------------------------------------------
  // Choosing the tab

  /** An open browser tab, as `chrome.tabs.query` reports it. */
  datatype Tab = Tab(id: Option<int>, url: string, active: bool, inCurrentWindow: bool, complete: bool)

  predicate MatchesSite(t: Tab) {
    SITE_PREFIX <= t.url
  }

  /** Whether a tab passes a query `{url, active?, currentWindow?}`. */
  predicate Passes(t: Tab, activeOnly: bool, currentWindowOnly: bool) {
    MatchesSite(t) && (activeOnly ==> t.active) && (currentWindowOnly ==> t.inCurrentWindow)
  }

  /** `chrome.tabs.query`: the tabs that pass, in the browser's order. */
  function Query(tabs: seq<Tab>, activeOnly: bool, currentWindowOnly: bool): (r: seq<Tab>)
    ensures forall t :: t in r <==> t in tabs && Passes(t, activeOnly, currentWindowOnly)
    decreases |tabs|
  {
    if tabs == [] then []
    else (if Passes(tabs[0], activeOnly, currentWindowOnly) then [tabs[0]] else [])
         + Query(tabs[1..], activeOnly, currentWindowOnly)
  }

  /** `findChatGPTTab`: the first tab of the query's answer, or `null`. */
  function FirstOrNull(tabs: seq<Tab>): Option<Tab> {
    if |tabs| > 0 then Some(tabs[0]) else None
  }

  /** The position of the first tab in the browser's order that passes a query, if any. */
  function FirstPassing(tabs: seq<Tab>, activeOnly: bool, currentWindowOnly: bool): (k: Option<nat>)
    ensures k.Some? ==> k.value < |tabs| && Passes(tabs[k.value], activeOnly, currentWindowOnly)
    ensures k.Some? ==> forall j :: 0 <= j < k.value ==> !Passes(tabs[j], activeOnly, currentWindowOnly)
    ensures k.None? ==> forall j :: 0 <= j < |tabs| ==> !Passes(tabs[j], activeOnly, currentWindowOnly)
    decreases |tabs|
  {
    if tabs == [] then None
    else if Passes(tabs[0], activeOnly, currentWindowOnly) then Some(0)
    else match FirstPassing(tabs[1..], activeOnly, currentWindowOnly)
      case None => None
      case Some(k) => Some(k + 1)
  }

  /** The tab a query yields first is the first passing tab in the browser's order, or `null` when none passes. */
  function FirstMatch(tabs: seq<Tab>, activeOnly: bool, currentWindowOnly: bool): Option<Tab> {
    match FirstPassing(tabs, activeOnly, currentWindowOnly)
    case None => None
    case Some(k) => Some(tabs[k])
  }

  /** `tabs[0]` of a query's answer is the first tab, in the browser's order, that passes the query. */
  lemma {:induction false} QueryFirst(tabs: seq<Tab>, activeOnly: bool, currentWindowOnly: bool)
    ensures FirstOrNull(Query(tabs, activeOnly, currentWindowOnly)) == FirstMatch(tabs, activeOnly, currentWindowOnly)
    decreases |tabs|
  {
    if tabs != [] && !Passes(tabs[0], activeOnly, currentWindowOnly) {
      QueryFirst(tabs[1..], activeOnly, currentWindowOnly);
      assert Query(tabs, activeOnly, currentWindowOnly) == Query(tabs[1..], activeOnly, currentWindowOnly);
    }
  }

  /**
   * The three-step preference of `sendMessage`: an active tab of the current
   * window, else any tab of the current window, else any tab at all.
   */
  function FindTab(tabs: seq<Tab>): (t: Option<Tab>)
    ensures FirstMatch(tabs, true, true).Some? ==> t == FirstMatch(tabs, true, true)
    ensures FirstMatch(tabs, true, true).None? && FirstMatch(tabs, false, true).Some? ==>
      t == FirstMatch(tabs, false, true)
    ensures FirstMatch(tabs, true, true).None? && FirstMatch(tabs, false, true).None? ==>
      t == FirstMatch(tabs, false, false)
  {
    QueryFirst(tabs, true, true);
    QueryFirst(tabs, false, true);
    QueryFirst(tabs, false, false);
    var activeTab := FirstOrNull(Query(tabs, true, true));
    if activeTab.Some? then activeTab
    else
      var currentWindowTab := FirstOrNull(Query(tabs, false, true));
      if currentWindowTab.Some? then currentWindowTab
      else FirstOrNull(Query(tabs, false, false))
  }

  /**
   * What the preference means for the tab list: the chosen tab is an open tab
   * of the site, there is none only when no tab is on the site, and an active
   * tab of the current window, or else a tab of the current window, wins
   * whenever there is one.
   */
  lemma FindTabSiteTab(tabs: seq<Tab>)
    ensures FindTab(tabs).Some? ==> FindTab(tabs).value in tabs && MatchesSite(FindTab(tabs).value)
    ensures FindTab(tabs).None? <==> forall x :: x in tabs ==> !MatchesSite(x)
    ensures (exists x :: x in tabs && Passes(x, true, true)) ==>
      FindTab(tabs).Some? && FindTab(tabs).value.active && FindTab(tabs).value.inCurrentWindow
    ensures (forall x :: x in tabs ==> !Passes(x, true, true)) &&
            (exists x :: x in tabs && Passes(x, false, true)) ==>
      FindTab(tabs).Some? && FindTab(tabs).value.inCurrentWindow
  {
    QueryFirst(tabs, true, true);
    QueryFirst(tabs, false, true);
    QueryFirst(tabs, false, false);
  }

  // ---------------------------------------------------------------------------
  // Sending to the tab

  /** What the relay does, in order: waits, the probe, the injection, the forwarded message. */
  datatype Step = Wait(ms: nat) | SendPing | Inject | Send(message: Request)

  /** How the `ping` probe raced its 100 ms timer: an answer (of any shape), a channel error, or the timer. */
  datatype PingOutcome = PingAnswered(response: Option<Envelope>) | PingFailed | PingTimedOut

  /** What the message channel gave back: `chrome.runtime.lastError`, or the reply (possibly none). */
  datatype Delivery = RuntimeError(message: string) | Delivered(response: Option<Envelope>)

  /** Everything the browser decides during one `sendMessage`. */
  datatype RelayWorld = RelayWorld(tabs: seq<Tab>, ping: PingOutcome, injectionSucceeds: bool, delivery: Delivery)

  /** A settled `sendMessage` and the steps it took. */
  datatype Relayed = Relayed(result: Result<Option<Data>>, steps: seq<Step>)

  datatype Readiness = Readiness(loaded: bool, steps: seq<Step>)

  /**
   * `ensureContentScriptLoaded`: any answer to the probe, even a failure
   * envelope, counts as loaded; only a failed or late probe leads to an
   * injection, followed by the settle wait when it works.
   */
  function EnsureContentScriptLoaded(ping: PingOutcome, injectionSucceeds: bool): (r: Readiness)
    ensures ping.PingAnswered? ==> r.steps == [SendPing]
    ensures !ping.PingAnswered? ==>
      r.steps == [SendPing, Inject] + (if injectionSucceeds then [Wait(SETTLE_WAIT_MS)] else [])
    ensures r.loaded <==> ping.PingAnswered? || injectionSucceeds
  {
    if ping.PingAnswered? then Readiness(true, [SendPing])
    else if injectionSucceeds then Readiness(true, [SendPing, Inject, Wait(SETTLE_WAIT_MS)])
    else Readiness(false, [SendPing, Inject])
  }

  /** The reply callback of `sendToTab`: from what the channel gave to the settled promise. */
  function MapResponse(d: Delivery): (r: Result<Option<Data>>)
    ensures d.RuntimeError? ==> r == Err(CHANNEL_FAILED_PREFIX + d.message)
    ensures d == Delivered(None) ==> r == Err(NO_RESPONSE)
    ensures d.Delivered? && d.response.Some? && d.response.value.success ==>
      r == Ok(d.response.value.data)
    ensures d.Delivered? && d.response.Some? && !d.response.value.success ==>
      r == Err(if Truthy(d.response.value.error) then d.response.value.error.value else UNKNOWN_ERROR)
    ensures r.Err? ==> r.message != ""
  {
    match d
    case RuntimeError(m) => Err(CHANNEL_FAILED_PREFIX + m)
    case Delivered(None) => Err(NO_RESPONSE)
    case Delivered(Some(e)) =>
      if e.success then Ok(e.data)
      else Err(if Truthy(e.error) then e.error.value else UNKNOWN_ERROR)
  }

  /** `!tab.id` is true for a missing id and for the id 0. */
  predicate UsableId(id: Option<int>) {
    id.Some? && id.value != 0
  }

  /** The wait `sendToTab` makes for a tab that is still loading. */
  function LoadingWait(tab: Tab): seq<Step> {
    if tab.complete then [] else [Wait(TAB_LOADING_WAIT_MS)]
  }

  /**
   * `sendToTab`: a tab without a usable id is refused; a loading tab costs one
   * wait; every action but `ping` first needs the content script, and nothing
   * is forwarded when it cannot be loaded.
   */
  function SendToTab(tab: Tab, msg: Request, w: RelayWorld): (r: Relayed)
    ensures !UsableId(tab.id) ==> r == Relayed(Err(NO_TAB_ID), [])
    ensures UsableId(tab.id) && (msg.action == PING || w.ping.PingAnswered? || w.injectionSucceeds) ==>
      r.result == MapResponse(w.delivery) && |r.steps| >= 1 && r.steps[|r.steps| - 1] == Send(msg)
    ensures UsableId(tab.id) && !(msg.action == PING || w.ping.PingAnswered? || w.injectionSucceeds) ==>
      r.result == Err(INJECTION_FAILED)
  {
    if !UsableId(tab.id) then Relayed(Err(NO_TAB_ID), [])
    else
      var loading := LoadingWait(tab);
      if msg.action != PING then
        var ready := EnsureContentScriptLoaded(w.ping, w.injectionSucceeds);
        if !ready.loaded then Relayed(Err(INJECTION_FAILED), loading + ready.steps)
        else Relayed(MapResponse(w.delivery), loading + ready.steps + [Send(msg)])
      else Relayed(MapResponse(w.delivery), loading + [Send(msg)])
  }

  /**
   * The order of `sendToTab`'s steps for a usable tab: the loading wait when
   * the tab is still loading, then the loading check for every action but
   * `ping`, then the message itself unless the check failed. So the probe and
   * the injection never precede the loading wait, and nothing follows the send.
   */
  lemma SendToTabSteps(tab: Tab, msg: Request, w: RelayWorld)
    requires UsableId(tab.id)
    ensures msg.action == PING ==> SendToTab(tab, msg, w).steps == LoadingWait(tab) + [Send(msg)]
    ensures msg.action != PING ==>
      var ready := EnsureContentScriptLoaded(w.ping, w.injectionSucceeds);
      SendToTab(tab, msg, w).steps == LoadingWait(tab) + ready.steps + (if ready.loaded then [Send(msg)] else [])
  {
  }

  /** `sendMessage`: the chosen tab gets the message; with no tab of the site nothing at all happens. */
  function SendMessage(msg: Request, w: RelayWorld): (r: Relayed)
    ensures FindTab(w.tabs).None? ==> r == Relayed(Err(NO_TAB), [])
    ensures FindTab(w.tabs).Some? ==> r == SendToTab(FindTab(w.tabs).value, msg, w)
  {
    match FindTab(w.tabs)
    case None => Relayed(Err(NO_TAB), [])
    case Some(tab) => SendToTab(tab, msg, w)
  }

  /** With no tab of the site open, `sendMessage` rejects before any step; with one, that tab gets the message. */
  lemma SendMessageNeedsSiteTab(msg: Request, w: RelayWorld)
    ensures (forall t :: t in w.tabs ==> !MatchesSite(t)) ==> SendMessage(msg, w) == Relayed(Err(NO_TAB), [])
    ensures (exists t :: t in w.tabs && MatchesSite(t)) ==>
      FindTab(w.tabs).Some? && SendMessage(msg, w) == SendToTab(FindTab(w.tabs).value, msg, w)
  {
    FindTabSiteTab(w.tabs);
  }

  // ---------------------------------------------------------------------------
  // Retrying

  function Pow2(n: nat): (p: nat)
    ensures p >= 1
  {
    if n == 0 then 1 else 2 * Pow2(n - 1)
  }

  /** The wait after failed attempt number `attempt` (counting from 1), when another attempt follows. */
  function Backoff(attempt: nat): nat
    requires attempt >= 1
  {
    Pow2(attempt - 1) * 1000
  }

  /**
   * `sendMessageWithRetry`: at most `maxRetries` attempts, stopping at the
   * first success; a wait of `Backoff(k)` follows each failed attempt k that
   * is not the last; when all fail, the last error is thrown. `attempt(j)` is
   * how attempt j + 1 settles.
   */
  method SendMessageWithRetry(maxRetries: int, attempt: nat -> Result<Option<Data>>)
    returns (r: Result<Option<Data>>, attempts: nat, waits: seq<nat>)
    ensures attempts <= Text.Max(maxRetries, 0)
    ensures forall j :: 0 <= j < attempts - 1 ==> attempt(j).Err?
    ensures r.Ok? ==> 1 <= attempts && r == attempt(attempts - 1)
    ensures r.Err? ==> attempts == Text.Max(maxRetries, 0)
    ensures r.Err? && attempts >= 1 ==> r == attempt(attempts - 1)
    ensures r.Err? && attempts == 0 ==> r == Err(RETRIES_EXHAUSTED)
    ensures |waits| == (if r.Ok? then attempts - 1 else Text.Max(maxRetries - 1, 0))
    ensures forall j :: 0 <= j < |waits| ==> waits[j] == Backoff(j + 1)
    ensures maxRetries == DEFAULT_MAX_RETRIES && r.Err? ==> waits == [1000, 2000]
  {
    var lastError: Option<string> := None;
    attempts, waits := 0, [];
    var k := 1;
    while k <= maxRetries
      invariant 1 <= k && attempts == k - 1
      invariant attempts <= Text.Max(maxRetries, 0)
      invariant forall j :: 0 <= j < attempts ==> attempt(j).Err?
      invariant attempts == 0 ==> lastError.None?
      invariant attempts >= 1 ==> lastError == Some(attempt(attempts - 1).message)
      invariant |waits| == (if attempts < maxRetries then attempts else Text.Max(maxRetries - 1, 0))
      invariant forall j :: 0 <= j < |waits| ==> waits[j] == Backoff(j + 1)
    {
      var outcome := attempt(k - 1);
      attempts := k;
      if outcome.Ok? {
        return outcome, attempts, waits;
      }
      lastError := Some(outcome.message);
      if k < maxRetries {
        waits := waits + [Backoff(k)];
      }
      k := k + 1;
    }
    r := if lastError.Some? then Err(lastError.value) else Err(RETRIES_EXHAUSTED);
  }

  // ---------------------------------------------------------------------------
  // The public methods

  /** The client's public calls; only the conversation list can ask for retries. */
  datatype ClientCall =
    | GetConversations(offset: int, limit: int, useRetry: bool)
    | GetMemories
    | DeleteConversation(id: string)
    | DeleteMemory(id: string)
    | ClearTokenCache

  /** The request each public call hands to `sendMessage`; fields a call does not set stay `undefined`. */
  function MessageOf(call: ClientCall): (m: Request)
    ensures m.action != PING
    ensures call.GetConversations? ==>
      m == Request(GET_CONVERSATIONS, Some(call.offset), Some(call.limit), None)
    ensures call.GetMemories? ==> m == Request(GET_MEMORIES, None, None, None)
    ensures call.DeleteConversation? ==> m == Request(DELETE_CONVERSATION, None, None, Some(call.id))
    ensures call.DeleteMemory? ==> m == Request(DELETE_MEMORY, None, None, Some(call.id))
    ensures call.ClearTokenCache? ==> m == Request(CLEAR_TOKEN_CACHE, None, None, None)
  {
    match call
    case GetConversations(offset, limit, _) => Request(GET_CONVERSATIONS, Some(offset), Some(limit), None)
    case GetMemories => Request(GET_MEMORIES, None, None, None)
    case DeleteConversation(id) => Request(DELETE_CONVERSATION, None, None, Some(id))
    case DeleteMemory(id) => Request(DELETE_MEMORY, None, None, Some(id))
    case ClearTokenCache => Request(CLEAR_TOKEN_CACHE, None, None, None)
  }

  predicate Retried(call: ClientCall) {
    call.GetConversations? && call.useRetry
  }

  /** How one attempt of `sendMessage` settles. */
  function Attempt(msg: Request, w: RelayWorld): Result<Option<Data>> {
    SendMessage(msg, w).result
  }

  /**
   * A public call: `getConversations(…, true)` goes through the retry wrapper
   * with the default three attempts; every other call makes one attempt.
   * `worlds(j)` is what the browser does during attempt j + 1.
   */
  method Call(call: ClientCall, worlds: nat -> RelayWorld) returns (r: Result<Option<Data>>, attempts: nat, waits: seq<nat>)
    ensures !Retried(call) ==> attempts == 1 && waits == [] && r == Attempt(MessageOf(call), worlds(0))
    ensures Retried(call) ==> 1 <= attempts <= DEFAULT_MAX_RETRIES && r == Attempt(MessageOf(call), worlds(attempts - 1))
    ensures Retried(call) ==> forall j :: 0 <= j < attempts - 1 ==> Attempt(MessageOf(call), worlds(j)).Err?
    ensures Retried(call) && r.Err? ==> attempts == DEFAULT_MAX_RETRIES && waits == [1000, 2000]
  {
    var msg := MessageOf(call);
    if Retried(call) {
      var attempt := (j: nat) => Attempt(msg, worlds(j));
      r, attempts, waits := SendMessageWithRetry(DEFAULT_MAX_RETRIES, attempt);
      forall j | 0 <= j < attempts - 1
        ensures Attempt(msg, worlds(j)).Err?
      {
        assert attempt(j).Err?;
      }
    } else {
      r, attempts, waits := Attempt(msg, worlds(0)), 1, [];
    }
  }
}
