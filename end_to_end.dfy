/**
 * How the four parts fit together: the popup's calls reach the content
 * script's branches, the content script's envelope comes back through the
 * relay as the same settled result, and the token the page's bridge captured
 * is what the content script caches.
 */
module EndToEnd {
  import opened Messages
  import TokenBridge
  import PageApi
  import Relay
  import Popup

  /**
   * Every delete the popup issues reaches the matching branch of the content
   * script, with the id it was given, and makes a single attempt.
   */
  lemma DeleteCallsReachTheirBranch(tab: Popup.ActiveTab, ids: seq<string>)
    ensures forall k :: 0 <= k < |ids| ==>
      && !Relay.Retried(Popup.DeleteCalls(tab, ids)[k])
      && PageApi.RouteOf(Relay.MessageOf(Popup.DeleteCalls(tab, ids)[k])) ==
         PageApi.OperationRoute(if tab == Popup.Chat then PageApi.DeleteConversation(ids[k])
                                else PageApi.DeleteMemory(ids[k]))
  {
  }

  /**
   * Each public call of the relay reaches the content script's branch for its
   * own operation with the arguments it was given; `clearTokenCache` reaches
   * no branch.
   */
  lemma CallsReachTheirBranch(call: Relay.ClientCall)
    ensures call.GetConversations? ==>
      PageApi.RouteOf(Relay.MessageOf(call)) == PageApi.OperationRoute(PageApi.ListConversations(call.offset, call.limit))
    ensures call.GetMemories? ==> PageApi.RouteOf(Relay.MessageOf(call)) == PageApi.OperationRoute(PageApi.ListMemories)
    ensures call.DeleteConversation? ==>
      PageApi.RouteOf(Relay.MessageOf(call)) == PageApi.OperationRoute(PageApi.DeleteConversation(call.id))
    ensures call.DeleteMemory? ==>
      PageApi.RouteOf(Relay.MessageOf(call)) == PageApi.OperationRoute(PageApi.DeleteMemory(call.id))
    ensures call.ClearTokenCache? ==> PageApi.RouteOf(Relay.MessageOf(call)) == PageApi.UnknownRoute
  {
  }

  /**
   * The popup's `clearTokenCache` call is refused by the content script as an
   * unknown action, so it comes back to the popup as a rejection and the
   * cached token stays.
   */
  lemma ClearTokenCacheIsRejected()
    ensures PageApi.RouteOf(Relay.MessageOf(Relay.ClearTokenCache)) == PageApi.UnknownRoute
    ensures Relay.MapResponse(Relay.Delivered(Some(PageApi.UNKNOWN_ACTION_REPLY))) == Err(PageApi.UNKNOWN_ACTION)
  {
  }

  /**
   * Wrapping a settled operation in the content script's envelope and
   * unwrapping it in the relay gives the same result back; the only loss is
   * an empty error message, which becomes `'Unknown error'`.
   */
  lemma EnvelopeRoundTrip(r: Result<Option<Data>>)
    ensures r.Ok? || r.message != "" ==> Relay.MapResponse(Relay.Delivered(Some(PageApi.Reply(r)))) == r
    ensures r == Err("") ==> Relay.MapResponse(Relay.Delivered(Some(PageApi.Reply(r)))) == Err(Relay.UNKNOWN_ERROR)
  {
  }

  /**
   * With an empty cache, the content script asks the bridge; when the bridge's
   * answer is the first token answer to arrive, the content script obtains
   * exactly the credential the page's own requests carried last, and caches it.
   */
  lemma {:induction false} CapturedTokenReachesCache(calls: seq<TokenBridge.FetchCall>, cachedAccount: Option<string>,
                                                     before: seq<WindowEvent>, claim: PageApi.ClaimOutcome)
    requires forall j :: 0 <= j < |before| ==> !PageApi.IsTokenAnswer(before[j])
    ensures var stored := TokenBridge.StoredAfter(None, calls);
      var a := PageApi.Acquire(None, cachedAccount, before + [WindowEvent(true, TokenAnswer(stored))], claim);
      && (stored.Some? ==> a.result == Ok(stored.value) && a.token == stored)
      && (stored.None? ==> a.result == Err(PageApi.NO_TOKEN) && a.token == None)
  {
    var stored := TokenBridge.StoredAfter(None, calls);
    TokenBridge.StoredIsTruthy(None, calls);
    var events := before + [WindowEvent(true, TokenAnswer(stored))];
    assert PageApi.IsTokenAnswer(events[|before|]);
    assert forall j :: 0 <= j < |before| ==> events[j] == before[j];
    assert PageApi.FirstTokenAnswer(events) == Some(|before|);
  }
}
