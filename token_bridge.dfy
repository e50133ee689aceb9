/**
 * The token bridge that runs in the page's own context
 * (public/assets/fetch-interceptor.js): it wraps `window.fetch`, keeps the
 * last `authorization` header value it saw, and answers `GET_AUTH_TOKEN`
 * queries posted on the same window.
 */
module TokenBridge {
  import opened Messages

  /**
   * One page call `fetch(url, options)`. `headers` is `options.headers` as a
   * plain object; it is absent when the call has no options or no headers.
   */
  datatype FetchCall = FetchCall(url: string, headers: Option<map<string, string>>)

  /** The value of one header property, `undefined` when the object lacks it. */
  function Header(headers: map<string, string>, name: string): Option<string> {
    if name in headers then Some(headers[name]) else None
  }

  /** The credential a call carries: `headers.authorization || headers.Authorization`, when truthy. */
  function CarriedToken(call: FetchCall): (t: Option<string>)
    ensures t.Some? <==>
      call.headers.Some? &&
      (Truthy(Header(call.headers.value, "authorization")) || Truthy(Header(call.headers.value, "Authorization")))
    ensures t.Some? ==> t.value != ""
    ensures call.headers.Some? && Truthy(Header(call.headers.value, "authorization")) ==>
      t == Header(call.headers.value, "authorization")
    ensures t.Some? && !Truthy(Header(call.headers.value, "authorization")) ==>
      t == Header(call.headers.value, "Authorization")
  {
    match call.headers
    case None => None
    case Some(h) =>
      var lower := Header(h, "authorization");
      var upper := Header(h, "Authorization");
      if Truthy(lower) then lower else if Truthy(upper) then upper else None
  }

  /** The stored token after one wrapped call: replaced when the call carries one, kept otherwise. */
  function Observe(stored: Option<string>, call: FetchCall): Option<string> {
    var carried := CarriedToken(call);
    if carried.Some? then carried else stored
  }

  /** The stored token after a run of page calls, in the order the page made them. */
  function StoredAfter(stored: Option<string>, calls: seq<FetchCall>): Option<string>
    decreases |calls|
  {
    if calls == [] then stored
    else Observe(StoredAfter(stored, calls[..|calls| - 1]), calls[|calls| - 1])
  }

  /** No call after position `k` carries a credential. */
  predicate NoCarrierAfter(calls: seq<FetchCall>, k: int) {
    forall j :: k < j < |calls| && 0 <= j ==> CarriedToken(calls[j]).None?
  }

  /**
   * Last write wins: with no carrying call the token is what it was, and
   * otherwise it is the credential of the last call that carried one.
   */
  lemma {:induction false} LastWriteWins(stored: Option<string>, calls: seq<FetchCall>)
    ensures NoCarrierAfter(calls, -1) ==> StoredAfter(stored, calls) == stored
    ensures forall k :: 0 <= k < |calls| && CarriedToken(calls[k]).Some? && NoCarrierAfter(calls, k) ==>
      StoredAfter(stored, calls) == CarriedToken(calls[k])
    decreases |calls|
  {
    if calls != [] {
      var n := |calls| - 1;
      var front := calls[..n];
      LastWriteWins(stored, front);
      assert StoredAfter(stored, calls) == Observe(StoredAfter(stored, front), calls[n]);
      if NoCarrierAfter(calls, -1) {
        assert NoCarrierAfter(front, -1) by {
          forall j | 0 <= j < n
            ensures CarriedToken(front[j]).None?
          {
            assert front[j] == calls[j];
          }
        }
      }
      forall k | 0 <= k < |calls| && CarriedToken(calls[k]).Some? && NoCarrierAfter(calls, k)
        ensures StoredAfter(stored, calls) == CarriedToken(calls[k])
      {
        if k < n {
          assert CarriedToken(calls[n]).None?;
          assert front[k] == calls[k];
          assert NoCarrierAfter(front, k) by {
            forall j | k < j < n
              ensures CarriedToken(front[j]).None?
            {
              assert front[j] == calls[j];
            }
          }
        }
      }
    }
  }

  /** Whatever the page sends, the stored token is either the initial one or a non-empty credential. */
  lemma {:induction false} StoredIsTruthy(stored: Option<string>, calls: seq<FetchCall>)
    requires stored.None? || Truthy(stored)
    ensures StoredAfter(stored, calls).None? || Truthy(StoredAfter(stored, calls))
    decreases |calls|
  {
    if calls != [] {
      StoredIsTruthy(stored, calls[..|calls| - 1]);
    }
  }

  /** The bridge's closure state: `authToken`, `null` until a credential is seen. */
  class Bridge {
    var authToken: Option<string>

    constructor ()
      ensures authToken == None
    {
      authToken := None;
    }

    /**
     * The wrapped `window.fetch`: records the credential the call carries, then
     * hands the very same call to the page's original `fetch` and returns what
     * that returns.
     */
    method Fetch<R>(call: FetchCall, originalFetch: FetchCall -> R) returns (r: R)
      modifies this
      ensures authToken == Observe(old(authToken), call)
      ensures r == originalFetch(call)
    {
      if call.headers.Some? {
        var h := call.headers.value;
        var lower := Header(h, "authorization");
        var upper := Header(h, "Authorization");
        if Truthy(lower) || Truthy(upper) {
          authToken := if Truthy(lower) then lower else upper;
        }
      }
      r := originalFetch(call);
    }

    /** The `message` listener: answers only same-window `GET_AUTH_TOKEN` queries, with the stored token. */
    method OnMessage(event: WindowEvent) returns (reply: Option<WindowMessage>)
      ensures reply.Some? <==> event.fromSameWindow && event.data.kind == GET_AUTH_TOKEN
      ensures reply.Some? ==> reply.value.kind == AUTH_TOKEN && reply.value.token == authToken
    {
      if !event.fromSameWindow {
        return None;
      }
      if event.data.kind != GET_AUTH_TOKEN {
        return None;
      }
      reply := Some(TokenAnswer(authToken));
    }
  }
}
