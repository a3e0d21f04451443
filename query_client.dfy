/**
 * The admin client's request helpers in Admin/client/src/lib/queryClient.ts:
 * `apiRequest`, which attaches the stored bearer token and, on a 401,
 * refreshes it once and retries; `throwIfResNotOk`; and the `on401` choice of
 * `getQueryFn`. `fetch` is a network function of the call's position in the
 * browser's request log and of the request; `localStorage`'s "token" entry
 * and `window.location.href` are fields of a `Browser`.
 */
module QueryClient {
  import opened Wrappers
  import opened Strings
  import opened Js

  /**
   * One `fetch` call. `credentials: "include"`, the same on every call, is
   * not recorded; `body` is the value `JSON.stringify` serialises.
   */
  datatype Request = Request(verb: string, url: string, headers: map<string, string>, body: Option<JsValue>)

  /** A `Response`; `json` is what `res.json()` resolves to, `None` when the body is not JSON. */
  datatype Reply = Reply(status: int, statusText: string, text: string, json: Option<JsValue>)

  /** `res.ok`. */
  predicate IsOk(r: Reply)
  {
    200 <= r.status <= 299
  }

  /** Why a promise rejects: a thrown `Error` with its message, a `fetch` that failed, a body that is not JSON, or a property read on `null`. */
  datatype Failure = Thrown(message: string) | FetchFailed | BadJson | TypeError

  /** How an `apiRequest` promise settles. */
  datatype Outcome = Resolved(reply: Reply) | Rejected(failure: Failure)

  /** The headers of the first request: always the JSON content type, and the bearer token when one is stored. */
  function Headers(token: Option<string>): (h: map<string, string>)
    ensures "Content-Type" in h && h["Content-Type"] == "application/json"
    ensures "Authorization" in h <==> token.Some? && token.value != ""
    ensures "Authorization" in h ==> h["Authorization"] == "Bearer " + token.value
    ensures h.Keys <= {"Content-Type", "Authorization"}
  {
    var base := map["Content-Type" := "application/json"];
    if token.Some? && token.value != "" then base["Authorization" := "Bearer " + token.value] else base
  }

  /** `data ? JSON.stringify(data) : undefined`. */
  function Payload(data: JsValue): (b: Option<JsValue>)
    ensures b.Some? <==> Truthy(data)
    ensures b.Some? ==> b.value == data
  {
    if Truthy(data) then Some(data) else None
  }

  /** The refresh call: a bare POST, with no headers and no body. */
  const RefreshRequest := Request("POST", "/auth/refresh", map[], None)

  /** The condition for trying a refresh: a 401 answer, a stored token, and a url other than the login endpoint. */
  predicate ShouldRefresh(first: Option<Reply>, token: Option<string>, url: string)
  {
    first.Some? && first.value.status == 401 && token.Some? && token.value != "" && url != "/auth/login"
  }

  /**
   * The token a refresh answer yields: `String(json.token)` of an OK answer
   * (so a missing property stores "undefined"), or `None` when the refresh
   * fails: `fetch` rejects, the answer is not OK, its body is not JSON, or the
   * body is `null` and the destructuring throws.
   */
  function NewToken(refresh: Option<Reply>): (t: Option<string>)
    ensures t.Some? ==> refresh.Some? && IsOk(refresh.value) && refresh.value.json.Some?
    ensures t.Some? ==> t.value == ToJsString(Prop(refresh.value.json.value, "token"))
    ensures refresh.Some? && IsOk(refresh.value) && refresh.value.json.Some? && refresh.value.json.value.Obj? ==> t.Some?
  {
    if refresh.Some? && IsOk(refresh.value) && refresh.value.json.Some? then
      match GetProp(refresh.value.json.value, "token")
      case Some(v) => Some(ToJsString(v))
      case None => None
    else None
  }

  /**
   * The end of `apiRequest`: an OK response is returned unchanged; any other
   * rejects when its body is not JSON, or is `null` (reading `message` throws),
   * and otherwise with `error.message`, or "Something went wrong" when that is
   * falsy, which is the case for every body that is not an object.
   */
  function Settle(res: Option<Reply>): (o: Outcome)
    ensures o.Resolved? <==> res.Some? && IsOk(res.value)
    ensures o.Resolved? ==> o.reply == res.value
    ensures res.None? ==> o == Rejected(FetchFailed)
    ensures res.Some? && !IsOk(res.value) && res.value.json.None? ==> o == Rejected(BadJson)
    ensures res.Some? && !IsOk(res.value) && res.value.json.Some? && (res.value.json.value.Null? || res.value.json.value.Undefined?) ==>
      o == Rejected(TypeError)
    ensures res.Some? && !IsOk(res.value) && res.value.json.Some? && !res.value.json.value.Null? && !res.value.json.value.Undefined? ==>
      var m := Prop(res.value.json.value, "message");
      o == Rejected(Thrown(if Truthy(m) then ToJsString(m) else "Something went wrong"))
  {
    match res
    case None => Rejected(FetchFailed)
    case Some(r) =>
      if IsOk(r) then Resolved(r)
      else
        match r.json
        case None => Rejected(BadJson)
        case Some(error) =>
          match GetProp(error, "message")
          case None => Rejected(TypeError)
          case Some(m) => Rejected(Thrown(if Truthy(m) then ToJsString(m) else "Something went wrong"))
  }

  /** What one `apiRequest` call does: the requests it sends, the token left stored, whether it redirects to "/auth", and how it settles. */
  datatype Trace = Trace(requests: seq<Request>, token: Option<string>, redirect: bool, outcome: Outcome)

  /**
   * Reference definition of `apiRequest` with the stored token `token`, the
   * network `network`, and `n` requests already in the log.
   */
  function Exchange(token: Option<string>, verb: string, url: string, data: JsValue,
                    network: (nat, Request) -> Option<Reply>, n: nat): (tr: Trace)
    ensures 1 <= |tr.requests| <= 3
    ensures tr.requests[0] == Request(verb, url, Headers(token), Payload(data))
    ensures var first := network(n, tr.requests[0]);
      (|tr.requests| >= 2 <==> ShouldRefresh(first, token, url))
      && (|tr.requests| >= 2 ==> tr.requests[1] == RefreshRequest)
      && (|tr.requests| == 3 <==> ShouldRefresh(first, token, url) && NewToken(network(n + 1, RefreshRequest)).Some?)
      && (!ShouldRefresh(first, token, url) ==> tr.token == token && !tr.redirect && tr.outcome == Settle(first))
      && (ShouldRefresh(first, token, url) && NewToken(network(n + 1, RefreshRequest)).None? ==>
            tr.token == None && tr.redirect && tr.outcome == Settle(first) && tr.outcome.Rejected?)
    ensures |tr.requests| == 3 ==>
      var nt := NewToken(network(n + 1, RefreshRequest)).value;
      tr.requests[2] == Request(verb, url, Headers(token)["Authorization" := "Bearer " + nt], Payload(data))
      && tr.requests[2].url == url && tr.requests[2].headers["Authorization"] == "Bearer " + nt
      && (network(n + 2, tr.requests[2]).Some? ==>
            tr.token == Some(nt) && !tr.redirect && tr.outcome == Settle(network(n + 2, tr.requests[2])))
      && (network(n + 2, tr.requests[2]).None? ==>
            tr.token == None && tr.redirect && tr.outcome == Settle(network(n, tr.requests[0])) && tr.outcome.Rejected?)
  {
    var first := Request(verb, url, Headers(token), Payload(data));
    var res := network(n, first);
    if !ShouldRefresh(res, token, url) then Trace([first], token, false, Settle(res))
    else
      match NewToken(network(n + 1, RefreshRequest))
      case None => Trace([first, RefreshRequest], None, true, Settle(res))
      case Some(nt) =>
        var retry := Request(verb, url, Headers(token)["Authorization" := "Bearer " + nt], Payload(data));
        match network(n + 2, retry)
        case None => Trace([first, RefreshRequest, retry], None, true, Settle(res))
        case Some(again) => Trace([first, RefreshRequest, retry], Some(nt), false, Settle(Some(again)))
  }

  /**
   * Refresh at most once: the refresh request is only ever the second one,
   * the original url is fetched at most twice, and a 401 on the retry is final.
   */
  lemma {:induction false} RefreshAtMostOnce(token: Option<string>, verb: string, url: string, data: JsValue,
                                             network: (nat, Request) -> Option<Reply>, n: nat)
    ensures var tr := Exchange(token, verb, url, data, network, n);
      (forall i :: 0 <= i < |tr.requests| && i != 1 ==> tr.requests[i].url == url)
      && (forall i :: 0 <= i < |tr.requests| && tr.requests[i] == RefreshRequest ==> i == 1 || url == "/auth/refresh")
      && (|tr.requests| == 3 && network(n + 2, tr.requests[2]).Some? && network(n + 2, tr.requests[2]).value.status == 401 ==>
            tr.outcome.Rejected?)
  {
    var tr := Exchange(token, verb, url, data, network, n);
    forall i | 0 <= i < |tr.requests| && tr.requests[i] == RefreshRequest
      ensures i == 1 || url == "/auth/refresh"
    {
      if i != 1 { assert tr.requests[i].url == url; }
    }
  }

  /** The browser state `apiRequest` reads and writes. */
  class Browser {
    /** `localStorage.getItem("token")`. */
    var token: Option<string>
    /** `window.location.href`. */
    var href: string
    /** Every request passed to `fetch`, in order. */
    var sent: seq<Request>

    constructor (token: Option<string>, href: string)
      ensures this.token == token && this.href == href && sent == []
    {
      this.token := token;
      this.href := href;
      sent := [];
    }

    /** One `fetch`: logged, and answered by the network. */
    method Fetch(network: (nat, Request) -> Option<Reply>, req: Request) returns (res: Option<Reply>)
      modifies this`sent
      ensures sent == old(sent) + [req]
      ensures res == network(|old(sent)|, req)
    {
      res := network(|sent|, req);
      sent := sent + [req];
    }

    /** `apiRequest(verb, url, data)`. */
    method ApiRequest(verb: string, url: string, data: JsValue, network: (nat, Request) -> Option<Reply>)
      returns (r: Outcome)
      modifies this
      ensures var tr := Exchange(old(token), verb, url, data, network, |old(sent)|);
        sent == old(sent) + tr.requests && token == tr.token && r == tr.outcome
        && href == (if tr.redirect then "/auth" else old(href))
    {
      var stored := token;
      var headers := map["Content-Type" := "application/json"];
      if stored.Some? && stored.value != "" {
        headers := headers["Authorization" := "Bearer " + stored.value];
      }
      var first := Request(verb, url, headers, Payload(data));
      var res := Fetch(network, first);
      if res.Some? && res.value.status == 401 && stored.Some? && stored.value != "" && url != "/auth/login" {
        var refresh := Fetch(network, RefreshRequest);
        var newToken := NewToken(refresh);
        if newToken.Some? {
          token := newToken;
          headers := headers["Authorization" := "Bearer " + newToken.value];
          var retried := Fetch(network, Request(verb, url, headers, Payload(data)));
          if retried.Some? {
            res := retried;
          } else {
            token := None;
            href := "/auth";
          }
        } else {
          token := None;
          href := "/auth";
        }
      }
      r := Settle(res);
    }
  }

  /** `throwIfResNotOk`: nothing for an OK response, otherwise the message `"<status>: <text>"`. */
  function ThrowIfResNotOk(res: Reply): (e: Option<string>)
    ensures e.None? <==> IsOk(res)
  {
    if IsOk(res) then None
    else Some(IntToString(res.status) + ": " + (if res.text != "" then res.text else res.statusText))
  }

  lemma {:induction false} NoColonInNumber(i: int)
    ensures ':' !in IntToString(i)
  {
    var r := IntToString(i);
    if i < 0 {
      assert forall k :: 1 <= k < |r| ==> r[k] == NatToString(-i)[k - 1];
    }
  }

  /**
   * The message of `throwIfResNotOk` names the response: the text before the
   * first colon reads back as the status, and after ": " comes the body text,
   * or the status text when the body is empty.
   */
  lemma {:induction false} ErrorMessageNamesStatus(res: Reply)
    requires !IsOk(res)
    ensures var e := ThrowIfResNotOk(res).value; var code := IntToString(res.status);
      ParseInt(Split(e, ':')[0]) == Some(res.status)
      && e[|code| + 2..] == (if res.text != "" then res.text else res.statusText)
  {
    var code := IntToString(res.status);
    var text := if res.text != "" then res.text else res.statusText;
    NoColonInNumber(res.status);
    assert ThrowIfResNotOk(res).value == code + [':'] + (" " + text);
    SplitHead(code, ':', " " + text);
    ParseIntToString(res.status);
  }

  /** The `on401` option of `getQueryFn`. */
  datatype UnauthorizedBehavior = ReturnNull | Throw

  /** How a query function settles: with the JSON body, with `null`, or by rejecting. */
  datatype QueryResult = Data(value: JsValue) | NullData | QueryFailed(failure: Failure)

  /** The url `getQueryFn` fetches: the query key joined with "/". */
  function QueryUrl(queryKey: seq<string>): (url: string)
    ensures |queryKey| >= 1 && (forall k :: 0 <= k < |queryKey| ==> '/' !in queryKey[k]) ==> Split(url, '/') == queryKey
  {
    assert |queryKey| >= 1 && (forall k :: 0 <= k < |queryKey| ==> '/' !in queryKey[k]) ==> Split(Join(queryKey, '/'), '/') == queryKey by {
      if |queryKey| >= 1 && (forall k :: 0 <= k < |queryKey| ==> '/' !in queryKey[k]) { SplitJoin(queryKey, '/'); }
    }
    Join(queryKey, '/')
  }

  /**
   * The query function `getQueryFn({ on401 })` makes, given what its `fetch`
   * of the query url returned: `null` for a 401 under "returnNull", the
   * `throwIfResNotOk` error for any other non-OK answer, and the JSON body
   * otherwise.
   */
  function QueryFn(on401: UnauthorizedBehavior, res: Option<Reply>): (q: QueryResult)
    ensures q == NullData <==> on401 == ReturnNull && res.Some? && res.value.status == 401
    ensures q.Data? <==> res.Some? && IsOk(res.value) && res.value.json.Some?
    ensures q.Data? ==> res.value.json == Some(q.value)
    ensures res.Some? && !IsOk(res.value) && q != NullData ==> q == QueryFailed(Thrown(ThrowIfResNotOk(res.value).value))
    ensures res.None? ==> q == QueryFailed(FetchFailed)
  {
    match res
    case None => QueryFailed(FetchFailed)
    case Some(r) =>
      if on401 == ReturnNull && r.status == 401 then NullData
      else
        match ThrowIfResNotOk(r)
        case Some(message) => QueryFailed(Thrown(message))
        case None =>
          match r.json
          case None => QueryFailed(BadJson)
          case Some(v) => Data(v)
  }

  /** Under "throw", a 401 rejects with a message that starts "401: ". */
  lemma UnauthorizedThrows(res: Reply)
    requires res.status == 401
    ensures QueryFn(Throw, Some(res)) == QueryFailed(Thrown(ThrowIfResNotOk(res).value))
    ensures StartsWith(ThrowIfResNotOk(res).value, "401: ")
  {
    assert IntToString(401) == "401" by {
      assert NatToString(401) == NatToString(40) + ['1'];
      assert NatToString(40) == NatToString(4) + ['0'];
    }
  }
}
