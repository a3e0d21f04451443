/**
 * The client's request helper against the server's token guard: the header
 * `apiRequest` builds hands `authenticateToken` exactly the stored token, and
 * the guard answers a token that fails verification with 403, a status the
 * helper does not treat as a reason to refresh.
 */
module Session {
  import opened Wrappers
  import opened Js
  import opened Http
  import opened Auth
  import opened QueryClient

  /** The bearer header round-trips: the guard reads back the token the client stored. */
  lemma {:induction false} HeaderCarriesToken(token: string)
    requires token != "" && ' ' !in token
    ensures BearerField(Some(Headers(Some(token))["Authorization"])) == Some(token)
  {
    SchemeNotChecked("Bearer", token);
  }

  /**
   * An expired or forged token is answered with 403 by `authenticateToken`;
   * when the server `apiRequest` talks to answers with that guard's status,
   * it makes no refresh call, keeps the stale token and rejects.
   */
  lemma {:induction false} ExpiredTokenIsNotRefreshed(token: string, verify: string -> Option<JsValue>,
                                                      verb: string, url: string, data: JsValue,
                                                      network: (nat, Request) -> Option<Reply>, n: nat)
    requires token != "" && ' ' !in token && verify(token).None?
    requires var req := Request(verb, url, Headers(Some(token)), Payload(data));
      var gate := AuthenticateToken(Some(req.headers["Authorization"]), verify);
      gate.Reject? && network(n, req).Some? && network(n, req).value.status == gate.response.status
    ensures var tr := Exchange(Some(token), verb, url, data, network, n);
      |tr.requests| == 1 && tr.token == Some(token) && !tr.redirect && tr.outcome.Rejected?
  {
    HeaderCarriesToken(token);
  }
}
