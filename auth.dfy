/**
 * The two Express middlewares of server/routes.ts: `authenticateToken`, which
 * reads a bearer token and has it verified, and `requireAdmin`, the role
 * allow-list. JWT verification is an oracle `verify` that yields the decoded
 * payload, or `None` for a bad signature, an expired token or a malformed one.
 */
module Auth {
  import opened Wrappers
  import opened Strings
  import opened Js
  import opened Http

  /** What a middleware does: answer the request itself, or call `next()` with `req.user`. */
  datatype GateResult = Reject(response: Response) | Pass(user: JsValue)

  /** `authHeader?.split(" ")[1]`: the second space-separated field, if the header has one. */
  function BearerField(header: Option<string>): (r: Option<string>)
    ensures r.Some? <==> header.Some? && ' ' in header.value
    ensures r.Some? ==> ' ' !in r.value
  {
    match header
    case None => None
    case Some(h) =>
      var parts := Split(h, ' ');
      if |parts| >= 2 then Some(parts[1]) else None
  }

  /**
   * The field is the text after the first space, up to the next space or the
   * end; the word before the first space (the scheme) is never looked at.
   */
  lemma BearerFieldIsSecondWord(h: string)
    ensures ' ' !in h ==> BearerField(Some(h)) == None
    ensures ' ' in h ==>
      var i := IndexOf(h, ' ');
      var rest := h[i + 1..];
      BearerField(Some(h)) == Some(if ' ' in rest then rest[..IndexOf(rest, ' ')] else rest)
  {
    if ' ' in h {
      var i := IndexOf(h, ' ');
      var rest := h[i + 1..];
      assert Split(h, ' ') == [h[..i]] + Split(rest, ' ');
    }
  }

  /** Any scheme word works: `Basic t` yields `t` as well as `Bearer t` does. */
  lemma {:induction false} SchemeNotChecked(scheme: string, token: string)
    requires ' ' !in scheme && ' ' !in token
    ensures BearerField(Some(scheme + " " + token)) == Some(token)
  {
    SplitJoin([scheme, token], ' ');
    assert Join([scheme, token], ' ') == scheme + " " + token;
  }

  /** A double space leaves an empty second field, which counts as no token. */
  lemma {:induction false} DoubleSpaceGivesEmptyField(scheme: string, token: string)
    requires ' ' !in scheme && ' ' !in token
    ensures BearerField(Some(scheme + "  " + token)) == Some("")
  {
    SplitJoin([scheme, "", token], ' ');
    assert Join(["", token], ' ') == " " + token;
    assert Join([scheme, "", token], ' ') == scheme + "  " + token;
  }

  /**
   * `authenticateToken`: 401 without a usable token, 403 when verification
   * fails, otherwise `next()` with the decoded payload as `req.user`.
   */
  function AuthenticateToken(header: Option<string>, verify: string -> Option<JsValue>): (r: GateResult)
    ensures var t := BearerField(header);
      (t.None? || t.value == "") <==> r == Reject(Response(401, MessageBody("Access token required")))
    ensures var t := BearerField(header);
      (t.Some? && t.value != "" && verify(t.value).None?) <==> r == Reject(Response(403, MessageBody("Invalid or expired token")))
    ensures r.Pass? <==> exists t :: BearerField(header) == Some(t) && t != "" && verify(t).Some?
    ensures r.Pass? ==> verify(BearerField(header).value) == Some(r.user)
  {
    var token := BearerField(header);
    if token.None? || token.value == "" then
      Reject(Response(401, MessageBody("Access token required")))
    else
      match verify(token.value)
      case None => Reject(Response(403, MessageBody("Invalid or expired token")))
      case Some(decoded) => Pass(decoded)
  }

  /** The roles `requireAdmin` lets through. */
  const AdminRoles: seq<string> := ["admin", "super_admin"]

  /** `AdminRoles.includes(role)` (strict equality, so only string roles can match). */
  predicate IsAdminRole(role: JsValue)
  {
    role.Str? && role.s in AdminRoles
  }

  /**
   * `requireAdmin`: `next()` exactly when `req.user` is set and its role is
   * "admin" or "super_admin"; otherwise 403 and the wrapped handler never runs.
   */
  function RequireAdmin(user: JsValue): (r: GateResult)
    ensures r.Pass? <==> Truthy(user) && (Prop(user, "role") == Str("admin") || Prop(user, "role") == Str("super_admin"))
    ensures r.Pass? ==> r.user == user
    ensures r.Reject? ==> r.response == Response(403, MessageBody("Admin access required"))
  {
    if !Truthy(user) || !IsAdminRole(Prop(user, "role")) then
      Reject(Response(403, MessageBody("Admin access required")))
    else
      Pass(user)
  }
}
