/** HTTP replies as the route handlers of server/routes.ts build them. */
module Http {
  import opened Js

  /** `res.status(status).json(body)`. */
  datatype Response = Response(status: int, body: JsValue)

  /** `{ message }`. */
  function MessageBody(message: string): (b: JsValue)
    ensures b.Obj? && b.fields.Keys == {"message"} && Prop(b, "message") == Str(message)
  {
    Single("message", Str(message))
  }

  /**
   * `{ message, ...(NODE_ENV !== "production" && { error: err.message }) }`:
   * the error text is exposed everywhere except in production.
   */
  function FailureBody(message: string, nodeEnv: string, error: string): (b: JsValue)
    ensures b.Obj? && Prop(b, "message") == Str(message)
    ensures "error" in b.fields <==> nodeEnv != "production"
    ensures "error" in b.fields ==> b.fields["error"] == Str(error)
    ensures b.fields.Keys <= {"message", "error"}
  {
    Obj(map["message" := Str(message)] + if nodeEnv != "production" then map["error" := Str(error)] else map[])
  }

  /** True of a success body that hands out a session token. */
  predicate IssuesToken(r: Response)
  {
    r.body.Obj? && "token" in r.body.fields
  }
}

/**
 * The environment settings read at the top of server/routes.ts: the signing
 * secret (required), NODE_ENV (defaulting to "development") and the optional
 * expected origin of WebSocket clients.
 */
module Config {
  import opened Wrappers

  datatype Settings = Settings(jwtSecret: string, nodeEnv: string, frontendUrl: Option<string>)

  /** The module's load: it throws at start-up when JWT_SECRET is unset or empty. */
  function Load(jwtSecret: Option<string>, nodeEnv: Option<string>, frontendUrl: Option<string>): (r: Result<Settings, string>)
    ensures r.Err? <==> jwtSecret.None? || jwtSecret.value == ""
    ensures r.Err? ==> r.error == "JWT_SECRET is not defined"
    ensures r.Ok? ==> r.value.jwtSecret == jwtSecret.value && r.value.frontendUrl == frontendUrl
    ensures r.Ok? ==> r.value.nodeEnv == (if nodeEnv.Some? && nodeEnv.value != "" then nodeEnv.value else "development")
  {
    if jwtSecret.None? || jwtSecret.value == "" then Err("JWT_SECRET is not defined")
    else
      var env := if nodeEnv.Some? && nodeEnv.value != "" then nodeEnv.value else "development";
      Ok(Settings(jwtSecret.value, env, frontendUrl))
  }

  predicate IsProduction(s: Settings) { s.nodeEnv == "production" }
}
