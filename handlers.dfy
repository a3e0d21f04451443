/**
 * The route handlers of server/routes.ts that touch the hub: the generic
 * `adminCreate` pipeline (validate, create, broadcast, 201), the guarded
 * POST /api/scholarships and POST /api/jobs routes built from it, and
 * register and login. Validation (zod `parse`), the store, bcrypt and
 * `jwt.sign` are oracles; an oracle's `Err` is the exception it throws.
 * A handler's outcome lists the broadcasts it makes, which `Hub.Registry.Publish`
 * carries out, and the inputs it hands to the store's create functions.
 */
module Handlers {
  import opened Wrappers
  import opened Js
  import opened Http
  import opened Auth
  import opened Hub

  datatype Handled = Handled(response: Response, events: seq<Frame>, created: seq<JsValue>)

  /** The library and store calls register and login make. */
  datatype Services = Services(
    parseUser: JsValue -> Result<JsValue, string>,        // insertUserSchema.parse
    getUserByEmail: JsValue -> Result<JsValue, string>,   // `undefined` when there is none
    hash: JsValue -> Result<JsValue, string>,             // bcrypt.hash(password, 10)
    createUser: JsValue -> Result<JsValue, string>,
    compare: (JsValue, JsValue) -> Result<bool, string>,  // bcrypt.compare(password, stored hash)
    sign: JsValue -> Result<string, string>,              // jwt.sign(payload, secret, 24h)
    logAnalytics: JsValue -> Result<(), string>)

  const UserActivity := "user_activity"

  /** `{ ...req.body, createdBy: req.user!.id }`. */
  function WithCreator(body: JsValue, user: JsValue): (r: JsValue)
    ensures r.Obj? && Prop(r, "createdBy") == Prop(user, "id")
    ensures forall k :: k in Spread(body) && k != "createdBy" ==> k in r.fields && r.fields[k] == Spread(body)[k]
  {
    Obj(Spread(body)["createdBy" := Prop(user, "id")])
  }

  /**
   * `adminCreate(schema, createFn, channel)` run for an authenticated user: on
   * success exactly one broadcast on `channel` carrying the created item and a
   * 201 with that item; on any thrown error a 400 "Operation failed" and no
   * broadcast.
   */
  function AdminCreate(schema: JsValue -> Result<JsValue, string>, createFn: JsValue -> Result<JsValue, string>,
                       channel: string, nodeEnv: string, user: JsValue, body: JsValue): (r: Handled)
    ensures r.response.status == 201 || r.response.status == 400
    ensures r.response.status == 201 <==> schema(WithCreator(body, user)).Ok? && createFn(schema(WithCreator(body, user)).value).Ok?
    ensures r.response.status == 201 ==>
      r.response.body == createFn(schema(WithCreator(body, user)).value).value
      && r.events == [Frame(channel, r.response.body)]
    ensures r.response.status == 400 ==>
      r.events == [] && Prop(r.response.body, "message") == Str("Operation failed")
      && ("error" in r.response.body.fields <==> nodeEnv != "production")
    ensures r.created == if schema(WithCreator(body, user)).Ok? then [schema(WithCreator(body, user)).value] else []
  {
    match schema(WithCreator(body, user))
    case Err(e) => Handled(Response(400, FailureBody("Operation failed", nodeEnv, e)), [], [])
    case Ok(data) =>
      match createFn(data)
      case Err(e) => Handled(Response(400, FailureBody("Operation failed", nodeEnv, e)), [], [data])
      case Ok(item) => Handled(Response(201, item), [Frame(channel, item)], [data])
  }

  /** A route guarded by `authenticateToken, requireAdmin` in front of `adminCreate`. */
  function AdminRoute(header: Option<string>, verify: string -> Option<JsValue>,
                      schema: JsValue -> Result<JsValue, string>, createFn: JsValue -> Result<JsValue, string>,
                      channel: string, nodeEnv: string, body: JsValue): (r: Handled)
    ensures var g := AuthenticateToken(header, verify);
      (g.Reject? ==> r == Handled(g.response, [], []))
      && (g.Pass? && RequireAdmin(g.user).Reject? ==> r == Handled(RequireAdmin(g.user).response, [], []))
      && (g.Pass? && RequireAdmin(g.user).Pass? ==> r == AdminCreate(schema, createFn, channel, nodeEnv, g.user, body))
    ensures r.response.status in {201, 400, 401, 403}
    ensures r.events != [] <==> r.response.status == 201
    ensures r.events != [] ==> r.events == [Frame(channel, r.response.body)]
  {
    match AuthenticateToken(header, verify)
    case Reject(res) => Handled(res, [], [])
    case Pass(user) =>
      match RequireAdmin(user)
      case Reject(res) => Handled(res, [], [])
      case Pass(_) => AdminCreate(schema, createFn, channel, nodeEnv, user, body)
  }

  /** POST /api/scholarships. */
  function PostScholarship(header: Option<string>, verify: string -> Option<JsValue>,
                           schema: JsValue -> Result<JsValue, string>, createScholarship: JsValue -> Result<JsValue, string>,
                           nodeEnv: string, body: JsValue): (r: Handled)
    ensures r.response.status in {201, 400, 401, 403}
    ensures r.events != [] <==> r.response.status == 201
    ensures r.events != [] ==> r.events == [Frame("scholarships", r.response.body)]
  {
    AdminRoute(header, verify, schema, createScholarship, "scholarships", nodeEnv, body)
  }

  /** POST /api/jobs. */
  function PostJob(header: Option<string>, verify: string -> Option<JsValue>,
                   schema: JsValue -> Result<JsValue, string>, createJob: JsValue -> Result<JsValue, string>,
                   nodeEnv: string, body: JsValue): (r: Handled)
    ensures r.response.status in {201, 400, 401, 403}
    ensures r.events != [] <==> r.response.status == 201
    ensures r.events != [] ==> r.events == [Frame("jobs", r.response.body)]
  {
    AdminRoute(header, verify, schema, createJob, "jobs", nodeEnv, body)
  }

  /**
   * Nothing happens behind the guards: without a verified token whose payload
   * has an admin role the store is not called and nothing is broadcast, and
   * the answer is 401 or 403.
   */
  lemma GuardsComeFirst(header: Option<string>, verify: string -> Option<JsValue>,
                        schema: JsValue -> Result<JsValue, string>, createFn: JsValue -> Result<JsValue, string>,
                        channel: string, nodeEnv: string, body: JsValue)
    ensures var r := AdminRoute(header, verify, schema, createFn, channel, nodeEnv, body);
      var g := AuthenticateToken(header, verify);
      (g.Reject? || RequireAdmin(g.user).Reject?) <==> (r.response.status == 401 || r.response.status == 403)
    ensures var r := AdminRoute(header, verify, schema, createFn, channel, nodeEnv, body);
      var g := AuthenticateToken(header, verify);
      (g.Reject? || RequireAdmin(g.user).Reject?) ==> r.events == [] && r.created == []
  {
  }

  /** An authenticated user whose role is neither "admin" nor "super_admin", whatever it is, gets 403 and the handler never runs. */
  lemma NonAdminRejected(header: Option<string>, verify: string -> Option<JsValue>,
                         schema: JsValue -> Result<JsValue, string>, createFn: JsValue -> Result<JsValue, string>,
                         channel: string, nodeEnv: string, body: JsValue)
    requires AuthenticateToken(header, verify).Pass?
    requires Prop(AuthenticateToken(header, verify).user, "role") !in {Str("admin"), Str("super_admin")}
    ensures AdminRoute(header, verify, schema, createFn, channel, nodeEnv, body)
         == Handled(Response(403, MessageBody("Admin access required")), [], [])
  {
  }

  /**
   * An admin creating a scholarship triggers exactly one broadcast, on
   * "scholarships", whose payload is the created entity the reply carries.
   */
  lemma ScholarshipBroadcastOnce(header: Option<string>, verify: string -> Option<JsValue>,
                                 schema: JsValue -> Result<JsValue, string>, createScholarship: JsValue -> Result<JsValue, string>,
                                 nodeEnv: string, body: JsValue)
    requires AuthenticateToken(header, verify).Pass?
    requires Prop(AuthenticateToken(header, verify).user, "role") == Str("admin")
    requires var user := AuthenticateToken(header, verify).user;
      schema(WithCreator(body, user)).Ok? && createScholarship(schema(WithCreator(body, user)).value).Ok?
    ensures var r := PostScholarship(header, verify, schema, createScholarship, nodeEnv, body);
      var user := AuthenticateToken(header, verify).user;
      var item := createScholarship(schema(WithCreator(body, user)).value).value;
      r.response == Response(201, item) && r.events == [Frame("scholarships", item)]
  {
  }

  /** `{ type, userId: user.id }`, the `user_activity` payload. */
  function ActivityPayload(kind: string, user: JsValue): JsValue
  {
    Obj(map["type" := Str(kind), "userId" := Prop(user, "id")])
  }

  /** `{ id, email, role }`, the claims `jwt.sign` is given. */
  function Claims(user: JsValue): JsValue
  {
    Obj(map["id" := Prop(user, "id"), "email" := Prop(user, "email"), "role" := Prop(user, "role")])
  }

  /** The message of the TypeError a property read on `null` or `undefined` throws. */
  const NullishRead := "Cannot read properties of null or undefined"

  function RegistrationFailed(nodeEnv: string, error: string, created: seq<JsValue>): Handled
  {
    Handled(Response(400, FailureBody("Registration failed", nodeEnv, error)), [], created)
  }

  /** `{ ...userData, password }`, what register hands to `createUser`. */
  function WithPassword(userData: JsValue, password: JsValue): JsValue
  {
    Obj(Spread(userData)["password" := password])
  }

  /** The analytics event of a registration. */
  function RegisteredEvent(user: JsValue): JsValue
  {
    Obj(map["event" := Str("user_registered"), "userId" := Prop(user, "id"),
            "metadata" := Single("email", Prop(user, "email"))])
  }

  /** The `user` part of register's reply. */
  function RegisteredView(user: JsValue): JsValue
  {
    Obj(map["id" := Prop(user, "id"), "email" := Prop(user, "email"),
            "firstName" := Prop(user, "firstName"), "lastName" := Prop(user, "lastName"),
            "role" := Prop(user, "role")])
  }

  /** The body validates and the email is not taken. */
  predicate EmailFree(svc: Services, body: JsValue)
  {
    svc.parseUser(body).Ok? && !Nullish(svc.parseUser(body).value)
    && svc.getUserByEmail(Prop(svc.parseUser(body).value, "email")).Ok?
    && !Truthy(svc.getUserByEmail(Prop(svc.parseUser(body).value, "email")).value)
  }

  /** The body validates and a user with its email already exists. */
  predicate EmailTaken(svc: Services, body: JsValue)
  {
    svc.parseUser(body).Ok? && !Nullish(svc.parseUser(body).value)
    && svc.getUserByEmail(Prop(svc.parseUser(body).value, "email")).Ok?
    && Truthy(svc.getUserByEmail(Prop(svc.parseUser(body).value, "email")).value)
  }

  /**
   * Every awaited step of registration returns normally: the body validates
   * to a value whose properties can be read, the email is free, hashing does
   * not throw, `createUser` returns a value whose properties can be read, and
   * `jwt.sign` and `logAnalytics` do not throw.
   */
  predicate RegisterSteps(svc: Services, body: JsValue)
  {
    EmailFree(svc, body)
    && var userData := svc.parseUser(body).value;
    svc.hash(Prop(userData, "password")).Ok?
    && var user := svc.createUser(WithPassword(userData, svc.hash(Prop(userData, "password")).value));
    user.Ok? && !Nullish(user.value) && svc.sign(Claims(user.value)).Ok? && svc.logAnalytics(RegisteredEvent(user.value)).Ok?
  }

  /**
   * POST /api/auth/register. A taken email answers 400 before the user is
   * created; every thrown error, including the TypeError of reading `email`
   * of a nullish parse result or `id` of a nullish created user, answers
   * 400 "Registration failed"; a complete
   * success answers 201 with the token signed over the created user, and
   * only then broadcasts, once, a "registered" activity.
   */
  function Register(svc: Services, nodeEnv: string, body: JsValue): (r: Handled)
    ensures |r.events| <= 1 && |r.created| <= 1
    ensures r.events != [] <==> r.response.status == 201
    ensures r.response.status == 201 <==> RegisterSteps(svc, body)
    ensures RegisterSteps(svc, body) ==>
      var userData := svc.parseUser(body).value;
      var input := WithPassword(userData, svc.hash(Prop(userData, "password")).value);
      var user := svc.createUser(input).value;
      r == Handled(Response(201, Obj(map["token" := Str(svc.sign(Claims(user)).value), "user" := RegisteredView(user)])),
                   [Frame(UserActivity, ActivityPayload("registered", user))], [input])
    ensures r.response.status != 201 ==> r.response.status == 400 && !IssuesToken(r.response)
    ensures EmailTaken(svc, body) <==> r == Handled(Response(400, MessageBody("User already exists")), [], [])
    ensures !RegisterSteps(svc, body) && !EmailTaken(svc, body) ==>
      Prop(r.response.body, "message") == Str("Registration failed")
      && ("error" in r.response.body.fields <==> nodeEnv != "production")
    ensures r.created != [] <==> EmailFree(svc, body) && svc.hash(Prop(svc.parseUser(body).value, "password")).Ok?
  {
    match svc.parseUser(body)
    case Err(e) => RegistrationFailed(nodeEnv, e, [])
    case Ok(userData) =>
      if Nullish(userData) then RegistrationFailed(nodeEnv, NullishRead, []) else
      match svc.getUserByEmail(Prop(userData, "email"))
      case Err(e) => RegistrationFailed(nodeEnv, e, [])
      case Ok(existing) =>
        if Truthy(existing) then Handled(Response(400, MessageBody("User already exists")), [], [])
        else
          match svc.hash(Prop(userData, "password"))
          case Err(e) => RegistrationFailed(nodeEnv, e, [])
          case Ok(password) =>
            var input := WithPassword(userData, password);
            match svc.createUser(input)
            case Err(e) => RegistrationFailed(nodeEnv, e, [input])
            case Ok(user) =>
              if Nullish(user) then RegistrationFailed(nodeEnv, NullishRead, [input]) else
              match svc.sign(Claims(user))
              case Err(e) => RegistrationFailed(nodeEnv, e, [input])
              case Ok(token) =>
                match svc.logAnalytics(RegisteredEvent(user))
                case Err(e) => RegistrationFailed(nodeEnv, e, [input])
                case Ok(_) =>
                  Handled(Response(201, Obj(map["token" := Str(token), "user" := RegisteredView(user)])),
                          [Frame(UserActivity, ActivityPayload("registered", user))], [input])
  }

  /** The analytics event of a login. */
  function LoginEvent(user: JsValue): JsValue
  {
    Obj(map["event" := Str("user_logged_in"), "userId" := Prop(user, "id")])
  }

  /** The `user` part of login's reply. */
  function LoginView(user: JsValue): JsValue
  {
    Obj(map["id" := Prop(user, "id"), "email" := Prop(user, "email"), "role" := Prop(user, "role")])
  }

  /** The body can be destructured and carries a truthy email and password. */
  predicate CredentialsGiven(body: JsValue)
  {
    GetProp(body, "email").Some? && Truthy(Prop(body, "email")) && Truthy(Prop(body, "password"))
  }

  /** The credentials name a stored user and `bcrypt.compare` confirms the password. */
  predicate CredentialsMatch(svc: Services, body: JsValue)
  {
    CredentialsGiven(body)
    && svc.getUserByEmail(Prop(body, "email")).Ok?
    && var user := svc.getUserByEmail(Prop(body, "email")).value;
    Truthy(user) && svc.compare(Prop(body, "password"), Prop(user, "password")) == Ok(true)
  }

  /**
   * POST /api/auth/login. Missing fields answer 400 and bad credentials 401,
   * a thrown error 500 "Login failed"; none of these issues a token or
   * broadcasts. Matching credentials with signing and logging succeeding
   * answer 200 with the token signed over the stored user, and broadcast
   * exactly one "login" activity.
   */
  function Login(svc: Services, body: JsValue): (r: Handled)
    ensures r.created == [] && |r.events| <= 1
    ensures r.events != [] <==> r.response.status == 200
    ensures r.response.status != 200 ==> r.response.status in {400, 401, 500} && !IssuesToken(r.response)
    ensures r.response.status == 200 <==>
      CredentialsMatch(svc, body)
      && var user := svc.getUserByEmail(Prop(body, "email")).value;
      svc.sign(Claims(user)).Ok? && svc.logAnalytics(LoginEvent(user)).Ok?
    ensures r.response.status == 200 ==>
      var user := svc.getUserByEmail(Prop(body, "email")).value;
      r == Handled(Response(200, Obj(map["token" := Str(svc.sign(Claims(user)).value), "user" := LoginView(user)])),
                   [Frame(UserActivity, ActivityPayload("login", user))], [])
    ensures r.response.status == 400 <==> GetProp(body, "email").Some? && !CredentialsGiven(body)
    ensures r.response.status == 400 ==> r.response == Response(400, MessageBody("Email and password required"))
    ensures r.response.status == 401 <==>
      CredentialsGiven(body)
      && svc.getUserByEmail(Prop(body, "email")).Ok?
      && var user := svc.getUserByEmail(Prop(body, "email")).value;
      !Truthy(user) || svc.compare(Prop(body, "password"), Prop(user, "password")) == Ok(false)
    ensures r.response.status == 401 ==> r.response == Response(401, MessageBody("Invalid credentials"))
    ensures r.response.status == 500 ==> r.response == Response(500, MessageBody("Login failed"))
    ensures GetProp(body, "email").None? ==> r.response.status == 500
    ensures CredentialsGiven(body) && svc.getUserByEmail(Prop(body, "email")).Err? ==> r.response.status == 500
    ensures CredentialsGiven(body) && svc.getUserByEmail(Prop(body, "email")).Ok?
            && Truthy(svc.getUserByEmail(Prop(body, "email")).value)
            && svc.compare(Prop(body, "password"), Prop(svc.getUserByEmail(Prop(body, "email")).value, "password")).Err?
            ==> r.response.status == 500
    ensures (CredentialsMatch(svc, body)
             && var user := svc.getUserByEmail(Prop(body, "email")).value;
             svc.sign(Claims(user)).Err? || svc.logAnalytics(LoginEvent(user)).Err?)
            ==> r.response.status == 500
  {
    match GetProp(body, "email")
    case None => Handled(Response(500, MessageBody("Login failed")), [], [])
    case Some(email) =>
      var password := Prop(body, "password");
      if !Truthy(email) || !Truthy(password) then
        Handled(Response(400, MessageBody("Email and password required")), [], [])
      else
        match svc.getUserByEmail(email)
        case Err(_) => Handled(Response(500, MessageBody("Login failed")), [], [])
        case Ok(user) =>
          if !Truthy(user) then Handled(Response(401, MessageBody("Invalid credentials")), [], [])
          else
            match svc.compare(password, Prop(user, "password"))
            case Err(_) => Handled(Response(500, MessageBody("Login failed")), [], [])
            case Ok(matches) =>
              if !matches then Handled(Response(401, MessageBody("Invalid credentials")), [], [])
              else
                match svc.sign(Claims(user))
                case Err(_) => Handled(Response(500, MessageBody("Login failed")), [], [])
                case Ok(token) =>
                  match svc.logAnalytics(LoginEvent(user))
                  case Err(_) => Handled(Response(500, MessageBody("Login failed")), [], [])
                  case Ok(_) =>
                    Handled(Response(200, Obj(map["token" := Str(token), "user" := LoginView(user)])),
                            [Frame(UserActivity, ActivityPayload("login", user))], [])
  }
}
