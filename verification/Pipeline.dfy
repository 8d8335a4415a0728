/**
 The middlewares, their composition and what a composed chain does to one request
 (middleware/, assembly/locator.go). A handler is kept as the list of closures it is:
 the proxy, or a middleware around the next handler.
 */
module Pipeline {
  import opened Wrappers
  import opened Domain
  import opened Settings
  import opened Request

  datatype Middleware =
    | Logger | RequestId | ErrorHandler | UserAuthenticate | Authenticate | AdminAuthenticate
    | ClientRequestId | Authorize | AdminAuthorize | Throttling | DailyLimit | Metrics

  datatype Handler = Proxy | Wrapped(mw: Middleware, next: Handler)

  /** `Http` carries its own status; anything else is answered as an internal error. */
  datatype Error = Http(status: nat) | Internal

  const UNAUTHORIZED := Http(401)
  const FORBIDDEN := Http(403)
  const TOO_MANY_REQUESTS := Http(429)

  function StatusOf(e: Error): nat { if e.Http? then e.status else 500 }

  /** What the request presents. */
  datatype Input = Input(
    meta: EndpointMeta,
    httpMethod: string,
    read: TokenProvider -> Extracted,        // what each token provider extracts
    appParam: string,                        // the x-application-token parameter, trimmed
    basicAuth: Option<(string, string)>,
    adminToken: string)                      // the x-auth-admin parameter, trimmed

  datatype Upstream = Done | Broken(error: Error)

  /** How every collaborator of the chain answers this request. */
  datatype Verdicts = Verdicts(
    bodyRead: bool,
    user: Answer<UserData>,
    app: Answer<AppAuthData>,
    admin: Answer<int>,
    authorized: Answer<()>,
    permitted: Answer<()>,
    rate: Answer<()>,
    daily: Answer<()>,
    upstream: Upstream)

  // ---------------------------------------------------------------- questions to services

  datatype Query =
    | UserQ(endpoint: string, token: string)
    | AppQ(token: string)
    | AdminTokenQ(token: string)
    | AuthorizeQ(applicationId: int, httpMethod: string, path: string)
    | PermissionQ(adminId: int, permission: string)
    | RateQ(applicationId: int)
    | DailyQ(applicationId: int)

  /** UserAuthentication.Authenticate up to its first cache or remote access. */
  datatype UserStep = NoUserNeeded | UserRefused(error: Error) | AskUser(setting: Setting, token: string)

  function PrepareUser(table: Table, req: Input): UserStep {
    if !req.meta.userAuthRequired then NoUserNeeded
    else if req.meta.moduleName !in table then UserRefused(Internal)
    else
      var setting := table[req.meta.moduleName];
      match FirstToken(setting.providers, req.read)
      case Err(_) => UserRefused(UNAUTHORIZED)
      case Ok(token) => AskUser(setting, token)
  }

  /** The application token and the name it must belong to, if any. */
  function AppToken(req: Input): Option<(string, string)> {
    if req.appParam != "" then Some((req.appParam, ""))
    else match req.basicAuth
      case None => None
      case Some((name, password)) => if name == "" || password == "" then None else Some((password, name))
  }

  /** The service call this middleware makes for this request, if it gets that far. */
  function Need(m: Middleware, table: Table, req: Input, ctx: Ctx): Option<Query> {
    match m
    case UserAuthenticate =>
      var step := PrepareUser(table, req);
      if step.AskUser? then Some(UserQ(step.setting.endpoint, step.token)) else None
    case Authenticate =>
      if ctx.SkipAppAuth() || AppToken(req).None? then None else Some(AppQ(AppToken(req).value.0))
    case AdminAuthenticate => if req.adminToken == "" then None else Some(AdminTokenQ(req.adminToken))
    case Authorize =>
      if ctx.SkipAppAuth() || ctx.app.None? then None
      else Some(AuthorizeQ(ctx.app.value.applicationId, req.httpMethod, req.meta.pathSchema))
    case AdminAuthorize =>
      if !req.meta.inner || ctx.admin.None? || req.meta.requiredAdminPermission == "" then None
      else Some(PermissionQ(ctx.admin.value.id, req.meta.requiredAdminPermission))
    case Throttling => if ctx.SkipAppAuth() || ctx.app.None? then None else Some(RateQ(ctx.app.value.applicationId))
    case DailyLimit => if ctx.SkipAppAuth() || ctx.app.None? then None else Some(DailyQ(ctx.app.value.applicationId))
    case _ => None
  }

  // ---------------------------------------------------------------- one middleware

  datatype Decision = Pass(ctx: Ctx) | Stop(error: Error)

  function DecideUser(table: Table, req: Input, ctx: Ctx, answer: Answer<UserData>): Decision {
    match PrepareUser(table, req)
    case NoUserNeeded => Pass(ctx)
    case UserRefused(e) => Stop(e)
    case AskUser(setting, _) =>
      match answer
      case Failed => Stop(Internal)
      case Denied => Stop(UNAUTHORIZED)
      case Granted(d) => Pass(ctx.(user := Some(UserAuthData(setting.skipAppAuth, d))))
  }

  function DecideApp(req: Input, ctx: Ctx, answer: Answer<AppAuthData>): Decision {
    if ctx.SkipAppAuth() then Pass(ctx)
    else match AppToken(req)
      case None => Stop(UNAUTHORIZED)
      case Some((_, name)) =>
        match answer
        case Failed => Stop(Internal)
        case Denied => Stop(UNAUTHORIZED)
        case Granted(d) => if name != "" && d.appName != name then Stop(UNAUTHORIZED) else Pass(ctx.(app := Some(d)))
  }

  function DecideAdmin(req: Input, ctx: Ctx, answer: Answer<int>): Decision {
    if req.adminToken == "" then Pass(ctx)
    else if answer.Granted? then Pass(ctx.(admin := Some(Admin(answer.data, req.adminToken))))
    else Stop(UNAUTHORIZED)
  }

  function DecideAuthorize(ctx: Ctx, answer: Answer<()>): Decision {
    if ctx.SkipAppAuth() then Pass(ctx)
    else if ctx.app.None? then Stop(Internal)
    else match answer
      case Failed => Stop(Internal)
      case Granted(_) => Pass(ctx)
      case Denied => if ctx.admin.Some? then Pass(ctx) else Stop(FORBIDDEN)
  }

  function DecidePermission(req: Input, ctx: Ctx, answer: Answer<()>): Decision {
    if !req.meta.inner then Pass(ctx)
    else if ctx.admin.None? then Stop(FORBIDDEN)
    else if req.meta.requiredAdminPermission == "" then Pass(ctx)
    else match answer
      case Failed => Stop(Internal)
      case Denied => Stop(FORBIDDEN)
      case Granted(_) => Pass(ctx)
  }

  function DecideLimit(ctx: Ctx, answer: Answer<()>): Decision {
    if ctx.SkipAppAuth() then Pass(ctx)
    else if ctx.app.None? then Stop(Internal)
    else match answer
      case Failed => Stop(Internal)
      case Denied => Stop(TOO_MANY_REQUESTS)
      case Granted(_) => Pass(ctx)
  }

  function Decide(m: Middleware, table: Table, req: Input, ctx: Ctx, v: Verdicts): Decision {
    match m
    case Logger => if v.bodyRead then Pass(ctx) else Stop(Internal)
    case UserAuthenticate => DecideUser(table, req, ctx, v.user)
    case Authenticate => DecideApp(req, ctx, v.app)
    case AdminAuthenticate => DecideAdmin(req, ctx, v.admin)
    case Authorize => DecideAuthorize(ctx, v.authorized)
    case AdminAuthorize => DecidePermission(req, ctx, v.permitted)
    case Throttling => DecideLimit(ctx, v.rate)
    case DailyLimit => DecideLimit(ctx, v.daily)
    case _ => Pass(ctx)
  }

  // ---------------------------------------------------------------- composition

  function Compose(mws: seq<Middleware>, root: Handler): Handler {
    if mws == [] then root else Wrapped(mws[0], Compose(mws[1..], root))
  }

  method Chain(root: Handler, middlewares: seq<Middleware>) returns (h: Handler)
    ensures h == Compose(middlewares, root)
  {
    h := root;
    for i := |middlewares| downto 0
      invariant h == Compose(middlewares[i..], root)
    {
      h := Wrapped(middlewares[i], h);
    }
  }

  const AUTH_CHAIN: seq<Middleware> := [
    Logger, RequestId, ErrorHandler, UserAuthenticate, Authenticate, AdminAuthenticate, ClientRequestId,
    Authorize, AdminAuthorize, Throttling, DailyLimit, Metrics]

  const SKIP_AUTH_CHAIN: seq<Middleware> := [Logger, RequestId, ErrorHandler, ClientRequestId, Metrics]

  /** What a handler returns, the statuses ErrorHandler wrote and how often the proxy ran. */
  datatype Reply = Reply(error: Option<Error>, written: seq<nat>, proxied: nat)

  function Absorb(r: Reply): Reply {
    if r.error.None? then r else Reply(None, r.written + [StatusOf(r.error.value)], r.proxied)
  }

  function Forward(v: Verdicts): Reply {
    Reply(if v.upstream.Done? then None else Some(v.upstream.error), [], 1)
  }

  function Refuse(e: Error): Reply { Reply(Some(e), [], 0) }

  function Handle(h: Handler, table: Table, req: Input, ctx: Ctx, v: Verdicts): Reply {
    match h
    case Proxy => Forward(v)
    case Wrapped(m, next) =>
      if m == ErrorHandler then Absorb(Handle(next, table, req, ctx, v))
      else
        match Decide(m, table, req, ctx, v)
        case Stop(e) => Refuse(e)
        case Pass(ctx') => Handle(next, table, req, ctx', v)
  }

  // ---------------------------------------------------------------- the handlers as they run

  class ResponseWriter {
    var written: seq<nat>
    var proxied: nat

    constructor ()
      ensures written == [] && proxied == 0
    {
      written, proxied := [], 0;
    }
  }

  /** One middleware on a live context: the error it returns, or None when it calls the next handler. */
  method Enter(m: Middleware, ctx: Context, table: Table, req: Input, v: Verdicts) returns (stop: Option<Error>)
    requires ctx.Valid()
    modifies ctx
    ensures ctx.Valid()
    ensures Decide(m, table, req, old(ctx.View()), v) == if stop.Some? then Stop(stop.value) else Pass(ctx.View())
  {
    hide FirstToken;
    var skip := ctx.SkipAppAuth();
    var auth := ctx.GetAuthData();
    match m {
      case Logger => stop := if v.bodyRead then None else Some(Internal);
      case UserAuthenticate =>
        match PrepareUser(table, req) {
          case NoUserNeeded => stop := None;
          case UserRefused(e) => stop := Some(e);
          case AskUser(setting, _) =>
            if v.user.Granted? {
              ctx.AuthenticateUser(UserAuthData(setting.skipAppAuth, v.user.data));
              stop := None;
            } else {
              stop := Some(if v.user.Failed? then Internal else UNAUTHORIZED);
            }
        }
      case Authenticate =>
        if skip {
          return None;
        }
        var token := AppToken(req);
        if token.None? {
          return Some(UNAUTHORIZED);
        }
        if !v.app.Granted? {
          return Some(if v.app.Failed? then Internal else UNAUTHORIZED);
        }
        var name := token.value.1;
        if name != "" && v.app.data.appName != name {
          return Some(UNAUTHORIZED);
        }
        ctx.Authenticate(v.app.data);
        stop := None;
      case AdminAuthenticate =>
        if req.adminToken == "" {
          return None;
        }
        if !v.admin.Granted? {
          return Some(UNAUTHORIZED);
        }
        ctx.AuthenticateAdmin(v.admin.data, req.adminToken);
        stop := None;
      case Authorize =>
        if skip {
          return None;
        }
        if auth.None? || v.authorized.Failed? {
          return Some(Internal);
        }
        stop := if v.authorized.Granted? || ctx.adminAuthenticated then None else Some(FORBIDDEN);
      case AdminAuthorize =>
        if !req.meta.inner {
          return None;
        }
        if !ctx.adminAuthenticated {
          return Some(FORBIDDEN);
        }
        if req.meta.requiredAdminPermission == "" || v.permitted.Granted? {
          return None;
        }
        stop := Some(if v.permitted.Failed? then Internal else FORBIDDEN);
      case Throttling => stop := if skip then None else PassLimit(auth, v.rate);
      case DailyLimit => stop := if skip then None else PassLimit(auth, v.daily);
      case _ => stop := None;
    }
  }

  function PassLimit(auth: Option<AppAuthData>, answer: Answer<()>): Option<Error> {
    if auth.None? || answer.Failed? then Some(Internal)
    else if answer.Denied? then Some(TOO_MANY_REQUESTS)
    else None
  }

  method Serve(h: Handler, ctx: Context, w: ResponseWriter, table: Table, req: Input, v: Verdicts)
    returns (err: Option<Error>)
    requires ctx.Valid()
    modifies ctx, w
    ensures ctx.Valid()
    ensures var r := Handle(h, table, req, old(ctx.View()), v);
            && err == r.error
            && w.written == old(w.written) + r.written
            && w.proxied == old(w.proxied) + r.proxied
    decreases h
  {
    match h {
      case Proxy =>
        w.proxied := w.proxied + 1;
        err := if v.upstream.Done? then None else Some(v.upstream.error);
      case Wrapped(m, next) =>
        if m == ErrorHandler {
          err := Serve(next, ctx, w, table, req, v);
          if err.Some? {
            w.written := w.written + [StatusOf(err.value)];
            err := None;
          }
        } else {
          err := Enter(m, ctx, table, req, v);
          if err.None? {
            err := Serve(next, ctx, w, table, req, v);
          }
        }
    }
  }

  // ---------------------------------------------------------------- the chain is the policy

  /** The user token the request's own module finds. */
  function UserToken(table: Table, req: Input): Result<string, TokenError> {
    if req.meta.moduleName in table then FirstToken(table[req.meta.moduleName].providers, req.read) else Err(EmptyToken)
  }

  /** The request may skip everything about applications: its user is known and its own module's setting says so. */
  predicate AppSkipped(table: Table, req: Input, v: Verdicts) {
    && req.meta.userAuthRequired
    && UserToken(table, req).Ok? && v.user.Granted?
    && table[req.meta.moduleName].skipAppAuth
  }

  /** The application token the request presents: the parameter, or else the password of basic authentication. */
  predicate Presents(req: Input, token: string) {
    && token != ""
    && (req.appParam != "" ==> token == req.appParam)
    && (req.appParam == "" ==> req.basicAuth.Some? && req.basicAuth.value.0 != "" && token == req.basicAuth.value.1)
  }

  /** With basic authentication the token must belong to the application named there. */
  predicate NameFits(req: Input, appName: string) {
    req.appParam == "" ==> req.basicAuth.Some? && appName == req.basicAuth.value.0
  }

  predicate Anonymous(req: Input) {
    && req.appParam == ""
    && (req.basicAuth.None? || req.basicAuth.value.0 == "" || req.basicAuth.value.1 == "")
  }

  /** Who may reach the proxy of an authenticated location. */
  predicate Policy(table: Table, req: Input, v: Verdicts) {
    var isAdmin := req.adminToken != "";
    && (req.meta.userAuthRequired ==> UserToken(table, req).Ok? && v.user.Granted?)
    && (isAdmin ==> v.admin.Granted?)
    && (req.meta.inner ==> isAdmin && (req.meta.requiredAdminPermission != "" ==> v.permitted.Granted?))
    && (!AppSkipped(table, req, v) ==>
          && !Anonymous(req)
          && v.app.Granted?
          && NameFits(req, v.app.data.appName)
          && (v.authorized.Granted? || (v.authorized.Denied? && isAdmin))
          && v.rate.Granted?
          && v.daily.Granted?)
  }

  /** The status of a refusal: the first rule that is broken, in the order a request meets them. */
  function RefusalStatus(table: Table, req: Input, v: Verdicts): Option<nat> {
    var isAdmin := req.adminToken != "";
    var appChecks := !AppSkipped(table, req, v);
    if req.meta.userAuthRequired && req.meta.moduleName !in table then Some(500)
    else if req.meta.userAuthRequired && UserToken(table, req).Err? then Some(401)
    else if req.meta.userAuthRequired && v.user.Failed? then Some(500)
    else if req.meta.userAuthRequired && v.user.Denied? then Some(401)
    else if appChecks && Anonymous(req) then Some(401)
    else if appChecks && v.app.Failed? then Some(500)
    else if appChecks && v.app.Denied? then Some(401)
    else if appChecks && !NameFits(req, v.app.data.appName) then Some(401)
    else if isAdmin && !v.admin.Granted? then Some(401)
    else if appChecks && v.authorized.Failed? then Some(500)
    else if appChecks && v.authorized.Denied? && !isAdmin then Some(403)
    else if req.meta.inner && !isAdmin then Some(403)
    else if req.meta.inner && req.meta.requiredAdminPermission != "" && v.permitted.Failed? then Some(500)
    else if req.meta.inner && req.meta.requiredAdminPermission != "" && v.permitted.Denied? then Some(403)
    else if appChecks && v.rate.Failed? then Some(500)
    else if appChecks && v.rate.Denied? then Some(429)
    else if appChecks && v.daily.Failed? then Some(500)
    else if appChecks && v.daily.Denied? then Some(429)
    else None
  }

  /** What the upstream's result writes: nothing, its own status, or an internal error's. */
  function UpstreamStatus(u: Upstream): seq<nat> {
    match u
    case Done => []
    case Broken(Http(status)) => [status]
    case Broken(Internal) => [500]
  }

  datatype Gate = Gate(open: bool, error: Error)

  function Blame<D>(a: Answer<D>, refusal: Error): Error { if a.Failed? then Internal else refusal }

  /** The gates in the order a request meets them, each judged from the verdicts alone. */
  function Gates(table: Table, req: Input, v: Verdicts): seq<Gate> {
    var step := PrepareUser(table, req);
    var skip := AppSkipped(table, req, v);
    var isAdmin := req.adminToken != "";
    [ Gate(!step.UserRefused?, if step.UserRefused? then step.error else Internal),
      Gate(step.AskUser? ==> v.user.Granted?, Blame(v.user, UNAUTHORIZED)),
      Gate(skip || AppToken(req).Some?, UNAUTHORIZED),
      Gate(skip || v.app.Granted?, Blame(v.app, UNAUTHORIZED)),
      Gate(skip || (AppToken(req).Some? && v.app.Granted? && AppToken(req).value.1 in {"", v.app.data.appName}),
           UNAUTHORIZED),
      Gate(!isAdmin || v.admin.Granted?, UNAUTHORIZED),
      Gate(skip || !v.authorized.Failed?, Internal),
      Gate(skip || isAdmin || v.authorized.Granted?, FORBIDDEN),
      Gate(req.meta.inner ==> isAdmin, FORBIDDEN),
      Gate(req.meta.inner && req.meta.requiredAdminPermission != "" ==> v.permitted.Granted?,
           Blame(v.permitted, FORBIDDEN)),
      Gate(skip || v.rate.Granted?, Blame(v.rate, TOO_MANY_REQUESTS)),
      Gate(skip || v.daily.Granted?, Blame(v.daily, TOO_MANY_REQUESTS)) ]
  }

  function FirstClosed(gates: seq<Gate>): Option<Error> {
    if gates == [] then None
    else if !gates[0].open then Some(gates[0].error)
    else FirstClosed(gates[1..])
  }
}
