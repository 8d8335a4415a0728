/**
 The gateway as a state machine: any number of requests in flight, each at its own place in
 its chain, interleaved with each other, with the clock, the cleaner and config reloads.
 A cached service call takes three separate steps (cache get, remote call, cache set), as the
 services perform them without holding a lock across steps.
 */
module Gateway {
  import opened Wrappers
  import opened Domain
  import opened Caching
  import opened Keys
  import opened Settings
  import opened DailyLimits
  import opened Request
  import opened Pipeline
  import opened PipelineTheorems

  // conf.Remote, as far as the handlers depend on it
  datatype Remote = Remote(
    authenticationDataInSec: int, authorizationDataInSec: int, customAuth: CustomAuth,
    dailyLimits: seq<LimitConfig>, throttling: seq<LimitConfig>)

  /** One call of Locator.Handler: its config, its settings table and three caches of its own. */
  datatype Generation = Generation(remote: Remote, table: Table) {
    function Limits(): map<int, int> { LimitsOf(remote.dailyLimits) }

    function Rates(): map<int, int> { LimitsOf(remote.throttling) }
  }

  /** The user cache outlives reloads; the others belong to one generation. */
  datatype CacheId = Users | Apps(gen: nat) | Authorizations(gen: nat) | Permissions(gen: nat)

  /** What an authority grants and a cache stores. */
  datatype Data = UserD(user: UserData) | AppD(app: AppAuthData) | AdminD(id: int) | Yes

  datatype Event =
    | Asked(r: nat, q: Query, a: Answer<Data>, at: int)
    | Filled(r: nat, c: CacheId, q: Query, d: Data, at: int, life: int, gen: nat, moduleName: string)
    | Hit(r: nat, c: CacheId, q: Query, d: Data, at: int, gen: nat, moduleName: string)
    | Counted(r: nat, app: int, date: Date, value: nat, limit: int, replied: bool)
    | Proxied(r: nat)

  datatype Phase = Start | Asking(q: Query) | Filling(q: Query, d: Data)

  /** The middlewares of an authenticated location, or of one configured with SkipAuth. */
  function ChainFor(skipAuth: bool): seq<Middleware> { if skipAuth then SKIP_AUTH_CHAIN else AUTH_CHAIN }

  /** A request: what it presents, where it stands, what it was told so far. */
  datatype Flight = Flight(
    req: Input, skipAuth: bool, gen: nat, at: nat, phase: Phase, ctx: Ctx, told: Verdicts, reply: Option<Reply>)
  {
    function Chain(): seq<Middleware> { ChainFor(skipAuth) }
  }

  datatype State = State(
    now: int, gens: seq<Generation>, caches: map<CacheId, Store<Data>>, counters: map<string, nat>,
    log: seq<Event>, flights: seq<Flight>)

  datatype LockOutcome = Replied | ReplyLost | NotReached

  /** What the outside contributes to one step. */
  datatype Env = Env(answer: Answer<Data>, bodyRead: bool, date: Date, lock: LockOutcome, upstream: Upstream)

  datatype Label =
    | Tick(elapsed: nat)
    | Clean
    | Reload(remote: Remote, table: Table)
    | Arrive(req: Input, skipAuth: bool)
    | Advance(r: nat, env: Env)

  // ---------------------------------------------------------------- queries and caches

  function CacheOf(q: Query, gen: nat): Option<CacheId> {
    match q
    case UserQ(_, _) => Some(Users)
    case AppQ(_) => Some(Apps(gen))
    case AuthorizeQ(_, _, _) => Some(Authorizations(gen))
    case PermissionQ(_, _) => Some(Permissions(gen))
    case _ => None
  }

  function KeyOf(q: Query): string {
    match q
    case UserQ(endpoint, token) => UserKey(endpoint, token)
    case AppQ(token) => token
    case AuthorizeQ(app, httpMethod, path) => AuthorizationKey(app, MethodAndPath(httpMethod, path))
    case PermissionQ(admin, permission) => AuthorizationKey(admin, permission)
    case _ => ""
  }

  /** How long an answer obtained for this module is cached. */
  function LifeOf(g: Generation, moduleName: string, q: Query): int {
    match q
    case UserQ(_, _) => if moduleName in g.table then g.table[moduleName].cacheDuration else 0
    case AppQ(_) => g.remote.authenticationDataInSec * SECOND
    case AuthorizeQ(_, _, _) => g.remote.authorizationDataInSec * SECOND
    case PermissionQ(_, _) => g.remote.authorizationDataInSec * SECOND
    case _ => 0
  }

  /** User answers are cached only under a positive duration; the other caches are always consulted. */
  predicate UsesCache(g: Generation, moduleName: string, q: Query) {
    CacheOf(q, 0).Some? && (q.UserQ? ==> LifeOf(g, moduleName, q) > 0)
  }

  /** The kind of data each authority answers with. */
  predicate Fits(q: Query, d: Data) {
    match q
    case UserQ(_, _) => d.UserD?
    case AppQ(_) => d.AppD?
    case AdminTokenQ(_) => d.AdminD?
    case _ => d.Yes?
  }

  function Typed(q: Query, a: Answer<Data>): Answer<Data> {
    if a.Granted? && !Fits(q, a.data) then Failed else a
  }

  /**
   Where a request of this generation and module keeps the answer to a call, and how long: users under a
   positive duration in the shared cache, applications, authorizations and permissions in caches of its
   generation for the configured seconds (the clock counts nanoseconds), anything else nowhere.
   */
  predicate KeptIn(g: Generation, gen: nat, m: string, q: Query, c: CacheId, life: int) {
    match q
    case UserQ(_, _) => c == Users && m in g.table && g.table[m].cacheDuration > 0 && life == g.table[m].cacheDuration
    case AppQ(_) => c == Apps(gen) && life == g.remote.authenticationDataInSec * 1_000_000_000
    case AuthorizeQ(_, _, _) => c == Authorizations(gen) && life == g.remote.authorizationDataInSec * 1_000_000_000
    case PermissionQ(_, _) => c == Permissions(gen) && life == g.remote.authorizationDataInSec * 1_000_000_000
    case _ => false
  }

  /** The kind of data an authority's grant must carry. */
  predicate RightKind(q: Query, a: Answer<Data>) {
    a.Granted? ==>
      && (q.UserQ? ==> a.data.UserD?) && (q.AppQ? ==> a.data.AppD?) && (q.AdminTokenQ? ==> a.data.AdminD?)
      && (q.AuthorizeQ? || q.PermissionQ? || q.RateQ? || q.DailyQ? ==> a.data.Yes?)
  }

  /** The middleware that makes this call. */
  function OwnerOfQuery(q: Query): Middleware {
    match q
    case UserQ(_, _) => UserAuthenticate
    case AppQ(_) => Authenticate
    case AdminTokenQ(_) => AdminAuthenticate
    case AuthorizeQ(_, _, _) => Authorize
    case PermissionQ(_, _) => AdminAuthorize
    case RateQ(_) => Throttling
    case DailyQ(_) => DailyLimit
  }

  function AsYes(a: Answer<Data>): Answer<()> {
    match a case Failed => Failed case Denied => Denied case Granted(_) => Granted(())
  }

  function FromYes(a: Answer<()>): Answer<Data> {
    match a case Failed => Failed case Denied => Denied case Granted(_) => Granted(Yes)
  }

  /** Records the answer to a call among the verdicts. */
  function Tell(v: Verdicts, q: Query, a: Answer<Data>): Verdicts {
    match q
    case UserQ(_, _) =>
      v.(user := match a
                 case Failed => Failed
                 case Denied => Denied
                 case Granted(d) => if d.UserD? then Granted(d.user) else Failed)
    case AppQ(_) =>
      v.(app := match a
                case Failed => Failed
                case Denied => Denied
                case Granted(d) => if d.AppD? then Granted(d.app) else Failed)
    case AdminTokenQ(_) =>
      v.(admin := match a
                  case Failed => Failed
                  case Denied => Denied
                  case Granted(d) => if d.AdminD? then Granted(d.id) else Failed)
    case AuthorizeQ(_, _, _) => v.(authorized := AsYes(a))
    case PermissionQ(_, _) => v.(permitted := AsYes(a))
    case RateQ(_) => v.(rate := AsYes(a))
    case DailyQ(_) => v.(daily := AsYes(a))
  }

  /** The recorded answer to a call. */
  function Told(v: Verdicts, q: Query): Answer<Data> {
    match q
    case UserQ(_, _) => (match v.user case Failed => Failed case Denied => Denied case Granted(u) => Granted(UserD(u)))
    case AppQ(_) => (match v.app case Failed => Failed case Denied => Denied case Granted(d) => Granted(AppD(d)))
    case AdminTokenQ(_) =>
      (match v.admin case Failed => Failed case Denied => Denied case Granted(i) => Granted(AdminD(i)))
    case AuthorizeQ(_, _, _) => FromYes(v.authorized)
    case PermissionQ(_, _) => FromYes(v.permitted)
    case RateQ(_) => FromYes(v.rate)
    case DailyQ(_) => FromYes(v.daily)
  }

  const UNTOLD := Verdicts(false, Failed, Failed, Failed, Failed, Failed, Failed, Failed, Done)

  // ---------------------------------------------------------------- steps

  function Stored(caches: map<CacheId, Store<Data>>, c: CacheId): Store<Data> {
    if c in caches then caches[c] else map[]
  }

  function StoreOf(s: State, c: CacheId): Store<Data> { Stored(s.caches, c) }

  function Counter(s: State, key: string): nat { if key in s.counters then s.counters[key] else 0 }

  /** The current middleware decides with what it was told, and the request moves on or is answered. */
  function Conclude(f: Flight, table: Table, told: Verdicts): Flight
    requires f.at < |f.Chain()|
  {
    match Decide(f.Chain()[f.at], table, f.req, f.ctx, told)
    case Pass(ctx) => f.(at := f.at + 1, phase := Start, ctx := ctx, told := told)
    case Stop(e) => f.(at := f.at + 1, phase := Start, told := told, reply := Some(Unwind(f.Chain(), f.at, Refuse(e))))
  }

  function Land(s: State, r: nat, f: Flight, events: seq<Event>): State
    requires r < |s.flights|
  {
    s.(flights := s.flights[r := f], log := s.log + events)
  }

  function RunProxy(s: State, r: nat, env: Env): State
    requires r < |s.flights|
  {
    var f := s.flights[r];
    var told := f.told.(upstream := env.upstream);
    Land(s, r, f.(told := told, reply := Some(Unwind(f.Chain(), |f.Chain()|, Forward(told)))), [Proxied(r)])
  }

  /** The cache is consulted if this call uses one; on a miss the authority is asked next. */
  function Begin(s: State, r: nat, q: Query): State
    requires r < |s.flights| && s.flights[r].gen < |s.gens| && s.flights[r].at < |s.flights[r].Chain()|
  {
    var f := s.flights[r];
    var g, m := s.gens[f.gen], f.req.meta.moduleName;
    if !UsesCache(g, m, q) then Land(s, r, f.(phase := Asking(q)), [])
    else
      var c := CacheOf(q, f.gen).value;
      match Lookup(StoreOf(s, c), KeyOf(q), s.now)
      case None => Land(s, r, f.(phase := Asking(q)), [])
      case Some(d) =>
        Land(s, r, Conclude(f, g.table, Tell(f.told, q, Granted(d))), [Hit(r, c, q, d, s.now, f.gen, m)])
  }

  /** The authority answers; a positive answer that is to be cached is kept for the next step. */
  function Ask(s: State, r: nat, q: Query, env: Env): State
    requires r < |s.flights| && s.flights[r].gen < |s.gens| && s.flights[r].at < |s.flights[r].Chain()|
  {
    var f := s.flights[r];
    var a := Typed(q, env.answer);
    var next :=
      if a.Granted? && UsesCache(s.gens[f.gen], f.req.meta.moduleName, q) then f.(phase := Filling(q, a.data))
      else Conclude(f, s.gens[f.gen].table, Tell(f.told, q, a));
    Land(s, r, next, [Asked(r, q, a, s.now)])
  }

  /** Whether answering this takes an authority: the rate limiter knows only the listed applications. */
  predicate Consulted(g: Generation, q: Query) { !q.DailyQ? && (q.RateQ? ==> q.applicationId in g.Rates()) }

  /** An application without a rate limit is allowed without asking. */
  function AllowUnlisted(s: State, r: nat, q: Query): State
    requires r < |s.flights| && s.flights[r].gen < |s.gens| && s.flights[r].at < |s.flights[r].Chain()|
  {
    var f := s.flights[r];
    Land(s, r, Conclude(f, s.gens[f.gen].table, Tell(f.told, q, Granted(Yes))), [])
  }

  function Fill(s: State, r: nat, q: Query, d: Data): State
    requires r < |s.flights| && s.flights[r].gen < |s.gens| && s.flights[r].at < |s.flights[r].Chain()|
    requires CacheOf(q, s.flights[r].gen).Some?
  {
    var f := s.flights[r];
    var g, m := s.gens[f.gen], f.req.meta.moduleName;
    var c, life := CacheOf(q, f.gen).value, LifeOf(g, m, q);
    Land(s, r, Conclude(f, g.table, Tell(f.told, q, Granted(d))), [Filled(r, c, q, d, s.now, life, f.gen, m)])
      .(caches := s.caches[c := Put(StoreOf(s, c), KeyOf(q), d, s.now, life)])
  }

  /** A request is within the day's limit while the counted value does not exceed it. */
  function DayAnswer(value: nat, limit: int, replied: bool): Answer<Data> {
    if !replied then Failed else if value <= limit then Granted(Yes) else Denied
  }

  /** The lock service counts by key; its reply may be lost after it has counted. */
  function CountDay(s: State, r: nat, app: int, env: Env): State
    requires r < |s.flights| && s.flights[r].gen < |s.gens| && s.flights[r].at < |s.flights[r].Chain()|
  {
    var f := s.flights[r];
    var g := s.gens[f.gen];
    var q := DailyQ(app);
    if app !in g.Limits() then Land(s, r, Conclude(f, g.table, Tell(f.told, q, Granted(Yes))), [])
    else if env.lock.NotReached? then Land(s, r, Conclude(f, g.table, Tell(f.told, q, Failed)), [])
    else
      var key, limit := DailyKey(app, env.date), g.Limits()[app];
      var value, replied := Counter(s, key) + 1, env.lock.Replied?;
      Land(s, r, Conclude(f, g.table, Tell(f.told, q, DayAnswer(value, limit, replied))),
           [Counted(r, app, env.date, value, limit, replied)])
        .(counters := s.counters[key := value])
  }

  function AdvanceFlight(s: State, r: nat, env: Env): State
    requires r < |s.flights| && s.flights[r].gen < |s.gens|
  {
    var f := s.flights[r];
    if f.at >= |f.Chain()| then RunProxy(s, r, env)
    else
      match f.phase
      case Asking(q) =>
        if q.DailyQ? then CountDay(s, r, q.applicationId, env)
        else if !Consulted(s.gens[f.gen], q) then AllowUnlisted(s, r, q)
        else Ask(s, r, q, env)
      case Filling(q, d) => if CacheOf(q, f.gen).Some? then Fill(s, r, q, d) else s
      case Start =>
        var m, table := f.Chain()[f.at], s.gens[f.gen].table;
        if m == Logger then Land(s, r, Conclude(f, table, f.told.(bodyRead := env.bodyRead)), [])
        else
          match Need(m, table, f.req, f.ctx)
          case None => Land(s, r, Conclude(f, table, f.told), [])
          case Some(q) => Begin(s, r, q)
  }

  ghost function Apply(s: State, l: Label): State {
    match l
    case Tick(elapsed) => s.(now := s.now + elapsed)
    case Clean => if Users in s.caches then s.(caches := s.caches[Users := Purge(s.caches[Users], s.now)]) else s
    case Reload(remote, table) =>
      if WellFormed(remote.customAuth) && IsTable(remote.customAuth, table) then
        s.(gens := s.gens + [Generation(remote, table)])
      else s
    case Arrive(req, skipAuth) =>
      if s.gens == [] || ' ' in req.httpMethod then s
      else s.(flights := s.flights + [Flight(req, skipAuth, |s.gens| - 1, 0, Start, ANONYMOUS, UNTOLD, None)])
    case Advance(r, env) =>
      if r < |s.flights| && s.flights[r].reply.None? && s.flights[r].gen < |s.gens| then AdvanceFlight(s, r, env) else s
  }

  const INITIAL := State(0, [], map[], map[], [], [])

  /** The state after a run. */
  ghost function Exec(run: seq<Label>): State {
    if run == [] then INITIAL else Apply(Exec(run[..|run| - 1]), run[|run| - 1])
  }
}
