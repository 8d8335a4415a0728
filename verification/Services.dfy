/**
 The services as they run on their own: cache read, remote call and cache write, one after the other
 (service/, repository/). Every clock reading and the remote's answer are arguments. What is
 cached is JSON; `Data` stands for it, encoding and decoding being inverse.
 */
module Services {
  import opened Wrappers
  import opened Domain
  import opened Caching
  import opened Keys
  import opened Settings
  import opened DailyLimits
  import opened Pipeline
  import opened Gateway

  predicate Live(store: Store<Data>, key: string, now: int) { Lookup(store, key, now).Some? }

  /** Reading the cache at one time, asking on a miss, storing a grant at another time. */
  function CachedCall(store: Store<Data>, key: string, readAt: int, remote: Answer<Data>, storedAt: int, life: int)
    : (Answer<Data>, Store<Data>)
  {
    match Lookup(store, key, readAt)
    case Some(d) => (Granted(d), store)
    case None => if remote.Granted? then (remote, Put(store, key, remote.data, storedAt, life)) else (remote, store)
  }

  /** The user service turns the cache off for a duration that is not positive. */
  function UserCall(store: Store<Data>, s: Setting, token: string, readAt: int, remote: Answer<Data>, storedAt: int)
    : (Answer<Data>, Store<Data>)
  {
    if s.cacheDuration <= 0 then (remote, store)
    else CachedCall(store, UserKey(s.endpoint, token), readAt, remote, storedAt, s.cacheDuration)
  }

  /** The cache is off for this setting, or holds no live answer. */
  predicate Uncached(store: Store<Data>, s: Setting, token: string, now: int) {
    s.cacheDuration <= 0 || !Live(store, UserKey(s.endpoint, token), now)
  }

  // ---------------------------------------------------------------- repositories

  class AuthorizationCache {
    const duration: int
    const cache: Cache<Data>

    constructor (duration: int)
      ensures this.duration == duration && fresh(cache) && cache.store == map[]
    {
      this.duration := duration;
      cache := new Cache();
    }

    method Get(id: int, endpoint: string, now: int) returns (ok: bool)
      ensures ok == Lookup(cache.store, AuthorizationKey(id, endpoint), now).Some?
    {
      var data := cache.Get(AuthorizationKey(id, endpoint), now);
      ok := data.Some?;
    }

    method SetAuthorized(id: int, endpoint: string, now: int)
      modifies cache
      ensures cache.store == Put(old(cache.store), AuthorizationKey(id, endpoint), Yes, now, duration)
    {
      cache.Set(AuthorizationKey(id, endpoint), Yes, now, duration);
    }
  }

  class AuthenticationCache {
    const duration: int
    const cache: Cache<Data>

    constructor (duration: int)
      ensures this.duration == duration && fresh(cache) && cache.store == map[]
    {
      this.duration := duration;
      cache := new Cache();
    }

    method Get(token: string, now: int) returns (data: Option<Data>)
      ensures data == Lookup(cache.store, token, now)
    {
      data := cache.Get(token, now);
    }

    method Set(token: string, data: Data, now: int)
      modifies cache
      ensures cache.store == Put(old(cache.store), token, data, now, duration)
    {
      cache.Set(token, data, now, duration);
    }
  }

  /** A view of the cache that outlives config reloads. */
  class UserAuthenticationCache {
    const cache: Cache<Data>

    constructor (shared: Cache<Data>)
      ensures cache == shared
    {
      cache := shared;
    }

    method Get(endpoint: string, token: string, now: int) returns (data: Option<Data>)
      ensures data == Lookup(cache.store, UserKey(endpoint, token), now)
    {
      data := cache.Get(UserKey(endpoint, token), now);
    }

    method Set(endpoint: string, token: string, data: Data, now: int, duration: int)
      modifies cache
      ensures cache.store == Put(old(cache.store), UserKey(endpoint, token), data, now, duration)
    {
      cache.Set(UserKey(endpoint, token), data, now, duration);
    }
  }

  /** The lock service: it counts by key, and its reply may be lost. */
  class LockService {
    var counters: map<string, nat>

    constructor ()
      ensures counters == map[]
    {
      counters := map[];
    }

    function Count(key: string): nat
      reads this
    {
      if key in counters then counters[key] else 0
    }

    method Increment(key: string, outcome: LockOutcome) returns (value: Option<nat>)
      modifies this
      ensures outcome.NotReached? ==> value.None? && counters == old(counters)
      ensures !outcome.NotReached? ==> counters == old(counters)[key := old(Count(key)) + 1]
      ensures value == if outcome.Replied? then Some(old(Count(key)) + 1) else None
    {
      if outcome.NotReached? {
        return None;
      }
      counters := counters[key := Count(key) + 1];
      value := if outcome.Replied? then Some(counters[key]) else None;
    }
  }

  // ---------------------------------------------------------------- services

  class Authorization {
    const cache: AuthorizationCache

    constructor (cache: AuthorizationCache)
      ensures this.cache == cache
    {
      this.cache := cache;
    }

    /** The key of this question in the cache. */
    static function Key(applicationId: int, httpMethod: string, endpoint: string): string {
      AuthorizationKey(applicationId, MethodAndPath(httpMethod, endpoint))
    }

    method Authorize(applicationId: int, httpMethod: string, endpoint: string,
                     readAt: int, remote: Answer<()>, storedAt: int)
      returns (r: Answer<()>, asked: bool)
      modifies cache.cache
      ensures asked <==> !Live(old(cache.cache.store), Key(applicationId, httpMethod, endpoint), readAt)
      ensures var call := CachedCall(old(cache.cache.store), Key(applicationId, httpMethod, endpoint),
                                     readAt, FromYes(remote), storedAt, cache.duration);
              r == AsYes(call.0) && cache.cache.store == call.1
      ensures asked ==> (r.Granted? <==> remote.Granted?) && (r.Failed? <==> remote.Failed?)
      ensures !asked ==> r.Granted?
      ensures !asked || !remote.Granted? ==> cache.cache.store == old(cache.cache.store)
      ensures asked && remote.Granted? ==>
                forall t | t <= storedAt + cache.duration ::
                  Live(cache.cache.store, Key(applicationId, httpMethod, endpoint), t)
    {
      var cacheKey := MethodAndPath(httpMethod, endpoint);
      var ok := cache.Get(applicationId, cacheKey, readAt);
      if ok {
        return Granted(()), false;
      }
      if remote.Failed? {
        return Failed, true;
      }
      ok := remote.Granted?;
      if ok {
        cache.SetAuthorized(applicationId, cacheKey, storedAt);
      }
      r, asked := if ok then Granted(()) else Denied, true;
    }
  }

  class AdminService {
    const cache: AuthorizationCache

    constructor (cache: AuthorizationCache)
      ensures this.cache == cache
    {
      this.cache := cache;
    }

    method AdminAuthorize(adminId: int, permission: string, readAt: int, remote: Answer<()>, storedAt: int)
      returns (r: Answer<()>, asked: bool)
      modifies cache.cache
      ensures asked <==> !Live(old(cache.cache.store), AuthorizationKey(adminId, permission), readAt)
      ensures var call := CachedCall(old(cache.cache.store), AuthorizationKey(adminId, permission),
                                     readAt, FromYes(remote), storedAt, cache.duration);
              r == AsYes(call.0) && cache.cache.store == call.1
      ensures asked ==> (r.Granted? <==> remote.Granted?) && (r.Failed? <==> remote.Failed?)
      ensures !asked ==> r.Granted?
      ensures !asked || !remote.Granted? ==> cache.cache.store == old(cache.cache.store)
      ensures asked && remote.Granted? ==>
                forall t | t <= storedAt + cache.duration ::
                  Live(cache.cache.store, AuthorizationKey(adminId, permission), t)
    {
      var ok := cache.Get(adminId, permission, readAt);
      if ok {
        return Granted(()), false;
      }
      if remote.Failed? {
        return Failed, true;
      }
      ok := remote.Granted?;
      if ok {
        cache.SetAuthorized(adminId, permission, storedAt);
      }
      r, asked := if ok then Granted(()) else Denied, true;
    }
  }

  /** Application data in an answer; anything else does not decode. */
  function ToApp(a: Answer<Data>): Answer<AppAuthData> {
    match a
    case Failed => Failed
    case Denied => Denied
    case Granted(d) => if d.AppD? then Granted(d.app) else Failed
  }

  function FromApp(a: Answer<AppAuthData>): Answer<Data> {
    match a case Failed => Failed case Denied => Denied case Granted(d) => Granted(AppD(d))
  }

  class Authentication {
    const cache: AuthenticationCache

    constructor (cache: AuthenticationCache)
      ensures this.cache == cache
    {
      this.cache := cache;
    }

    method Authenticate(token: string, readAt: int, remote: Answer<AppAuthData>, storedAt: int)
      returns (r: Answer<AppAuthData>, asked: bool)
      modifies cache.cache
      ensures var call := CachedCall(old(cache.cache.store), token, readAt, FromApp(remote), storedAt, cache.duration);
              r == ToApp(call.0) && cache.cache.store == call.1
      ensures asked <==> !Live(old(cache.cache.store), token, readAt)
      ensures asked ==> r == remote
      ensures !asked || !remote.Granted? ==> cache.cache.store == old(cache.cache.store)
      ensures asked && remote.Granted? ==>
                forall t | t <= storedAt + cache.duration :: Lookup(cache.cache.store, token, t) == Some(AppD(r.data))
    {
      var cached := cache.Get(token, readAt);
      if cached.Some? {
        return if cached.value.AppD? then Granted(cached.value.app) else Failed, false;
      }
      if remote.Granted? {
        cache.Set(token, AppD(remote.data), storedAt);
      }
      r, asked := remote, true;
    }
  }

  /** User data in an answer, under the flag of the setting that asked. */
  function ToUser(a: Answer<Data>, skipAppAuth: bool): Answer<UserAuthData> {
    match a
    case Failed => Failed
    case Denied => Denied
    case Granted(d) => if d.UserD? then Granted(UserAuthData(skipAppAuth, d.user)) else Failed
  }

  function FromUser(a: Answer<UserData>): Answer<Data> {
    match a case Failed => Failed case Denied => Denied case Granted(d) => Granted(UserD(d))
  }

  datatype UserReply = SkipUserAuth | TokenRefused(error: Error) | UserAnswer(answer: Answer<UserAuthData>)

  class UserAuthentication {
    const cache: UserAuthenticationCache
    const settings: Table

    constructor (settings: Table, cache: UserAuthenticationCache)
      ensures this.settings == settings && this.cache == cache
    {
      this.settings := settings;
      this.cache := cache;
    }

    /** `remote` is what the setting's endpoint answers for the extracted token. */
    method Authenticate(req: Input, readAt: int, remote: Answer<UserData>, storedAt: int)
      returns (r: UserReply, asked: bool)
      modifies cache.cache
      ensures match PrepareUser(settings, req)
              case NoUserNeeded => r == SkipUserAuth && !asked && cache.cache.store == old(cache.cache.store)
              case UserRefused(e) => r == TokenRefused(e) && !asked && cache.cache.store == old(cache.cache.store)
              case AskUser(s, token) =>
                var call := UserCall(old(cache.cache.store), s, token, readAt, FromUser(remote), storedAt);
                && r == UserAnswer(ToUser(call.0, s.skipAppAuth)) && cache.cache.store == call.1
                && (asked <==> Uncached(old(cache.cache.store), s, token, readAt))
    {
      if !req.meta.userAuthRequired {
        return SkipUserAuth, false;
      }
      if req.meta.moduleName !in settings {
        return TokenRefused(Internal), false;
      }
      var setting := settings[req.meta.moduleName];
      var token := ExtractToken(setting.providers, req.read);
      if token.Err? {
        return TokenRefused(UNAUTHORIZED), false;
      }
      var answer, called := Ask(setting, token.value, readAt, remote, storedAt);
      r, asked := UserAnswer(answer), called;
    }

    method Ask(setting: Setting, token: string, readAt: int, remote: Answer<UserData>, storedAt: int)
      returns (r: Answer<UserAuthData>, asked: bool)
      modifies cache.cache
      ensures var call := UserCall(old(cache.cache.store), setting, token, readAt, FromUser(remote), storedAt);
              r == ToUser(call.0, setting.skipAppAuth) && cache.cache.store == call.1
      ensures asked <==> Uncached(old(cache.cache.store), setting, token, readAt)
      ensures r.Granted? ==> r.data.skipAppAuth == setting.skipAppAuth
      ensures asked ==> r == Convert(remote, setting.skipAppAuth)
      ensures setting.cacheDuration <= 0 || !asked || !remote.Granted? ==> cache.cache.store == old(cache.cache.store)
    {
      if setting.cacheDuration <= 0 {
        return Convert(remote, setting.skipAppAuth), true;
      }
      var cached := cache.Get(setting.endpoint, token, readAt);
      if cached.Some? {
        r := if cached.value.UserD? then Granted(UserAuthData(setting.skipAppAuth, cached.value.user)) else Failed;
        return r, false;
      }
      if remote.Granted? {
        cache.Set(setting.endpoint, token, UserD(remote.data), storedAt, setting.cacheDuration);
      }
      r, asked := Convert(remote, setting.skipAppAuth), true;
    }

    static function Convert(a: Answer<UserData>, skipAppAuth: bool): Answer<UserAuthData> {
      match a
      case Failed => Failed
      case Denied => Denied
      case Granted(d) => Granted(UserAuthData(skipAppAuth, d))
    }
  }

  class ThrottlingService {
    const limits: map<int, int>

    constructor (limits: map<int, int>)
      ensures this.limits == limits
    {
      this.limits := limits;
    }

    /** `remote` is the rate limiter's verdict, if it is asked. */
    method AllowRateLimit(applicationId: int, remote: Answer<()>) returns (r: Answer<()>, asked: bool)
      ensures asked <==> applicationId in limits
      ensures r == if asked then remote else Granted(())
    {
      if applicationId !in limits {
        return Granted(()), false;
      }
      r, asked := remote, true;
    }
  }

  /** Without a limit nothing is counted; a lost reply still counts; the limit itself is within the limit. */
  function DayCheck(counters: map<string, nat>, limits: map<int, int>, app: int, today: Date, outcome: LockOutcome)
    : (Answer<()>, map<string, nat>)
  {
    if app !in limits then (Granted(()), counters)
    else if outcome.NotReached? then (Failed, counters)
    else
      var key := DailyKey(app, today);
      var value: nat := 1 + if key in counters then counters[key] else 0;
      (if outcome.ReplyLost? then Failed else if value > limits[app] then Denied else Granted(()),
       counters[key := value])
  }

  class DailyLimitService {
    const lock: LockService
    const limits: map<int, int>

    constructor (lock: LockService, limits: map<int, int>)
      ensures this.lock == lock && this.limits == limits
    {
      this.lock := lock;
      this.limits := limits;
    }

    method IncrementAndCheck(applicationId: int, today: Date, outcome: LockOutcome) returns (r: Answer<()>)
      modifies lock
      ensures (r, lock.counters) == DayCheck(old(lock.counters), limits, applicationId, today, outcome)
      ensures applicationId in limits && outcome.Replied? ==>
                (r.Granted? <==> lock.Count(DailyKey(applicationId, today)) <= limits[applicationId])
      ensures forall key | key != DailyKey(applicationId, today) :: lock.Count(key) == old(lock.Count(key))
    {
      if applicationId !in limits {
        return Granted(());
      }
      var value := lock.Increment(DailyKey(applicationId, today), outcome);
      if value.None? {
        return Failed;
      }
      r := if value.value <= limits[applicationId] then Granted(()) else Denied;
    }
  }

  // ---------------------------------------------------------------- the machine's steps are these calls

  /** The request is at this call and has not started it. */
  ghost predicate AboutToCall(s: State, r: nat, q: Query) {
    && r < |s.flights| && s.flights[r].gen < |s.gens| && s.flights[r].at < |s.flights[r].Chain()|
    && s.flights[r].reply.None? && s.flights[r].phase == Start
    && var f := s.flights[r];
       f.Chain()[f.at] != Logger && Need(f.Chain()[f.at], s.gens[f.gen].table, f.req, f.ctx) == Some(q)
  }

  ghost function Then(s: State, wait: nat, r: nat, env: Env): State { Apply(Apply(s, Tick(wait)), Advance(r, env)) }

  /** The request's steps at one middleware with nobody else moving in between: at most three. */
  ghost function Alone(s: State, r: nat, env: Env, beforeAsk: nat, beforeStore: nat): State
    requires r < |s.flights|
    ensures |Alone(s, r, env, beforeAsk, beforeStore).flights| == |s.flights|
  {
    Lasts(s, Advance(r, env));
    var s1 := Apply(s, Advance(r, env));
    Lasts(s1, Tick(beforeAsk));
    Lasts(Apply(s1, Tick(beforeAsk)), Advance(r, env));
    var s2 := Then(s1, beforeAsk, r, env);
    Lasts(s2, Tick(beforeStore));
    Lasts(Apply(s2, Tick(beforeStore)), Advance(r, env));
    if s1.flights[r].at > s.flights[r].at then s1
    else if s2.flights[r].at > s.flights[r].at then s2
    else Then(s2, beforeStore, r, env)
  }

  /** Requests do not disappear. */
  lemma Lasts(s: State, l: Label)
    requires l.Advance? || l.Tick?
    ensures |Apply(s, l).flights| == |s.flights|
  {
    hide ChainFor, Conclude, Tell, KeyOf, CacheOf, LifeOf, UsesCache, Forward, Need, Lookup, Typed, Put,
         StoreOf, LimitsOf, DailyKey, DayAnswer, Counter, Consulted;
  }

  lemma BeginHits(s: State, r: nat, q: Query, env: Env, c: CacheId, life: int, d: Data)
    requires AboutToCall(s, r, q)
    requires var f := s.flights[r]; KeptIn(s.gens[f.gen], f.gen, f.req.meta.moduleName, q, c, life)
    requires Lookup(StoreOf(s, c), KeyOf(q), s.now) == Some(d)
    ensures var f := s.flights[r];
            var s' := Apply(s, Advance(r, env));
            && s'.flights == s.flights[r := Conclude(f, s.gens[f.gen].table, Tell(f.told, q, Granted(d)))]
            && s'.caches == s.caches && s'.flights[r].at == f.at + 1
  {
    hide ChainFor, Decide, Tell, KeyOf, Need;
  }

  lemma BeginMisses(s: State, r: nat, q: Query, env: Env, c: CacheId, life: int)
    requires AboutToCall(s, r, q)
    requires var f := s.flights[r]; KeptIn(s.gens[f.gen], f.gen, f.req.meta.moduleName, q, c, life)
    requires Lookup(StoreOf(s, c), KeyOf(q), s.now) == None
    ensures Apply(s, Advance(r, env)) == s.(flights := s.flights[r := s.flights[r].(phase := Asking(q))])
  {
    hide ChainFor, Conclude, Tell, KeyOf, Need;
    assert s.log + [] == s.log;
  }

  lemma KeptIffUsed(g: Generation, gen: nat, m: string, q: Query)
    ensures UsesCache(g, m, q) <==> exists c, life :: KeptIn(g, gen, m, q, c, life)
  {
    var c := CacheOf(q, gen);
    assert UsesCache(g, m, q) ==> c.Some? && KeptIn(g, gen, m, q, c.value, LifeOf(g, m, q));
  }

  /** A call that is not cached is put straight to the authority. */
  lemma BeginUncached(s: State, r: nat, q: Query, env: Env)
    requires AboutToCall(s, r, q)
    requires var f := s.flights[r];
             forall c, life :: !KeptIn(s.gens[f.gen], f.gen, f.req.meta.moduleName, q, c, life)
    ensures Apply(s, Advance(r, env)) == s.(flights := s.flights[r := s.flights[r].(phase := Asking(q))])
  {
    var f := s.flights[r];
    var g, m := s.gens[f.gen], f.req.meta.moduleName;
    KeptIffUsed(g, f.gen, m, q);
    hide ChainFor, Conclude, Tell, KeyOf, Need, UsesCache, KeptIn;
    assert s.log + [] == s.log;
  }

  /** The authority is asked: its answer is recorded, and a grant that is kept goes to the cache next. */
  lemma AskSteps(s: State, r: nat, q: Query, env: Env, kept: bool)
    requires r < |s.flights| && s.flights[r].gen < |s.gens| && s.flights[r].at < |s.flights[r].Chain()|
    requires s.flights[r].reply.None? && s.flights[r].phase == Asking(q) && !q.DailyQ? && RightKind(q, env.answer)
    requires q.RateQ? ==> Listed(s.gens[s.flights[r].gen].remote.throttling, q.applicationId)
    requires var f := s.flights[r];
             kept <==> exists c, life :: KeptIn(s.gens[f.gen], f.gen, f.req.meta.moduleName, q, c, life)
    ensures var f, a := s.flights[r], env.answer;
            var f' := if a.Granted? && kept then f.(phase := Filling(q, a.data))
                      else Conclude(f, s.gens[f.gen].table, Tell(f.told, q, a));
            var s' := Apply(s, Advance(r, env));
            && s'.flights == s.flights[r := f'] && s'.caches == s.caches && s'.now == s.now && s'.gens == s.gens
            && s'.log == s.log + [Asked(r, q, a, s.now)]
  {
    var f := s.flights[r];
    var g, m := s.gens[f.gen], f.req.meta.moduleName;
    KeptIffUsed(g, f.gen, m, q);
    if q.RateQ? {
      UnlistedUnlimited(g.remote.throttling, q.applicationId);
    }
    hide ChainFor, Decide, Tell, UsesCache, KeptIn, Listed, LimitsOf, Conclude;
  }

  lemma FillStores(s: State, r: nat, q: Query, d: Data, env: Env, c: CacheId, life: int)
    requires r < |s.flights| && s.flights[r].gen < |s.gens| && s.flights[r].at < |s.flights[r].Chain()|
    requires s.flights[r].reply.None? && s.flights[r].phase == Filling(q, d)
    requires var f := s.flights[r]; KeptIn(s.gens[f.gen], f.gen, f.req.meta.moduleName, q, c, life)
    ensures var f := s.flights[r];
            var s' := Apply(s, Advance(r, env));
            && s'.flights == s.flights[r := Conclude(f, s.gens[f.gen].table, Tell(f.told, q, Granted(d)))]
            && StoreOf(s', c) == Put(StoreOf(s, c), KeyOf(q), d, s.now, life)
  {
    hide ChainFor, Conclude, Tell, KeyOf, Put;
  }

  lemma PhaseForgotten(f: Flight, phase: Phase, table: Table, told: Verdicts)
    requires f.at < |f.Chain()| && f.reply.None?
    ensures Conclude(f.(phase := phase), table, told) == Conclude(f, table, told)
    ensures Conclude(f, table, told).at == f.at + 1
  {
    hide ChainFor, Decide;
  }

  /** The key under which the service that answers this call looks in its cache. */
  predicate ServiceKey(q: Query, key: string) {
    match q
    case UserQ(endpoint, token) => key == UserKey(endpoint, token)
    case AppQ(token) => key == token
    case AuthorizeQ(app, httpMethod, path) => key == Authorization.Key(app, httpMethod, path)
    case PermissionQ(admin, permission) => key == AuthorizationKey(admin, permission)
    case _ => false
  }

  lemma ServiceKeyIsKey(q: Query, key: string)
    requires ServiceKey(q, key)
    ensures key == KeyOf(q)
  {
  }

  lemma StepsUnderKey(
    s: State, r: nat, q: Query, env: Env, beforeAsk: nat, beforeStore: nat, c: CacheId, life: int)
    requires AboutToCall(s, r, q) && RightKind(q, env.answer)
    requires var f := s.flights[r]; KeptIn(s.gens[f.gen], f.gen, f.req.meta.moduleName, q, c, life)
    ensures var f := s.flights[r];
            var s' := Alone(s, r, env, beforeAsk, beforeStore);
            var call := CachedCall(StoreOf(s, c), KeyOf(q), s.now, env.answer, s.now + beforeAsk + beforeStore, life);
            && s'.flights[r] == Conclude(f, s.gens[f.gen].table, Tell(f.told, q, call.0))
            && StoreOf(s', c) == call.1
  {
    hide ChainFor, Conclude, Tell, KeyOf, Need, Put, Lookup, RightKind, AdvanceFlight;
    var f := s.flights[r];
    var table, a := s.gens[f.gen].table, env.answer;
    var hit := Lookup(StoreOf(s, c), KeyOf(q), s.now);
    if hit.Some? {
      BeginHits(s, r, q, env, c, life, hit.value);
    } else {
      BeginMisses(s, r, q, env, c, life);
      var s1 := Apply(Apply(s, Advance(r, env)), Tick(beforeAsk));
      assert !q.DailyQ? && !q.RateQ?;
      hide KeptIn;
      AskSteps(s1, r, q, env, true);
      PhaseForgotten(f, Asking(q), table, Tell(f.told, q, a));
      if a.Granted? {
        PhaseForgotten(f, Filling(q, a.data), table, Tell(f.told, q, a));
        FillStores(Apply(Apply(s1, Advance(r, env)), Tick(beforeStore)), r, q, a.data, env, c, life);
      }
    }
  }

  /** Left alone, the machine's steps give the answer and the cache that the service's own run gives. */
  lemma StepsAreTheCall(
    s: State, r: nat, q: Query, env: Env, beforeAsk: nat, beforeStore: nat, c: CacheId, life: int, key: string)
    requires AboutToCall(s, r, q) && RightKind(q, env.answer) && ServiceKey(q, key)
    requires var f := s.flights[r]; KeptIn(s.gens[f.gen], f.gen, f.req.meta.moduleName, q, c, life)
    ensures var f := s.flights[r];
            var s' := Alone(s, r, env, beforeAsk, beforeStore);
            var call := CachedCall(StoreOf(s, c), key, s.now, env.answer, s.now + beforeAsk + beforeStore, life);
            && s'.flights[r] == Conclude(f, s.gens[f.gen].table, Tell(f.told, q, call.0))
            && StoreOf(s', c) == call.1
  {
    hide Alone, CachedCall, Conclude, AboutToCall, KeptIn, ChainFor, RightKind;
    ServiceKeyIsKey(q, key);
    StepsUnderKey(s, r, q, env, beforeAsk, beforeStore, c, life);
  }

  /**
   A call that nobody keeps an answer of, a user call under a duration that is not positive among them: the
   authority is asked whatever the caches hold, and they stay as they are.
   */
  lemma StepsAskDirectly(s: State, r: nat, q: Query, env: Env, beforeAsk: nat, beforeStore: nat)
    requires AboutToCall(s, r, q) && RightKind(q, env.answer) && !q.DailyQ?
    requires q.RateQ? ==> Listed(s.gens[s.flights[r].gen].remote.throttling, q.applicationId)
    requires var f := s.flights[r];
             forall c, life :: !KeptIn(s.gens[f.gen], f.gen, f.req.meta.moduleName, q, c, life)
    ensures var f := s.flights[r];
            var s' := Alone(s, r, env, beforeAsk, beforeStore);
            && s'.flights[r] == Conclude(f, s.gens[f.gen].table, Tell(f.told, q, env.answer))
            && s'.caches == s.caches && s'.log == s.log + [Asked(r, q, env.answer, s.now + beforeAsk)]
  {
    hide ChainFor, Conclude, Tell, Need, RightKind, AdvanceFlight, KeptIn, Listed;
    var f := s.flights[r];
    BeginUncached(s, r, q, env);
    AskSteps(Apply(Apply(s, Advance(r, env)), Tick(beforeAsk)), r, q, env, false);
    PhaseForgotten(f, Asking(q), s.gens[f.gen].table, Tell(f.told, q, env.answer));
  }

  /** An application without a rate is allowed, and nobody is asked. */
  lemma UnlistedIsAllowed(s: State, r: nat, app: int, env: Env, beforeAsk: nat, beforeStore: nat)
    requires AboutToCall(s, r, RateQ(app))
    requires !Listed(s.gens[s.flights[r].gen].remote.throttling, app)
    ensures var f := s.flights[r];
            var s' := Alone(s, r, env, beforeAsk, beforeStore);
            && s'.flights[r] == Conclude(f, s.gens[f.gen].table, Tell(f.told, RateQ(app), Granted(Yes)))
            && s'.caches == s.caches && s'.log == s.log
  {
    var f := s.flights[r];
    var q := RateQ(app);
    UnlistedUnlimited(s.gens[f.gen].remote.throttling, app);
    BeginUncached(s, r, q, env);
    hide ChainFor, Conclude, Tell, Need, Listed, LimitsOf;
    PhaseForgotten(f, Asking(q), s.gens[f.gen].table, Tell(f.told, q, Granted(Yes)));
    assert s.log + [] == s.log;
  }

  /** The machine counts as the daily limit service does, under the daily limits of the request's configuration. */
  lemma CountIsTheCheck(s: State, r: nat, app: int, env: Env, beforeAsk: nat, beforeStore: nat)
    requires AboutToCall(s, r, DailyQ(app))
    ensures var f := s.flights[r];
            var g := s.gens[f.gen];
            var check := DayCheck(s.counters, LimitsOf(g.remote.dailyLimits), app, env.date, env.lock);
            var s' := Alone(s, r, env, beforeAsk, beforeStore);
            && s'.flights[r] == Conclude(f, g.table, Tell(f.told, DailyQ(app), FromYes(check.0)))
            && s'.counters == check.1 && s'.caches == s.caches
  {
    var f := s.flights[r];
    var q := DailyQ(app);
    BeginUncached(s, r, q, env);
    var s1 := Apply(Apply(s, Advance(r, env)), Tick(beforeAsk));
    hide ChainFor, Conclude, Tell, Need, LimitsOf, DailyKey;
    CountStep(s1, r, app, env);
    var check := DayCheck(s.counters, LimitsOf(s.gens[f.gen].remote.dailyLimits), app, env.date, env.lock);
    PhaseForgotten(f, Asking(q), s.gens[f.gen].table, Tell(f.told, q, FromYes(check.0)));
  }

  lemma CountStep(s: State, r: nat, app: int, env: Env)
    requires r < |s.flights| && s.flights[r].gen < |s.gens| && s.flights[r].at < |s.flights[r].Chain()|
    requires s.flights[r].reply.None? && s.flights[r].phase == Asking(DailyQ(app))
    ensures var f := s.flights[r];
            var g := s.gens[f.gen];
            var check := DayCheck(s.counters, LimitsOf(g.remote.dailyLimits), app, env.date, env.lock);
            var s' := Apply(s, Advance(r, env));
            && s'.flights == s.flights[r := Conclude(f, g.table, Tell(f.told, DailyQ(app), FromYes(check.0)))]
            && s'.counters == check.1 && s'.caches == s.caches
  {
    hide ChainFor, Conclude, Tell, DailyKey, LimitsOf;
  }

  /** Each answer reaches the one verdict it is about, unchanged, and no other. */
  lemma TellExact(v: Verdicts, q: Query, a: Answer<Data>)
    requires RightKind(q, a)
    ensures var v' := Tell(v, q, a);
            && v'.bodyRead == v.bodyRead && v'.upstream == v.upstream
            && v'.user == (if !q.UserQ? then v.user else if a.Failed? then Failed else if a.Denied? then Denied
               else Granted(a.data.user))
            && v'.app == (if !q.AppQ? then v.app else if a.Failed? then Failed else if a.Denied? then Denied
               else Granted(a.data.app))
            && v'.admin == (if !q.AdminTokenQ? then v.admin else if a.Failed? then Failed else if a.Denied? then Denied
               else Granted(a.data.id))
            && v'.authorized == (if !q.AuthorizeQ? then v.authorized else if a.Failed? then Failed
               else if a.Denied? then Denied else Granted(()))
            && v'.permitted == (if !q.PermissionQ? then v.permitted else if a.Failed? then Failed
               else if a.Denied? then Denied else Granted(()))
            && v'.rate == (if !q.RateQ? then v.rate else if a.Failed? then Failed
               else if a.Denied? then Denied else Granted(()))
            && v'.daily == (if !q.DailyQ? then v.daily else if a.Failed? then Failed
               else if a.Denied? then Denied else Granted(()))
  {
  }
}
