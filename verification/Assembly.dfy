/** One configuration put together: services, caches and one handler per location (assembly/locator.go). */
module Assembly {
  import opened Wrappers
  import opened Caching
  import opened Settings
  import opened DailyLimits
  import opened Pipeline
  import opened Gateway
  import opened Services

  datatype Location = Location(protocol: string, skipAuth: bool)

  datatype AssemblyError = BadSettings(error: BuildError) | UnsupportedProtocol(index: nat)

  predicate Supported(l: Location) { l.protocol == "http" || l.protocol == "grpc" || l.protocol == "ws" }

  /** What the handlers of one configuration work with. */
  datatype Parts = Parts(
    authentication: Authentication, users: UserAuthentication, admin: AdminService, authorization: Authorization,
    daily: DailyLimitService, throttling: ThrottlingService, handlers: seq<Handler>)

  /** The chain of each location, in order; or the first location whose protocol is not supported. */
  method BuildHandlers(locations: seq<Location>) returns (r: Result<seq<Handler>, nat>)
    ensures r.Ok? <==> forall l | l in locations :: Supported(l)
    ensures r.Ok? ==> |r.value| == |locations|
    ensures r.Ok? ==> forall k | 0 <= k < |locations| :: r.value[k] == Compose(ChainFor(locations[k].skipAuth), Proxy)
    ensures r.Err? ==> r.error < |locations| && !Supported(locations[r.error])
    ensures r.Err? ==> forall k | 0 <= k < r.error :: Supported(locations[k])
  {
    hide Compose;
    var handlers: seq<Handler> := [];
    for i := 0 to |locations|
      invariant |handlers| == i
      invariant forall k | 0 <= k < i :: Supported(locations[k])
      invariant forall k | 0 <= k < i :: handlers[k] == Compose(ChainFor(locations[k].skipAuth), Proxy)
    {
      var l := locations[i];
      var known := l.protocol == "grpc" || l.protocol == "http" || l.protocol == "ws";
      assert known == Supported(l);
      if !known {
        return Err(i);
      }
      var handler := Chain(Proxy, AUTH_CHAIN);
      if l.skipAuth {
        handler := Chain(Proxy, SKIP_AUTH_CHAIN);
      }
      handlers := handlers + [handler];
    }
    r := Ok(handlers);
  }

  class Locator {
    const usersAuthCache: Cache<Data>
    const locker: LockService

    constructor (usersAuthCache: Cache<Data>, locker: LockService)
      ensures this.usersAuthCache == usersAuthCache && this.locker == locker
    {
      this.usersAuthCache := usersAuthCache;
      this.locker := locker;
    }

    /** Succeeds exactly on well-formed settings and supported protocols; only the user cache outlives a call. */
    method Handler(config: Remote, locations: seq<Location>) returns (r: Result<Parts, AssemblyError>)
      ensures r.Ok? <==> WellFormed(config.customAuth) && forall l | l in locations :: Supported(l)
      ensures r.Err? && r.error.BadSettings? <==> !WellFormed(config.customAuth)
      ensures r.Err? && r.error.BadSettings? ==> Blames(config.customAuth, r.error.error)
      ensures r.Err? && r.error.UnsupportedProtocol? ==>
                r.error.index < |locations| && !Supported(locations[r.error.index])
                && forall k | 0 <= k < r.error.index :: Supported(locations[k])
      ensures r.Ok? ==>
                && IsTable(config.customAuth, r.value.users.settings)
                && r.value.users.cache.cache == usersAuthCache
                && fresh(r.value.authentication.cache.cache)
                && r.value.authentication.cache.duration == config.authenticationDataInSec * 1_000_000_000
                && fresh(r.value.authorization.cache.cache) && fresh(r.value.admin.cache.cache)
                && r.value.authorization.cache.cache != r.value.admin.cache.cache
                && r.value.authorization.cache.duration == config.authorizationDataInSec * 1_000_000_000
                && r.value.admin.cache.duration == config.authorizationDataInSec * 1_000_000_000
                && r.value.daily.limits == LimitsOf(config.dailyLimits) && r.value.daily.lock == locker
                && r.value.throttling.limits == LimitsOf(config.throttling)
                && |r.value.handlers| == |locations|
                && forall k | 0 <= k < |locations| ::
                     r.value.handlers[k] == Compose(ChainFor(locations[k].skipAuth), Proxy)
    {
      hide Compose, Supported, WellFormed, IsTable, Blames, LimitsOf, ChainFor;
      var authenticationCache := new AuthenticationCache(config.authenticationDataInSec * SECOND);
      var authentication := new Authentication(authenticationCache);
      var userCache := new UserAuthenticationCache(usersAuthCache);
      var settings := NewUserAuthentication(config.customAuth);
      if settings.Err? {
        return Err(BadSettings(settings.error));
      }
      var users := new UserAuthentication(settings.value, userCache);
      var adminCache := new AuthorizationCache(config.authorizationDataInSec * SECOND);
      var admin := new AdminService(adminCache);
      var authorizationCache := new AuthorizationCache(config.authorizationDataInSec * SECOND);
      var authorization := new Authorization(authorizationCache);
      var limits := NewLimits(config.dailyLimits);
      var daily := new DailyLimitService(locker, limits);
      var rates := NewLimits(config.throttling);
      var throttling := new ThrottlingService(rates);
      var handlers := BuildHandlers(locations);
      if handlers.Err? {
        return Err(UnsupportedProtocol(handlers.error));
      }
      r := Ok(Parts(authentication, users, admin, authorization, daily, throttling, handlers.value));
    }
  }
}
