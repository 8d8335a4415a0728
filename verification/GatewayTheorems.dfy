/** What the gateway guarantees over whole runs. */
module GatewayTheorems {
  import opened Wrappers
  import opened Domain
  import opened Caching
  import opened Keys
  import opened Settings
  import opened DailyLimits
  import opened Pipeline
  import opened PipelineTheorems
  import opened Gateway
  import opened GatewayInvariants
  import opened GatewaySteps

  // ---------------------------------------------------------------- where an answer came from

  /** What position k finds in a cache is what j stored there last. */
  ghost predicate LatestBefore(log: seq<Event>, j: nat, k: nat, c: CacheId, key: string)
    requires k <= |log|
  {
    LastFill(log[..k], c, key) == Some(j)
  }

  /**
   A grant, stored by the request that got it, and still alive and the latest under its key when this request
   read it; a grant of this very question, if the question can be told apart.
   */
  ghost predicate FromLiveEntry(
    log: seq<Event>, gens: seq<Generation>, r: nat, q: Query, d: Data, i: nat, j: nat, k: nat)
    requires i < j < k < |log|
  {
    && log[i].Asked? && log[j].Filled? && log[k].Hit?
    && log[i].r == log[j].r && log[i].q == log[j].q && log[i].a == Granted(d) && log[i].at <= log[j].at
    && log[j].d == d && log[j].gen < |gens| && log[j].life == LifeOf(gens[log[j].gen], log[j].moduleName, log[j].q)
    && log[k].r == r && log[k].q == q && log[k].d == d && LatestBefore(log, j, k, log[k].c, KeyOf(q))
    && log[j].at <= log[k].at <= log[j].at + log[j].life
    && (Distinct(gens, q) ==> log[j].q == q)
  }

  /** This request asked and was granted, or read a live entry that goes back to a grant. */
  ghost predicate Positive(log: seq<Event>, gens: seq<Generation>, r: nat, q: Query, d: Data) {
    || HasAsked(log, r, q, Granted(d))
    || exists i, j, k | 0 <= i < j < k < |log| :: FromLiveEntry(log, gens, r, q, d, i, j, k)
  }

  /** The grant behind a fill. */
  lemma GrantBehind(s: State, j: nat) returns (i: nat)
    requires LogOk(s.log, s.gens, s.now) && j < |s.log| && s.log[j].Filled?
    ensures var e := s.log[j];
            && e.gen < |s.gens|
            && UsesCache(s.gens[e.gen], e.moduleName, e.q) && Askable(s.gens[e.gen], e.moduleName, e.q)
            && CacheOf(e.q, e.gen) == Some(e.c) && e.life == LifeOf(s.gens[e.gen], e.moduleName, e.q)
            && i < j && s.log[i].Asked? && s.log[i].r == e.r && s.log[i].q == e.q && s.log[i].a == Granted(e.d)
            && s.log[i].at <= e.at
  {
    assert EventOk(s.log, s.gens, j);
    hide LogOk, UsesCache, Askable, CacheOf, LifeOf, Fits;
    var e := s.log[j];
    i :| 0 <= i < j && s.log[i].Asked? && s.log[i].r == e.r && s.log[i].q == e.q && s.log[i].a == Granted(e.d)
         && s.log[i].at <= e.at;
  }

  /** The fill behind a hit: the latest under its key, and alive. */
  lemma FillBehind(s: State, k: nat) returns (j: nat)
    requires LogOk(s.log, s.gens, s.now) && k < |s.log| && s.log[k].Hit?
    ensures var e := s.log[k];
            && e.gen < |s.gens|
            && UsesCache(s.gens[e.gen], e.moduleName, e.q) && Askable(s.gens[e.gen], e.moduleName, e.q)
            && CacheOf(e.q, e.gen) == Some(e.c)
            && j < k && s.log[j].Filled? && s.log[j].c == e.c && KeyOf(s.log[j].q) == KeyOf(e.q) && s.log[j].d == e.d
            && LatestBefore(s.log, j, k, e.c, KeyOf(e.q))
            && s.log[j].at <= e.at <= s.log[j].at + s.log[j].life
            && (Distinct(s.gens, e.q) ==> s.log[j].q == e.q)
  {
    assert EventOk(s.log, s.gens, k);
    hide UsesCache, Askable, CacheOf, KeyOf, Fits, Distinct;
    var e := s.log[k];
    j := LastFill(s.log[..k], e.c, KeyOf(e.q)).value;
    assert s.log[..k][j] == s.log[j];
    assert EventOk(s.log, s.gens, j);
    hide LogOk;
    if Distinct(s.gens, e.q) {
      SameKeySameQuery(s.gens, e.c, e.q, s.log[j].q, e.gen, s.log[j].gen, e.moduleName, s.log[j].moduleName);
    }
  }

  lemma HitIsPositive(s: State, r: nat, q: Query, d: Data, gen: nat, m: string)
    requires LogOk(s.log, s.gens, s.now) && HasHit(s.log, r, q, d, gen, m)
    ensures Positive(s.log, s.gens, r, q, d)
  {
    hide LogOk, LifeOf, UsesCache, Askable, CacheOf, Distinct, LatestBefore;
    var k :| 0 <= k < |s.log| && s.log[k].Hit? && s.log[k].r == r && s.log[k].q == q && s.log[k].d == d;
    var j := FillBehind(s, k);
    var i := GrantBehind(s, j);
    assert FromLiveEntry(s.log, s.gens, r, q, d, i, j, k);
  }

  /** What a request was told by a cached or uncached authority: yes is backed, no is its own. */
  ghost predicate Backed(log: seq<Event>, gens: seq<Generation>, r: nat, q: Query, a: Answer<Data>) {
    match a
    case Failed => true
    case Denied => HasAsked(log, r, q, Denied)
    case Granted(d) => Positive(log, gens, r, q, d)
  }

  /**
   At any moment of any run, every answer a request has received from an authority is backed:
   a grant by its own call or by the latest fill, no older than its lifetime, a refusal by its own call.
   */
  lemma AnswersAreBacked(run: seq<Label>, r: nat, j: nat)
    requires var s := Exec(run); r < |s.flights| && j < s.flights[r].at && j < |s.flights[r].Chain()|
    ensures var s := Exec(run); var f := s.flights[r];
            && f.gen < |s.gens|
            && var call := CallOf(f, s.gens[f.gen], j);
               call.Some? && Consulted(s.gens[f.gen], call.value) ==>
                 Backed(s.log, s.gens, r, call.value, Told(f.told, call.value))
  {
    Reachable(run);
    hide Exec, ChainFor;
    var s := Exec(run);
    var f := s.flights[r];
    assert FlightOk(s.log, s.gens, r, f);
    var g := s.gens[f.gen];
    assert AnswerOk(s.log, g, r, f, j);
    SupportedIsBacked(s, g, f.gen, f.req.meta.moduleName, r, f.told, CallOf(f, g, j));
  }

  lemma SupportedIsBacked(s: State, g: Generation, gen: nat, m: string, r: nat, told: Verdicts, call: Option<Query>)
    requires LogOk(s.log, s.gens, s.now)
    requires call.Some? ==> Supported(s.log, g, gen, m, r, call.value, Told(told, call.value))
    ensures call.Some? && Consulted(g, call.value) ==>
              Backed(s.log, s.gens, r, call.value, Told(told, call.value))
  {
    if call.Some? && Consulted(g, call.value) {
      var q := call.value;
      var a := Told(told, q);
      hide Told;
      if a.Granted? && HasHit(s.log, r, q, a.data, gen, m) {
        HitIsPositive(s, r, q, a.data, gen, m);
      }
    }
  }

  /** Every answer to an uncached or cached call agrees with a fixed authority, unless the call failed. */
  ghost predicate ConstantAuthority(log: seq<Event>, authority: Query -> Answer<Data>) {
    forall i | 0 <= i < |log| && log[i].Asked? :: log[i].a.Failed? || log[i].a == authority(log[i].q)
  }

  /** While the authority does not change its mind, caching is transparent: nobody is told anything else. */
  lemma CachingIsTransparent(run: seq<Label>, r: nat, j: nat, authority: Query -> Answer<Data>)
    requires ConstantAuthority(Exec(run).log, authority)
    requires var s := Exec(run); r < |s.flights| && j < s.flights[r].at && j < |s.flights[r].Chain()|
    ensures var s := Exec(run); var f := s.flights[r];
            && f.gen < |s.gens|
            && var call := CallOf(f, s.gens[f.gen], j);
               call.Some? && Consulted(s.gens[f.gen], call.value) && Distinct(s.gens, call.value)
               && !Told(f.told, call.value).Failed? ==>
                 Told(f.told, call.value) == authority(call.value)
  {
    AnswersAreBacked(run, r, j);
    hide Exec, ChainFor, Told, CallOf;
  }

  // ---------------------------------------------------------------- whoever reaches the proxy was let through

  /** The user gate of a request with these settings and answers. */
  ghost predicate UserCleared(log: seq<Event>, gens: seq<Generation>, g: Generation, r: nat, req: Input, v: Verdicts) {
    req.meta.userAuthRequired ==>
      && UserToken(g.table, req).Ok? && v.user.Granted?
      && Positive(log, gens, r, UserQ(g.table[req.meta.moduleName].endpoint, UserToken(g.table, req).value),
                  UserD(v.user.data))
  }

  ghost predicate AdminCleared(log: seq<Event>, r: nat, req: Input, v: Verdicts) {
    req.adminToken != "" ==>
      v.admin.Granted? && HasAsked(log, r, AdminTokenQ(req.adminToken), Granted(AdminD(v.admin.data)))
  }

  ghost predicate InnerCleared(log: seq<Event>, gens: seq<Generation>, r: nat, req: Input, v: Verdicts) {
    req.meta.inner ==>
      && req.adminToken != "" && v.admin.Granted?
      && (req.meta.requiredAdminPermission != "" ==>
            Positive(log, gens, r, PermissionQ(v.admin.data, req.meta.requiredAdminPermission), Yes))
  }

  /** The gates about applications, unless the request's own module skips them for an authenticated user. */
  ghost predicate AppCleared(log: seq<Event>, gens: seq<Generation>, g: Generation, r: nat, req: Input, v: Verdicts) {
    !AppSkipped(g.table, req, v) ==>
      && v.app.Granted? && NameFits(req, v.app.data.appName)
      && (exists token | Presents(req, token) :: Positive(log, gens, r, AppQ(token), AppD(v.app.data)))
      && var app := v.app.data.applicationId;
         var authorize := AuthorizeQ(app, req.httpMethod, req.meta.pathSchema);
         && (Positive(log, gens, r, authorize, Yes) || (req.adminToken != "" && HasAsked(log, r, authorize, Denied)))
         && (Listed(g.remote.throttling, app) ==> HasAsked(log, r, RateQ(app), Granted(Yes)))
         && forall n | LastEntry(g.remote.dailyLimits, app, n) :: HasCounted(log, r, app, n, true)
  }

  ghost predicate Cleared(log: seq<Event>, gens: seq<Generation>, g: Generation, r: nat, req: Input, v: Verdicts) {
    && UserCleared(log, gens, g, r, req, v)
    && AdminCleared(log, r, req, v)
    && InnerCleared(log, gens, r, req, v)
    && AppCleared(log, gens, g, r, req, v)
  }

  lemma {:induction false} PassedBefore(chain: seq<Middleware>, j: nat, n: nat, table: Table, req: Input, v: Verdicts)
    requires j <= n <= |chain| && WalkTo(chain, n, table, req, v).Pass?
    ensures WalkTo(chain, j, table, req, v).Pass?
  {
    if j < n {
      PassedBefore(chain, j, n - 1, table, req, v);
    }
  }

  /** The call middleware j made, told from the verdicts alone. */
  lemma CallAt(f: Flight, g: Generation, j: nat)
    requires !f.skipAuth && 3 <= j < |AUTH_CHAIN| && Walk(f, g, |AUTH_CHAIN|).Pass?
    ensures CallOf(f, g, j) == Need(AUTH_CHAIN[j], g.table, f.req, CtxAfter(j, g.table, f.req, f.told))
  {
    PassedBefore(AUTH_CHAIN, j, |AUTH_CHAIN|, g.table, f.req, f.told);
    OrderInvariant(j, g.table, f.req, f.told);
    hide Need, CtxAfter;
  }

  lemma UncachedWasAsked(s: State, gen: nat, g: Generation, m: string, r: nat, q: Query, d: Data)
    requires LogOk(s.log, s.gens, s.now) && (q.AdminTokenQ? || q.RateQ?) && Consulted(g, q)
    requires Supported(s.log, g, gen, m, r, q, Granted(d))
    ensures HasAsked(s.log, r, q, Granted(d))
  {
    forall k | 0 <= k < |s.log| && s.log[k].Hit? ensures CacheOf(s.log[k].q, s.log[k].gen).Some? {
      assert EventOk(s.log, s.gens, k);
    }
  }

  /** What AnswerOk says about a middleware whose call is known. */
  ghost predicate Answered(s: State, r: nat, f: Flight, g: Generation, q: Query) {
    Supported(s.log, g, f.gen, f.req.meta.moduleName, r, q, Told(f.told, q))
  }

  ghost predicate CallsAnswered(s: State, r: nat, f: Flight, g: Generation) {
    forall j | 3 <= j < |AUTH_CHAIN| ::
      var need := Need(AUTH_CHAIN[j], g.table, f.req, CtxAfter(j, g.table, f.req, f.told));
      need.Some? ==> Answered(s, r, f, g, need.value)
  }

  lemma AllAnswered(s: State, r: nat, f: Flight, g: Generation)
    requires !f.skipAuth && Walk(f, g, |AUTH_CHAIN|).Pass?
    requires forall j | 0 <= j < |AUTH_CHAIN| :: AnswerOk(s.log, g, r, f, j)
    ensures CallsAnswered(s, r, f, g)
  {
    hide Need, CtxAfter, Supported, Told, WalkTo;
    forall j | 3 <= j < |AUTH_CHAIN|
      ensures var need := Need(AUTH_CHAIN[j], g.table, f.req, CtxAfter(j, g.table, f.req, f.told));
              need.Some? ==> Answered(s, r, f, g, need.value)
    {
      CallAt(f, g, j);
      assert AnswerOk(s.log, g, r, f, j);
    }
  }

  /** A call known to have been answered with a grant. */
  lemma GrantIsPositive(s: State, r: nat, f: Flight, g: Generation, q: Query, d: Data)
    requires LogOk(s.log, s.gens, s.now) && Answered(s, r, f, g, q) && Told(f.told, q) == Granted(d)
    requires Consulted(g, q)
    ensures Positive(s.log, s.gens, r, q, d)
    ensures q.AdminTokenQ? || q.RateQ? ==> HasAsked(s.log, r, q, Granted(d))
  {
    hide Told, HasAsked, HasHit, LogOk;
    SupportedIsBacked(s, g, f.gen, f.req.meta.moduleName, r, f.told, Some(q));
    if q.AdminTokenQ? || q.RateQ? {
      UncachedWasAsked(s, f.gen, g, f.req.meta.moduleName, r, q, d);
    }
  }

  lemma UserIsCleared(s: State, r: nat, f: Flight, g: Generation)
    requires LogOk(s.log, s.gens, s.now) && CallsAnswered(s, r, f, g) && Policy(g.table, f.req, f.told)
    ensures UserCleared(s.log, s.gens, g, r, f.req, f.told)
  {
    hide LogOk, Answered, Positive;
    if f.req.meta.userAuthRequired {
      assert AUTH_CHAIN[3] == UserAuthenticate;
      var q := UserQ(g.table[f.req.meta.moduleName].endpoint, UserToken(g.table, f.req).value);
      GrantIsPositive(s, r, f, g, q, UserD(f.told.user.data));
    }
  }

  lemma AdminIsCleared(s: State, r: nat, f: Flight, g: Generation)
    requires LogOk(s.log, s.gens, s.now) && CallsAnswered(s, r, f, g) && Policy(g.table, f.req, f.told)
    ensures AdminCleared(s.log, r, f.req, f.told)
  {
    hide LogOk, Answered, Positive, PrepareUser;
    if f.req.adminToken != "" {
      assert AUTH_CHAIN[5] == AdminAuthenticate;
      GrantIsPositive(s, r, f, g, AdminTokenQ(f.req.adminToken), AdminD(f.told.admin.data));
    }
  }

  lemma InnerIsCleared(s: State, r: nat, f: Flight, g: Generation)
    requires LogOk(s.log, s.gens, s.now) && CallsAnswered(s, r, f, g) && Policy(g.table, f.req, f.told)
    ensures InnerCleared(s.log, s.gens, r, f.req, f.told)
  {
    hide LogOk, Answered, Positive, PrepareUser;
    var permission := f.req.meta.requiredAdminPermission;
    if f.req.meta.inner && permission != "" {
      assert AUTH_CHAIN[8] == AdminAuthorize;
      GrantIsPositive(s, r, f, g, PermissionQ(f.told.admin.data, permission), Yes);
    }
  }

  lemma AppAnswered(s: State, r: nat, f: Flight, g: Generation)
    requires CallsAnswered(s, r, f, g) && Policy(g.table, f.req, f.told) && !AppSkipped(g.table, f.req, f.told)
    ensures var app := f.told.app.data.applicationId;
            && AppToken(f.req).Some? && Answered(s, r, f, g, AppQ(AppToken(f.req).value.0))
            && Answered(s, r, f, g, AuthorizeQ(app, f.req.httpMethod, f.req.meta.pathSchema))
            && Answered(s, r, f, g, RateQ(app)) && Answered(s, r, f, g, DailyQ(app))
  {
    hide Answered, FirstToken;
    assert AUTH_CHAIN[4] == Authenticate && AUTH_CHAIN[7] == Authorize;
    assert AUTH_CHAIN[9] == Throttling && AUTH_CHAIN[10] == DailyLimit;
  }

  lemma TokenShown(req: Input)
    ensures AppToken(req).Some? <==> !Anonymous(req)
    ensures AppToken(req).Some? ==> Presents(req, AppToken(req).value.0)
  {
  }

  lemma AppIsCleared(s: State, r: nat, f: Flight, g: Generation)
    requires LogOk(s.log, s.gens, s.now) && CallsAnswered(s, r, f, g) && Policy(g.table, f.req, f.told)
    ensures AppCleared(s.log, s.gens, g, r, f.req, f.told)
  {
    TokenShown(f.req);
    hide LogOk, Positive, PrepareUser, AppToken, CallsAnswered, AppSkipped, Presents, LimitsOf, LastEntry, Listed;
    if !AppSkipped(g.table, f.req, f.told) {
      var v := f.told;
      var app := v.app.data.applicationId;
      var authorize := AuthorizeQ(app, f.req.httpMethod, f.req.meta.pathSchema);
      AppAnswered(s, r, f, g);
      GrantIsPositive(s, r, f, g, AppQ(AppToken(f.req).value.0), AppD(v.app.data));
      UnlistedUnlimited(g.remote.throttling, app);
      LastEntryWins(g.remote.dailyLimits, app);
      if app in g.Rates() {
        GrantIsPositive(s, r, f, g, RateQ(app), Yes);
      }
      if v.authorized.Granted? {
        GrantIsPositive(s, r, f, g, authorize, Yes);
      }
    }
  }

  /** A request that passes every middleware satisfies the policy. */
  lemma PassedIsPolicy(table: Table, req: Input, v: Verdicts)
    requires WalkTo(AUTH_CHAIN, |AUTH_CHAIN|, table, req, v).Pass?
    ensures v.bodyRead && Policy(table, req, v)
  {
    hide WalkTo, Policy, Handle, Compose, Unwind, FirstClosed, Gates;
    var n := |AUTH_CHAIN|;
    HandleUnwinds(AUTH_CHAIN, n, table, req, v);
    HandleStep(AUTH_CHAIN, n, table, req, WalkTo(AUTH_CHAIN, n, table, req, v).ctx, v);
    UnwindKeepsProxied(AUTH_CHAIN, n, Forward(v));
    ChainIsPolicy(table, req, v);
  }

  lemma ProxyStep(s: State, l: Label, r: nat)
    requires Apply(s, l).log == s.log + [Proxied(r)]
    ensures l.Advance? && l.r == r && r < |s.flights| && s.flights[r].reply.None?
    ensures s.flights[r].at >= |s.flights[r].Chain()|
  {
    hide ChainFor, Conclude, Tell, KeyOf, CacheOf, LifeOf, UsesCache, DailyKey, Unwind, Forward, Need, Lookup, LimitsOf,
         Typed, DayAnswer, Put, Counter, StoreOf, Purge, WellFormed, IsTable;
    var log' := Apply(s, l).log;
    assert log'[|s.log|] == Proxied(r);
  }

  /**
   Whenever a step runs the proxy for a request of an authenticated location, the request satisfies
   the policy and the log already holds the evidence for every gate that applied to it.
   */
  lemma ProxySafety(run: seq<Label>, l: Label, r: nat)
    requires Apply(Exec(run), l).log == Exec(run).log + [Proxied(r)]
    ensures var s := Exec(run);
            && r < |s.flights| && s.flights[r].gen < |s.gens|
            && var f := s.flights[r]; var g := s.gens[f.gen];
               !f.skipAuth ==> f.told.bodyRead && Policy(g.table, f.req, f.told)
                               && Cleared(s.log, s.gens, g, r, f.req, f.told)
  {
    Reachable(run);
    var s := Exec(run);
    hide Exec;
    ProxyStep(s, l, r);
    hide Apply, Policy, LogOk, CallsAnswered;
    var f := s.flights[r];
    assert FlightOk(s.log, s.gens, r, f);
    var g := s.gens[f.gen];
    if !f.skipAuth {
      PassedIsPolicy(g.table, f.req, f.told);
      AllAnswered(s, r, f, g);
      UserIsCleared(s, r, f, g);
      AdminIsCleared(s, r, f, g);
      InnerIsCleared(s, r, f, g);
      AppIsCleared(s, r, f, g);
    }
  }

  /**
   An answered request of an authenticated location: the proxy ran exactly once if the policy held
   and never otherwise, and one status is written: that of the first broken rule, or the upstream's.
   */
  lemma AnsweredByPolicy(run: seq<Label>, r: nat)
    requires var s := Exec(run); r < |s.flights| && s.flights[r].reply.Some? && !s.flights[r].skipAuth
    ensures var s := Exec(run); var f := s.flights[r];
            && f.gen < |s.gens|
            && var table, reply := s.gens[f.gen].table, f.reply.value;
               && ProxiedCount(s.log, r) == (if f.told.bodyRead && Policy(table, f.req, f.told) then 1 else 0)
               && (f.told.bodyRead && !Policy(table, f.req, f.told) ==>
                     RefusalStatus(table, f.req, f.told).Some?
                     && reply == Reply(None, [RefusalStatus(table, f.req, f.told).value], 0))
               && (f.told.bodyRead && Policy(table, f.req, f.told) ==>
                     reply == Reply(None, UpstreamStatus(f.told.upstream), 1))
  {
    Reachable(run);
    var s := Exec(run);
    hide Exec, Policy, Handle, Compose, RefusalStatus, UpstreamStatus, LogOk, CachesOk, CountersOk, GensOk;
    var f := s.flights[r];
    assert FlightOk(s.log, s.gens, r, f);
    ChainIsPolicy(s.gens[f.gen].table, f.req, f.told);
    assert ProxiedCount(s.log, r) == Passes(f);
  }

  /** Until it is answered, no request has reached the proxy. */
  lemma UnansweredNotProxied(run: seq<Label>, r: nat)
    requires var s := Exec(run); r < |s.flights| ==> s.flights[r].reply.None?
    ensures ProxiedCount(Exec(run).log, r) == 0
  {
    Reachable(run);
    hide Exec, FlightsOk, LogOk, CachesOk, CountersOk, GensOk;
    var s := Exec(run);
    if r < |s.flights| {
      assert ProxiedCount(s.log, r) == Passes(s.flights[r]);
    }
  }

  // ---------------------------------------------------------------- the caches answer with the latest fill

  /**
   After any run, at any time from now on, a cache answers for a key with what the log's latest fill stored
   there, until that fill's deadline, and with nothing otherwise: an overwritten answer never
   returns, and a live one is always found.
   */
  lemma CachesRefineLog(run: seq<Label>, c: CacheId, key: string, t: int)
    requires t >= Exec(run).now
    ensures var s := Exec(run);
            Lookup(StoreOf(s, c), key, t)
            == match LastFill(s.log, c, key)
               case None => None
               case Some(i) => if t <= s.log[i].at + s.log[i].life then Some(s.log[i].d) else None
  {
    Reachable(run);
    hide Exec, LastFill, LogOk, FlightsOk, ProxyOk, GensOk, CountersOk;
    assert SlotOk(Exec(run).log, c, key, StoreOf(Exec(run), c), Exec(run).now);
  }

  // ---------------------------------------------------------------- the user cache shared across reloads

  /** The fill at j stored what the authority granted at i, under a setting of some generation with this endpoint. */
  ghost predicate StoredFor(log: seq<Event>, gens: seq<Generation>, i: nat, j: nat, q: Query, d: Data)
    requires i < j < |log| && q.UserQ?
  {
    && log[i].Asked? && log[j].Filled? && log[i].r == log[j].r && log[i].q == q && log[i].a == Granted(d)
    && log[j].c == Users && log[j].q == q && log[j].d == d && log[i].at <= log[j].at
    && log[j].gen < |gens| && log[j].moduleName in gens[log[j].gen].table
    && var writer := gens[log[j].gen].table[log[j].moduleName];
       writer.endpoint == q.endpoint && writer.cacheDuration > 0 && log[j].life == writer.cacheDuration
  }

  /**
   A user answer read from the shared cache, whichever generation's module wrote it: granted by the
   authority to the request that stored it, no older than the writing setting's duration, and the latest under
   the very key that is read; hence for the same endpoint and token if the endpoint can be told apart.
   */
  lemma SharedUserCache(run: seq<Label>, k: nat)
    requires k < |Exec(run).log| && Exec(run).log[k].Hit? && Exec(run).log[k].c == Users
    ensures var s := Exec(run);
            var hit := s.log[k];
            && hit.q.UserQ? && hit.gen < |s.gens| && hit.moduleName in s.gens[hit.gen].table
            && s.gens[hit.gen].table[hit.moduleName].endpoint == hit.q.endpoint
            && exists i, j | 0 <= i < j < k ::
                 && s.log[j].Filled? && s.log[j].q.UserQ? && StoredFor(s.log, s.gens, i, j, s.log[j].q, hit.d)
                 && s.log[j].at <= hit.at <= s.log[j].at + s.log[j].life
                 && LatestBefore(s.log, j, k, Users, KeyOf(hit.q)) && (Distinct(s.gens, hit.q) ==> s.log[j].q == hit.q)
  {
    Reachable(run);
    var s := Exec(run);
    hide Exec, LogOk, CachesOk, CountersOk, FlightsOk, ProxyOk, GensOk, Distinct, KeyOf, LatestBefore;
    var hit := s.log[k];
    var j := FillBehind(s, k);
    var i := GrantBehind(s, j);
    assert StoredFor(s.log, s.gens, i, j, s.log[j].q, hit.d);
  }

  /** Every access to the shared cache, hit or fill, is made under a setting with a positive duration. */
  lemma NonPositiveNeverCaches(run: seq<Label>, k: nat)
    requires k < |Exec(run).log|
    requires var e := Exec(run).log[k]; (e.Hit? || e.Filled?) && e.c == Users
    ensures var s := Exec(run);
            var e := s.log[k];
            && e.gen < |s.gens| && e.moduleName in s.gens[e.gen].table
            && s.gens[e.gen].table[e.moduleName].cacheDuration > 0
  {
    Reachable(run);
    hide Exec, LogOk, CachesOk, CountersOk, FlightsOk, ProxyOk, GensOk;
    if Exec(run).log[k].Hit? {
      var j := FillBehind(Exec(run), k);
    } else {
      var i := GrantBehind(Exec(run), k);
    }
  }

  lemma {:induction false} FlagOnTheWay(chain: seq<Middleware>, n: nat, table: Table, req: Input, v: Verdicts)
    requires n <= |chain| && WalkTo(chain, n, table, req, v).Pass?
    ensures var user := WalkTo(chain, n, table, req, v).ctx.user;
            user.Some? ==>
              && req.meta.moduleName in table
              && user.value.skipAppAuth == table[req.meta.moduleName].skipAppAuth
              && v.user == Granted(user.value.data)
  {
    if n > 0 {
      FlagOnTheWay(chain, n - 1, table, req, v);
    }
  }

  /** Whoever filled the cache, a request sees the flag of its own generation's setting for its own module. */
  lemma SkipFlagIsOwn(run: seq<Label>, r: nat)
    requires var s := Exec(run); r < |s.flights| && s.flights[r].ctx.user.Some?
    ensures var s := Exec(run); var f := s.flights[r];
            && f.gen < |s.gens| && f.req.meta.moduleName in s.gens[f.gen].table
            && f.ctx.user.value.skipAppAuth == s.gens[f.gen].table[f.req.meta.moduleName].skipAppAuth
            && f.told.user == Granted(f.ctx.user.value.data)
  {
    Reachable(run);
    var s := Exec(run);
    hide Exec, ChainFor, WalkTo;
    var f := s.flights[r];
    assert FlightOk(s.log, s.gens, r, f);
    assert OnTheWay(f, s.gens[f.gen]);
    var n: nat :| f.at - 1 <= n <= f.at && Walk(f, s.gens[f.gen], n) == Pass(f.ctx);
    FlagOnTheWay(f.Chain(), n, s.gens[f.gen].table, f.req, f.told);
  }

  // ---------------------------------------------------------------- cached authorization

  /** A yes of the authority that this generation stored and that was still alive when request r read it. */
  ghost predicate ReadAuthorized(log: seq<Event>, g: Generation, gen: nat, r: nat, q: Query, i: nat, j: nat, k: nat)
    requires i < j < k < |log|
  {
    && log[i].Asked? && log[j].Filled? && log[k].Hit?
    && log[i].r == log[j].r && log[i].q == q && log[i].a == Granted(Yes)
    && log[j].c == Authorizations(gen) && log[j].q == q
    && log[k].r == r && log[k].q == q && LatestBefore(log, j, k, Authorizations(gen), KeyOf(q))
    && log[i].at <= log[j].at <= log[k].at <= log[j].at + g.remote.authorizationDataInSec * 1_000_000_000
  }

  lemma HitIsAuthorized(s: State, gen: nat, m: string, r: nat, q: Query)
    requires LogOk(s.log, s.gens, s.now) && q.AuthorizeQ? && gen < |s.gens| && HasHit(s.log, r, q, Yes, gen, m)
    ensures exists i, j, k | 0 <= i < j < k < |s.log| :: ReadAuthorized(s.log, s.gens[gen], gen, r, q, i, j, k)
  {
    hide LogOk, LatestBefore, KeyOf;
    var k :| 0 <= k < |s.log| && s.log[k].Hit? && s.log[k].r == r && s.log[k].q == q && s.log[k].d == Yes
             && s.log[k].gen == gen;
    var j := FillBehind(s, k);
    var i := GrantBehind(s, j);
    assert ReadAuthorized(s.log, s.gens[gen], gen, r, q, i, j, k);
  }

  /**
   Authorize between its interleaved cache read, remote call and cache write: a yes is the remote's yes to this
   very request or one stored for the same application, method and path within the configured
   duration; a no is always the remote's answer to this request.
   */
  lemma ConcurrentAuthorization(run: seq<Label>, r: nat)
    requires var s := Exec(run); r < |s.flights| && !s.flights[r].skipAuth && 7 < s.flights[r].at
    ensures var s := Exec(run); var f := s.flights[r];
            f.gen < |s.gens| && (AppSkipped(s.gens[f.gen].table, f.req, f.told) || f.told.app.Granted?)
    ensures var s := Exec(run); var f := s.flights[r];
            !AppSkipped(s.gens[f.gen].table, f.req, f.told) ==>
            var q := AuthorizeQ(f.told.app.data.applicationId, f.req.httpMethod, f.req.meta.pathSchema);
            match f.told.authorized
            case Failed => true
            case Denied => HasAsked(s.log, r, q, Denied)
            case Granted(_) =>
              || HasAsked(s.log, r, q, Granted(Yes))
              || exists i, j, k | 0 <= i < j < k < |s.log| :: ReadAuthorized(s.log, s.gens[f.gen], f.gen, r, q, i, j, k)
  {
    Reachable(run);
    var s := Exec(run);
    hide Exec, WalkTo, Need, FirstToken, ReadAuthorized, HasAsked;
    var f := s.flights[r];
    assert FlightOk(s.log, s.gens, r, f);
    var g := s.gens[f.gen];
    assert AnswerOk(s.log, g, r, f, 7);
    ReachedAuthorize(f, g);
    if !AppSkipped(g.table, f.req, f.told) {
      var q := AuthorizeQ(f.told.app.data.applicationId, f.req.httpMethod, f.req.meta.pathSchema);
      hide FlightsOk, FlightOk, AnswerOk, CachesOk, LogOk, CallOf;
      AuthorizedAnswer(s, r, f, g, q);
    }
  }

  lemma AuthorizedAnswer(s: State, r: nat, f: Flight, g: Generation, q: Query)
    requires LogOk(s.log, s.gens, s.now) && f.gen < |s.gens| && g == s.gens[f.gen] && q.AuthorizeQ?
    requires Supported(s.log, g, f.gen, f.req.meta.moduleName, r, q, Told(f.told, q))
    ensures match f.told.authorized
            case Failed => true
            case Denied => HasAsked(s.log, r, q, Denied)
            case Granted(_) =>
              || HasAsked(s.log, r, q, Granted(Yes))
              || exists i, j, k | 0 <= i < j < k < |s.log| :: ReadAuthorized(s.log, g, f.gen, r, q, i, j, k)
  {
    hide LogOk, ReadAuthorized, HasAsked, HasHit;
    var m := f.req.meta.moduleName;
    if f.told.authorized.Granted? && HasHit(s.log, r, q, Yes, f.gen, m) {
      HitIsAuthorized(s, f.gen, m, r, q);
    }
  }

  /** What Authorize asks about, once it has been reached. */
  lemma ReachedAuthorize(f: Flight, g: Generation)
    requires !f.skipAuth && 7 < f.at <= |AUTH_CHAIN|
    requires (f.reply.None? && Walk(f, g, f.at) == Pass(f.ctx)) || OnTheWay(f, g)
    ensures AppSkipped(g.table, f.req, f.told) || f.told.app.Granted?
    ensures !AppSkipped(g.table, f.req, f.told) ==>
              CallOf(f, g, 7)
              == Some(AuthorizeQ(f.told.app.data.applicationId, f.req.httpMethod, f.req.meta.pathSchema))
  {
    var n: nat :| f.at - 1 <= n <= f.at && Walk(f, g, n) == Pass(f.ctx);
    PassedBefore(AUTH_CHAIN, 7, n, g.table, f.req, f.told);
    OrderInvariant(7, g.table, f.req, f.told);
    hide FirstToken, WalkTo;
  }
}
