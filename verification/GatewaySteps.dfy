/** Every step of the gateway keeps the invariant, so every run does. */
module GatewaySteps {
  import opened Wrappers
  import opened Domain
  import opened Caching
  import opened Keys
  import opened Settings
  import opened DailyLimits
  import opened Request
  import opened Pipeline
  import opened PipelineTheorems
  import opened Gateway
  import opened GatewayInvariants

  // ---------------------------------------------------------------- landing a step

  lemma FlightsLand(
    log: seq<Event>, log': seq<Event>, gens: seq<Generation>, flights: seq<Flight>, r: nat, f: Flight)
    requires FlightsOk(log, gens, flights) && log <= log' && r < |flights| && FlightOk(log', gens, r, f)
    ensures FlightsOk(log', gens, flights[r := f])
  {
    forall k | 0 <= k < |flights| && k != r ensures FlightOk(log', gens, k, flights[k]) {
      FlightStable(log, log', gens, gens, k, flights[k]);
    }
  }

  lemma ProxyLand(log: seq<Event>, e: Event, flights: seq<Flight>, r: nat, f: Flight)
    requires ProxyOk(log, flights) && r < |flights| && (e.Proxied? ==> e.r == r)
    requires Passes(f) == Passes(flights[r]) + if e.Proxied? then 1 else 0
    ensures ProxyOk(log + [e], flights[r := f])
  {
    var flights' := flights[r := f];
    forall k | 0 <= k < |flights'| ensures ProxiedCount(log + [e], k) == Passes(flights'[k]) {
      CountsAppend(log, e, 0, Date(0, 0, 0), k);
    }
    forall k: nat | k >= |flights'| ensures ProxiedCount(log + [e], k) == 0 {
      CountsAppend(log, e, 0, Date(0, 0, 0), k);
    }
  }

  lemma CountersLand(s: State, e: Event)
    requires CountersOk(s) && !e.Counted?
    ensures CountersOk(s.(log := s.log + [e]))
  {
    var s' := s.(log := s.log + [e]);
    forall app, date ensures Counter(s', DailyKey(app, date)) == CountFor(s'.log, app, date) {
      CountsAppend(s.log, e, app, date, 0);
      assert Counter(s, DailyKey(app, date)) == CountFor(s.log, app, date);
    }
  }

  lemma ProxyKept(log: seq<Event>, flights: seq<Flight>, r: nat, f: Flight)
    requires ProxyOk(log, flights) && r < |flights| && Passes(f) == Passes(flights[r])
    ensures ProxyOk(log, flights[r := f])
  {
  }

  lemma SilentLand(s: State, r: nat, f: Flight)
    requires Inv(s) && r < |s.flights| && FlightOk(s.log, s.gens, r, f) && Passes(f) == Passes(s.flights[r])
    ensures Inv(Land(s, r, f, []))
  {
    hide FlightOk, LogOk, CachesOk, GensOk;
    var s' := Land(s, r, f, []);
    assert s'.log == s.log;
    FlightsLand(s.log, s.log, s.gens, s.flights, r, f);
    ProxyKept(s.log, s.flights, r, f);
    SameCounters(s, s');
  }

  lemma SameCounters(s: State, s': State)
    requires CountersOk(s) && s.counters == s'.counters && s.log == s'.log
    ensures CountersOk(s')
  {
    forall app, date ensures Counter(s', DailyKey(app, date)) == CountFor(s'.log, app, date) {
      assert Counter(s, DailyKey(app, date)) == CountFor(s.log, app, date);
    }
  }

  /** A step that logs one event and leaves caches and counters alone. */
  lemma EventLand(s: State, r: nat, f: Flight, e: Event)
    requires Inv(s) && r < |s.flights| && !e.Counted? && !e.Filled? && (e.Proxied? ==> e.r == r)
    requires EventOk(s.log + [e], s.gens, |s.log|) && NotAfter(e, s.now)
    requires FlightOk(s.log + [e], s.gens, r, f)
    requires Passes(f) == Passes(s.flights[r]) + if e.Proxied? then 1 else 0
    ensures Inv(Land(s, r, f, [e]))
  {
    LogGrows(s.log, s.gens, s.now, e);
    CachesStable(s.log, e, s.caches, s.now);
    FlightsLand(s.log, s.log + [e], s.gens, s.flights, r, f);
    ProxyLand(s.log, e, s.flights, r, f);
    CountersLand(s, e);
    SameCounters(s.(log := s.log + [e]), Land(s, r, f, [e]));
  }

  lemma PhaseChange(log: seq<Event>, gens: seq<Generation>, r: nat, f: Flight, phase: Phase)
    requires FlightOk(log, gens, r, f) && f.reply.None? && PhaseOk(log, gens[f.gen], r, f.(phase := phase))
    ensures FlightOk(log, gens, r, f.(phase := phase))
  {
    forall j | 0 <= j < f.at ensures AnswerOk(log, gens[f.gen], r, f.(phase := phase), j) {
      AnswerSame(log, gens[f.gen], r, f, f.(phase := phase), j);
    }
  }

  // ---------------------------------------------------------------- the cached call

  /** Within one cache a key belongs to one query, if its endpoint can be told apart. */
  lemma SameKeySameQuery(gens: seq<Generation>, c: CacheId, q: Query, q': Query, g: nat, g': nat, m: string, m': string)
    requires g < |gens| && g' < |gens| && Askable(gens[g], m, q) && Askable(gens[g'], m', q')
    requires CacheOf(q, g) == Some(c) && CacheOf(q', g') == Some(c) && KeyOf(q) == KeyOf(q')
    requires Distinct(gens, q)
    ensures q == q'
  {
    match q
    case UserQ(e, t) => UserKeyInjective(e, t, q'.endpoint, q'.token);
    case AppQ(_) =>
    case AuthorizeQ(app, httpMethod, path) =>
      RequestKeyInjective(app, httpMethod, path, q'.applicationId, q'.httpMethod, q'.path);
    case PermissionQ(admin, permission) =>
      AuthorizationKeyInjective(admin, permission, q'.adminId, q'.permission);
  }

  /** An endpoint can be told apart exactly when it shares no key with a configured one for different questions. */
  lemma DistinctExact(gens: seq<Generation>, q: Query)
    ensures Distinct(gens, q) <==>
            !q.UserQ? || forall i, m, t, t' | 0 <= i < |gens| && m in gens[i].table ::
              UserKey(q.endpoint, t) == UserKey(gens[i].table[m].endpoint, t') ==>
                q.endpoint == gens[i].table[m].endpoint && t == t'
  {
    if q.UserQ? {
      hide Separate, UserKey;
      forall i, m | 0 <= i < |gens| && m in gens[i].table
        ensures Separate(q.endpoint, gens[i].table[m].endpoint) <==>
                forall t, t' | UserKey(q.endpoint, t) == UserKey(gens[i].table[m].endpoint, t') ::
                  q.endpoint == gens[i].table[m].endpoint && t == t'
      {
        UserKeysApart(q.endpoint, gens[i].table[m].endpoint);
      }
    }
  }

  /** Within one cache all queries are answered by the same kind of data. */
  lemma SameCacheSameKind(c: CacheId, q: Query, q': Query, g: nat, g': nat, d: Data)
    requires CacheOf(q, g) == Some(c) && CacheOf(q', g') == Some(c) && Fits(q', d)
    ensures Fits(q, d)
  {
  }

  lemma NeedAskable(g: Generation, f: Flight, q: Query)
    requires f.at < |f.Chain()| && Need(f.Chain()[f.at], g.table, f.req, f.ctx) == Some(q)
    requires ' ' !in f.req.httpMethod
    ensures Askable(g, f.req.meta.moduleName, q) && OwnerOfQuery(q) == f.Chain()[f.at]
    ensures forall a :: AgreeBefore(f.Chain(), f.at, f.told, Tell(f.told, q, a))
  {
    NeedOwner(f.Chain()[f.at], g.table, f.req, f.ctx, q);
    forall a ensures AgreeBefore(f.Chain(), f.at, f.told, Tell(f.told, q, a)) {
      TellAgrees(f.Chain(), f.at, f.told, q, a);
    }
  }

  /** A live item under a key was stored by the latest fill of this cache under this key. */
  lemma ItemIsFilled(s: State, gen: nat, c: CacheId, q: Query, d: Data)
    requires LogOk(s.log, s.gens, s.now) && CachesOk(s.log, s.caches, s.now)
    requires CacheOf(q, gen) == Some(c) && Lookup(StoreOf(s, c), KeyOf(q), s.now) == Some(d)
    ensures LiveFillBefore(s.log, |s.log|, c, KeyOf(q), d, s.now) && Fits(q, d)
  {
    hide UsesCache, LifeOf, KeyOf, Askable, CacheOf, Fits;
    assert SlotOk(s.log, c, KeyOf(q), StoreOf(s, c), s.now);
    assert s.log[..|s.log|] == s.log;
    var i := LastFill(s.log, c, KeyOf(q)).value;
    assert EventOk(s.log, s.gens, i) && NotAfter(s.log[i], s.now);
    hide LogOk, CachesOk;
    SameCacheSameKind(c, q, s.log[i].q, gen, s.log[i].gen, d);
  }

  /** A cache hit returns what the latest fill under the same key stored, while it lives. */
  lemma HitIsBacked(s: State, gen: nat, m: string, c: CacheId, q: Query, d: Data, e: Event)
    requires LogOk(s.log, s.gens, s.now) && CachesOk(s.log, s.caches, s.now)
    requires gen < |s.gens| && UsesCache(s.gens[gen], m, q) && Askable(s.gens[gen], m, q) && CacheOf(q, gen) == Some(c)
    requires Lookup(StoreOf(s, c), KeyOf(q), s.now) == Some(d)
    requires e.Hit? && e.c == c && e.q == q && e.d == d && e.at == s.now && e.gen == gen && e.moduleName == m
    ensures EventOk(s.log + [e], s.gens, |s.log|) && Fits(q, d)
  {
    ItemIsFilled(s, gen, c, q, d);
    hide LogOk, CachesOk, UsesCache, Askable, CacheOf, KeyOf, Fits;
    assert (s.log + [e])[..|s.log|] == s.log == s.log[..|s.log|] && (s.log + [e])[|s.log|] == e;
  }

  lemma BeginOk(s: State, r: nat, q: Query)
    requires Inv(s)
    requires r < |s.flights| && s.flights[r].reply.None? && s.flights[r].at < |s.flights[r].Chain()|
    requires var f := s.flights[r]; Need(f.Chain()[f.at], s.gens[f.gen].table, f.req, f.ctx) == Some(q)
    ensures Inv(Begin(s, r, q))
  {
    hide ChainFor, Conclude, Need, Handle, Compose, WalkTo, KeyOf, Lookup, LifeOf;
    var f := s.flights[r];
    var g, m := s.gens[f.gen], f.req.meta.moduleName;
    NeedAskable(g, f, q);
    var hit := if UsesCache(g, m, q) then Lookup(StoreOf(s, CacheOf(q, f.gen).value), KeyOf(q), s.now) else None;
    if hit.None? {
      PhaseChange(s.log, s.gens, r, f, Asking(q));
      SilentLand(s, r, f.(phase := Asking(q)));
    } else {
      var c, d := CacheOf(q, f.gen).value, hit.value;
      var e := Hit(r, c, q, d, s.now, f.gen, m);
      var log' := s.log + [e];
      HitIsBacked(s, f.gen, m, c, q, d, e);
      FlightStable(s.log, log', s.gens, s.gens, r, f);
      ToldIsTold(f.told, q, Granted(d));
      assert HasHit(log', r, q, d, f.gen, m) by { assert log'[|s.log|] == e; }
      ConcludeOk(log', s.gens, r, f, Tell(f.told, q, Granted(d)));
      EventLand(s, r, Conclude(f, g.table, Tell(f.told, q, Granted(d))), e);
    }
  }

  lemma AskOk(s: State, r: nat, q: Query, env: Env)
    requires Inv(s) && r < |s.flights| && s.flights[r].reply.None? && s.flights[r].phase == Asking(q)
    requires s.flights[r].gen < |s.gens| && Consulted(s.gens[s.flights[r].gen], q)
    ensures s.flights[r].at < |s.flights[r].Chain()| && Inv(Ask(s, r, q, env))
  {
    hide ChainFor, Conclude, Need, UsesCache, Handle, Compose, WalkTo, LogOk, CachesOk;
    var f := s.flights[r];
    var g, a := s.gens[f.gen], Typed(q, env.answer);
    var e := Asked(r, q, a, s.now);
    var log' := s.log + [e];
    assert PhaseOk(s.log, g, r, f);
    NeedAskable(g, f, q);
    FlightStable(s.log, log', s.gens, s.gens, r, f);
    assert HasAsked(log', r, q, a) by { assert log'[|s.log|] == e; }
    if a.Granted? && UsesCache(g, f.req.meta.moduleName, q) {
      PhaseChange(log', s.gens, r, f, Filling(q, a.data));
      EventLand(s, r, f.(phase := Filling(q, a.data)), e);
    } else {
      ToldIsTold(f.told, q, a);
      ConcludeOk(log', s.gens, r, f, Tell(f.told, q, a));
      EventLand(s, r, Conclude(f, g.table, Tell(f.told, q, a)), e);
    }
  }

  lemma UnlistedOk(s: State, r: nat, q: Query)
    requires Inv(s) && r < |s.flights| && s.flights[r].reply.None? && s.flights[r].phase == Asking(q) && q.RateQ?
    requires s.flights[r].gen < |s.gens| && !Consulted(s.gens[s.flights[r].gen], q)
    ensures s.flights[r].at < |s.flights[r].Chain()| && Inv(AllowUnlisted(s, r, q))
  {
    hide ChainFor, Conclude, Need, Handle, Compose, WalkTo, LogOk, CachesOk, LimitsOf;
    var f := s.flights[r];
    assert PhaseOk(s.log, s.gens[f.gen], r, f);
    NeedAskable(s.gens[f.gen], f, q);
    ToldIsTold(f.told, q, Granted(Yes));
    ConcludeOk(s.log, s.gens, r, f, Tell(f.told, q, Granted(Yes)));
    SilentLand(s, r, Conclude(f, s.gens[f.gen].table, Tell(f.told, q, Granted(Yes))));
  }

  lemma StoreGrows(log: seq<Event>, e: Event, caches: map<CacheId, Store<Data>>, now: int)
    requires CachesOk(log, caches, now) && e.Filled?
    ensures CachesOk(log + [e], caches[e.c := Put(Stored(caches, e.c), KeyOf(e.q), e.d, e.at, e.life)], now)
  {
    var caches' := caches[e.c := Put(Stored(caches, e.c), KeyOf(e.q), e.d, e.at, e.life)];
    forall c, k ensures SlotOk(log + [e], c, k, Stored(caches', c), now) {
      assert SlotOk(log, c, k, Stored(caches, c), now);
      LastFillAppend(log, e, c, k);
    }
  }

  /** What is stored was granted to the storing request itself. */
  lemma FillIsBacked(s: State, r: nat, f: Flight, q: Query, d: Data, e: Event)
    requires LogOk(s.log, s.gens, s.now) && FlightOk(s.log, s.gens, r, f) && f.reply.None? && f.phase == Filling(q, d)
    requires CacheOf(q, f.gen).Some?
    requires var m := f.req.meta.moduleName;
             e == Filled(r, CacheOf(q, f.gen).value, q, d, s.now, LifeOf(s.gens[f.gen], m, q), f.gen, m)
    ensures EventOk(s.log + [e], s.gens, |s.log|) && HasAsked(s.log + [e], r, q, Granted(d))
  {
    var log' := s.log + [e];
    assert PhaseOk(s.log, s.gens[f.gen], r, f);
    NeedAskable(s.gens[f.gen], f, q);
    var i :| 0 <= i < |s.log| && s.log[i].Asked? && s.log[i].r == r && s.log[i].q == q && s.log[i].a == Granted(d);
    assert NotAfter(s.log[i], s.now) && log'[i] == s.log[i];
    assert GrantedBefore(log', |s.log|, r, q, d, s.now);
  }

  lemma FilledFlight(s: State, r: nat, f: Flight, q: Query, d: Data, e: Event)
    requires LogOk(s.log, s.gens, s.now) && FlightOk(s.log, s.gens, r, f) && f.reply.None? && f.phase == Filling(q, d)
    requires CacheOf(q, f.gen).Some? && f.at < |f.Chain()|
    requires var m := f.req.meta.moduleName;
             e == Filled(r, CacheOf(q, f.gen).value, q, d, s.now, LifeOf(s.gens[f.gen], m, q), f.gen, m)
    ensures var f' := Conclude(f, s.gens[f.gen].table, Tell(f.told, q, Granted(d)));
            FlightOk(s.log + [e], s.gens, r, f') && Passes(f') == 0
  {
    var told := Tell(f.told, q, Granted(d));
    assert PhaseOk(s.log, s.gens[f.gen], r, f);
    assert AgreeBefore(f.Chain(), f.at, f.told, told) by { NeedAskable(s.gens[f.gen], f, q); }
    FillIsBacked(s, r, f, q, d, e);
    FlightStable(s.log, s.log + [e], s.gens, s.gens, r, f);
    ToldIsTold(f.told, q, Granted(d));
    GrantedDailyNeverFills(q, f.gen);
    ConcludeOk(s.log + [e], s.gens, r, f, told);
  }

  /** Storing and answering, with the event that records it. */
  lemma StoredOk(s: State, r: nat, f: Flight, f': Flight, e: Event)
    requires Inv(s) && r < |s.flights| && f == s.flights[r] && f.reply.None? && e.Filled?
    requires EventOk(s.log + [e], s.gens, |s.log|) && e.at == s.now
    requires FlightOk(s.log + [e], s.gens, r, f') && Passes(f') == 0
    ensures Inv(Land(s, r, f', [e]).(caches := s.caches[e.c := Put(StoreOf(s, e.c), KeyOf(e.q), e.d, e.at, e.life)]))
  {
    hide FlightOk, EventOk, CachesOk, LogOk, FlightsOk, ProxyOk, CountersOk, GensOk, KeyOf, Put;
    LogGrows(s.log, s.gens, s.now, e);
    StoreGrows(s.log, e, s.caches, s.now);
    FlightsLand(s.log, s.log + [e], s.gens, s.flights, r, f');
    ProxyLand(s.log, e, s.flights, r, f');
    CountersLand(s, e);
    var caches := s.caches[e.c := Put(StoreOf(s, e.c), KeyOf(e.q), e.d, e.at, e.life)];
    SameCounters(s.(log := s.log + [e]), Land(s, r, f', [e]).(caches := caches));
  }

  lemma FillOk(s: State, r: nat, q: Query, d: Data)
    requires Inv(s) && r < |s.flights| && s.flights[r].reply.None? && s.flights[r].phase == Filling(q, d)
    ensures s.flights[r].at < |s.flights[r].Chain()| && CacheOf(q, s.flights[r].gen).Some? && Inv(Fill(s, r, q, d))
  {
    var f := s.flights[r];
    assert FlightOk(s.log, s.gens, r, f) && PhaseOk(s.log, s.gens[f.gen], r, f);
    CachedEverywhere(q, f.gen);
    hide Inv, FlightOk, Conclude, Tell, LifeOf, CacheOf, KeyOf, EventOk, Put;
    var m := f.req.meta.moduleName;
    var e := Filled(r, CacheOf(q, f.gen).value, q, d, s.now, LifeOf(s.gens[f.gen], m, q), f.gen, m);
    FillIsBacked(s, r, f, q, d, e);
    FilledFlight(s, r, f, q, d, e);
    StoredOk(s, r, f, Conclude(f, s.gens[f.gen].table, Tell(f.told, q, Granted(d))), e);
  }

  lemma CachedEverywhere(q: Query, gen: nat)
    ensures CacheOf(q, gen).Some? <==> CacheOf(q, 0).Some?
  {
  }

  lemma GrantedDailyNeverFills(q: Query, gen: nat)
    ensures CacheOf(q, gen).Some? ==> !q.DailyQ?
  {
  }

  // ---------------------------------------------------------------- the daily counter

  lemma CountersCount(s: State, s': State, app: int, date: Date, e: Event)
    requires CountersOk(s) && e.Counted? && e.app == app && e.date == date
    requires s'.log == s.log + [e]
    requires s'.counters == s.counters[DailyKey(app, date) := Counter(s, DailyKey(app, date)) + 1]
    ensures CountersOk(s')
  {
    forall app', date' ensures Counter(s', DailyKey(app', date')) == CountFor(s'.log, app', date') {
      CountsAppend(s.log, e, app', date', 0);
      assert Counter(s, DailyKey(app', date')) == CountFor(s.log, app', date');
      if DailyKey(app', date') == DailyKey(app, date) {
        DailyKeyInjective(app, date, app', date');
      }
    }
  }

  /** The counter is not consulted, or does not answer: nothing is counted. */
  lemma NotCounted(s: State, r: nat, app: int, a: Answer<Data>)
    requires Inv(s) && r < |s.flights| && s.flights[r].reply.None? && s.flights[r].phase == Asking(DailyQ(app))
    requires s.flights[r].at < |s.flights[r].Chain()|
    requires a == Failed || (a == Granted(Yes) && app !in s.gens[s.flights[r].gen].Limits())
    ensures var f := s.flights[r];
            Inv(Land(s, r, Conclude(f, s.gens[f.gen].table, Tell(f.told, DailyQ(app), a)), []))
  {
    var f := s.flights[r];
    var g, q := s.gens[f.gen], DailyQ(app);
    assert PhaseOk(s.log, g, r, f);
    NeedAskable(g, f, q);
    ToldIsTold(f.told, q, a);
    ConcludeOk(s.log, s.gens, r, f, Tell(f.told, q, a));
    SilentLand(s, r, Conclude(f, g.table, Tell(f.told, q, a)));
  }

  lemma SkippedOk(s: State, r: nat, app: int, env: Env)
    requires Inv(s) && r < |s.flights| && s.flights[r].reply.None? && s.flights[r].phase == Asking(DailyQ(app))
    requires s.flights[r].gen < |s.gens| && s.flights[r].at < |s.flights[r].Chain()|
    requires app !in s.gens[s.flights[r].gen].Limits() || env.lock.NotReached?
    ensures Inv(CountDay(s, r, app, env))
  {
    hide Inv, Conclude, Tell, LimitsOf, Land;
    NotCounted(s, r, app, if app in s.gens[s.flights[r].gen].Limits() then Failed else Granted(Yes));
  }

  lemma ReachedOk(s: State, r: nat, app: int, env: Env)
    requires Inv(s) && r < |s.flights| && s.flights[r].reply.None? && s.flights[r].phase == Asking(DailyQ(app))
    requires s.flights[r].gen < |s.gens| && s.flights[r].at < |s.flights[r].Chain()|
    requires app in s.gens[s.flights[r].gen].Limits() && !env.lock.NotReached?
    ensures Inv(CountDay(s, r, app, env))
  {
    hide Inv, Conclude, Tell, DailyKey, LimitsOf, Land;
    var limit := s.gens[s.flights[r].gen].Limits()[app];
    CountedOk(s, r, app, env.date, Counter(s, DailyKey(app, env.date)) + 1, limit, env.lock.Replied?);
  }

  lemma CountDayOk(s: State, r: nat, app: int, env: Env)
    requires Inv(s) && r < |s.flights| && s.flights[r].reply.None? && s.flights[r].phase == Asking(DailyQ(app))
    ensures s.flights[r].at < |s.flights[r].Chain()| && Inv(CountDay(s, r, app, env))
  {
    var f := s.flights[r];
    assert FlightOk(s.log, s.gens, r, f) && PhaseOk(s.log, s.gens[f.gen], r, f);
    hide Inv, FlightOk, PhaseOk, Need, CountDay;
    if app !in s.gens[f.gen].Limits() || env.lock.NotReached? {
      SkippedOk(s, r, app, env);
    } else {
      ReachedOk(s, r, app, env);
    }
  }

  lemma CountedOk(s: State, r: nat, app: int, date: Date, value: nat, limit: int, replied: bool)
    requires Inv(s) && r < |s.flights| && s.flights[r].reply.None? && s.flights[r].phase == Asking(DailyQ(app))
    requires s.flights[r].at < |s.flights[r].Chain()|
    requires var limits := s.gens[s.flights[r].gen].Limits(); app in limits && limit == limits[app]
    requires value == Counter(s, DailyKey(app, date)) + 1
    ensures var f := s.flights[r];
            var told := Tell(f.told, DailyQ(app), DayAnswer(value, limit, replied));
            var e := Counted(r, app, date, value, limit, replied);
            var landed := Land(s, r, Conclude(f, s.gens[f.gen].table, told), [e]);
            Inv(landed.(counters := s.counters[DailyKey(app, date) := value]))
  {
    hide ChainFor, Conclude, Need, Handle, Compose, WalkTo, LimitsOf, DailyKey;
    var f := s.flights[r];
    var g, q, a := s.gens[f.gen], DailyQ(app), DayAnswer(value, limit, replied);
    var e := Counted(r, app, date, value, limit, replied);
    var log' := s.log + [e];
    assert PhaseOk(s.log, g, r, f);
    NeedAskable(g, f, q);
    assert log'[..|s.log|] == s.log && log'[|s.log|] == e;
    assert CountFor(s.log, app, date) == Counter(s, DailyKey(app, date));
    assert replied ==> HasCounted(log', r, app, limit, value <= limit);
    FlightStable(s.log, log', s.gens, s.gens, r, f);
    ToldIsTold(f.told, q, a);
    ConcludeOk(log', s.gens, r, f, Tell(f.told, q, a));
    var f' := Conclude(f, g.table, Tell(f.told, q, a));
    LogGrows(s.log, s.gens, s.now, e);
    CachesStable(s.log, e, s.caches, s.now);
    FlightsLand(s.log, log', s.gens, s.flights, r, f');
    ProxyLand(s.log, e, s.flights, r, f');
    CountersCount(s, Land(s, r, f', [e]).(counters := s.counters[DailyKey(app, date) := value]), app, date, e);
  }

  // ---------------------------------------------------------------- the proxy

  lemma ForwardedReply(f: Flight, g: Generation, told: Verdicts)
    requires f.at == |f.Chain()| && Walk(f.(told := told), g, f.at) == Pass(f.ctx)
    ensures var reply := Unwind(f.Chain(), f.at, Forward(told));
            reply == Handle(Compose(f.Chain(), Proxy), g.table, f.req, ANONYMOUS, told) && reply.proxied == 1
  {
    hide ChainFor, Decide;
    HandleUnwinds(f.Chain(), f.at, g.table, f.req, told);
    HandleStep(f.Chain(), f.at, g.table, f.req, f.ctx, told);
    UnwindKeepsProxied(f.Chain(), f.at, Forward(told));
  }

  lemma ForwardedOk(log: seq<Event>, gens: seq<Generation>, r: nat, f: Flight, upstream: Upstream)
    requires FlightOk(log, gens, r, f) && f.reply.None? && f.at == |f.Chain()|
    ensures var told := f.told.(upstream := upstream);
            var f' := f.(told := told, reply := Some(Unwind(f.Chain(), f.at, Forward(told))));
            FlightOk(log, gens, r, f') && Passes(f') == 1
  {
    hide ChainFor, Handle, Compose, Unwind, Forward, Supported, Need, PhaseOk;
    var g, told := gens[f.gen], f.told.(upstream := upstream);
    var f' := f.(told := told, reply := Some(Unwind(f.Chain(), f.at, Forward(told))));
    WalkAgrees(f.Chain(), f.at, g.table, f.req, f.told, told);
    forall j | 0 <= j < f.at ensures AnswerOk(log, g, r, f', j) {
      AnswersKept(log, g, r, f, told, j);
      AnswerSame(log, g, r, f.(told := told), f', j);
    }
    ForwardedReply(f, g, told);
    assert Walk(f', g, f'.at) == Pass(f'.ctx);
  }

  lemma RunProxyOk(s: State, r: nat, env: Env)
    requires Inv(s) && r < |s.flights| && s.flights[r].reply.None? && s.flights[r].at == |s.flights[r].Chain()|
    ensures Inv(RunProxy(s, r, env))
  {
    var f, e := s.flights[r], Proxied(r);
    FlightStable(s.log, s.log + [e], s.gens, s.gens, r, f);
    ForwardedOk(s.log + [e], s.gens, r, f, env.upstream);
    var told := f.told.(upstream := env.upstream);
    EventLand(s, r, f.(told := told, reply := Some(Unwind(f.Chain(), f.at, Forward(told)))), e);
  }

  // ---------------------------------------------------------------- one step, any run

  lemma AdvanceOk(s: State, r: nat, env: Env)
    requires Inv(s) && r < |s.flights| && s.flights[r].reply.None?
    ensures s.flights[r].gen < |s.gens| && Inv(AdvanceFlight(s, r, env))
  {
    hide ChainFor, Conclude, Handle, Compose, WalkTo, Fill, Ask, CountDay, Begin, RunProxy, AllowUnlisted;
    var f := s.flights[r];
    assert FlightOk(s.log, s.gens, r, f);
    var g := s.gens[f.gen];
    if f.at == |f.Chain()| {
      RunProxyOk(s, r, env);
    } else {
      match f.phase
      case Asking(q) =>
        if q.DailyQ? {
          CountDayOk(s, r, q.applicationId, env);
        } else if !Consulted(g, q) {
          UnlistedOk(s, r, q);
        } else {
          AskOk(s, r, q, env);
        }
      case Filling(q, d) => FillOk(s, r, q, d);
      case Start =>
        var m := f.Chain()[f.at];
        if m == Logger {
          FirstIsLogger(f);
          ConcludeOk(s.log, s.gens, r, f, f.told.(bodyRead := env.bodyRead));
          SilentLand(s, r, Conclude(f, g.table, f.told.(bodyRead := env.bodyRead)));
        } else if Need(m, g.table, f.req, f.ctx).None? {
          ConcludeOk(s.log, s.gens, r, f, f.told);
          SilentLand(s, r, Conclude(f, g.table, f.told));
        } else {
          BeginOk(s, r, Need(m, g.table, f.req, f.ctx).value);
        }
    }
  }

  lemma FirstIsLogger(f: Flight)
    requires f.at < |f.Chain()| && f.Chain()[f.at] == Logger
    ensures f.at == 0
  {
  }

  lemma GensGrow(s: State, s': State)
    requires Inv(s) && s.gens <= s'.gens && GensOk(s'.gens)
    requires s' == s.(gens := s'.gens)
    ensures Inv(s')
  {
    forall i | 0 <= i < |s.log| ensures EventOk(s.log, s'.gens, i) {
      EventStable(s.log, s.log, s.gens, s'.gens, i);
    }
    forall r | 0 <= r < |s.flights| ensures FlightOk(s.log, s'.gens, r, s.flights[r]) {
      FlightStable(s.log, s.log, s.gens, s'.gens, r, s.flights[r]);
    }
    SameCounters(s, s');
  }

  lemma ArriveOk(s: State, f: Flight)
    requires Inv(s) && f.reply.None? && FlightOk(s.log, s.gens, |s.flights|, f)
    ensures Inv(s.(flights := s.flights + [f]))
  {
    hide FlightOk, LogOk, CachesOk, GensOk, CountersOk;
    SameCounters(s, s.(flights := s.flights + [f]));
  }

  lemma CleanOk(s: State)
    requires Inv(s) && Users in s.caches
    ensures Inv(s.(caches := s.caches[Users := Purge(s.caches[Users], s.now)]))
  {
    var s' := s.(caches := s.caches[Users := Purge(s.caches[Users], s.now)]);
    assert CachesOk(s.log, s'.caches, s.now) by {
      forall c, k ensures SlotOk(s.log, c, k, Stored(s'.caches, c), s.now) {
        assert SlotOk(s.log, c, k, Stored(s.caches, c), s.now);
      }
    }
    hide CachesOk, LogOk, FlightsOk, ProxyOk, GensOk;
    SameCounters(s, s');
  }

  lemma StepOk(s: State, l: Label)
    requires Inv(s)
    ensures Inv(Apply(s, l))
  {
    hide LogOk, CachesOk, CountersOk, FlightsOk, ProxyOk, AdvanceFlight, Purge, WellFormed, IsTable;
    match l
    case Tick(elapsed) => TickOk(s, elapsed);
    case Clean => if Users in s.caches { CleanOk(s); }
    case Reload(remote, table) =>
      if WellFormed(remote.customAuth) && IsTable(remote.customAuth, table) {
        GensGrow(s, s.(gens := s.gens + [Generation(remote, table)]));
      }
    case Arrive(req, skipAuth) =>
      if s.gens != [] && ' ' !in req.httpMethod {
        ArriveOk(s, Flight(req, skipAuth, |s.gens| - 1, 0, Start, ANONYMOUS, UNTOLD, None));
      }
    case Advance(r, env) =>
      if r < |s.flights| && s.flights[r].reply.None? {
        AdvanceOk(s, r, env);
      }
  }

  lemma TickOk(s: State, elapsed: nat)
    requires Inv(s)
    ensures Inv(s.(now := s.now + elapsed))
  {
    hide EventOk, FlightsOk, ProxyOk, GensOk, LastFill;
    var now := s.now + elapsed;
    forall c, k ensures SlotOk(s.log, c, k, Stored(s.caches, c), now) {
      assert SlotOk(s.log, c, k, Stored(s.caches, c), s.now);
    }
    forall i | 0 <= i < |s.log| ensures NotAfter(s.log[i], now) { assert NotAfter(s.log[i], s.now); }
    SameCounters(s, s.(now := now));
  }

  /** The invariant holds after every run, however requests, clock, cleaner and reloads interleave. */
  lemma {:induction false} Reachable(run: seq<Label>)
    ensures Inv(Exec(run))
  {
    if run != [] {
      hide Apply, Inv;
      Reachable(run[..|run| - 1]);
      StepOk(Exec(run[..|run| - 1]), run[|run| - 1]);
    } else {
      NothingYet();
    }
  }

  lemma NothingYet()
    ensures Inv(INITIAL)
  {
  }
}
