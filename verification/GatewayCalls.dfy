/** Who asks what: every entry of the log belongs to a call that its request's own chain makes. */
module GatewayCalls {
  import opened Wrappers
  import opened Domain
  import opened Caching
  import opened Keys
  import opened Settings
  import opened DailyLimits
  import opened Pipeline
  import opened PipelineTheorems
  import opened Gateway
  import opened GatewayInvariants
  import opened GatewaySteps
  import opened GatewayTheorems
  import opened GatewayQuota
  import opened Services

  // ---------------------------------------------------------------- what one step does

  /** An event is about the request that moves, at this moment, and fits where the request stands. */
  ghost predicate EventFits(s: State, r: nat, f: Flight, e: Event)
    requires f.gen < |s.gens|
  {
    var g, m := s.gens[f.gen], f.req.meta.moduleName;
    match e
    case Asked(r', q, _, at) => r' == r && at == s.now && f.phase == Asking(q) && Consulted(g, q)
    case Hit(r', c, q, _, at, gen, m') =>
      && r' == r && at == s.now && gen == f.gen && m' == m && f.phase == Start && f.at < |f.Chain()|
      && Need(f.Chain()[f.at], g.table, f.req, f.ctx) == Some(q) && UsesCache(g, m, q) && CacheOf(q, gen) == Some(c)
    case Filled(r', c, q, d, at, life, gen, m') =>
      && r' == r && at == s.now && gen == f.gen && m' == m && f.phase == Filling(q, d)
      && CacheOf(q, gen) == Some(c) && life == LifeOf(g, m, q)
    case Counted(r', _, _, _, _, _) => r' == r
    case Proxied(r') => r' == r
  }

  lemma UsedIsKept(g: Generation, gen: nat, m: string, q: Query)
    requires UsesCache(g, m, q)
    ensures CacheOf(q, gen).Some?
  {
  }

  /** A new log: the old one, or one fitting event more. */
  ghost predicate AtMostOne(s: State, r: nat, f: Flight, log': seq<Event>)
    requires f.gen < |s.gens|
  {
    log' == s.log || (|log'| == |s.log| + 1 && s.log <= log' && EventFits(s, r, f, log'[|s.log|]))
  }

  lemma CountEvent(s: State, r: nat, app: int, env: Env)
    requires r < |s.flights| && s.flights[r].gen < |s.gens| && s.flights[r].at < |s.flights[r].Chain()|
    ensures AtMostOne(s, r, s.flights[r], CountDay(s, r, app, env).log)
  {
    hide ChainFor, Conclude, Tell, LimitsOf, DailyKey, DayAnswer, Counter, Need, UsesCache, CacheOf, LifeOf, Consulted;
  }

  lemma BeginEvent(s: State, r: nat, q: Query)
    requires r < |s.flights| && s.flights[r].gen < |s.gens| && s.flights[r].at < |s.flights[r].Chain()|
    requires var f := s.flights[r];
             f.phase == Start && Need(f.Chain()[f.at], s.gens[f.gen].table, f.req, f.ctx) == Some(q)
    ensures AtMostOne(s, r, s.flights[r], Begin(s, r, q).log)
  {
    var f := s.flights[r];
    var g, m := s.gens[f.gen], f.req.meta.moduleName;
    hide ChainFor, Conclude, Tell, KeyOf, LifeOf, Need, Lookup, StoreOf, Consulted, CacheOf, UsesCache;
    if UsesCache(g, m, q) {
      UsedIsKept(g, f.gen, m, q);
    }
  }

  lemma OneEvent(s: State, r: nat, env: Env)
    requires r < |s.flights| && s.flights[r].gen < |s.gens|
    ensures AtMostOne(s, r, s.flights[r], AdvanceFlight(s, r, env).log)
  {
    var f := s.flights[r];
    hide ChainFor, Conclude, Tell, KeyOf, CacheOf, LifeOf, UsesCache, Forward, Unwind, Need, Typed, Put, StoreOf,
         Consulted, CountDay, Begin;
    if f.at < |f.Chain()| {
      if f.phase.Asking? && f.phase.q.DailyQ? {
        CountEvent(s, r, f.phase.q.applicationId, env);
      } else if f.phase.Start? {
        var need := Need(f.Chain()[f.at], s.gens[f.gen].table, f.req, f.ctx);
        if need.Some? {
          BeginEvent(s, r, need.value);
        }
      }
    }
  }

  // ---------------------------------------------------------------- what a request was told stays told

  /** The request moves on; what it was told before its present middleware is not rewritten. */
  ghost predicate Continues(f: Flight, f': Flight) {
    KeepsRequest(f, f') && f.at <= |f.Chain()| && AgreeBefore(f.Chain(), f.at, f.told, f'.told)
  }

  lemma ConcludeContinues(f: Flight, table: Table, told: Verdicts)
    requires f.at < |f.Chain()| && f.reply.None? && AgreeBefore(f.Chain(), f.at, f.told, told)
    ensures Continues(f, Conclude(f, table, told))
  {
    hide ChainFor, Conclude;
    ConcludeKeeps(f, table, told);
  }

  lemma StartContinues(s: State, r: nat, env: Env)
    requires r < |s.flights| && FlightOk(s.log, s.gens, r, s.flights[r]) && s.flights[r].reply.None?
    requires s.flights[r].at < |s.flights[r].Chain()| && s.flights[r].phase == Start
    ensures Continues(s.flights[r], AdvanceFlight(s, r, env).flights[r])
  {
    var f := s.flights[r];
    var g := s.gens[f.gen];
    hide ChainFor, Conclude, Need, Tell, KeyOf, CacheOf, LifeOf, UsesCache, Lookup, FlightOk;
    var m := f.Chain()[f.at];
    if m == Logger {
      FirstIsLogger(f);
      ConcludeContinues(f, g.table, f.told.(bodyRead := env.bodyRead));
    } else if Need(m, g.table, f.req, f.ctx).None? {
      ConcludeContinues(f, g.table, f.told);
    } else {
      var q := Need(m, g.table, f.req, f.ctx).value;
      NeedAskable(g, f, q);
      forall a ensures Continues(f, Conclude(f, g.table, Tell(f.told, q, a))) {
        ConcludeContinues(f, g.table, Tell(f.told, q, a));
      }
    }
  }

  /** The request is told an answer to q, or keeps a grant of it for the next step. */
  ghost predicate Answers(f: Flight, table: Table, q: Query, f': Flight)
    requires f.at < |f.Chain()|
  {
    (exists a :: f' == Conclude(f, table, Tell(f.told, q, a))) || (exists p :: f' == f.(phase := p))
  }

  lemma CountAnswers(s: State, r: nat, app: int, env: Env)
    requires r < |s.flights| && s.flights[r].gen < |s.gens| && s.flights[r].at < |s.flights[r].Chain()|
    ensures Answers(s.flights[r], s.gens[s.flights[r].gen].table, DailyQ(app), CountDay(s, r, app, env).flights[r])
  {
    hide ChainFor, Conclude, Tell, DailyKey, LimitsOf, DayAnswer, Counter;
  }

  lemma AskAnswers(s: State, r: nat, q: Query, env: Env)
    requires r < |s.flights| && s.flights[r].gen < |s.gens| && s.flights[r].at < |s.flights[r].Chain()|
    ensures Answers(s.flights[r], s.gens[s.flights[r].gen].table, q, Ask(s, r, q, env).flights[r])
    ensures Answers(s.flights[r], s.gens[s.flights[r].gen].table, q, AllowUnlisted(s, r, q).flights[r])
  {
    hide ChainFor, Conclude, Tell, UsesCache, Typed;
  }

  lemma FillAnswers(s: State, r: nat, q: Query, d: Data)
    requires r < |s.flights| && s.flights[r].gen < |s.gens| && s.flights[r].at < |s.flights[r].Chain()|
    requires CacheOf(q, s.flights[r].gen).Some?
    ensures Answers(s.flights[r], s.gens[s.flights[r].gen].table, q, Fill(s, r, q, d).flights[r])
  {
    hide ChainFor, Conclude, Tell, KeyOf, CacheOf, LifeOf, Put, StoreOf;
  }

  lemma AnsweredContinues(f: Flight, g: Generation, q: Query, f': Flight)
    requires f.at < |f.Chain()| && f.reply.None? && Answers(f, g.table, q, f')
    requires forall a :: AgreeBefore(f.Chain(), f.at, f.told, Tell(f.told, q, a))
    ensures Continues(f, f')
  {
    hide ChainFor, Conclude, Tell;
    if a :| f' == Conclude(f, g.table, Tell(f.told, q, a)) {
      ConcludeContinues(f, g.table, Tell(f.told, q, a));
    }
  }

  lemma CallContinues(s: State, r: nat, env: Env)
    requires r < |s.flights| && FlightOk(s.log, s.gens, r, s.flights[r]) && s.flights[r].reply.None?
    requires s.flights[r].at < |s.flights[r].Chain()| && s.flights[r].phase != Start
    ensures Continues(s.flights[r], AdvanceFlight(s, r, env).flights[r])
  {
    var f := s.flights[r];
    var g, q := s.gens[f.gen], f.phase.q;
    assert PhaseOk(s.log, g, r, f);
    NeedAskable(g, f, q);
    hide ChainFor, Need, Tell, CacheOf, FlightOk, Consulted, CountDay, Ask, Fill, AllowUnlisted, Answers, Continues;
    if f.phase.Filling? {
      if CacheOf(q, f.gen).Some? {
        FillAnswers(s, r, q, f.phase.d);
        AnsweredContinues(f, g, q, AdvanceFlight(s, r, env).flights[r]);
      } else {
        SameContinues(f);
      }
    } else {
      if q.DailyQ? {
        CountAnswers(s, r, q.applicationId, env);
      } else {
        AskAnswers(s, r, q, env);
      }
      AnsweredContinues(f, g, q, AdvanceFlight(s, r, env).flights[r]);
    }
  }

  lemma SameContinues(f: Flight)
    requires f.at <= |f.Chain()|
    ensures Continues(f, f)
  {
  }

  lemma AdvanceContinues(s: State, r: nat, env: Env)
    requires r < |s.flights| && FlightOk(s.log, s.gens, r, s.flights[r]) && s.flights[r].reply.None?
    ensures var f := s.flights[r];
            Continues(f, AdvanceFlight(s, r, env).flights[r])
  {
    var f := s.flights[r];
    if f.at < |f.Chain()| {
      hide AdvanceFlight, FlightOk;
      if f.phase == Start {
        StartContinues(s, r, env);
      } else {
        CallContinues(s, r, env);
      }
    } else {
      hide ChainFor, Unwind, Forward, FlightOk;
    }
  }

  // ---------------------------------------------------------------- every entry of the log is a request's own call

  /** Some middleware this request has reached makes this call. */
  ghost predicate OwnCall(gens: seq<Generation>, f: Flight, q: Query) {
    && f.gen < |gens| && f.at <= |f.Chain()|
    && exists j | 0 <= j <= f.at && j < |f.Chain()| :: CallOf(f, gens[f.gen], j) == Some(q)
  }

  /** A call, hit or fill is its request's own, and caches are used as the request's own configuration says. */
  ghost predicate OwnEvent(gens: seq<Generation>, flights: seq<Flight>, e: Event) {
    match e
    case Asked(r, q, _, _) =>
      r < |flights| && OwnCall(gens, flights[r], q) && Consulted(gens[flights[r].gen], q)
    case Hit(r, c, q, _, _, gen, m) =>
      && r < |flights| && OwnCall(gens, flights[r], q) && gen == flights[r].gen && m == flights[r].req.meta.moduleName
      && exists life :: KeptIn(gens[gen], gen, m, q, c, life)
    case Filled(r, c, q, _, _, life, gen, m) =>
      && r < |flights| && OwnCall(gens, flights[r], q) && gen == flights[r].gen && m == flights[r].req.meta.moduleName
      && KeptIn(gens[gen], gen, m, q, c, life)
    case _ => true
  }

  ghost predicate CallsOk(s: State) {
    forall i | 0 <= i < |s.log| :: OwnEvent(s.gens, s.flights, s.log[i])
  }

  lemma OwnCallContinues(gens: seq<Generation>, gens': seq<Generation>, f: Flight, f': Flight, q: Query)
    requires gens <= gens' && Continues(f, f') && OwnCall(gens, f, q)
    ensures OwnCall(gens', f', q)
  {
    hide ChainFor, Need;
    var g := gens[f.gen];
    assert gens'[f.gen] == g;
    var j :| 0 <= j <= f.at && j < |f.Chain()| && CallOf(f, g, j) == Some(q);
    WalkAgrees(f.Chain(), j, g.table, f.req, f.told, f'.told);
    assert CallOf(f', g, j) == Some(q);
  }

  lemma OwnEventContinues(
    gens: seq<Generation>, gens': seq<Generation>, flights: seq<Flight>, flights': seq<Flight>, e: Event)
    requires gens <= gens' && |flights| <= |flights'| && OwnEvent(gens, flights, e)
    requires forall r | 0 <= r < |flights| :: Continues(flights[r], flights'[r])
    ensures OwnEvent(gens', flights', e)
  {
    hide OwnCall, KeptIn, Consulted, AgreeBefore, ChainFor;
    if e.Asked? || e.Hit? || e.Filled? {
      var f := flights[e.r];
      OwnCallInside(gens, f, e.q);
      OwnCallContinues(gens, gens', f, flights'[e.r], e.q);
      assert gens'[f.gen] == gens[f.gen];
    }
  }

  lemma OwnCallInside(gens: seq<Generation>, f: Flight, q: Query)
    requires OwnCall(gens, f, q)
    ensures f.gen < |gens|
  {
  }

  lemma OwnNow(gens: seq<Generation>, log: seq<Event>, r: nat, f: Flight, q: Query)
    requires FlightOk(log, gens, r, f) && f.reply.None? && f.at < |f.Chain()|
    requires Need(f.Chain()[f.at], gens[f.gen].table, f.req, f.ctx) == Some(q)
    ensures OwnCall(gens, f, q)
  {
    hide ChainFor, Need;
    assert CallOf(f, gens[f.gen], f.at) == Some(q);
  }

  lemma FittingIsOwn(s: State, r: nat, e: Event)
    requires r < |s.flights| && FlightOk(s.log, s.gens, r, s.flights[r]) && s.flights[r].reply.None?
    requires EventFits(s, r, s.flights[r], e)
    ensures OwnEvent(s.gens, s.flights, e)
  {
    var f := s.flights[r];
    var g, m := s.gens[f.gen], f.req.meta.moduleName;
    assert PhaseOk(s.log, g, r, f);
    hide ChainFor, Need, FlightOk, OwnCall;
    if e.Asked? || e.Hit? || e.Filled? {
      OwnNow(s.gens, s.log, r, f, e.q);
    }
    if e.Hit? {
      assert KeptIn(g, f.gen, m, e.q, e.c, LifeOf(g, m, e.q));
    }
  }

  ghost predicate TouchedOnly(s: State, r: nat, s': State) {
    && s'.gens == s.gens && s'.now == s.now && |s'.flights| == |s.flights|
    && forall k | 0 <= k < |s.flights| && k != r :: s'.flights[k] == s.flights[k]
  }

  lemma CountTouches(s: State, r: nat, app: int, env: Env)
    requires r < |s.flights| && s.flights[r].gen < |s.gens| && s.flights[r].at < |s.flights[r].Chain()|
    ensures TouchedOnly(s, r, CountDay(s, r, app, env))
  {
    hide ChainFor, Conclude, Tell, LimitsOf, DailyKey, DayAnswer, Counter;
  }

  lemma BeginTouches(s: State, r: nat, q: Query)
    requires r < |s.flights| && s.flights[r].gen < |s.gens| && s.flights[r].at < |s.flights[r].Chain()|
    ensures TouchedOnly(s, r, Begin(s, r, q))
  {
    hide ChainFor, Conclude, Tell, KeyOf, CacheOf, UsesCache, Lookup, StoreOf;
  }

  lemma TouchesOne(s: State, r: nat, env: Env)
    requires r < |s.flights| && s.flights[r].gen < |s.gens|
    ensures TouchedOnly(s, r, AdvanceFlight(s, r, env))
  {
    var f := s.flights[r];
    hide ChainFor, Conclude, Tell, KeyOf, CacheOf, LifeOf, UsesCache, Forward, Unwind, Need, Typed, Put, StoreOf,
         CountDay, Consulted, Begin;
    if f.at < |f.Chain()| {
      if f.phase.Asking? && f.phase.q.DailyQ? {
        CountTouches(s, r, f.phase.q.applicationId, env);
      } else if f.phase.Start? {
        var need := Need(f.Chain()[f.at], s.gens[f.gen].table, f.req, f.ctx);
        if need.Some? {
          BeginTouches(s, r, need.value);
        }
      }
    }
  }

  /** Configurations and requests stay, and requests go on. */
  ghost predicate Onward(s: State, s': State) {
    && s.gens <= s'.gens && s.now <= s'.now && |s.flights| <= |s'.flights|
    && forall k | 0 <= k < |s.flights| :: Continues(s.flights[k], s'.flights[k])
  }

  lemma StaysOnward(s: State, s': State)
    requires Inv(s) && s.gens <= s'.gens && s.now <= s'.now && s.flights <= s'.flights
    ensures Onward(s, s')
  {
    hide Continues;
    forall k | 0 <= k < |s.flights| ensures Continues(s.flights[k], s'.flights[k]) {
      assert FlightOk(s.log, s.gens, k, s.flights[k]);
      assert s'.flights[k] == s.flights[k];
      SameContinues(s.flights[k]);
    }
  }

  lemma MovesOnward(s: State, r: nat, s': State)
    requires Onward(s, s) && r < |s.flights| && TouchedOnly(s, r, s') && Continues(s.flights[r], s'.flights[r])
    ensures Onward(s, s')
  {
    hide Continues;
  }

  lemma InvFlight(s: State, r: nat)
    requires Inv(s) && r < |s.flights|
    ensures FlightOk(s.log, s.gens, r, s.flights[r])
  {
  }

  /** The step moves a request that is still on its way. */
  ghost predicate Moving(s: State, l: Label) {
    l.Advance? && l.r < |s.flights| && s.flights[l.r].reply.None? && s.flights[l.r].gen < |s.gens|
  }

  lemma QuietStep(s: State, l: Label)
    requires !Moving(s, l)
    ensures var s' := Apply(s, l); s.gens <= s'.gens && s.now <= s'.now && s.flights <= s'.flights && s'.log == s.log
  {
    hide Purge, WellFormed, IsTable;
  }

  lemma MovingStep(s: State, l: Label)
    requires Moving(s, l)
    ensures Apply(s, l) == AdvanceFlight(s, l.r, l.env)
  {
    hide AdvanceFlight;
  }

  /** One step of anything: requests and configurations stay, requests go on, and at most one event is added. */
  lemma StepContinues(s: State, l: Label)
    requires Inv(s)
    ensures var s' := Apply(s, l);
            && Onward(s, s')
            && (s'.log == s.log
                || (Moving(s, l) && |s'.log| == |s.log| + 1 && s.log <= s'.log
                    && EventFits(s, l.r, s.flights[l.r], s'.log[|s.log|])))
  {
    hide Apply, AdvanceFlight, Onward, EventFits, FlightOk, Inv, TouchedOnly, Continues;
    if Moving(s, l) {
      StaysOnward(s, s);
      InvFlight(s, l.r);
      AdvanceContinues(s, l.r, l.env);
      TouchesOne(s, l.r, l.env);
      OneEvent(s, l.r, l.env);
      MovingStep(s, l);
      MovesOnward(s, l.r, AdvanceFlight(s, l.r, l.env));
    } else {
      QuietStep(s, l);
      StaysOnward(s, Apply(s, l));
    }
  }

  lemma CallsStep(s: State, l: Label)
    requires Inv(s) && CallsOk(s)
    ensures CallsOk(Apply(s, l))
  {
    var s' := Apply(s, l);
    StepContinues(s, l);
    hide Apply, OwnEvent, Continues, EventFits;
    forall i | 0 <= i < |s'.log| ensures OwnEvent(s'.gens, s'.flights, s'.log[i]) {
      if i == |s.log| {
        assert FlightOk(s.log, s.gens, l.r, s.flights[l.r]);
        FittingIsOwn(s, l.r, s'.log[i]);
      } else {
        assert s'.log[i] == s.log[i] && OwnEvent(s.gens, s.flights, s.log[i]);
      }
      OwnEventContinues(s.gens, s'.gens, s.flights, s'.flights, s'.log[i]);
    }
  }

  /** In every run each call, hit and fill is its request's own, and caches are used as its configuration says. */
  lemma {:induction false} CallsAreOwn(run: seq<Label>)
    ensures CallsOk(Exec(run))
  {
    if run != [] {
      hide Inv, CallsOk, Apply;
      Reachable(run[..|run| - 1]);
      CallsAreOwn(run[..|run| - 1]);
      CallsStep(Exec(run[..|run| - 1]), run[|run| - 1]);
    } else {
      NothingCalled();
    }
  }

  lemma NothingCalled()
    ensures CallsOk(INITIAL)
  {
  }

  // ---------------------------------------------------------------- the questions in the request's own terms

  /** What a request may be asked about, in terms of what it presents, its module's setting and what it was told. */
  predicate Concerns(g: Generation, f: Flight, q: Query) {
    var m := f.req.meta.moduleName;
    && !f.skipAuth
    && match q
       case UserQ(endpoint, token) =>
         && f.req.meta.userAuthRequired && m in g.table && endpoint == g.table[m].endpoint
         && UserToken(g.table, f.req) == Ok(token)
       case AppQ(token) => Presents(f.req, token) && !AppSkipped(g.table, f.req, f.told)
       case AdminTokenQ(token) => token == f.req.adminToken && token != ""
       case AuthorizeQ(app, httpMethod, path) =>
         && f.told.app.Granted? && app == f.told.app.data.applicationId && !AppSkipped(g.table, f.req, f.told)
         && httpMethod == f.req.httpMethod && path == f.req.meta.pathSchema
       case PermissionQ(id, permission) =>
         && f.req.meta.inner && permission == f.req.meta.requiredAdminPermission && permission != ""
         && f.req.adminToken != "" && f.told.admin == Granted(id)
       case RateQ(app) =>
         && f.told.app.Granted? && app == f.told.app.data.applicationId && !AppSkipped(g.table, f.req, f.told)
       case DailyQ(app) =>
         && f.told.app.Granted? && app == f.told.app.data.applicationId && !AppSkipped(g.table, f.req, f.told)
  }

  lemma CallConcerns(f: Flight, g: Generation, j: nat, q: Query)
    requires j < |f.Chain()| && CallOf(f, g, j) == Some(q)
    ensures Concerns(g, f, q)
  {
    if !f.skipAuth {
      var m := AUTH_CHAIN[j];
      assert j >= 3;
      OrderInvariant(j, g.table, f.req, f.told);
      TokenShown(f.req);
      hide FirstToken, WalkTo, AppToken, Presents;
      assert m == UserAuthenticate ==> j == 3;
      assert m == Authenticate ==> j == 4;
      assert m == Authorize || m == AdminAuthorize || m == Throttling || m == DailyLimit ==> j > 6;
    }
  }

  /** In every run a request is the subject of no other call, hit or fill than these. */
  lemma OnlyItsOwnQuestions(run: seq<Label>, i: nat)
    requires i < |Exec(run).log|
    ensures var s := Exec(run);
            match s.log[i]
            case Asked(r, q, _, _) =>
              && r < |s.flights| && s.flights[r].gen < |s.gens|
              && var g := s.gens[s.flights[r].gen];
                 && Concerns(g, s.flights[r], q) && !q.DailyQ?
                 && (q.RateQ? ==> Listed(g.remote.throttling, q.applicationId))
            case Hit(r, c, q, _, _, gen, m) =>
              && r < |s.flights| && gen == s.flights[r].gen < |s.gens| && m == s.flights[r].req.meta.moduleName
              && Concerns(s.gens[gen], s.flights[r], q) && exists life :: KeptIn(s.gens[gen], gen, m, q, c, life)
            case Filled(r, c, q, _, _, life, gen, m) =>
              && r < |s.flights| && gen == s.flights[r].gen < |s.gens| && m == s.flights[r].req.meta.moduleName
              && Concerns(s.gens[gen], s.flights[r], q) && KeptIn(s.gens[gen], gen, m, q, c, life)
            case _ => true
  {
    CallsAreOwn(run);
    var s := Exec(run);
    hide Exec, KeptIn, Concerns, ChainFor, Need, WalkTo, LimitsOf, Listed;
    var e := s.log[i];
    assert OwnEvent(s.gens, s.flights, e);
    if e.Asked? || e.Hit? || e.Filled? {
      OwnCallConcerns(s.gens, s.flights[e.r], e.q);
      if e.Asked? && e.q.RateQ? {
        UnlistedUnlimited(s.gens[s.flights[e.r].gen].remote.throttling, e.q.applicationId);
      }
    }
  }

  lemma OwnCallConcerns(gens: seq<Generation>, f: Flight, q: Query)
    requires OwnCall(gens, f, q)
    ensures f.gen < |gens| && Concerns(gens[f.gen], f, q)
  {
    hide ChainFor, Need, Concerns, WalkTo;
    var j :| 0 <= j <= f.at && j < |f.Chain()| && CallOf(f, gens[f.gen], j) == Some(q);
    CallConcerns(f, gens[f.gen], j, q);
  }

  /** A request without a usable application token is refused with 401, and nobody is asked about an application. */
  lemma AnonymousRefused(run: seq<Label>, r: nat)
    requires var s := Exec(run); r < |s.flights| && s.flights[r].reply.Some? && !s.flights[r].skipAuth
    requires var f := Exec(run).flights[r]; f.told.bodyRead && Anonymous(f.req)
    ensures var s := Exec(run); var f := s.flights[r];
            && f.gen < |s.gens|
            && var g := s.gens[f.gen];
               !AppSkipped(g.table, f.req, f.told)
               && (f.req.meta.userAuthRequired ==> UserToken(g.table, f.req).Ok? && f.told.user.Granted?) ==>
                 && f.reply.value == Reply(None, [401], 0)
                 && forall i | 0 <= i < |s.log| && (s.log[i].Asked? || s.log[i].Hit?) && s.log[i].r == r ::
                      !s.log[i].q.AppQ?
  {
    AnsweredByPolicy(run, r);
    var s := Exec(run);
    hide Exec, FirstToken, KeptIn, Listed;
    forall i | 0 <= i < |s.log| && (s.log[i].Asked? || s.log[i].Hit?) && s.log[i].r == r ensures !s.log[i].q.AppQ? {
      OnlyItsOwnQuestions(run, i);
    }
  }

  /**
   A cached question: a live latest fill answers it at once and nobody is asked; otherwise the authority is
   asked next.
   */
  lemma AskedOnlyOnMiss(run: seq<Label>, r: nat, q: Query, env: Env, c: CacheId, life: int)
    requires AboutToCall(Exec(run), r, q)
    requires var s := Exec(run); var f := s.flights[r];
             KeptIn(s.gens[f.gen], f.gen, f.req.meta.moduleName, q, c, life)
    ensures var s := Exec(run);
            var f, s' := s.flights[r], Apply(s, Advance(r, env));
            var last := LastFill(s.log, c, KeyOf(q));
            if last.Some? && s.now <= s.log[last.value].at + s.log[last.value].life then
              s'.flights[r] == Conclude(f, s.gens[f.gen].table, Tell(f.told, q, Granted(s.log[last.value].d)))
            else s'.flights[r] == f.(phase := Asking(q))
  {
    var s := Exec(run);
    CachesRefineLog(run, c, KeyOf(q), s.now);
    hide Exec, LastFill, Lookup, KeyOf, KeptIn, Conclude, Tell, ChainFor, Apply, Need;
    var hit := Lookup(StoreOf(s, c), KeyOf(q), s.now);
    if hit.Some? {
      BeginHits(s, r, q, env, c, life, hit.value);
    } else {
      BeginMisses(s, r, q, env, c, life);
    }
  }
}
