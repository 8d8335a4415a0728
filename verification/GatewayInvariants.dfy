/** What every reachable state of the gateway satisfies. */
module GatewayInvariants {
  import opened Wrappers
  import opened Domain
  import opened Caching
  import opened Keys
  import opened Settings
  import opened Request
  import opened Pipeline
  import opened PipelineTheorems
  import opened Gateway

  // ---------------------------------------------------------------- what the log shows

  /** The authority gave this request this answer. */
  ghost predicate HasAsked(log: seq<Event>, r: nat, q: Query, a: Answer<Data>) {
    exists i | 0 <= i < |log| :: log[i].Asked? && log[i].r == r && log[i].q == q && log[i].a == a
  }

  /** This request was granted this before position n, no later than `at`. */
  ghost predicate GrantedBefore(log: seq<Event>, n: nat, r: nat, q: Query, d: Data, at: int)
    requires n <= |log|
  {
    exists i | 0 <= i < n ::
      log[i].Asked? && log[i].r == r && log[i].q == q && log[i].a == Granted(d) && log[i].at <= at
  }

  predicate IsFill(e: Event, c: CacheId, key: string) { e.Filled? && e.c == c && KeyOf(e.q) == key }

  /** Where the log last shows this cache filled under this key. */
  function LastFill(log: seq<Event>, c: CacheId, key: string): (i: Option<nat>)
    ensures i.Some? ==> i.value < |log| && IsFill(log[i.value], c, key)
    ensures forall j | (if i.Some? then i.value else -1) < j < |log| :: !IsFill(log[j], c, key)
  {
    if log == [] then None
    else if IsFill(log[|log| - 1], c, key) then Some(|log| - 1)
    else LastFill(log[..|log| - 1], c, key)
  }

  /** The latest fill before position n under this key stored this, and its lifetime has not run out at `at`. */
  ghost predicate LiveFillBefore(log: seq<Event>, n: nat, c: CacheId, key: string, d: Data, at: int)
    requires n <= |log|
  {
    var j := LastFill(log[..n], c, key);
    && j.Some? && log[..n][j.value].d == d
    && log[..n][j.value].at <= at <= log[..n][j.value].at + log[..n][j.value].life
  }

  ghost predicate HasHit(log: seq<Event>, r: nat, q: Query, d: Data, gen: nat, m: string) {
    exists i | 0 <= i < |log| ::
      log[i].Hit? && log[i].r == r && log[i].q == q && log[i].d == d && log[i].gen == gen && log[i].moduleName == m
  }

  ghost predicate HasCounted(log: seq<Event>, r: nat, app: int, limit: int, within: bool) {
    exists i | 0 <= i < |log| ::
      log[i].Counted? && log[i].r == r && log[i].app == app && log[i].limit == limit && log[i].replied
      && (log[i].value <= limit) == within
  }

  function CountFor(log: seq<Event>, app: int, date: Date): nat {
    if log == [] then 0
    else
      var e := log[|log| - 1];
      CountFor(log[..|log| - 1], app, date) + if e.Counted? && e.app == app && e.date == date then 1 else 0
  }

  function ProxiedCount(log: seq<Event>, r: nat): nat {
    if log == [] then 0
    else ProxiedCount(log[..|log| - 1], r) + if log[|log| - 1] == Proxied(r) then 1 else 0
  }

  /** The query is one this module's configuration can ask. */
  predicate Askable(g: Generation, m: string, q: Query) {
    match q
    case UserQ(endpoint, _) => m in g.table && g.table[m].endpoint == endpoint
    case AuthorizeQ(_, httpMethod, _) => ' ' !in httpMethod
    case _ => true
  }

  /** An event is backed by the events before it. */
  ghost predicate EventOk(log: seq<Event>, gens: seq<Generation>, i: nat)
    requires i < |log|
  {
    match log[i]
    case Asked(_, q, a, _) => a.Granted? ==> Fits(q, a.data)
    case Filled(r, c, q, d, at, life, gen, m) =>
      && gen < |gens| && UsesCache(gens[gen], m, q) && Askable(gens[gen], m, q)
      && CacheOf(q, gen) == Some(c) && life == LifeOf(gens[gen], m, q)
      && Fits(q, d) && GrantedBefore(log, i, r, q, d, at)
    case Hit(_, c, q, d, at, gen, m) =>
      && gen < |gens| && UsesCache(gens[gen], m, q) && Askable(gens[gen], m, q)
      && CacheOf(q, gen) == Some(c) && Fits(q, d) && LiveFillBefore(log, i, c, KeyOf(q), d, at)
    case Counted(_, app, date, value, _, _) => value == CountFor(log[..i], app, date) + 1
    case Proxied(_) => true
  }

  predicate NotAfter(e: Event, now: int) {
    match e
    case Asked(_, _, _, at) => at <= now
    case Filled(_, _, _, _, at, _, _, _) => at <= now
    case Hit(_, _, _, _, at, _, _) => at <= now
    case _ => true
  }

  ghost predicate LogOk(log: seq<Event>, gens: seq<Generation>, now: int) {
    forall i | 0 <= i < |log| :: EventOk(log, gens, i) && NotAfter(log[i], now)
  }

  // ---------------------------------------------------------------- caches and counters

  /** Under each key a cache holds what its latest fill stored, or nothing once that has expired. */
  predicate SlotOk(log: seq<Event>, c: CacheId, k: string, store: Store<Data>, now: int) {
    match LastFill(log, c, k)
    case None => k !in store
    case Some(i) =>
      if k in store then store[k] == Item(log[i].d, log[i].at + log[i].life) else log[i].at + log[i].life < now
  }

  ghost predicate CachesOk(log: seq<Event>, caches: map<CacheId, Store<Data>>, now: int) {
    forall c, k :: SlotOk(log, c, k, Stored(caches, c), now)
  }

  ghost predicate CountersOk(s: State) {
    forall app, date :: Counter(s, DailyKey(app, date)) == CountFor(s.log, app, date)
  }

  // ---------------------------------------------------------------- requests

  ghost predicate SupportedDaily(log: seq<Event>, g: Generation, r: nat, app: int, a: Answer<Data>) {
    match a
    case Failed => true
    case Granted(_) => app in g.Limits() ==> HasCounted(log, r, app, g.Limits()[app], true)
    case Denied => app in g.Limits() && HasCounted(log, r, app, g.Limits()[app], false)
  }

  /** A positive answer was given to this request or found in a cache; a negative one was given to this request. */
  ghost predicate Supported(log: seq<Event>, g: Generation, gen: nat, m: string, r: nat, q: Query, a: Answer<Data>) {
    if q.DailyQ? then SupportedDaily(log, g, r, q.applicationId, a)
    else if !Consulted(g, q) then a == Granted(Yes)
    else
      match a
      case Failed => true
      case Denied => HasAsked(log, r, q, Denied)
      case Granted(d) => HasAsked(log, r, q, a) || HasHit(log, r, q, d, gen, m)
  }

  function Walk(f: Flight, g: Generation, j: nat): Decision
    requires j <= |f.Chain()|
  {
    WalkTo(f.Chain(), j, g.table, f.req, f.told)
  }

  /** The call made by middleware j, if it was reached and made one. */
  function CallOf(f: Flight, g: Generation, j: nat): Option<Query>
    requires j < |f.Chain()|
  {
    if Walk(f, g, j).Pass? then Need(f.Chain()[j], g.table, f.req, Walk(f, g, j).ctx) else None
  }

  ghost predicate AnswerOk(log: seq<Event>, g: Generation, r: nat, f: Flight, j: nat)
    requires j < |f.Chain()|
  {
    CallOf(f, g, j).Some? ==>
      Supported(log, g, f.gen, f.req.meta.moduleName, r, CallOf(f, g, j).value, Told(f.told, CallOf(f, g, j).value))
  }

  ghost predicate PhaseOk(log: seq<Event>, g: Generation, r: nat, f: Flight) {
    match f.phase
    case Start => true
    case Asking(q) => f.at < |f.Chain()| && Need(f.Chain()[f.at], g.table, f.req, f.ctx) == Some(q)
    case Filling(q, d) =>
      && f.at < |f.Chain()| && Need(f.Chain()[f.at], g.table, f.req, f.ctx) == Some(q)
      && UsesCache(g, f.req.meta.moduleName, q) && Fits(q, d) && HasAsked(log, r, q, Granted(d))
  }

  /** What the request carries is what it carried at its present place, or one before it was stopped. */
  ghost predicate OnTheWay(f: Flight, g: Generation)
    requires f.at <= |f.Chain()|
  {
    exists n: nat | f.at - 1 <= n <= f.at :: Walk(f, g, n) == Pass(f.ctx)
  }

  ghost predicate FlightOk(log: seq<Event>, gens: seq<Generation>, r: nat, f: Flight) {
    && f.gen < |gens|
    && ' ' !in f.req.httpMethod
    && f.at <= |f.Chain()|
    && var g := gens[f.gen];
       && (forall j | 0 <= j < f.at :: AnswerOk(log, g, r, f, j))
       && match f.reply
          case None => Walk(f, g, f.at) == Pass(f.ctx) && PhaseOk(log, g, r, f)
          case Some(reply) =>
            reply == Handle(Compose(f.Chain(), Proxy), g.table, f.req, ANONYMOUS, f.told) && OnTheWay(f, g)
  }

  function Passes(f: Flight): nat { if f.reply.Some? then f.reply.value.proxied else 0 }

  ghost predicate FlightsOk(log: seq<Event>, gens: seq<Generation>, flights: seq<Flight>) {
    forall r | 0 <= r < |flights| :: FlightOk(log, gens, r, flights[r])
  }

  ghost predicate ProxyOk(log: seq<Event>, flights: seq<Flight>) {
    && (forall r | 0 <= r < |flights| :: ProxiedCount(log, r) == Passes(flights[r]))
    && (forall r: nat | r >= |flights| :: ProxiedCount(log, r) == 0)
  }

  ghost predicate GensOk(gens: seq<Generation>) {
    forall i | 0 <= i < |gens| ::
      WellFormed(gens[i].remote.customAuth) && IsTable(gens[i].remote.customAuth, gens[i].table)
  }

  ghost predicate Inv(s: State) {
    && GensOk(s.gens)
    && LogOk(s.log, s.gens, s.now)
    && CachesOk(s.log, s.caches, s.now)
    && CountersOk(s)
    && FlightsOk(s.log, s.gens, s.flights)
    && ProxyOk(s.log, s.flights)
  }

  /** No configured authenticate endpoint, of any generation, continues this one at a colon or the other way round. */
  ghost predicate Distinct(gens: seq<Generation>, q: Query) {
    q.UserQ? ==>
      forall i, m | 0 <= i < |gens| && m in gens[i].table :: Separate(q.endpoint, gens[i].table[m].endpoint)
  }

  // ---------------------------------------------------------------- growing logs

  lemma EventStable(log: seq<Event>, log': seq<Event>, gens: seq<Generation>, gens': seq<Generation>, i: nat)
    requires log <= log' && gens <= gens' && i < |log| && EventOk(log, gens, i)
    ensures EventOk(log', gens', i)
  {
    assert log'[..i] == log[..i];
    match log[i]
    case Filled(r, _, q, d, at, _, _, _) =>
      var k :| 0 <= k < i && log[k].Asked? && log[k].r == r && log[k].q == q && log[k].a == Granted(d)
               && log[k].at <= at;
      assert log'[k] == log[k];
    case _ =>
  }

  lemma LogGrows(log: seq<Event>, gens: seq<Generation>, now: int, e: Event)
    requires LogOk(log, gens, now) && EventOk(log + [e], gens, |log|) && NotAfter(e, now)
    ensures LogOk(log + [e], gens, now)
  {
    forall i | 0 <= i < |log| ensures EventOk(log + [e], gens, i) {
      EventStable(log, log + [e], gens, gens, i);
    }
  }

  lemma SupportedStable(
    log: seq<Event>, log': seq<Event>, g: Generation, gen: nat, m: string, r: nat, q: Query, a: Answer<Data>)
    requires log <= log' && Supported(log, g, gen, m, r, q, a)
    ensures Supported(log', g, gen, m, r, q, a)
  {
    assert forall i | 0 <= i < |log| :: log'[i] == log[i];
  }

  lemma FlightStable(
    log: seq<Event>, log': seq<Event>, gens: seq<Generation>, gens': seq<Generation>, r: nat, f: Flight)
    requires log <= log' && gens <= gens' && FlightOk(log, gens, r, f)
    ensures FlightOk(log', gens', r, f)
  {
    hide ChainFor, Supported, Need, WalkTo, Handle, Compose;
    var g := gens[f.gen];
    assert gens'[f.gen] == g;
    forall j | 0 <= j < f.at ensures AnswerOk(log', g, r, f, j) {
      if CallOf(f, g, j).Some? {
        var q := CallOf(f, g, j).value;
        assert AnswerOk(log, g, r, f, j);
        SupportedStable(log, log', g, f.gen, f.req.meta.moduleName, r, q, Told(f.told, q));
      }
    }
    assert forall i | 0 <= i < |log| :: log'[i] == log[i];
  }

  lemma LastFillAppend(log: seq<Event>, e: Event, c: CacheId, k: string)
    ensures LastFill(log + [e], c, k) == if IsFill(e, c, k) then Some(|log|) else LastFill(log, c, k)
  {
    assert (log + [e])[..|log|] == log;
  }

  /** Events other than fills leave every slot as it is. */
  lemma CachesStable(log: seq<Event>, e: Event, caches: map<CacheId, Store<Data>>, now: int)
    requires CachesOk(log, caches, now) && !e.Filled?
    ensures CachesOk(log + [e], caches, now)
  {
    forall c, k ensures SlotOk(log + [e], c, k, Stored(caches, c), now) {
      assert SlotOk(log, c, k, Stored(caches, c), now);
      LastFillAppend(log, e, c, k);
    }
  }

  lemma CountsAppend(log: seq<Event>, e: Event, app: int, date: Date, r: nat)
    ensures CountFor(log + [e], app, date)
            == CountFor(log, app, date) + if e.Counted? && e.app == app && e.date == date then 1 else 0
    ensures ProxiedCount(log + [e], r) == ProxiedCount(log, r) + if e == Proxied(r) then 1 else 0
  {
    assert (log + [e])[..|log|] == log;
  }

  // ---------------------------------------------------------------- telling

  /** The verdicts agree on what this middleware is told. */
  predicate Agree(m: Middleware, v: Verdicts, v': Verdicts) {
    match m
    case Logger => v.bodyRead == v'.bodyRead
    case UserAuthenticate => v.user == v'.user
    case Authenticate => v.app == v'.app
    case AdminAuthenticate => v.admin == v'.admin
    case Authorize => v.authorized == v'.authorized
    case AdminAuthorize => v.permitted == v'.permitted
    case Throttling => v.rate == v'.rate
    case DailyLimit => v.daily == v'.daily
    case _ => true
  }

  predicate AgreeBefore(chain: seq<Middleware>, n: nat, v: Verdicts, v': Verdicts)
    requires n <= |chain|
  {
    forall j | 0 <= j < n :: Agree(chain[j], v, v')
  }

  lemma NeedOwner(m: Middleware, table: Table, req: Input, ctx: Ctx, q: Query)
    requires Need(m, table, req, ctx) == Some(q)
    ensures OwnerOfQuery(q) == m
    ensures q.UserQ? ==> req.meta.moduleName in table && table[req.meta.moduleName].endpoint == q.endpoint
    ensures q.AuthorizeQ? ==> q.httpMethod == req.httpMethod
  {
  }

  lemma AgreeTells(m: Middleware, v: Verdicts, v': Verdicts, q: Query)
    requires Agree(m, v, v') && OwnerOfQuery(q) == m
    ensures Told(v, q) == Told(v', q)
  {
  }

  lemma TellAgrees(chain: seq<Middleware>, n: nat, v: Verdicts, q: Query, a: Answer<Data>)
    requires n < |chain| && chain[n] == OwnerOfQuery(q) && (chain == AUTH_CHAIN || chain == SKIP_AUTH_CHAIN)
    ensures AgreeBefore(chain, n, v, Tell(v, q, a))
  {
    forall j | 0 <= j < n ensures Agree(chain[j], v, Tell(v, q, a)) {
      assert chain[j] != chain[n];
    }
  }

  lemma ToldIsTold(v: Verdicts, q: Query, a: Answer<Data>)
    requires a.Granted? ==> Fits(q, a.data)
    ensures Told(Tell(v, q, a), q) == a
  {
  }

  lemma {:induction false} WalkAgrees(
    chain: seq<Middleware>, n: nat, table: Table, req: Input, v: Verdicts, v': Verdicts)
    requires n <= |chain| && AgreeBefore(chain, n, v, v')
    ensures WalkTo(chain, n, table, req, v) == WalkTo(chain, n, table, req, v')
  {
    if n > 0 {
      WalkAgrees(chain, n - 1, table, req, v, v');
      assert Agree(chain[n - 1], v, v');
    }
  }

  /** Earlier middlewares keep their answers when a later one is told something. */
  lemma AnswersKept(log: seq<Event>, g: Generation, r: nat, f: Flight, told: Verdicts, j: nat)
    requires f.at <= |f.Chain()| && AgreeBefore(f.Chain(), f.at, f.told, told) && j < f.at && AnswerOk(log, g, r, f, j)
    ensures AnswerOk(log, g, r, f.(told := told), j)
  {
    WalkAgrees(f.Chain(), j, g.table, f.req, f.told, told);
    if CallOf(f, g, j).Some? {
      NeedOwner(f.Chain()[j], g.table, f.req, Walk(f, g, j).ctx, CallOf(f, g, j).value);
      AgreeTells(f.Chain()[j], f.told, told, CallOf(f, g, j).value);
    }
  }

  lemma AnswerSame(log: seq<Event>, g: Generation, r: nat, f: Flight, f': Flight, j: nat)
    requires f.req == f'.req && f.skipAuth == f'.skipAuth && f.gen == f'.gen && f.told == f'.told
    requires j < |f.Chain()| && AnswerOk(log, g, r, f, j)
    ensures AnswerOk(log, g, r, f', j)
  {
  }

  lemma AllAnswersKept(log: seq<Event>, gens: seq<Generation>, r: nat, f: Flight, told: Verdicts)
    requires FlightOk(log, gens, r, f) && f.reply.None? && f.at < |f.Chain()|
    requires AgreeBefore(f.Chain(), f.at, f.told, told)
    requires var g, need := gens[f.gen], Need(f.Chain()[f.at], gens[f.gen].table, f.req, f.ctx);
             need.Some? ==> Supported(log, g, f.gen, f.req.meta.moduleName, r, need.value, Told(told, need.value))
    ensures Walk(f.(told := told), gens[f.gen], f.at) == Pass(f.ctx)
    ensures forall j | 0 <= j <= f.at :: AnswerOk(log, gens[f.gen], r, f.(told := told), j)
  {
    hide ChainFor;
    var g := gens[f.gen];
    WalkAgrees(f.Chain(), f.at, g.table, f.req, f.told, told);
    forall j | 0 <= j < f.at ensures AnswerOk(log, g, r, f.(told := told), j) {
      AnswersKept(log, g, r, f, told, j);
    }
  }

  lemma StoppedReply(chain: seq<Middleware>, n: nat, table: Table, req: Input, ctx: Ctx, told: Verdicts, e: Error)
    requires n < |chain| && WalkTo(chain, n, table, req, told) == Pass(ctx)
    requires chain[n] != ErrorHandler && Decide(chain[n], table, req, ctx, told) == Stop(e)
    ensures var reply := Unwind(chain, n, Refuse(e));
            reply == Handle(Compose(chain, Proxy), table, req, ANONYMOUS, told) && reply.proxied == 0
  {
    HandleUnwinds(chain, n, table, req, told);
    HandleStep(chain, n, table, req, ctx, told);
    UnwindKeepsProxied(chain, n, Refuse(e));
  }

  lemma WalkedOn(f: Flight, f': Flight, g: Generation, told: Verdicts)
    requires f.at < |f.Chain()| && Walk(f.(told := told), g, f.at) == Pass(f.ctx)
    requires f' == Conclude(f, g.table, told) && f'.reply.None? && f.reply.None?
    ensures f'.phase == Start && Walk(f', g, f'.at) == Pass(f'.ctx)
  {
  }

  lemma AnswersConcluded(log: seq<Event>, g: Generation, r: nat, f: Flight, f': Flight, told: Verdicts)
    requires f.at < |f.Chain()| && f' == Conclude(f, g.table, told)
    requires forall j | 0 <= j <= f.at :: AnswerOk(log, g, r, f.(told := told), j)
    ensures f'.at == f.at + 1 && forall j | 0 <= j < f'.at :: AnswerOk(log, g, r, f', j)
  {
    hide AnswerOk, Decide, Unwind;
    forall j | 0 <= j < f'.at ensures AnswerOk(log, g, r, f', j) {
      AnswerSame(log, g, r, f.(told := told), f', j);
    }
  }

  lemma StopConcludes(f: Flight, f': Flight, g: Generation, told: Verdicts)
    requires f.at < |f.Chain()| && Walk(f.(told := told), g, f.at) == Pass(f.ctx)
    requires f' == Conclude(f, g.table, told) && f'.reply.Some? && f.reply.None?
    ensures f'.reply.value == Handle(Compose(f.Chain(), Proxy), g.table, f.req, ANONYMOUS, told) && Passes(f') == 0
    ensures f'.at == f.at + 1 && OnTheWay(f', g)
  {
    var d := Decide(f.Chain()[f.at], g.table, f.req, f.ctx, told);
    assert d.Stop? && f.Chain()[f.at] != ErrorHandler;
    hide Decide, Handle, Compose, Unwind, WalkTo, ChainFor;
    StoppedReply(f.Chain(), f.at, g.table, f.req, f.ctx, told, d.error);
    assert Walk(f', g, f.at) == Pass(f'.ctx);
  }

  lemma ConcludeKeeps(f: Flight, table: Table, told: Verdicts)
    requires f.at < |f.Chain()| && f.reply.None?
    ensures var f' := Conclude(f, table, told);
            f'.gen == f.gen && f'.req == f.req && f'.skipAuth == f.skipAuth && f'.told == told && f'.at == f.at + 1
  {
    hide Decide, Unwind;
  }

  /** Deciding keeps a request consistent, whether it passes or is answered. */
  lemma ConcludeOk(log: seq<Event>, gens: seq<Generation>, r: nat, f: Flight, told: Verdicts)
    requires FlightOk(log, gens, r, f) && f.reply.None? && f.at < |f.Chain()|
    requires AgreeBefore(f.Chain(), f.at, f.told, told)
    requires var g, need := gens[f.gen], Need(f.Chain()[f.at], gens[f.gen].table, f.req, f.ctx);
             need.Some? ==> Supported(log, g, f.gen, f.req.meta.moduleName, r, need.value, Told(told, need.value))
    ensures FlightOk(log, gens, r, Conclude(f, gens[f.gen].table, told))
    ensures Passes(Conclude(f, gens[f.gen].table, told)) == 0
  {
    hide ChainFor, Supported, Told, Need, Handle, Compose, AgreeBefore, AnswerOk, WalkTo, Conclude, Decide;
    var g := gens[f.gen];
    var f' := Conclude(f, g.table, told);
    AllAnswersKept(log, gens, r, f, told);
    AnswersConcluded(log, g, r, f, f', told);
    ConcludeKeeps(f, g.table, told);
    if f'.reply.Some? {
      StopConcludes(f, f', g, told);
    } else {
      WalkedOn(f, f', g, told);
    }
  }

  lemma {:induction false} UnwindKeepsProxied(chain: seq<Middleware>, n: nat, reply: Reply)
    requires n <= |chain|
    ensures Unwind(chain, n, reply).proxied == reply.proxied
  {
    if n > 0 {
      UnwindKeepsProxied(chain, n - 1, if chain[n - 1] == ErrorHandler then Absorb(reply) else reply);
    }
  }
}
