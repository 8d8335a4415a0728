/** The daily limit over whole runs: who is counted, once, and how many pass. */
module GatewayQuota {
  import opened Wrappers
  import opened Domain
  import opened Caching
  import opened Keys
  import opened Settings
  import opened DailyLimits
  import opened Pipeline
  import opened PipelineTheorems
  import opened Gateway
  import opened GatewayInvariants
  import opened GatewaySteps

  // ---------------------------------------------------------------- arithmetic of the counter

  predicate IsFor(e: Event, app: int, date: Date) { e.Counted? && e.app == app && e.date == date }

  function One(b: bool): nat { if b then 1 else 0 }

  /** Counted requests that were told they are within the limit. */
  function Passed(log: seq<Event>, app: int, date: Date): nat {
    if log == [] then 0
    else
      var e := log[|log| - 1];
      Passed(log[..|log| - 1], app, date) + One(IsFor(e, app, date) && e.replied && e.value <= e.limit)
  }

  /** Counted requests that were told they exceed the limit. */
  function Refused(log: seq<Event>, app: int, date: Date): nat {
    if log == [] then 0
    else
      var e := log[|log| - 1];
      Refused(log[..|log| - 1], app, date) + One(IsFor(e, app, date) && e.replied && e.value > e.limit)
  }

  /** Counted requests the reply to which was lost. */
  function Lost(log: seq<Event>, app: int, date: Date): nat {
    if log == [] then 0
    else
      var e := log[|log| - 1];
      Lost(log[..|log| - 1], app, date) + One(IsFor(e, app, date) && !e.replied)
  }

  function Min(a: int, b: int): int { if a <= b then a else b }

  function Max(a: int, b: int): int { if a >= b then a else b }

  /** Each count is the next number. */
  predicate Numbered(log: seq<Event>, app: int, date: Date) {
    forall i | 0 <= i < |log| && IsFor(log[i], app, date) :: log[i].value == CountFor(log[..i], app, date) + 1
  }

  predicate FixedLimit(log: seq<Event>, app: int, date: Date, limit: int) {
    forall i | 0 <= i < |log| && IsFor(log[i], app, date) :: log[i].limit == limit
  }

  lemma {:induction false} Tally(log: seq<Event>, app: int, date: Date, limit: int)
    requires Numbered(log, app, date) && FixedLimit(log, app, date, limit)
    ensures var n := CountFor(log, app, date);
            && n == Passed(log, app, date) + Refused(log, app, date) + Lost(log, app, date)
            && Passed(log, app, date) <= Min(n, Max(limit, 0)) <= Passed(log, app, date) + Lost(log, app, date)
  {
    if log != [] {
      var before := log[..|log| - 1];
      assert forall i | 0 <= i < |before| :: before[..i] == log[..i] && before[i] == log[i];
      Tally(before, app, date, limit);
    }
  }

  // ---------------------------------------------------------------- every request is counted at most once

  const DAILY_AT := 10

  /**
   The counted request got past every earlier gate, under a configuration whose last daily limit for the
   application is the one counted against, and was told exactly what its count says.
   */
  ghost predicate CountedFlight(gens: seq<Generation>, f: Flight, e: Event)
    requires e.Counted?
  {
    && !f.skipAuth && f.gen < |gens| && DAILY_AT < f.at <= |AUTH_CHAIN|
    && CallOf(f, gens[f.gen], DAILY_AT) == Some(DailyQ(e.app))
    && LastEntry(gens[f.gen].remote.dailyLimits, e.app, e.limit)
    && f.told.daily == (if !e.replied then Failed else if e.value <= e.limit then Granted(()) else Denied)
  }

  ghost predicate CountedOnce(log: seq<Event>) {
    forall i, j | 0 <= i < j < |log| && log[i].Counted? && log[j].Counted? :: log[i].r != log[j].r
  }

  ghost predicate DayOk(s: State) {
    && CountedOnce(s.log)
    && forall i | 0 <= i < |s.log| && s.log[i].Counted? ::
         s.log[i].r < |s.flights| && CountedFlight(s.gens, s.flights[s.log[i].r], s.log[i])
  }

  ghost predicate KeepsRequest(f: Flight, f': Flight) {
    f'.req == f.req && f'.skipAuth == f.skipAuth && f'.gen == f.gen && f.at <= f'.at <= |f.Chain()|
  }

  /** The request moves on without rewriting what it was told up to the daily limit. */
  ghost predicate MovesOn(f: Flight, f': Flight) {
    && KeepsRequest(f, f')
    && (!f.skipAuth && f.at > DAILY_AT ==> AgreeBefore(AUTH_CHAIN, DAILY_AT + 1, f.told, f'.told))
  }

  lemma CountedMovesOn(gens: seq<Generation>, gens': seq<Generation>, f: Flight, f': Flight, e: Event)
    requires e.Counted? && gens <= gens' && CountedFlight(gens, f, e) && MovesOn(f, f')
    ensures CountedFlight(gens', f', e)
  {
    var g := gens[f.gen];
    assert gens'[f.gen] == g;
    hide DayAnswer, LimitsOf;
    WalkAgrees(AUTH_CHAIN, DAILY_AT, g.table, f.req, f.told, f'.told);
    assert Agree(AUTH_CHAIN[DAILY_AT], f.told, f'.told);
    AgreeTells(DailyLimit, f.told, f'.told, DailyQ(e.app));
  }

  lemma DayStays(s: State, s': State)
    requires DayOk(s) && s.gens <= s'.gens && s.log <= s'.log && |s.flights| <= |s'.flights|
    requires forall r | 0 <= r < |s.flights| :: MovesOn(s.flights[r], s'.flights[r])
    requires forall i | |s.log| <= i < |s'.log| :: !s'.log[i].Counted?
    ensures DayOk(s')
  {
    hide CountedFlight, MovesOn;
    forall i | 0 <= i < |s'.log| && s'.log[i].Counted?
      ensures s'.log[i].r < |s'.flights| && CountedFlight(s'.gens, s'.flights[s'.log[i].r], s'.log[i])
    {
      assert s'.log[i] == s.log[i];
      var r := s.log[i].r;
      CountedMovesOn(s.gens, s'.gens, s.flights[r], s'.flights[r], s.log[i]);
    }
  }

  lemma DayGrows(s: State, s': State, r: nat, e: Event)
    requires DayOk(s) && s.gens == s'.gens && s'.log == s.log + [e] && e.Counted? && e.r == r
    requires r < |s.flights| == |s'.flights| && s.flights[r].at <= DAILY_AT
    requires forall k | 0 <= k < |s.flights| && k != r :: s'.flights[k] == s.flights[k]
    requires CountedFlight(s.gens, s'.flights[r], e)
    ensures DayOk(s')
  {
    forall i | 0 <= i < |s.log| && s.log[i].Counted? ensures s.log[i].r != r && s'.log[i] == s.log[i] {
      assert CountedFlight(s.gens, s.flights[s.log[i].r], s.log[i]);
    }
  }

  // ---------------------------------------------------------------- every step keeps it

  lemma ConcludeKeepsRequest(f: Flight, table: Table)
    requires f.at < |f.Chain()| && f.reply.None?
    ensures forall told :: KeepsRequest(f, Conclude(f, table, told))
  {
    hide ChainFor, Conclude;
    forall told ensures KeepsRequest(f, Conclude(f, table, told)) {
      ConcludeKeeps(f, table, told);
    }
  }

  /** A step of one request touches no other request, and logs a count only when it counts. */
  lemma AdvanceShape(s: State, r: nat, env: Env)
    requires r < |s.flights| && s.flights[r].gen < |s.gens| && s.flights[r].reply.None?
    requires s.flights[r].at <= |s.flights[r].Chain()|
    requires !(s.flights[r].phase.Asking? && s.flights[r].phase.q.DailyQ?)
    ensures var s' := AdvanceFlight(s, r, env);
            && s'.gens == s.gens && |s'.flights| == |s.flights|
            && (forall k | 0 <= k < |s.flights| && k != r :: s'.flights[k] == s.flights[k])
            && KeepsRequest(s.flights[r], s'.flights[r])
            && s.log <= s'.log && forall i | |s.log| <= i < |s'.log| :: !s'.log[i].Counted?
  {
    hide ChainFor, Conclude, Tell, KeyOf, CacheOf, LifeOf, UsesCache, Unwind, Forward, Need, Lookup, Typed,
         Put, StoreOf, CountDay, Consulted;
    var f := s.flights[r];
    if f.at < |f.Chain()| {
      ConcludeKeepsRequest(f, s.gens[f.gen].table);
    }
  }

  /** Past the daily limit only Metrics and the proxy are left, and nobody is asked again. */
  lemma LateTold(s: State, r: nat, env: Env)
    requires Inv(s) && r < |s.flights| && s.flights[r].reply.None?
    requires !s.flights[r].skipAuth && s.flights[r].at > DAILY_AT
    ensures var f := s.flights[r];
            && f.gen < |s.gens| && f.phase == Start
            && AgreeBefore(AUTH_CHAIN, DAILY_AT + 1, f.told, AdvanceFlight(s, r, env).flights[r].told)
  {
    var f := s.flights[r];
    assert FlightOk(s.log, s.gens, r, f);
    hide Handle, Compose, WalkTo, Unwind, Begin, Ask, Fill, CountDay, Decide, LogOk, CachesOk, FlightsOk, AnswerOk;
    assert f.at < |AUTH_CHAIN| ==> AUTH_CHAIN[f.at] == Metrics;
  }

  /** The count and the answer of the request being counted. */
  lemma CountedNow(log: seq<Event>, gens: seq<Generation>, r: nat, f: Flight, e: Event)
    requires FlightOk(log, gens, r, f) && f.reply.None? && e.Counted? && f.phase == Asking(DailyQ(e.app))
    requires var limits := gens[f.gen].Limits(); e.app in limits && e.limit == limits[e.app]
    ensures f.at == DAILY_AT && !f.skipAuth
    ensures var told := Tell(f.told, DailyQ(e.app), DayAnswer(e.value, e.limit, e.replied));
            CountedFlight(gens, Conclude(f, gens[f.gen].table, told), e)
  {
    var g, q, a := gens[f.gen], DailyQ(e.app), DayAnswer(e.value, e.limit, e.replied);
    NeedAskable(g, f, q);
    assert f.Chain()[f.at] == DailyLimit;
    assert AUTH_CHAIN[DAILY_AT] == DailyLimit;
    var told := Tell(f.told, q, a);
    TellAgrees(AUTH_CHAIN, DAILY_AT, f.told, q, a);
    WalkAgrees(AUTH_CHAIN, DAILY_AT, g.table, f.req, f.told, told);
    ToldIsTold(f.told, q, a);
    ConcludeKeeps(f, g.table, told);
    LastEntryWins(g.remote.dailyLimits, e.app);
  }

  lemma CountDayShape(s: State, r: nat, app: int, env: Env, limits: map<int, int>, e: Event)
    requires r < |s.flights| && s.flights[r].gen < |s.gens| && s.flights[r].at < |s.flights[r].Chain()|
    requires limits == s.gens[s.flights[r].gen].Limits() && app in limits && !env.lock.NotReached?
    requires e == Counted(r, app, env.date, Counter(s, DailyKey(app, env.date)) + 1, limits[app], env.lock.Replied?)
    ensures var f := s.flights[r];
            var told := Tell(f.told, DailyQ(app), DayAnswer(e.value, e.limit, e.replied));
            var f' := Conclude(f, s.gens[f.gen].table, told);
            var s' := CountDay(s, r, app, env);
            s'.gens == s.gens && s'.log == s.log + [e] && s'.flights == s.flights[r := f']
  {
    hide ChainFor, Conclude, Tell, DayAnswer, DailyKey, LimitsOf, Counter;
  }

  lemma DayCounts(s: State, r: nat, app: int, env: Env)
    requires Inv(s) && DayOk(s)
    requires r < |s.flights| && s.flights[r].reply.None? && s.flights[r].phase == Asking(DailyQ(app))
    requires s.flights[r].gen < |s.gens| && s.flights[r].at < |s.flights[r].Chain()|
    requires app in s.gens[s.flights[r].gen].Limits() && !env.lock.NotReached?
    ensures DayOk(CountDay(s, r, app, env))
  {
    var f := s.flights[r];
    assert FlightOk(s.log, s.gens, r, f);
    hide FlightOk, DailyKey, LimitsOf, DayAnswer, Conclude, Tell, CountedFlight, Inv, DayOk, CountDay, ChainFor;
    var limits := s.gens[f.gen].Limits();
    var e := Counted(r, app, env.date, Counter(s, DailyKey(app, env.date)) + 1, limits[app], env.lock.Replied?);
    CountDayShape(s, r, app, env, limits, e);
    CountedNow(s.log, s.gens, r, f, e);
    DayGrows(s, CountDay(s, r, app, env), r, e);
  }

  /** The counter is not consulted, or does not answer. */
  lemma DaySkips(s: State, r: nat, app: int, env: Env)
    requires Inv(s) && DayOk(s)
    requires r < |s.flights| && s.flights[r].reply.None? && s.flights[r].phase == Asking(DailyQ(app))
    requires s.flights[r].gen < |s.gens| && s.flights[r].at < |s.flights[r].Chain()|
    requires app !in s.gens[s.flights[r].gen].Limits() || env.lock.NotReached?
    ensures DayOk(CountDay(s, r, app, env))
  {
    var f := s.flights[r];
    assert FlightOk(s.log, s.gens, r, f);
    hide FlightOk, LimitsOf, Conclude, Tell, DayOk, AgreeBefore;
    NeedOwner(f.Chain()[f.at], s.gens[f.gen].table, f.req, f.ctx, DailyQ(app));
    assert f.at <= DAILY_AT;
    ConcludeKeepsRequest(f, s.gens[f.gen].table);
    OthersMoveOn(s);
    DayStays(s, CountDay(s, r, app, env));
  }

  lemma OthersMoveOn(s: State)
    requires Inv(s)
    ensures forall k | 0 <= k < |s.flights| :: MovesOn(s.flights[k], s.flights[k])
  {
    hide ChainFor;
    forall k | 0 <= k < |s.flights| ensures MovesOn(s.flights[k], s.flights[k]) {
      assert FlightOk(s.log, s.gens, k, s.flights[k]);
    }
  }

  lemma DayAdvances(s: State, r: nat, env: Env)
    requires Inv(s) && DayOk(s) && r < |s.flights| && s.flights[r].reply.None? && s.flights[r].gen < |s.gens|
    ensures DayOk(AdvanceFlight(s, r, env))
  {
    var f := s.flights[r];
    assert FlightOk(s.log, s.gens, r, f);
    hide Inv, DayOk, CountDay, FlightOk, AdvanceFlight, ChainFor;
    if f.phase.Asking? && f.phase.q.DailyQ? {
      var app := f.phase.q.applicationId;
      assert f.at < |f.Chain()| && AdvanceFlight(s, r, env) == CountDay(s, r, app, env);
      if app in s.gens[f.gen].Limits() && !env.lock.NotReached? {
        DayCounts(s, r, app, env);
      } else {
        DaySkips(s, r, app, env);
      }
    } else {
      AdvanceShape(s, r, env);
      if !f.skipAuth && f.at > DAILY_AT {
        LateTold(s, r, env);
      }
      OthersMoveOn(s);
      DayStays(s, AdvanceFlight(s, r, env));
    }
  }

  lemma DayStep(s: State, l: Label)
    requires Inv(s) && DayOk(s)
    ensures DayOk(Apply(s, l))
  {
    hide Inv, DayOk, AdvanceFlight, Purge, WellFormed, IsTable, MovesOn;
    OthersMoveOn(s);
    if l.Advance? && l.r < |s.flights| && s.flights[l.r].reply.None? && s.flights[l.r].gen < |s.gens| {
      DayAdvances(s, l.r, l.env);
    } else {
      DayStays(s, Apply(s, l));
    }
  }

  /**
   In every run a request is counted at most once, only after it passed every gate before the daily limit,
   and it is told exactly what its count says.
   */
  lemma {:induction false} CountedRequests(run: seq<Label>)
    ensures DayOk(Exec(run))
  {
    if run != [] {
      var s := Exec(run[..|run| - 1]);
      hide DayOk, Inv;
      Reachable(run[..|run| - 1]);
      CountedRequests(run[..|run| - 1]);
      DayStep(s, run[|run| - 1]);
    }
  }

  /** A request refused by an earlier gate never moves the counter. */
  lemma RefusedEarlierNotCounted(run: seq<Label>, r: nat)
    requires var s := Exec(run); r < |s.flights| && (s.flights[r].skipAuth || s.flights[r].at <= DAILY_AT)
    ensures forall i | 0 <= i < |Exec(run).log| && Exec(run).log[i].Counted? :: Exec(run).log[i].r != r
  {
    CountedRequests(run);
    hide Exec;
  }

  // ---------------------------------------------------------------- requests that pass

  ghost predicate CountedOn(log: seq<Event>, r: nat, app: int, date: Date) {
    exists i | 0 <= i < |log| :: IsFor(log[i], app, date) && log[i].r == r
  }

  /** The requests that were counted for the application on this day and told that they may pass. */
  ghost function Admitted(s: State, app: int, date: Date): set<nat> {
    set r: nat |
      && r < |s.flights|
      && CountedOn(s.log, r, app, date)
      && s.flights[r].told.daily.Granted?
  }

  ghost predicate PassedAt(log: seq<Event>, i: nat, r: nat, app: int, date: Date)
    requires i < |log|
  {
    IsFor(log[i], app, date) && log[i].r == r && log[i].replied && log[i].value <= log[i].limit
  }

  /** The requests whose count was within the limit. */
  function Within(log: seq<Event>, app: int, date: Date): set<nat> {
    if log == [] then {}
    else
      var e := log[|log| - 1];
      Within(log[..|log| - 1], app, date)
      + if IsFor(e, app, date) && e.replied && e.value <= e.limit then {e.r} else {}
  }

  lemma {:induction false} WithinEvents(log: seq<Event>, app: int, date: Date)
    ensures forall r :: r in Within(log, app, date) <==> exists i | 0 <= i < |log| :: PassedAt(log, i, r, app, date)
  {
    if log != [] {
      var n := |log| - 1;
      var before := log[..n];
      WithinEvents(before, app, date);
      forall r ensures r in Within(log, app, date) <==> exists i | 0 <= i < |log| :: PassedAt(log, i, r, app, date) {
        assert forall i | 0 <= i < n :: PassedAt(before, i, r, app, date) == PassedAt(log, i, r, app, date);
        assert PassedAt(log, n, r, app, date) ==> r in Within(log, app, date);
      }
    }
  }

  /** No request is counted twice, so the passes are as many as the requests that passed. */
  lemma {:induction false} PassedIsWithin(log: seq<Event>, app: int, date: Date)
    requires CountedOnce(log)
    ensures |Within(log, app, date)| == Passed(log, app, date)
  {
    if log != [] {
      var n := |log| - 1;
      var before := log[..n];
      assert CountedOnce(before) by {
        forall i, j | 0 <= i < j < n && before[i].Counted? && before[j].Counted? ensures before[i].r != before[j].r {
          assert log[i].Counted? && log[j].Counted?;
        }
      }
      PassedIsWithin(before, app, date);
      WithinEvents(before, app, date);
      assert log[n].Counted? ==> log[n].r !in Within(before, app, date);
    }
  }

  lemma AdmittedAreWithin(s: State, app: int, date: Date)
    requires DayOk(s)
    ensures Admitted(s, app, date) == Within(s.log, app, date)
  {
    WithinEvents(s.log, app, date);
    hide Within, Told, CallOf;
    forall r ensures r in Admitted(s, app, date) <==> r in Within(s.log, app, date) {
      if r in Admitted(s, app, date) {
        var i :| 0 <= i < |s.log| && IsFor(s.log[i], app, date) && s.log[i].r == r;
        assert CountedFlight(s.gens, s.flights[s.log[i].r], s.log[i]);
        assert PassedAt(s.log, i, r, app, date);
      }
      if r in Within(s.log, app, date) {
        var i :| 0 <= i < |s.log| && PassedAt(s.log, i, r, app, date);
        assert CountedFlight(s.gens, s.flights[s.log[i].r], s.log[i]);
      }
    }
  }

  /**
   While the limit of an application is not reconfigured, whatever else happens in between: of the n requests
   counted on a day, at most min(n, limit) are admitted, and exactly that many when no reply of the counter is lost.
   */
  lemma QuotaConservation(run: seq<Label>, app: int, date: Date, limit: int)
    requires FixedLimit(Exec(run).log, app, date, limit)
    ensures var s := Exec(run);
            var n := Counter(s, DailyKey(app, date));
            var passed, refused, lost := Passed(s.log, app, date), Refused(s.log, app, date), Lost(s.log, app, date);
            && n == passed + refused + lost && passed == |Admitted(s, app, date)|
            && (forall i | 0 <= i < |s.log| && IsFor(s.log[i], app, date) ::
                  s.log[i].r < |s.flights| && CountedFlight(s.gens, s.flights[s.log[i].r], s.log[i]))
            && passed <= Min(n, Max(limit, 0)) <= passed + lost
  {
    Reachable(run);
    CountedRequests(run);
    hide Exec;
    AdmittedAreWithin(Exec(run), app, date);
    PassedIsWithin(Exec(run).log, app, date);
    hide CountedFlight, Admitted, FlightsOk, CachesOk, ProxyOk;
    var s := Exec(run);
    forall i | 0 <= i < |s.log| && IsFor(s.log[i], app, date)
      ensures s.log[i].value == CountFor(s.log[..i], app, date) + 1
    {
      assert EventOk(s.log, s.gens, i);
    }
    Tally(s.log, app, date, limit);
    assert Counter(s, DailyKey(app, date)) == CountFor(s.log, app, date);
  }
}
