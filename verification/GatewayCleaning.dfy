/** The cleaner is invisible: taking its steps out of a run changes nothing anybody can observe. */
module GatewayCleaning {
  import opened Caching
  import opened Keys
  import opened DailyLimits
  import opened Settings
  import opened Pipeline
  import opened PipelineTheorems
  import opened Gateway

  /** Both caches answer alike from now on. */
  ghost predicate AlikeFrom(a: Store<Data>, b: Store<Data>, now: int) {
    forall k, t | t >= now :: Lookup(a, k, t) == Lookup(b, k, t)
  }

  /** The states differ at most in what their caches still keep of expired items. */
  ghost predicate Twin(s: State, s': State) {
    && s.now == s'.now && s.gens == s'.gens && s.log == s'.log && s.flights == s'.flights && s.counters == s'.counters
    && forall c :: AlikeFrom(StoreOf(s, c), StoreOf(s', c), s.now)
  }

  lemma CleanTwin(s: State, s': State)
    requires Twin(s, s')
    ensures Twin(Apply(s, Label.Clean), s')
  {
    var n := Apply(s, Label.Clean);
    forall c ensures AlikeFrom(StoreOf(n, c), StoreOf(s', c), n.now) {
      assert AlikeFrom(StoreOf(s, c), StoreOf(s', c), s.now);
      PurgeAlike(StoreOf(s, c), s.now);
    }
  }

  lemma PurgeAlike(store: Store<Data>, now: int)
    ensures AlikeFrom(Purge(store, now), store, now)
  {
  }

  lemma PutAlike(a: Store<Data>, b: Store<Data>, key: string, d: Data, now: int, life: int)
    requires AlikeFrom(a, b, now)
    ensures AlikeFrom(Put(a, key, d, now, life), Put(b, key, d, now, life), now)
  {
    forall k, t | t >= now ensures Lookup(Put(a, key, d, now, life), k, t) == Lookup(Put(b, key, d, now, life), k, t) {
      assert Lookup(a, k, t) == Lookup(b, k, t);
    }
  }

  lemma BeginTwin(s: State, s': State, r: nat, q: Query)
    requires Twin(s, s') && r < |s.flights| && s.flights[r].gen < |s.gens| && s.flights[r].at < |s.flights[r].Chain()|
    ensures Twin(Begin(s, r, q), Begin(s', r, q))
  {
    hide ChainFor, Conclude, Tell, KeyOf, CacheOf, UsesCache, Lookup;
    var f := s.flights[r];
    if UsesCache(s.gens[f.gen], f.req.meta.moduleName, q) {
      assert CacheOf(q, f.gen).Some? by { CachedForAll(s.gens[f.gen], f.req.meta.moduleName, q, f.gen); }
      var c := CacheOf(q, f.gen).value;
      assert AlikeFrom(StoreOf(s, c), StoreOf(s', c), s.now);
      assert Lookup(StoreOf(s, c), KeyOf(q), s.now) == Lookup(StoreOf(s', c), KeyOf(q), s.now);
    }
    SameCaches(s, s', Begin(s, r, q), Begin(s', r, q));
  }

  lemma CachedForAll(g: Generation, m: string, q: Query, gen: nat)
    requires UsesCache(g, m, q)
    ensures CacheOf(q, gen).Some?
  {
  }

  /** A step that leaves both caches as they were keeps them alike. */
  lemma SameCaches(s: State, s': State, n: State, n': State)
    requires Twin(s, s') && n.caches == s.caches && n'.caches == s'.caches && s.now <= n.now
    requires n.now == n'.now && n.gens == n'.gens && n.log == n'.log
    requires n.flights == n'.flights && n.counters == n'.counters
    ensures Twin(n, n')
  {
    forall c ensures AlikeFrom(StoreOf(n, c), StoreOf(n', c), n.now) {
      assert AlikeFrom(StoreOf(s, c), StoreOf(s', c), s.now);
    }
  }

  lemma FillTwin(s: State, s': State, r: nat, q: Query, d: Data)
    requires Twin(s, s') && r < |s.flights| && s.flights[r].gen < |s.gens| && s.flights[r].at < |s.flights[r].Chain()|
    requires CacheOf(q, s.flights[r].gen).Some?
    ensures Twin(Fill(s, r, q, d), Fill(s', r, q, d))
  {
    hide ChainFor, Conclude, Tell, KeyOf, CacheOf, LifeOf, Put, AlikeFrom;
    var f := s.flights[r];
    var c, life := CacheOf(q, f.gen).value, LifeOf(s.gens[f.gen], f.req.meta.moduleName, q);
    var n, n' := Fill(s, r, q, d), Fill(s', r, q, d);
    forall c' ensures AlikeFrom(StoreOf(n, c'), StoreOf(n', c'), n.now) {
      assert AlikeFrom(StoreOf(s, c'), StoreOf(s', c'), s.now);
      if c' == c {
        PutAlike(StoreOf(s, c), StoreOf(s', c), KeyOf(q), d, s.now, life);
      }
    }
  }

  lemma CountTwin(s: State, s': State, r: nat, app: int, env: Env)
    requires Twin(s, s') && r < |s.flights| && s.flights[r].gen < |s.gens| && s.flights[r].at < |s.flights[r].Chain()|
    ensures Twin(CountDay(s, r, app, env), CountDay(s', r, app, env))
  {
    hide ChainFor, Conclude, Tell, DailyKey, LimitsOf, DayAnswer, AlikeFrom;
    SameCaches(s, s', CountDay(s, r, app, env), CountDay(s', r, app, env));
  }

  /** Every other step leaves the caches alone and does not look at them. */
  lemma OtherTwin(s: State, s': State, r: nat, env: Env)
    requires Twin(s, s') && r < |s.flights| && s.flights[r].gen < |s.gens|
    requires !s.flights[r].phase.Filling? || s.flights[r].at >= |s.flights[r].Chain()|
    requires s.flights[r].at < |s.flights[r].Chain()| ==>
               var f := s.flights[r];
               && !(f.phase.Asking? && f.phase.q.DailyQ?)
               && (f.phase.Start? ==>
                     f.Chain()[f.at] == Logger || Need(f.Chain()[f.at], s.gens[f.gen].table, f.req, f.ctx).None?)
    ensures Twin(AdvanceFlight(s, r, env), AdvanceFlight(s', r, env))
  {
    hide ChainFor, Conclude, Tell, Need, Begin, Fill, CountDay, Forward, Unwind, AlikeFrom, UsesCache, Typed, Consulted;
    SameCaches(s, s', AdvanceFlight(s, r, env), AdvanceFlight(s', r, env));
  }

  lemma AdvanceTwin(s: State, s': State, r: nat, env: Env)
    requires Twin(s, s') && r < |s.flights| && s.flights[r].gen < |s.gens|
    ensures Twin(AdvanceFlight(s, r, env), AdvanceFlight(s', r, env))
  {
    var f := s.flights[r];
    hide ChainFor, Need, Begin, Fill, Ask, CountDay, RunProxy, AllowUnlisted, Conclude, CacheOf, AlikeFrom;
    if f.at >= |f.Chain()| {
      OtherTwin(s, s', r, env);
    } else {
      match f.phase
      case Asking(q) =>
        if q.DailyQ? {
          CountTwin(s, s', r, q.applicationId, env);
        } else {
          OtherTwin(s, s', r, env);
        }
      case Filling(q, d) =>
        if CacheOf(q, f.gen).Some? {
          FillTwin(s, s', r, q, d);
        }
      case Start =>
        var need := Need(f.Chain()[f.at], s.gens[f.gen].table, f.req, f.ctx);
        if f.Chain()[f.at] == Logger || need.None? {
          OtherTwin(s, s', r, env);
        } else {
          BeginTwin(s, s', r, need.value);
        }
    }
  }

  lemma StepTwin(s: State, s': State, l: Label)
    requires Twin(s, s') && !l.Clean?
    ensures Twin(Apply(s, l), Apply(s', l))
  {
    hide AdvanceFlight, AlikeFrom, WellFormed, IsTable;
    if l.Advance? {
      if l.r < |s.flights| && s.flights[l.r].reply.None? && s.flights[l.r].gen < |s.gens| {
        AdvanceTwin(s, s', l.r, l.env);
      }
    } else {
      SameCaches(s, s', Apply(s, l), Apply(s', l));
    }
  }

  function WithoutCleaner(run: seq<Label>): seq<Label> {
    if run == [] then []
    else WithoutCleaner(run[..|run| - 1]) + if run[|run| - 1].Clean? then [] else [run[|run| - 1]]
  }

  /** Without the cleaner's steps a run logs the same events, counts the same and leaves every request where it was. */
  lemma {:induction false} CleanerIsInvisible(run: seq<Label>)
    ensures Twin(Exec(run), Exec(WithoutCleaner(run)))
  {
    if run == [] {
      Reflexive(INITIAL);
    } else {
      var before, l := run[..|run| - 1], run[|run| - 1];
      CleanerIsInvisible(before);
      var w := WithoutCleaner(before);
      hide Apply, Twin;
      if l.Clean? {
        CleanTwin(Exec(before), Exec(w));
        assert w + [] == w;
      } else {
        StepTwin(Exec(before), Exec(w), l);
        assert (w + [l])[..|w|] == w;
      }
    }
  }

  lemma Reflexive(s: State)
    ensures Twin(s, s)
  {
  }
}
