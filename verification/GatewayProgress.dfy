/** No request gets stuck: each of its own steps brings it nearer to its answer, whatever others do. */
module GatewayProgress {
  import opened Caching
  import opened DailyLimits
  import opened Keys
  import opened Settings
  import opened Pipeline
  import opened PipelineTheorems
  import opened Gateway
  import opened GatewayInvariants
  import opened GatewaySteps

  /** Steps a request may still need: three at each middleware, one at the proxy. */
  function StepsLeft(f: Flight): int {
    if f.reply.Some? then 0
    else 3 * (|f.Chain()| - f.at) + match f.phase case Start => 3 case Asking(_) => 2 case Filling(_, _) => 1
  }

  lemma ConcludeShortens(f: Flight, table: Table)
    requires f.at < |f.Chain()| && f.reply.None?
    ensures forall told :: StepsLeft(Conclude(f, table, told)) < StepsLeft(f)
  {
    hide ChainFor, Decide, Unwind, Refuse;
  }

  lemma AdvanceShortens(s: State, r: nat, env: Env)
    requires r < |s.flights| && s.flights[r].gen < |s.gens| && s.flights[r].reply.None?
    requires s.flights[r].at <= |s.flights[r].Chain()|
    requires s.flights[r].phase.Filling? ==> CacheOf(s.flights[r].phase.q, s.flights[r].gen).Some?
    requires s.flights[r].at == |s.flights[r].Chain()| ==> s.flights[r].phase == Start
    ensures var s' := AdvanceFlight(s, r, env);
            && |s'.flights| == |s.flights| && StepsLeft(s'.flights[r]) < StepsLeft(s.flights[r])
            && forall k | 0 <= k < |s.flights| && k != r :: s'.flights[k] == s.flights[k]
  {
    hide ChainFor, Conclude, Tell, KeyOf, CacheOf, LifeOf, UsesCache, Unwind, Forward, Need, Lookup, Typed,
         Put, StoreOf, DailyKey, LimitsOf, DayAnswer, Counter;
    var f := s.flights[r];
    if f.at < |f.Chain()| {
      ConcludeShortens(f, s.gens[f.gen].table);
    }
  }

  /** What keeps a request able to move. */
  lemma CanMove(s: State, r: nat)
    requires Inv(s) && r < |s.flights| && s.flights[r].reply.None?
    ensures var f := s.flights[r];
            && f.gen < |s.gens| && f.at <= |f.Chain()|
            && (f.phase.Filling? ==> CacheOf(f.phase.q, f.gen).Some?)
            && (f.at == |f.Chain()| ==> f.phase == Start)
  {
    var f := s.flights[r];
    assert FlightOk(s.log, s.gens, r, f) && PhaseOk(s.log, s.gens[f.gen], r, f);
    if f.phase.Filling? {
      CachedEverywhere(f.phase.q, f.gen);
    }
  }

  function Moves(run: seq<Label>, r: nat): nat {
    if run == [] then 0
    else
      var l := run[|run| - 1];
      Moves(run[..|run| - 1], r) + if l.Advance? && l.r == r then 1 else 0
  }

  lemma StepShortens(s: State, l: Label, r: nat)
    requires Inv(s) && r < |s.flights|
    ensures var s' := Apply(s, l);
            && r < |s'.flights|
            && (s.flights[r].reply.Some? || (l.Advance? && l.r == r) || s'.flights[r] == s.flights[r])
            && (s.flights[r].reply.Some? ==> s'.flights[r] == s.flights[r])
            && (s.flights[r].reply.None? && l.Advance? && l.r == r ==>
                  StepsLeft(s'.flights[r]) < StepsLeft(s.flights[r]))
  {
    hide AdvanceFlight, Purge, WellFormed, IsTable, StepsLeft, Inv;
    if l.Advance? && l.r < |s.flights| && s.flights[l.r].reply.None? {
      CanMove(s, l.r);
      AdvanceShortens(s, l.r, l.env);
    }
  }

  lemma StepsLeftBounded(f: Flight)
    requires f.at <= |f.Chain()|
    ensures f.reply.Some? <==> StepsLeft(f) == 0
    ensures 0 <= StepsLeft(f) <= 3 * |AUTH_CHAIN| + 3
  {
  }

  lemma {:induction false} Shortened(run: seq<Label>, more: seq<Label>, r: nat)
    requires r < |Exec(run).flights|
    ensures var s' := Exec(run + more);
            && r < |s'.flights|
            && (s'.flights[r].reply.Some?
                || StepsLeft(s'.flights[r]) + Moves(more, r) <= StepsLeft(Exec(run).flights[r]))
  {
    if more == [] {
      assert run + more == run;
    } else {
      var n := |more| - 1;
      var before := run + more[..n];
      assert (run + more)[..|run + more| - 1] == before && (run + more)[|run + more| - 1] == more[n];
      var s := Exec(before);
      hide Inv, StepsLeft, Apply;
      Shortened(run, more[..n], r);
      Reachable(before);
      StepShortens(s, more[n], r);
    }
  }

  /**
   A request is answered after at most 39 steps of its own, however these interleave with the steps of
   others, with the clock, the cleaner and reloads.
   */
  lemma EveryRequestIsAnswered(run: seq<Label>, more: seq<Label>, r: nat)
    requires r < |Exec(run).flights|
    requires Moves(more, r) >= 39
    ensures r < |Exec(run + more).flights| && Exec(run + more).flights[r].reply.Some?
  {
    Shortened(run, more, r);
    Reachable(run);
    Reachable(run + more);
    hide Exec;
    assert FlightOk(Exec(run).log, Exec(run).gens, r, Exec(run).flights[r]);
    assert FlightOk(Exec(run + more).log, Exec(run + more).gens, r, Exec(run + more).flights[r]);
    StepsLeftBounded(Exec(run).flights[r]);
    StepsLeftBounded(Exec(run + more).flights[r]);
  }
}
