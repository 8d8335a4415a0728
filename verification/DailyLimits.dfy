/** Limits per application, for a day or a second (service/daily_limit.go, service/throttling.go). */
module DailyLimits {
  datatype LimitConfig = LimitConfig(applicationId: int, requests: int)

  /** A later entry for the same application replaces an earlier one. */
  function LimitsOf(configs: seq<LimitConfig>): map<int, int> {
    if configs == [] then map[]
    else
      var last := configs[|configs| - 1];
      LimitsOf(configs[..|configs| - 1])[last.applicationId := last.requests]
  }

  method NewLimits(configs: seq<LimitConfig>) returns (limits: map<int, int>)
    ensures limits == LimitsOf(configs)
  {
    limits := map[];
    for i := 0 to |configs|
      invariant limits == LimitsOf(configs[..i])
    {
      assert configs[..i + 1][..i] == configs[..i];
      limits := limits[configs[i].applicationId := configs[i].requests];
    }
    assert configs[..|configs|] == configs;
  }

  predicate Listed(configs: seq<LimitConfig>, app: int) {
    exists k | 0 <= k < |configs| :: configs[k].applicationId == app
  }

  /** The application's last entry in the list allows n requests. */
  predicate LastEntry(configs: seq<LimitConfig>, app: int, n: int) {
    exists k | 0 <= k < |configs| ::
      configs[k] == LimitConfig(app, n) && forall j | k < j < |configs| :: configs[j].applicationId != app
  }

  /** The last entry of an application is the one in force. */
  lemma {:induction false} LastEntryWins(configs: seq<LimitConfig>, app: int)
    ensures app in LimitsOf(configs) ==> LastEntry(configs, app, LimitsOf(configs)[app])
    ensures forall n | LastEntry(configs, app, n) :: app in LimitsOf(configs) && LimitsOf(configs)[app] == n
  {
    if configs != [] {
      var n := |configs| - 1;
      var before := configs[..n];
      LastEntryWins(before, app);
      if configs[n].applicationId == app {
        assert configs[n] == LimitConfig(app, configs[n].requests);
      } else {
        forall m ensures LastEntry(before, app, m) <==> LastEntry(configs, app, m) {
          if k :| 0 <= k < n && before[k] == LimitConfig(app, m)
                  && forall j | k < j < n :: before[j].applicationId != app {
            assert configs[k] == before[k];
            assert forall j | k < j < n :: configs[j] == before[j];
          }
          if k :| 0 <= k < |configs| && configs[k] == LimitConfig(app, m)
                  && forall j | k < j < |configs| :: configs[j].applicationId != app {
            assert before[k] == configs[k];
            assert forall j | k < j < n :: configs[j] == before[j];
          }
        }
      }
    }
  }

  /** Applications without an entry are not limited. */
  lemma {:induction false} UnlistedUnlimited(configs: seq<LimitConfig>, app: int)
    ensures app in LimitsOf(configs) <==> Listed(configs, app)
  {
    if configs != [] {
      var n := |configs| - 1;
      UnlistedUnlimited(configs[..n], app);
      assert forall k | 0 <= k < n :: configs[..n][k] == configs[k];
    }
  }
}
