/** Which configuration a request runs under, told by positions of the run. */
module GatewayRuns {
  import opened Settings
  import opened Gateway
  import opened GatewayInvariants
  import opened GatewaySteps
  import opened GatewayQuota
  import opened GatewayCalls

  /** A reload whose configuration is accepted. */
  ghost predicate Accepted(l: Label) {
    l.Reload? && WellFormed(l.remote.customAuth) && IsTable(l.remote.customAuth, l.table)
  }

  /** The last accepted reload before position k of the run is at position j. */
  ghost predicate InForce(run: seq<Label>, k: nat, j: nat)
    requires k <= |run|
  {
    j < k && Accepted(run[j]) && forall i | j < i < k :: !Accepted(run[i])
  }

  lemma ReloadOrNot(s: State, l: Label)
    requires Inv(s)
    ensures Apply(s, l).gens == if Accepted(l) then s.gens + [Generation(l.remote, l.table)] else s.gens
  {
    hide AdvanceFlight, WellFormed, IsTable, Inv;
    if l.Advance? && l.r < |s.flights| && s.flights[l.r].gen < |s.gens| {
      TouchesOne(s, l.r, l.env);
    }
  }

  lemma ExecLast(run: seq<Label>)
    requires run != []
    ensures Exec(run) == Apply(Exec(run[..|run| - 1]), run[|run| - 1])
  {
  }

  lemma InForceBefore(run: seq<Label>, n: nat, j: nat)
    requires n <= |run| && InForce(run, n, j)
    ensures InForce(run[..n], n, j) && run[..n][j] == run[j]
  {
    hide Accepted;
    assert forall i | 0 <= i < n :: run[..n][i] == run[i];
  }

  /** The newest configuration is the last accepted one. */
  lemma {:induction false} NewestIsInForce(run: seq<Label>, j: nat)
    requires InForce(run, |run|, j)
    ensures var gens := Exec(run).gens; gens != [] && gens[|gens| - 1] == Generation(run[j].remote, run[j].table)
  {
    var n := |run| - 1;
    var before := run[..n];
    Reachable(before);
    ExecLast(run);
    ReloadOrNot(Exec(before), run[n]);
    hide Exec, Apply, Inv, Accepted;
    if j < n {
      assert InForce(run, n, j);
      InForceBefore(run, n, j);
      NewestIsInForce(before, j);
      assert !Accepted(run[n]);
    }
  }

  /** Requests and configurations stay what they are in any continuation of a run. */
  lemma {:induction false} Lasting(run: seq<Label>, k: nat, r: nat)
    requires k <= |run| && r < |Exec(run[..k]).flights|
    ensures var s, s' := Exec(run[..k]), Exec(run);
            s.gens <= s'.gens && r < |s'.flights| && KeepsRequest(s.flights[r], s'.flights[r])
    decreases |run|
  {
    if k == |run| {
      assert run[..k] == run;
      Reachable(run);
      hide Exec;
      assert FlightOk(Exec(run).log, Exec(run).gens, r, Exec(run).flights[r]);
    } else {
      var n := |run| - 1;
      var before := run[..n];
      assert before[..k] == run[..k];
      Lasting(before, k, r);
      Reachable(before);
      ExecLast(run);
      hide Exec, Apply, Inv, KeepsRequest, EventFits, Onward;
      StepContinues(Exec(before), run[n]);
      LastingStep(Exec(run[..k]), Exec(before), Exec(run), r);
    }
  }

  lemma LastingStep(s: State, t: State, u: State, r: nat)
    requires s.gens <= t.gens && r < |s.flights| && r < |t.flights| && Onward(t, u)
    requires KeepsRequest(s.flights[r], t.flights[r])
    ensures s.gens <= u.gens && r < |u.flights| && KeepsRequest(s.flights[r], u.flights[r])
  {
    hide ChainFor, AgreeBefore;
    assert forall i | 0 <= i < |s.gens| :: u.gens[i] == t.gens[i] == s.gens[i];
  }

  /**
   A request that arrives at position k of a run is served, to its end, under the configuration of the last
   reload accepted before k, with everything that configuration says.
   */
  lemma ArrivesUnderLatest(run: seq<Label>, k: nat, j: nat)
    requires k < |run| && run[k].Arrive? && ' ' !in run[k].req.httpMethod && InForce(run, k, j)
    ensures var r, s := |Exec(run[..k]).flights|, Exec(run);
            && r < |s.flights| && s.flights[r].gen < |s.gens|
            && s.flights[r].req == run[k].req && s.flights[r].skipAuth == run[k].skipAuth
            && s.gens[s.flights[r].gen] == Generation(run[j].remote, run[j].table)
  {
    var before := run[..k];
    var s := Exec(before);
    var r := |s.flights|;
    InForceBefore(run, k, j);
    NewestIsInForce(before, j);
    var after := run[..k + 1];
    assert after[..k] == before && after[k] == run[k];
    assert Exec(after) == Apply(s, run[k]);
    Lasting(run, k + 1, r);
    hide Exec, WellFormed, IsTable, ChainFor, Apply;
    Arrived(s, run[k]);
  }

  lemma Arrived(s: State, l: Label)
    requires s.gens != [] && l.Arrive? && ' ' !in l.req.httpMethod
    ensures var s', r := Apply(s, l), |s.flights|;
            && |s'.flights| == r + 1 && s'.gens == s.gens
            && s'.flights[r].req == l.req && s'.flights[r].skipAuth == l.skipAuth
            && s'.flights[r].gen == |s.gens| - 1
  {
  }

  /** Before the first accepted reload nothing is served. */
  lemma {:induction false} NothingServedBefore(run: seq<Label>)
    requires forall i | 0 <= i < |run| :: !Accepted(run[i])
    ensures Exec(run).gens == [] && Exec(run).flights == []
  {
    if run != [] {
      var n := |run| - 1;
      var before := run[..n];
      NothingServedBefore(before);
      Reachable(before);
      ReloadOrNot(Exec(before), run[n]);
      hide AdvanceFlight, WellFormed, IsTable, Inv;
    }
  }
}
