/** What the assembled chains do, for every request and every behaviour of the collaborators. */
module PipelineTheorems {
  import opened Wrappers
  import opened Domain
  import opened Settings
  import opened Request
  import opened Pipeline

  // ---------------------------------------------------------------- walking a chain

  /** The request after the first n middlewares, or the error one of them returned. */
  function WalkTo(chain: seq<Middleware>, n: nat, table: Table, req: Input, v: Verdicts): Decision
    requires n <= |chain|
  {
    if n == 0 then Pass(ANONYMOUS)
    else
      match WalkTo(chain, n - 1, table, req, v)
      case Stop(e) => Stop(e)
      case Pass(ctx) => Decide(chain[n - 1], table, req, ctx, v)
  }

  /** The reply as it travels back out through the first n middlewares. */
  function Unwind(chain: seq<Middleware>, n: nat, r: Reply): Reply
    requires n <= |chain|
  {
    if n == 0 then r
    else Unwind(chain, n - 1, if chain[n - 1] == ErrorHandler then Absorb(r) else r)
  }

  lemma HandleStep(chain: seq<Middleware>, k: nat, table: Table, req: Input, ctx: Ctx, v: Verdicts)
    requires k <= |chain|
    ensures k == |chain| ==> Handle(Compose(chain[k..], Proxy), table, req, ctx, v) == Forward(v)
    ensures k < |chain| ==>
              Handle(Compose(chain[k..], Proxy), table, req, ctx, v) ==
              if chain[k] == ErrorHandler then Absorb(Handle(Compose(chain[k + 1..], Proxy), table, req, ctx, v))
              else match Decide(chain[k], table, req, ctx, v)
                   case Stop(e) => Refuse(e)
                   case Pass(ctx') => Handle(Compose(chain[k + 1..], Proxy), table, req, ctx', v)
  {
    if k < |chain| {
      assert chain[k..][1..] == chain[k + 1..];
    }
  }

  /** Stepping through the middlewares one at a time computes what the composed handler computes. */
  lemma {:induction false} HandleUnwinds(chain: seq<Middleware>, n: nat, table: Table, req: Input, v: Verdicts)
    requires n <= |chain| && WalkTo(chain, n, table, req, v).Pass?
    ensures Handle(Compose(chain, Proxy), table, req, ANONYMOUS, v)
            == Unwind(chain, n, Handle(Compose(chain[n..], Proxy), table, req, WalkTo(chain, n, table, req, v).ctx, v))
  {
    if n == 0 {
      assert chain[0..] == chain;
    } else {
      HandleUnwinds(chain, n - 1, table, req, v);
      HandleStep(chain, n - 1, table, req, WalkTo(chain, n - 1, table, req, v).ctx, v);
    }
  }

  // ---------------------------------------------------------------- the real order

  lemma {:induction false} ClosedAt(gates: seq<Gate>, k: nat)
    requires k <= |gates| && forall j | 0 <= j < k :: gates[j].open
    ensures k == |gates| ==> FirstClosed(gates) == None
    ensures k < |gates| && !gates[k].open ==> FirstClosed(gates) == Some(gates[k].error)
  {
    if k > 0 {
      assert forall j | 0 <= j < k - 1 :: gates[1..][j] == gates[j + 1];
      ClosedAt(gates[1..], k - 1);
    }
  }

  function Settled(table: Table, req: Input, v: Verdicts): Reply {
    match FirstClosed(Gates(table, req, v))
    case Some(e) => Refuse(e)
    case None => Forward(v)
  }

  /** The checks that leave the request unchanged, met one after another. */
  function Checked(ds: seq<Decision>, v: Verdicts): Reply {
    if ds == [] then Forward(v) else if ds[0].Stop? then Refuse(ds[0].error) else Checked(ds[1..], v)
  }

  lemma ChecksOnly(req: Input, ctx: Ctx, a: Answer<()>)
    ensures forall d | d in {DecideAuthorize(ctx, a), DecidePermission(req, ctx, a), DecideLimit(ctx, a)} ::
              d.Pass? ==> d.ctx == ctx
  {
  }

  lemma LimitChecks(table: Table, req: Input, ctx: Ctx, v: Verdicts)
    ensures Handle(Compose(AUTH_CHAIN[9..], Proxy), table, req, ctx, v)
            == Checked([DecideLimit(ctx, v.rate), DecideLimit(ctx, v.daily)], v)
  {
    ChecksOnly(req, ctx, v.rate);
    ChecksOnly(req, ctx, v.daily);
    hide DecideLimit, Handle, Compose;
    HandleStep(AUTH_CHAIN, 9, table, req, ctx, v);
    HandleStep(AUTH_CHAIN, 10, table, req, ctx, v);
    HandleStep(AUTH_CHAIN, 11, table, req, ctx, v);
    HandleStep(AUTH_CHAIN, 12, table, req, ctx, v);
    var d1, d2 := DecideLimit(ctx, v.rate), DecideLimit(ctx, v.daily);
    assert [d1, d2][1..] == [d2] && [d2][1..] == [];
    assert Checked([d2], v) == if d2.Stop? then Refuse(d2.error) else Forward(v);
    assert Checked([d1, d2], v) == if d1.Stop? then Refuse(d1.error) else Checked([d2], v);
  }

  lemma LateChecks(table: Table, req: Input, ctx: Ctx, v: Verdicts)
    ensures Handle(Compose(AUTH_CHAIN[6..], Proxy), table, req, ctx, v)
            == Checked([DecideAuthorize(ctx, v.authorized), DecidePermission(req, ctx, v.permitted),
                        DecideLimit(ctx, v.rate), DecideLimit(ctx, v.daily)], v)
  {
    ChecksOnly(req, ctx, v.authorized);
    ChecksOnly(req, ctx, v.permitted);
    hide DecideAuthorize, DecidePermission, DecideLimit, Handle, Compose;
    HandleStep(AUTH_CHAIN, 6, table, req, ctx, v);
    HandleStep(AUTH_CHAIN, 7, table, req, ctx, v);
    HandleStep(AUTH_CHAIN, 8, table, req, ctx, v);
    LimitChecks(table, req, ctx, v);
    var d1, d2 := DecideAuthorize(ctx, v.authorized), DecidePermission(req, ctx, v.permitted);
    var limits := [DecideLimit(ctx, v.rate), DecideLimit(ctx, v.daily)];
    var ds := [d1, d2] + limits;
    assert ds[1..] == [d2] + limits && ds[1..][1..] == limits;
    assert ds == [d1, d2, limits[0], limits[1]];
  }

  lemma {:induction false} CheckedAt(ds: seq<Decision>, k: nat, v: Verdicts)
    requires k <= |ds| && forall j | 0 <= j < k :: ds[j].Pass?
    ensures k == |ds| ==> Checked(ds, v) == Forward(v)
    ensures k < |ds| && ds[k].Stop? ==> Checked(ds, v) == Refuse(ds[k].error)
  {
    if k > 0 {
      assert forall j | 0 <= j < k - 1 :: ds[1..][j] == ds[j + 1];
      CheckedAt(ds[1..], k - 1, v);
    }
  }

  /** After authentication: authorization, inner endpoints, limits, proxy. */
  lemma LateGates(table: Table, req: Input, ctx: Ctx, v: Verdicts, gates: seq<Gate>)
    requires gates == Gates(table, req, v) && forall j | 0 <= j < 6 :: gates[j].open
    requires ctx.SkipAppAuth() <==> AppSkipped(table, req, v)
    requires !ctx.SkipAppAuth() ==> ctx.app.Some?
    requires ctx.admin.Some? <==> req.adminToken != ""
    ensures Handle(Compose(AUTH_CHAIN[6..], Proxy), table, req, ctx, v) == Settled(table, req, v)
  {
    var ds := [DecideAuthorize(ctx, v.authorized), DecidePermission(req, ctx, v.permitted),
               DecideLimit(ctx, v.rate), DecideLimit(ctx, v.daily)];
    LateChecks(table, req, ctx, v);
    hide Handle, Compose, Checked, FirstClosed;
    assert ds[0].Pass? <==> gates[6].open && gates[7].open;
    assert ds[1].Pass? <==> gates[8].open && gates[9].open;
    assert ds[2].Pass? <==> gates[10].open;
    assert ds[3].Pass? <==> gates[11].open;
    var k := FirstClosedIndex(gates, 6);
    ClosedAt(gates, k);
    CheckedAt(ds, if k < 8 then 0 else if k < 10 then 1 else k - 8, v);
  }

  lemma FirstClosedIndex(gates: seq<Gate>, from: nat) returns (k: nat)
    requires from <= |gates| && forall j | 0 <= j < from :: gates[j].open
    ensures from <= k <= |gates| && (forall j | 0 <= j < k :: gates[j].open)
    ensures k < |gates| ==> !gates[k].open
  {
    k := from;
    while k < |gates| && gates[k].open
      invariant from <= k <= |gates| && forall j | 0 <= j < k :: gates[j].open
    {
      k := k + 1;
    }
  }

  lemma AdminGate(table: Table, req: Input, ctx: Ctx, v: Verdicts, gates: seq<Gate>)
    requires gates == Gates(table, req, v) && forall j | 0 <= j < 5 :: gates[j].open
    requires ctx.SkipAppAuth() <==> AppSkipped(table, req, v)
    requires !ctx.SkipAppAuth() ==> ctx.app.Some?
    requires ctx.admin.None?
    ensures Handle(Compose(AUTH_CHAIN[5..], Proxy), table, req, ctx, v) == Settled(table, req, v)
  {
    HandleStep(AUTH_CHAIN, 5, table, req, ctx, v);
    hide Handle, Compose, FirstClosed;
    var admin := DecideAdmin(req, ctx, v.admin);
    if admin.Pass? {
      LateGates(table, req, admin.ctx, v, gates);
    } else {
      ClosedAt(gates, 5);
    }
  }

  lemma AppRefused(table: Table, req: Input, ctx: Ctx, v: Verdicts, gates: seq<Gate>, e: Error)
    requires gates == Gates(table, req, v) && forall j | 0 <= j < 2 :: gates[j].open
    requires ctx.SkipAppAuth() <==> AppSkipped(table, req, v)
    requires DecideApp(req, ctx, v.app) == Stop(e)
    ensures FirstClosed(gates) == Some(e)
  {
    hide FirstClosed, PrepareUser;
    ClosedAt(gates, if !gates[2].open then 2 else if !gates[3].open then 3 else 4);
  }

  lemma AppGates(table: Table, req: Input, ctx: Ctx, v: Verdicts, gates: seq<Gate>)
    requires gates == Gates(table, req, v) && forall j | 0 <= j < 2 :: gates[j].open
    requires ctx.SkipAppAuth() <==> AppSkipped(table, req, v)
    requires ctx.admin.None? && ctx.app.None?
    ensures Handle(Compose(AUTH_CHAIN[4..], Proxy), table, req, ctx, v) == Settled(table, req, v)
  {
    hide FirstToken, DecideUser, DecideAdmin, DecideAuthorize, DecidePermission, DecideLimit;
    HandleStep(AUTH_CHAIN, 4, table, req, ctx, v);
    hide Handle, Compose, FirstClosed, PrepareUser;
    var app := DecideApp(req, ctx, v.app);
    if app.Pass? {
      assert gates[2].open && gates[3].open && gates[4].open;
      AdminGate(table, req, app.ctx, v, gates);
    } else {
      AppRefused(table, req, ctx, v, gates, app.error);
    }
  }

  lemma EarlyGates(table: Table, req: Input, v: Verdicts)
    ensures Handle(Compose(AUTH_CHAIN[3..], Proxy), table, req, ANONYMOUS, v) == Settled(table, req, v)
  {
    hide FirstToken, DecideApp, DecideAdmin, DecideAuthorize, DecidePermission, DecideLimit;
    var gates := Gates(table, req, v);
    HandleStep(AUTH_CHAIN, 3, table, req, ANONYMOUS, v);
    hide Handle, Compose, FirstClosed;
    var user := DecideUser(table, req, ANONYMOUS, v.user);
    if user.Pass? {
      AppGates(table, req, user.ctx, v, gates);
    } else {
      ClosedAt(gates, if gates[0].open then 1 else 0);
    }
  }

  /** The reply of an authenticated location: the first closed gate's status, or the upstream's result. */
  lemma AuthChainReply(table: Table, req: Input, v: Verdicts)
    ensures Handle(Compose(AUTH_CHAIN, Proxy), table, req, ANONYMOUS, v)
            == if v.bodyRead then Absorb(Settled(table, req, v)) else Refuse(Internal)
  {
    hide Settled, Handle, Compose, DecideUser, DecideApp, DecideAdmin, DecideAuthorize, DecidePermission, DecideLimit;
    assert AUTH_CHAIN[0..] == AUTH_CHAIN;
    HandleStep(AUTH_CHAIN, 0, table, req, ANONYMOUS, v);
    HandleStep(AUTH_CHAIN, 1, table, req, ANONYMOUS, v);
    HandleStep(AUTH_CHAIN, 2, table, req, ANONYMOUS, v);
    EarlyGates(table, req, v);
  }

  lemma PolicyIsAllGates(table: Table, req: Input, v: Verdicts)
    ensures Policy(table, req, v) <==> FirstClosed(Gates(table, req, v)).None?
  {
    hide FirstToken;
    var gates := Gates(table, req, v);
    var k := FirstClosedIndex(gates, 0);
    ClosedAt(gates, k);
    assert Policy(table, req, v) <==>
           gates[0].open && gates[1].open && gates[2].open && gates[3].open && gates[4].open && gates[5].open
           && gates[6].open && gates[7].open && gates[8].open && gates[9].open && gates[10].open && gates[11].open;
  }

  /** The first rule broken, if it is one about who the request comes from. */
  lemma StatusOfEarlyGates(table: Table, req: Input, v: Verdicts, gates: seq<Gate>, k: nat)
    requires gates == Gates(table, req, v) && k < 6 && !gates[k].open && forall j | 0 <= j < k :: gates[j].open
    ensures RefusalStatus(table, req, v) == Some(StatusOf(gates[k].error))
  {
    hide FirstToken;
    assert k > 0 ==> gates[0].open;
    assert k > 1 ==> gates[1].open;
    assert k > 2 ==> gates[2].open;
    assert k > 3 ==> gates[3].open;
    assert k > 4 ==> gates[4].open;
  }

  /** What is known once the request's origin is settled. */
  lemma OriginSettled(table: Table, req: Input, v: Verdicts, gates: seq<Gate>)
    requires gates == Gates(table, req, v) && forall j | 0 <= j < 6 :: gates[j].open
    ensures req.meta.userAuthRequired ==> UserToken(table, req).Ok? && v.user.Granted?
    ensures !AppSkipped(table, req, v) ==> !Anonymous(req) && v.app.Granted? && NameFits(req, v.app.data.appName)
    ensures req.adminToken != "" ==> v.admin.Granted?
  {
    hide FirstToken;
    assert gates[0].open && gates[1].open && gates[2].open && gates[3].open && gates[4].open && gates[5].open;
  }

  lemma StatusOfLateGates(table: Table, req: Input, v: Verdicts, gates: seq<Gate>, k: nat)
    requires gates == Gates(table, req, v) && 6 <= k <= |gates| && forall j | 0 <= j < k :: gates[j].open
    requires k < |gates| ==> !gates[k].open
    ensures RefusalStatus(table, req, v) == if k == |gates| then None else Some(StatusOf(gates[k].error))
  {
    OriginSettled(table, req, v, gates);
    hide FirstToken, AppToken, PrepareUser, AppSkipped, Anonymous, NameFits, UserToken;
    assert k > 6 ==> gates[6].open;
    assert k > 7 ==> gates[7].open;
    assert k > 8 ==> gates[8].open;
    assert k > 9 ==> gates[9].open;
    assert k > 10 ==> gates[10].open;
    assert k > 11 ==> gates[11].open;
  }

  lemma StatusOfGates(table: Table, req: Input, v: Verdicts)
    ensures var first := FirstClosed(Gates(table, req, v));
            RefusalStatus(table, req, v) == if first.None? then None else Some(StatusOf(first.value))
  {
    hide FirstClosed, RefusalStatus, StatusOf;
    var gates := Gates(table, req, v);
    var k := FirstClosedIndex(gates, 0);
    ClosedAt(gates, k);
    if k < 6 {
      StatusOfEarlyGates(table, req, v, gates, k);
    } else {
      StatusOfLateGates(table, req, v, gates, k);
    }
  }

  /** The proxy runs exactly once under the policy and never otherwise; a refusal is written exactly once. */
  lemma ChainIsPolicy(table: Table, req: Input, v: Verdicts)
    ensures var r := Handle(Compose(AUTH_CHAIN, Proxy), table, req, ANONYMOUS, v);
            && r.proxied == (if v.bodyRead && Policy(table, req, v) then 1 else 0)
            && (v.bodyRead ==> r.error.None?)
            && (v.bodyRead && !Policy(table, req, v) ==>
                  RefusalStatus(table, req, v).Some? && r.written == [RefusalStatus(table, req, v).value])
            && (v.bodyRead && Policy(table, req, v) ==> r.written == UpstreamStatus(v.upstream))
  {
    AuthChainReply(table, req, v);
    PolicyIsAllGates(table, req, v);
    StatusOfGates(table, req, v);
    hide Handle, Compose, Gates, FirstClosed, Policy, RefusalStatus;
  }

  /** A SkipAuth location forwards every request it can read. */
  lemma SkipChainForwards(table: Table, req: Input, v: Verdicts)
    ensures Handle(Compose(SKIP_AUTH_CHAIN, Proxy), table, req, ANONYMOUS, v)
            == if v.bodyRead then Absorb(Forward(v)) else Refuse(Internal)
  {
    assert SKIP_AUTH_CHAIN[0..] == SKIP_AUTH_CHAIN;
    HandleStep(SKIP_AUTH_CHAIN, 0, table, req, ANONYMOUS, v);
    HandleStep(SKIP_AUTH_CHAIN, 1, table, req, ANONYMOUS, v);
    HandleStep(SKIP_AUTH_CHAIN, 2, table, req, ANONYMOUS, v);
    HandleStep(SKIP_AUTH_CHAIN, 3, table, req, ANONYMOUS, v);
    HandleStep(SKIP_AUTH_CHAIN, 4, table, req, ANONYMOUS, v);
    HandleStep(SKIP_AUTH_CHAIN, 5, table, req, ANONYMOUS, v);
    hide Handle, Compose;
  }

  // ---------------------------------------------------------------- what the order guarantees

  /** What a request carries after n middlewares, told from the verdicts alone. */
  function CtxAfter(n: nat, table: Table, req: Input, v: Verdicts): Ctx {
    var step := PrepareUser(table, req);
    Ctx(if n > 4 && !AppSkipped(table, req, v) && v.app.Granted? then Some(v.app.data) else None,
        if n > 3 && step.AskUser? && v.user.Granted? then Some(UserAuthData(step.setting.skipAppAuth, v.user.data))
        else None,
        if n > 5 && req.adminToken != "" && v.admin.Granted? then Some(Admin(v.admin.data, req.adminToken)) else None)
  }

  /** Each kind of data is written by one middleware only, and is there from that one on. */
  lemma {:induction false} OrderInvariant(n: nat, table: Table, req: Input, v: Verdicts)
    requires 3 <= n <= |AUTH_CHAIN| && WalkTo(AUTH_CHAIN, n, table, req, v).Pass?
    ensures WalkTo(AUTH_CHAIN, n, table, req, v).ctx == CtxAfter(n, table, req, v)
    ensures n > 4 ==> AppSkipped(table, req, v) || v.app.Granted?
    ensures n > 5 && req.adminToken != "" ==> v.admin.Granted?
  {
    if n == 3 {
      WalkStart(table, req, v);
    } else {
      OrderInvariant(n - 1, table, req, v);
      hide PrepareUser;
    }
  }

  lemma WalkStart(table: Table, req: Input, v: Verdicts)
    ensures WalkTo(AUTH_CHAIN, 3, table, req, v) == if v.bodyRead then Pass(ANONYMOUS) else Stop(Internal)
  {
    assert WalkTo(AUTH_CHAIN, 1, table, req, v) == if v.bodyRead then Pass(ANONYMOUS) else Stop(Internal);
    assert WalkTo(AUTH_CHAIN, 2, table, req, v) == WalkTo(AUTH_CHAIN, 1, table, req, v);
  }

  /** The "get auth data" errors of Authorize, Throttling and DailyLimit cannot occur in this order. */
  lemma AuthDataAlwaysThere(n: nat, table: Table, req: Input, v: Verdicts)
    requires n < |AUTH_CHAIN| && AUTH_CHAIN[n] in {Authorize, Throttling, DailyLimit}
    requires WalkTo(AUTH_CHAIN, n, table, req, v).Pass?
    ensures var c := WalkTo(AUTH_CHAIN, n, table, req, v).ctx; c.SkipAppAuth() || c.app.Some?
  {
    OrderInvariant(n, table, req, v);
  }

  /** Nothing after UserAuthenticate changes whether the application checks are skipped. */
  lemma {:induction false} SkipAppAuthConstant(m: nat, n: nat, table: Table, req: Input, v: Verdicts)
    requires 3 < m <= n <= |AUTH_CHAIN|
    requires WalkTo(AUTH_CHAIN, m, table, req, v).Pass? && WalkTo(AUTH_CHAIN, n, table, req, v).Pass?
    ensures WalkTo(AUTH_CHAIN, m, table, req, v).ctx.SkipAppAuth()
            == WalkTo(AUTH_CHAIN, n, table, req, v).ctx.SkipAppAuth()
  {
    OrderInvariant(m, table, req, v);
    OrderInvariant(n, table, req, v);
  }
}
