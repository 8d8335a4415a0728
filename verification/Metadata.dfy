/** The metadata the gRPC proxy sends along (proxy/grpc.go): a map filled by iterating an unordered map. */
module Metadata {
  import opened Wrappers
  import opened Domain
  import opened Keys
  import opened Request

  type MD = map<string, seq<string>>

  const X_ADMIN_ID := "x-admin-id"

  /** Header names defined by the kit library. */
  datatype Names = Names(
    proxyMethod: string, requestId: string, systemId: string, domainId: string, serviceId: string,
    applicationId: string, applicationName: string)

  /** What a call depends on besides the request's authentication state; library functions are parameters. */
  datatype Call = Call(
    names: Names, endpoint: string, requestId: string, skipAuth: bool,
    lower: string -> string, base64: string -> string)

  // ---------------------------------------------------------------- what each source contributes

  function Basics(c: Call): MD {
    map[c.names.proxyMethod := [c.endpoint]][c.names.requestId := [c.requestId]]
  }

  function WithApp(c: Call, app: Option<AppAuthData>, md: MD): MD {
    match app
    case None => md
    case Some(a) =>
      md[c.names.systemId := [Dec(a.systemId)]]
        [c.names.domainId := [Dec(a.domainId)]]
        [c.names.serviceId := [Dec(a.serviceId)]]
        [c.names.applicationId := [Dec(a.applicationId)]]
        [c.names.applicationName := [c.base64(a.appName)]]
  }

  function WithAdmin(admin: Option<Admin>, md: MD): MD {
    match admin
    case None => md
    case Some(a) => md[X_ADMIN_ID := [Dec(a.id)]]
  }

  /** The metadata key a user header is forwarded under. MD.Set lower-cases once more. */
  function ForwardKey(lower: string -> string, header: string): Option<string> {
    if "x-" <= lower(header) then Some(lower(lower(header))) else None
  }

  /** MD.Set ignores an empty list of values. */
  function Forward(lower: string -> string, header: string, values: seq<string>, md: MD): MD {
    var key := ForwardKey(lower, header);
    if key.None? || values == [] then md else md[key.value := values]
  }

  /** Forwarding the headers in this order. */
  function ForwardAll(lower: string -> string, order: seq<string>, headers: MD, md: MD): MD
    requires forall h | h in order :: h in headers
  {
    if order == [] then md
    else
      var n := |order| - 1;
      Forward(lower, order[n], headers[order[n]], ForwardAll(lower, order[..n], headers, md))
  }

  /** One way to iterate a map with these keys. */
  ghost predicate IsOrder(order: seq<string>, keys: set<string>) {
    && (forall h :: h in order <==> h in keys)
    && (forall i, j | 0 <= i < j < |order| :: order[i] != order[j])
  }

  /** The metadata that results when the user's headers are visited in this order. */
  function Outcome(c: Call, ctx: Ctx, headers: MD, order: seq<string>): MD
    requires forall h | h in order :: h in headers
  {
    WithAdmin(ctx.admin, ForwardAll(c.lower, order, headers, WithApp(c, ctx.app, Basics(c))))
  }

  /** The user's headers with the identity header among them; None when there is no map to write into. */
  function UserHeaders(user: Option<UserAuthData>): Option<MD> {
    match user
    case None => Some(map[])
    case Some(u) =>
      if u.data.extraHeaders.None? then None
      else Some(u.data.extraHeaders.value[u.data.identityHeader := [u.data.identity]])
  }

  lemma OrderGrows(order: seq<string>, keys: set<string>, h: string)
    requires IsOrder(order, keys) && h !in keys
    ensures IsOrder(order + [h], keys + {h})
  {
    assert forall k | k in order + [h] :: k in order || k == h;
    assert (order + [h])[|order|] == h;
    assert forall i | 0 <= i < |order| :: (order + [h])[i] == order[i] && order[i] in order;
  }

  /** The user's answer came without a header map, and the identity is to be written into it. */
  predicate Panics(c: Call, ctx: Ctx) { !c.skipAuth && ctx.user.Some? && ctx.user.value.data.extraHeaders.None? }

  /** None is the panic of writing into a nil map. */
  method WriteMetadata(c: Call, ctx: Ctx) returns (md: Option<MD>)
    ensures md.None? <==> Panics(c, ctx)
    ensures c.skipAuth ==> md == Some(Basics(c))
    ensures !c.skipAuth && !Panics(c, ctx) ==>
              var headers := UserHeaders(ctx.user).value;
              exists order :: IsOrder(order, headers.Keys) && md == Some(Outcome(c, ctx, headers, order))
  {
    var m: MD := map[c.names.proxyMethod := [c.endpoint]];
    m := m[c.names.requestId := [c.requestId]];
    if c.skipAuth {
      return Some(m);
    }
    if ctx.app.Some? {
      var a := ctx.app.value;
      m := m[c.names.systemId := [Dec(a.systemId)]];
      m := m[c.names.domainId := [Dec(a.domainId)]];
      m := m[c.names.serviceId := [Dec(a.serviceId)]];
      m := m[c.names.applicationId := [Dec(a.applicationId)]];
      m := m[c.names.applicationName := [c.base64(a.appName)]];
    }
    ghost var base := WithApp(c, ctx.app, Basics(c));
    var headers: MD := map[];
    if ctx.user.Some? {
      if ctx.user.value.data.extraHeaders.None? {
        return None;
      }
      headers := ctx.user.value.data.extraHeaders.value;
      headers := headers[ctx.user.value.data.identityHeader := [ctx.user.value.data.identity]];
    }
    assert UserHeaders(ctx.user) == Some(headers);
    ghost var order: seq<string> := [];
    var left := headers.Keys;
    while left != {}
      invariant left <= headers.Keys && IsOrder(order, headers.Keys - left)
      invariant m == ForwardAll(c.lower, order, headers, base)
      decreases left
    {
      var h :| h in left;
      OrderGrows(order, headers.Keys - left, h);
      assert (order + [h])[..|order|] == order;
      left := left - {h};
      order := order + [h];
      assert headers.Keys - left == headers.Keys - left - {h} + {h};
      var key := c.lower(h);
      if "x-" <= key {
        if headers[h] != [] {
          m := m[c.lower(key) := headers[h]];
        }
      }
    }
    assert headers.Keys - left == headers.Keys;
    if ctx.admin.Some? {
      m := m[X_ADMIN_ID := [Dec(ctx.admin.value.id)]];
    }
    assert m == Outcome(c, ctx, headers, order);
    md := Some(m);
  }

  /** An authenticated user without a header map, as an authority may answer: the whole call panics. */
  method NilHeaders() returns (c: Call, ctx: Ctx, md: Option<MD>)
    ensures !c.skipAuth && ctx == Ctx(None, Some(UserAuthData(true, UserData("7", "x-user-id", None))), None)
    ensures Panics(c, ctx) && md == None
  {
    var names := Names("proxy", "request-id", "system", "domain", "service", "application", "name");
    c := Call(names, "orders/list", "1", false, AsciiLower, s => s);
    ctx := Ctx(None, Some(UserAuthData(true, UserData("7", "x-user-id", None))), None);
    md := WriteMetadata(c, ctx);
  }

  // ---------------------------------------------------------------- who wins a key

  predicate Supplies(lower: string -> string, headers: MD, h: string, key: string) {
    h in headers && headers[h] != [] && ForwardKey(lower, h) == Some(key)
  }

  function Value(md: MD, key: string): Option<seq<string>> { if key in md then Some(md[key]) else None }

  /** The last header visited that supplies the key. */
  function Winner(lower: string -> string, order: seq<string>, headers: MD, key: string): (w: Option<string>)
    ensures w.Some? ==> w.value in order && Supplies(lower, headers, w.value, key)
    ensures w.None? ==> forall h | h in order :: !Supplies(lower, headers, h, key)
  {
    if order == [] then None
    else
      var n := |order| - 1;
      if Supplies(lower, headers, order[n], key) then Some(order[n])
      else
        assert order == order[..n] + [order[n]];
        Winner(lower, order[..n], headers, key)
  }

  lemma {:induction false} ForwardedValue(lower: string -> string, order: seq<string>, headers: MD, md: MD, key: string)
    requires forall h | h in order :: h in headers
    ensures var w := Winner(lower, order, headers, key);
            Value(ForwardAll(lower, order, headers, md), key)
            == if w.Some? then Some(headers[w.value]) else Value(md, key)
  {
    if order != [] {
      ForwardedValue(lower, order[..|order| - 1], headers, md, key);
    }
  }

  /** The admin id is written after the headers, so it wins its key in any order. */
  predicate Overwritten(admin: Option<Admin>, key: string) { admin.Some? && key == X_ADMIN_ID }

  /**
   For every iteration order: the admin id wins over the user's `x-` headers, these over the
   application's identity, and an empty list of values leaves what was there before.
   */
  lemma Precedence(c: Call, ctx: Ctx, headers: MD, order: seq<string>, key: string)
    requires IsOrder(order, headers.Keys)
    ensures var v := Value(Outcome(c, ctx, headers, order), key);
            if Overwritten(ctx.admin, key) then v == Some([Dec(ctx.admin.value.id)])
            else if exists h :: Supplies(c.lower, headers, h, key) then
              exists h :: Supplies(c.lower, headers, h, key) && v == Some(headers[h])
            else v == Value(WithApp(c, ctx.app, Basics(c)), key)
  {
    ForwardedValue(c.lower, order, headers, WithApp(c, ctx.app, Basics(c)), key);
    hide ForwardAll, WithApp, Basics, Dec, ForwardKey;
    var w := Winner(c.lower, order, headers, key);
    if w.None? {
      assert forall h | h in headers :: h in order;
    }
  }

  /** The kit's header names are different from each other and from the admin header. */
  predicate Different(n: Names) {
    var all := [n.proxyMethod, n.requestId, n.systemId, n.domainId, n.serviceId, n.applicationId, n.applicationName,
                "x-admin-id"];
    forall i, j | 0 <= i < j < |all| :: all[i] != all[j]
  }

  lemma DifferentNames(n: Names)
    requires Different(n)
    ensures n.proxyMethod !in {n.requestId, n.systemId, n.domainId, n.serviceId, n.applicationId, n.applicationName}
    ensures n.requestId !in {n.systemId, n.domainId, n.serviceId, n.applicationId, n.applicationName}
    ensures n.systemId !in {n.domainId, n.serviceId, n.applicationId, n.applicationName}
    ensures n.domainId !in {n.serviceId, n.applicationId, n.applicationName}
    ensures n.serviceId !in {n.applicationId, n.applicationName} && n.applicationId != n.applicationName
    ensures "x-admin-id" !in {n.proxyMethod, n.requestId, n.systemId, n.domainId, n.serviceId, n.applicationId,
                              n.applicationName}
  {
    var all := [n.proxyMethod, n.requestId, n.systemId, n.domainId, n.serviceId, n.applicationId, n.applicationName,
                "x-admin-id"];
    assert forall i, j | 0 <= i < j < |all| :: all[i] != all[j];
    assert all[0] == n.proxyMethod && all[1] == n.requestId && all[2] == n.systemId && all[3] == n.domainId;
    assert all[4] == n.serviceId && all[5] == n.applicationId && all[6] == n.applicationName && all[7] == "x-admin-id";
  }

  /** Each kit header tells its own fact about the call and its application, unless a user header supplies its key. */
  lemma IdentityHeaders(c: Call, ctx: Ctx, headers: MD, order: seq<string>)
    requires IsOrder(order, headers.Keys) && Different(c.names)
    ensures var md, n := Outcome(c, ctx, headers, order), c.names;
            var free := (key: string) => !exists h :: Supplies(c.lower, headers, h, key);
            && (free(n.proxyMethod) ==> Value(md, n.proxyMethod) == Some([c.endpoint]))
            && (free(n.requestId) ==> Value(md, n.requestId) == Some([c.requestId]))
            && (ctx.app.Some? ==>
                  var a := ctx.app.value;
                  && (free(n.systemId) ==> Value(md, n.systemId) == Some([Dec(a.systemId)]))
                  && (free(n.domainId) ==> Value(md, n.domainId) == Some([Dec(a.domainId)]))
                  && (free(n.serviceId) ==> Value(md, n.serviceId) == Some([Dec(a.serviceId)]))
                  && (free(n.applicationId) ==> Value(md, n.applicationId) == Some([Dec(a.applicationId)]))
                  && (free(n.applicationName) ==> Value(md, n.applicationName) == Some([c.base64(a.appName)])))
            && (ctx.admin.Some? ==> Value(md, "x-admin-id") == Some([Dec(ctx.admin.value.id)]))
  {
    BaseValues(c, ctx.app);
    assert X_ADMIN_ID == "x-admin-id";
    hide Outcome, Supplies, Dec, WithApp, Basics;
    var base := WithApp(c, ctx.app, Basics(c));
    forall key: string | key != "x-admin-id" && !(exists h :: Supplies(c.lower, headers, h, key))
      ensures Value(Outcome(c, ctx, headers, order), key) == Value(base, key)
    {
      Precedence(c, ctx, headers, order, key);
    }
    Precedence(c, ctx, headers, order, "x-admin-id");
  }

  lemma BaseValues(c: Call, app: Option<AppAuthData>)
    requires Different(c.names)
    ensures var base, n := WithApp(c, app, Basics(c)), c.names;
            && "x-admin-id" !in {n.proxyMethod, n.requestId, n.systemId, n.domainId, n.serviceId, n.applicationId,
                                 n.applicationName}
            && Value(base, n.proxyMethod) == Some([c.endpoint]) && Value(base, n.requestId) == Some([c.requestId])
            && (app.Some? ==>
                  var a := app.value;
                  && Value(base, n.systemId) == Some([Dec(a.systemId)])
                  && Value(base, n.domainId) == Some([Dec(a.domainId)])
                  && Value(base, n.serviceId) == Some([Dec(a.serviceId)])
                  && Value(base, n.applicationId) == Some([Dec(a.applicationId)])
                  && Value(base, n.applicationName) == Some([c.base64(a.appName)]))
  {
    DifferentNames(c.names);
    hide Dec, Different;
  }

  /**
   A header of the user, the identity among them, whose lower-cased name no other one shares: it arrives under that name
   if and only if the name starts with `x-`, and never in place of the admin id.
   */
  lemma UserHeaderForwarded(c: Call, ctx: Ctx, extra: MD, order: seq<string>, h: string)
    requires ctx.user.Some? && ctx.user.value.data.extraHeaders == Some(extra)
    requires IsOrder(order, UserHeaders(ctx.user).value.Keys)
    requires h == ctx.user.value.data.identityHeader || (h in extra && extra[h] != [])
    requires forall h' | h' in extra || h' == ctx.user.value.data.identityHeader ::
               c.lower(c.lower(h')) == c.lower(c.lower(h)) ==> h' == h
    ensures var u, name := ctx.user.value.data, c.lower(h);
            var key, md := c.lower(name), Outcome(c, ctx, UserHeaders(ctx.user).value, order);
            Value(md, key)
            == if ctx.admin.Some? && key == "x-admin-id" then Some([Dec(ctx.admin.value.id)])
               else if |name| >= 2 && name[0] == 'x' && name[1] == '-' then
                 Some(if h == u.identityHeader then [u.identity] else extra[h])
               else Value(WithApp(c, ctx.app, Basics(c)), key)
  {
    var headers := UserHeaders(ctx.user).value;
    var name := c.lower(h);
    var key := c.lower(name);
    assert "x-" <= name <==> |name| >= 2 && name[0] == 'x' && name[1] == '-';
    Precedence(c, ctx, headers, order, key);
    assert Supplies(c.lower, headers, h, key) <==> "x-" <= name;
    hide Outcome, Dec, WithApp, Basics;
  }

  // ---------------------------------------------------------------- when the order does not matter

  /** Both headers have values and are forwarded under one key that the admin id does not replace. */
  predicate Clash(lower: string -> string, admin: Option<Admin>, headers: MD, h: string, h': string)
    requires h in headers && h' in headers
  {
    && headers[h] != [] && headers[h'] != []
    && ForwardKey(lower, h).Some? && ForwardKey(lower, h) == ForwardKey(lower, h')
    && !Overwritten(admin, ForwardKey(lower, h).value)
  }

  /** Headers forwarded under one key carry the same values, unless the admin id replaces them. */
  predicate Unambiguous(lower: string -> string, admin: Option<Admin>, headers: MD) {
    forall h, h' | h in headers && h' in headers && Clash(lower, admin, headers, h, h') :: headers[h] == headers[h']
  }

  lemma SameValues(md: MD, md': MD)
    requires forall key :: Value(md, key) == Value(md', key)
    ensures md == md'
  {
    forall key ensures key in md <==> key in md' {
      assert Value(md, key) == Value(md', key);
    }
    forall key | key in md ensures md[key] == md'[key] {
      assert Value(md, key) == Value(md', key);
    }
  }

  lemma OrderDoesNotMatter(c: Call, ctx: Ctx, headers: MD, order: seq<string>, order': seq<string>)
    requires IsOrder(order, headers.Keys) && IsOrder(order', headers.Keys) && Unambiguous(c.lower, ctx.admin, headers)
    ensures Outcome(c, ctx, headers, order) == Outcome(c, ctx, headers, order')
  {
    hide Outcome, ForwardKey, Overwritten;
    var md, md' := Outcome(c, ctx, headers, order), Outcome(c, ctx, headers, order');
    forall key ensures Value(md, key) == Value(md', key) {
      Precedence(c, ctx, headers, order, key);
      Precedence(c, ctx, headers, order', key);
    }
    SameValues(md, md');
  }

  lemma SomeOrder(keys: set<string>) returns (order: seq<string>)
    ensures IsOrder(order, keys)
    decreases keys
  {
    if keys == {} {
      order := [];
    } else {
      var h :| h in keys;
      order := SomeOrder(keys - {h});
      OrderGrows(order, keys - {h}, h);
      order := order + [h];
      assert keys - {h} + {h} == keys;
    }
  }

  /** Some order visits h last. */
  lemma VisitedLast(c: Call, ctx: Ctx, headers: MD, h: string, key: string) returns (order: seq<string>)
    requires Supplies(c.lower, headers, h, key) && !Overwritten(ctx.admin, key)
    ensures IsOrder(order, headers.Keys) && Value(Outcome(c, ctx, headers, order), key) == Some(headers[h])
  {
    var before := SomeOrder(headers.Keys - {h});
    OrderGrows(before, headers.Keys - {h}, h);
    assert headers.Keys - {h} + {h} == headers.Keys;
    order := before + [h];
    ForwardedValue(c.lower, order, headers, WithApp(c, ctx.app, Basics(c)), key);
    assert Winner(c.lower, order, headers, key) == Some(h);
  }

  /** The metadata is the same for every iteration order exactly when the headers are unambiguous. */
  lemma OrderIndependence(c: Call, ctx: Ctx, headers: MD)
    ensures (forall order, order' | IsOrder(order, headers.Keys) && IsOrder(order', headers.Keys) ::
               Outcome(c, ctx, headers, order) == Outcome(c, ctx, headers, order'))
            <==> Unambiguous(c.lower, ctx.admin, headers)
  {
    hide Outcome, Overwritten;
    if Unambiguous(c.lower, ctx.admin, headers) {
      forall order, order' | IsOrder(order, headers.Keys) && IsOrder(order', headers.Keys)
        ensures Outcome(c, ctx, headers, order) == Outcome(c, ctx, headers, order')
      {
        OrderDoesNotMatter(c, ctx, headers, order, order');
      }
    } else {
      var h, h' :| h in headers && h' in headers && Clash(c.lower, ctx.admin, headers, h, h')
                   && headers[h] != headers[h'];
      var key := ForwardKey(c.lower, h).value;
      var order := VisitedLast(c, ctx, headers, h, key);
      var order' := VisitedLast(c, ctx, headers, h', key);
    }
  }

  function AsciiLower(s: string): string {
    seq(|s|, i requires 0 <= i < |s| => if 'A' <= s[i] <= 'Z' then s[i] - 'A' + 'a' else s[i])
  }

  /** Two spellings of one name: the last one visited wins, so the metadata depends on the order. */
  lemma SpellingsClash(c: Call, ctx: Ctx)
    requires c.lower == AsciiLower
    ensures var headers: MD := map["X-Role" := ["a"], "x-role" := ["b"]];
            && !Unambiguous(c.lower, ctx.admin, headers)
            && Value(Outcome(c, ctx, headers, ["X-Role", "x-role"]), "x-role") == Some(["b"])
            && Value(Outcome(c, ctx, headers, ["x-role", "X-Role"]), "x-role") == Some(["a"])
  {
    var headers: MD := map["X-Role" := ["a"], "x-role" := ["b"]];
    assert AsciiLower("X-Role") == "x-role" && AsciiLower("x-role") == "x-role";
    assert Supplies(c.lower, headers, "X-Role", "x-role") && Supplies(c.lower, headers, "x-role", "x-role");
    assert "x-role"[2] != X_ADMIN_ID[2];
    assert Clash(c.lower, ctx.admin, headers, "X-Role", "x-role");
    ForwardedValue(c.lower, ["X-Role", "x-role"], headers, WithApp(c, ctx.app, Basics(c)), "x-role");
    ForwardedValue(c.lower, ["x-role", "X-Role"], headers, WithApp(c, ctx.app, Basics(c)), "x-role");
  }
}
