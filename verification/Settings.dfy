/** Construction and use of the user authentication settings (service/user_authentication.go). */
module Settings {
  import opened Wrappers

  // conf.CustomAuth
  datatype ProviderConfig = ProviderConfig(
    name: string, kind: string, header: Option<string>, cookie: Option<(string, bool)>)

  datatype SettingConfig = SettingConfig(
    moduleNames: seq<string>, providers: seq<string>, endpoint: string, cacheDataInSec: int, skipAppAuth: bool)

  datatype CustomAuth = CustomAuth(providers: seq<ProviderConfig>, settings: seq<SettingConfig>)

  datatype TokenProvider =
    | HeaderProvider(name: string, headerName: string)
    | CookieProvider(name: string, cookieName: string, validate: bool)

  datatype Setting = Setting(providers: seq<TokenProvider>, endpoint: string, cacheDuration: int, skipAppAuth: bool)

  type Table = map<string, Setting>

  /** One second in the clock's unit, a nanosecond. */
  const SECOND := 1_000_000_000

  datatype BuildError =
    | DuplicateProvider(index: nat)
    | BadProvider(index: nat)
    | UnknownProvider(setting: nat, name: string)
    | DuplicateModule(setting: nat, name: string)

  /** The part its kind calls for is there, and the kind is known. */
  predicate Complete(cfg: ProviderConfig) {
    (cfg.kind == "HEADER" && cfg.header.Some?) || (cfg.kind == "COOKIE" && cfg.cookie.Some?)
  }

  /** The provider has the configured name and reads the configured place. */
  predicate BuiltFrom(cfg: ProviderConfig, p: TokenProvider) {
    && p.name == cfg.name
    && (cfg.kind == "HEADER" ==> p.HeaderProvider? && cfg.header == Some(p.headerName))
    && (cfg.kind == "COOKIE" ==> p.CookieProvider? && cfg.cookie == Some((p.cookieName, p.validate)))
    && Complete(cfg)
  }

  function FromConfig(cfg: ProviderConfig): (p: Option<TokenProvider>)
    ensures p.Some? <==> Complete(cfg)
    ensures p.Some? ==> BuiltFrom(cfg, p.value)
  {
    if cfg.kind == "HEADER" then
      if cfg.header.None? then None else Some(HeaderProvider(cfg.name, cfg.header.value))
    else if cfg.kind == "COOKIE" then
      if cfg.cookie.None? then None else Some(CookieProvider(cfg.name, cfg.cookie.value.0, cfg.cookie.value.1))
    else None
  }

  // ---------------------------------------------------------------- what a correct configuration is

  predicate Unique(s: seq<string>) { forall i, j | 0 <= i < j < |s| :: s[i] != s[j] }

  function Names(ps: seq<ProviderConfig>): (ns: seq<string>)
    ensures |ns| == |ps| && forall k | 0 <= k < |ps| :: ns[k] == ps[k].name
  {
    seq(|ps|, k requires 0 <= k < |ps| => ps[k].name)
  }

  predicate ProvidersFine(ps: seq<ProviderConfig>) {
    Unique(Names(ps)) && forall k | 0 <= k < |ps| :: Complete(ps[k])
  }

  predicate KnownProviders(s: SettingConfig, ps: seq<ProviderConfig>) {
    forall n | n in s.providers :: n in Names(ps)
  }

  /** All module names in configuration order. */
  function ModuleNames(settings: seq<SettingConfig>): seq<string> {
    if settings == [] then []
    else ModuleNames(settings[..|settings| - 1]) + settings[|settings| - 1].moduleNames
  }

  predicate SettingsFine(settings: seq<SettingConfig>, ps: seq<ProviderConfig>) {
    && (forall k | 0 <= k < |settings| :: KnownProviders(settings[k], ps))
    && Unique(ModuleNames(settings))
  }

  /** Provider names unique, providers well formed, references resolved, module names unique across all lists. */
  predicate WellFormed(cfg: CustomAuth) {
    ProvidersFine(cfg.providers) && SettingsFine(cfg.settings, cfg.providers)
  }

  /** The configured provider with this name. */
  ghost predicate Provides(ps: seq<ProviderConfig>, name: string, p: TokenProvider) {
    exists k | 0 <= k < |ps| :: ps[k].name == name && BuiltFrom(ps[k], p)
  }

  /** The setting holds the named providers in configured order. */
  ghost predicate Realizes(s: Setting, c: SettingConfig, ps: seq<ProviderConfig>) {
    && s.endpoint == c.endpoint
    && s.cacheDuration == c.cacheDataInSec * 1_000_000_000
    && s.skipAppAuth == c.skipAppAuth
    && |s.providers| == |c.providers|
    && forall k | 0 <= k < |c.providers| :: Provides(ps, c.providers[k], s.providers[k])
  }

  /** Exactly the listed modules, each with its own list's setting. */
  ghost predicate IsTable(cfg: CustomAuth, t: Table) {
    && (forall m :: m in t <==> m in ModuleNames(cfg.settings))
    && forall k, m | 0 <= k < |cfg.settings| && m in cfg.settings[k].moduleNames ::
         m in t && Realizes(t[m], cfg.settings[k], cfg.providers)
  }

  predicate BlamesProvider(ps: seq<ProviderConfig>, e: BuildError) {
    match e
    case DuplicateProvider(i) => i < |ps| && ProvidersFine(ps[..i]) && ps[i].name in Names(ps[..i])
    case BadProvider(i) =>
      i < |ps| && ProvidersFine(ps[..i]) && ps[i].name !in Names(ps[..i]) && !Complete(ps[i])
    case _ => false
  }

  /** n is the first name that is not known. */
  predicate FirstUnknown(names: seq<string>, known: seq<string>, n: string) {
    exists k | 0 <= k < |names| :: names[k] == n && n !in known && forall j | 0 <= j < k :: names[j] in known
  }

  /** m is the first name that repeats an earlier one, of these lists or of its own. */
  predicate FirstTaken(before: seq<string>, names: seq<string>, m: string) {
    exists a | 0 <= a < |names| :: names[a] == m && Unique(before + names[..a]) && m in before + names[..a]
  }

  /** The error names the first fault in scanning order. */
  predicate Blames(cfg: CustomAuth, e: BuildError) {
    match e
    case UnknownProvider(i, n) =>
      && ProvidersFine(cfg.providers) && i < |cfg.settings| && SettingsFine(cfg.settings[..i], cfg.providers)
      && FirstUnknown(cfg.settings[i].providers, Names(cfg.providers), n)
    case DuplicateModule(i, m) =>
      && ProvidersFine(cfg.providers) && i < |cfg.settings| && SettingsFine(cfg.settings[..i], cfg.providers)
      && KnownProviders(cfg.settings[i], cfg.providers)
      && FirstTaken(ModuleNames(cfg.settings[..i]), cfg.settings[i].moduleNames, m)
    case _ => BlamesProvider(cfg.providers, e)
  }

  lemma {:induction false} ModuleNamesPrefix(settings: seq<SettingConfig>, i: nat)
    requires i <= |settings|
    ensures ModuleNames(settings[..i]) <= ModuleNames(settings)
    decreases |settings|
  {
    if i == |settings| {
      assert settings[..i] == settings;
    } else {
      var n := |settings| - 1;
      ModuleNamesPrefix(settings[..n], i);
      assert settings[..n][..i] == settings[..i];
    }
  }

  lemma {:induction false} ModuleNamesMember(settings: seq<SettingConfig>, k: nat, m: string)
    requires k < |settings| && m in settings[k].moduleNames
    ensures m in ModuleNames(settings)
  {
    ModuleNamesPrefix(settings, k + 1);
    assert settings[..k + 1][..k] == settings[..k];
    assert ModuleNames(settings[..k + 1]) == ModuleNames(settings[..k]) + settings[k].moduleNames;
    var a := |ModuleNames(settings[..k])|;
    var i :| 0 <= i < |settings[k].moduleNames| && settings[k].moduleNames[i] == m;
    assert ModuleNames(settings[..k + 1])[a + i] == m;
  }

  lemma UniquePrefix(p: seq<string>, s: seq<string>)
    requires p <= s && Unique(s)
    ensures Unique(p)
  {
  }

  lemma BlamedProvider(ps: seq<ProviderConfig>, e: BuildError)
    requires BlamesProvider(ps, e)
    ensures !ProvidersFine(ps)
  {
    if e.DuplicateProvider? {
      var i := e.index;
      var k :| 0 <= k < i && Names(ps[..i])[k] == ps[i].name;
      assert Names(ps)[k] == Names(ps)[i];
    }
  }

  /** A fault in a prefix is a fault of the whole configuration. */
  lemma BlamedIsNotWellFormed(cfg: CustomAuth, e: BuildError)
    requires Blames(cfg, e)
    ensures !WellFormed(cfg)
  {
    match e
    case UnknownProvider(i, n) =>
      assert !KnownProviders(cfg.settings[i], cfg.providers);
    case DuplicateModule(i, m) =>
      var before, names := ModuleNames(cfg.settings[..i]), cfg.settings[i].moduleNames;
      var a :| 0 <= a < |names| && names[a] == m && m in before + names[..a];
      assert before + names[..a] + [m] + names[a + 1..] == before + names;
      Repeats(before + names[..a], names[a + 1..], m);
      NamesAppend(cfg.settings, i);
      ModuleNamesPrefix(cfg.settings, i + 1);
      if Unique(ModuleNames(cfg.settings)) {
        UniquePrefix(ModuleNames(cfg.settings[..i + 1]), ModuleNames(cfg.settings));
      }
    case _ => BlamedProvider(cfg.providers, e);
  }

  lemma UniqueAppend(s: seq<string>, x: string)
    requires Unique(s)
    ensures Unique(s + [x]) <==> x !in s
  {
    var t := s + [x];
    assert forall k | 0 <= k < |s| :: t[k] == s[k];
    if x !in s {
    } else {
      var k :| 0 <= k < |s| && s[k] == x;
      assert t[k] == t[|s|];
    }
  }

  lemma Repeats(s: seq<string>, rest: seq<string>, x: string)
    requires x in s
    ensures !Unique(s + [x] + rest)
  {
    var k :| 0 <= k < |s| && s[k] == x;
    var t := s + [x] + rest;
    assert t[k] == x && t[|s|] == x;
  }

  // ---------------------------------------------------------------- the constructor

  ghost predicate ProvidersBuilt(ps: seq<ProviderConfig>, built: map<string, TokenProvider>) {
    && (forall n :: n in built <==> n in Names(ps))
    && forall n | n in built :: Provides(ps, n, built[n])
  }

  lemma ProvidersGrow(ps: seq<ProviderConfig>, c: ProviderConfig, built: map<string, TokenProvider>, p: TokenProvider)
    requires ProvidersFine(ps) && ProvidersBuilt(ps, built) && c.name !in built && BuiltFrom(c, p)
    ensures ProvidersFine(ps + [c]) && ProvidersBuilt(ps + [c], built[c.name := p])
  {
    var now, built' := ps + [c], built[c.name := p];
    assert Names(now) == Names(ps) + [c.name];
    UniqueAppend(Names(ps), c.name);
    forall n | n in built' ensures Provides(now, n, built'[n]) {
      if n == c.name {
        assert now[|ps|] == c;
      } else {
        var k :| 0 <= k < |ps| && ps[k].name == n && BuiltFrom(ps[k], built[n]);
        assert now[k] == ps[k];
      }
    }
  }

  method BuildProviders(ps: seq<ProviderConfig>) returns (r: Result<map<string, TokenProvider>, BuildError>)
    ensures r.Ok? <==> ProvidersFine(ps)
    ensures r.Ok? ==> ProvidersBuilt(ps, r.value)
    ensures r.Err? ==> BlamesProvider(ps, r.error)
  {
    var built: map<string, TokenProvider> := map[];
    for i := 0 to |ps|
      invariant ProvidersFine(ps[..i]) && ProvidersBuilt(ps[..i], built)
    {
      var c := ps[i];
      if c.name in built {
        BlamedProvider(ps, DuplicateProvider(i));
        return Err(DuplicateProvider(i));
      }
      var p := FromConfig(c);
      if p.None? {
        BlamedProvider(ps, BadProvider(i));
        return Err(BadProvider(i));
      }
      ProvidersGrow(ps[..i], c, built, p.value);
      assert ps[..i + 1] == ps[..i] + [c];
      built := built[c.name := p.value];
    }
    assert ps[..|ps|] == ps;
    return Ok(built);
  }

  method ResolveProviders(names: seq<string>, built: map<string, TokenProvider>)
    returns (r: Result<seq<TokenProvider>, string>)
    ensures r.Ok? <==> forall n | n in names :: n in built
    ensures r.Ok? ==> |r.value| == |names| && forall k | 0 <= k < |names| :: r.value[k] == built[names[k]]
    ensures r.Err? ==>
              exists k | 0 <= k < |names| ::
                names[k] == r.error && r.error !in built && forall j | 0 <= j < k :: names[j] in built
  {
    var ps := [];
    for i := 0 to |names|
      invariant |ps| == i
      invariant forall k | 0 <= k < i :: names[k] in built && ps[k] == built[names[k]]
    {
      if names[i] !in built {
        return Err(names[i]);
      }
      ps := ps + [built[names[i]]];
    }
    return Ok(ps);
  }

  /** Gives every module of one list the same setting, unless a name is already taken. */
  method PlaceModules(before: Table, names: seq<string>, setting: Setting, ghost named: seq<string>)
    returns (r: Result<Table, string>)
    requires Unique(named) && forall m :: m in before <==> m in named
    ensures r.Ok? <==> Unique(named + names)
    ensures r.Ok? ==>
              && (forall m :: m in r.value <==> m in named + names)
              && (forall m | m in named :: r.value[m] == before[m])
              && (forall m | m in names :: r.value[m] == setting)
    ensures r.Err? ==> FirstTaken(named, names, r.error)
  {
    var table := before;
    assert named + names[..0] == named;
    for a := 0 to |names|
      invariant Unique(named + names[..a])
      invariant forall m :: m in table <==> m in named + names[..a]
      invariant forall m | m in named :: table[m] == before[m]
      invariant forall m | m in names[..a] :: table[m] == setting
    {
      var m := names[a];
      ghost var seen := named + names[..a];
      assert seen + [m] == named + names[..a + 1];
      UniqueAppend(seen, m);
      if m in table {
        assert seen + [m] + names[a + 1..] == named + names;
        Repeats(seen, names[a + 1..], m);
        return Err(m);
      }
      table := table[m := setting];
    }
    assert names[..|names|] == names;
    return Ok(table);
  }

  method NewUserAuthentication(cfg: CustomAuth) returns (r: Result<Table, BuildError>)
    ensures r.Ok? <==> WellFormed(cfg)
    ensures r.Ok? ==> IsTable(cfg, r.value)
    ensures r.Err? ==> Blames(cfg, r.error)
  {
    var providers := BuildProviders(cfg.providers);
    if providers.Err? {
      return Err(providers.error);
    }
    var built := providers.value;
    var table: Table := map[];
    for i := 0 to |cfg.settings|
      invariant SettingsFine(cfg.settings[..i], cfg.providers)
      invariant IsTable(CustomAuth(cfg.providers, cfg.settings[..i]), table)
    {
      var c := cfg.settings[i];
      var resolved := ResolveProviders(c.providers, built);
      if resolved.Err? {
        BlamedIsNotWellFormed(cfg, UnknownProvider(i, resolved.error));
        return Err(UnknownProvider(i, resolved.error));
      }
      var setting := Setting(resolved.value, c.endpoint, c.cacheDataInSec * SECOND, c.skipAppAuth);
      NamesAppend(cfg.settings, i);
      var placed := PlaceModules(table, c.moduleNames, setting, ModuleNames(cfg.settings[..i]));
      if placed.Err? {
        BlamedIsNotWellFormed(cfg, DuplicateModule(i, placed.error));
        return Err(DuplicateModule(i, placed.error));
      }
      TableGrows(cfg, i, table, setting, placed.value);
      table := placed.value;
    }
    assert cfg.settings[..|cfg.settings|] == cfg.settings;
    return Ok(table);
  }

  lemma NamesAppend(settings: seq<SettingConfig>, i: nat)
    requires i < |settings|
    ensures ModuleNames(settings[..i + 1]) == ModuleNames(settings[..i]) + settings[i].moduleNames
  {
    assert settings[..i + 1][..i] == settings[..i];
  }

  lemma TableGrows(cfg: CustomAuth, i: nat, before: Table, setting: Setting, table: Table)
    requires i < |cfg.settings| && SettingsFine(cfg.settings[..i], cfg.providers)
    requires IsTable(CustomAuth(cfg.providers, cfg.settings[..i]), before)
    requires Realizes(setting, cfg.settings[i], cfg.providers)
    requires Unique(ModuleNames(cfg.settings[..i]) + cfg.settings[i].moduleNames)
    requires forall m :: m in table <==> m in ModuleNames(cfg.settings[..i]) + cfg.settings[i].moduleNames
    requires forall m | m in ModuleNames(cfg.settings[..i]) :: m in before && table[m] == before[m]
    requires forall m | m in cfg.settings[i].moduleNames :: table[m] == setting
    ensures IsTable(CustomAuth(cfg.providers, cfg.settings[..i + 1]), table)
    ensures KnownProviders(cfg.settings[i], cfg.providers) ==> SettingsFine(cfg.settings[..i + 1], cfg.providers)
  {
    NamesAppend(cfg.settings, i);
    var s := cfg.settings[..i + 1];
    assert s[..i] == cfg.settings[..i] && s[i] == cfg.settings[i];
    forall k, m | 0 <= k < |s| && m in s[k].moduleNames
      ensures m in table && Realizes(table[m], s[k], cfg.providers)
    {
      if k < i {
        assert s[k] == cfg.settings[..i][k];
        ModuleNamesMember(cfg.settings[..i], k, m);
      }
    }
  }

  /** A well-formed configuration has only one table. */
  lemma TableUnique(cfg: CustomAuth, t: Table, t': Table)
    requires WellFormed(cfg) && IsTable(cfg, t) && IsTable(cfg, t')
    ensures t == t'
  {
    forall m | m in ModuleNames(cfg.settings) ensures t[m] == t'[m] {
      var k := OwnerOf(cfg.settings, m);
      var ns := cfg.settings[k].providers;
      forall j | 0 <= j < |ns| ensures t[m].providers[j] == t'[m].providers[j] {
        ProviderUnique(cfg.providers, ns[j], t[m].providers[j], t'[m].providers[j]);
      }
    }
  }

  lemma {:induction false} OwnerOf(settings: seq<SettingConfig>, m: string) returns (k: nat)
    requires m in ModuleNames(settings)
    ensures k < |settings| && m in settings[k].moduleNames
  {
    var n := |settings| - 1;
    if m in settings[n].moduleNames {
      k := n;
    } else {
      k := OwnerOf(settings[..n], m);
    }
  }

  lemma ProviderUnique(ps: seq<ProviderConfig>, n: string, p: TokenProvider, p': TokenProvider)
    requires Unique(Names(ps)) && Provides(ps, n, p) && Provides(ps, n, p')
    ensures p == p'
  {
    var k :| 0 <= k < |ps| && ps[k].name == n && BuiltFrom(ps[k], p);
    var k' :| 0 <= k' < |ps| && ps[k'].name == n && BuiltFrom(ps[k'], p');
    assert Names(ps)[k] == Names(ps)[k'];
  }

  // ---------------------------------------------------------------- the error is determined

  lemma ProviderFaultsApart(ps: seq<ProviderConfig>, e: BuildError, e': BuildError)
    requires BlamesProvider(ps, e) && BlamesProvider(ps, e')
    ensures e.index == e'.index
  {
    if e.index < e'.index {
      EarlierProviderFault(ps, e, e'.index);
    } else if e'.index < e.index {
      EarlierProviderFault(ps, e', e.index);
    }
  }

  lemma EarlierProviderFault(ps: seq<ProviderConfig>, e: BuildError, j: nat)
    requires BlamesProvider(ps, e) && e.index < j <= |ps|
    ensures !ProvidersFine(ps[..j])
  {
    assert ps[..j][..e.index] == ps[..e.index] && ps[..j][e.index] == ps[e.index];
    BlamedProvider(ps[..j], e);
  }

  lemma EarlierSettingFault(cfg: CustomAuth, e: BuildError, j: nat)
    requires Blames(cfg, e) && (e.UnknownProvider? || e.DuplicateModule?) && e.setting < j <= |cfg.settings|
    ensures !SettingsFine(cfg.settings[..j], cfg.providers)
  {
    var i := e.setting;
    var s := cfg.settings[..j];
    assert s[..i] == cfg.settings[..i] && s[i] == cfg.settings[i];
    BlamedIsNotWellFormed(CustomAuth(cfg.providers, s), e);
  }

  /** The constructor's error is determined by the configuration: the first fault has one description. */
  lemma BlameUnique(cfg: CustomAuth, e: BuildError, e': BuildError)
    requires Blames(cfg, e) && Blames(cfg, e')
    ensures e == e'
  {
    if BlamesProvider(cfg.providers, e) || BlamesProvider(cfg.providers, e') {
      if BlamesProvider(cfg.providers, e) { BlamedProvider(cfg.providers, e); }
      if BlamesProvider(cfg.providers, e') { BlamedProvider(cfg.providers, e'); }
      ProviderFaultsApart(cfg.providers, e, e');
    } else {
      if e.setting < e'.setting {
        EarlierSettingFault(cfg, e, e'.setting);
      } else if e'.setting < e.setting {
        EarlierSettingFault(cfg, e', e.setting);
      }
      var s := cfg.settings[e.setting];
      if e.UnknownProvider? && e'.UnknownProvider? {
        FirstUnknownUnique(s.providers, Names(cfg.providers), e.name, e'.name);
      } else if e.DuplicateModule? && e'.DuplicateModule? {
        FirstTakenUnique(ModuleNames(cfg.settings[..e.setting]), s.moduleNames, e.name, e'.name);
      }
    }
  }

  lemma FirstUnknownUnique(names: seq<string>, known: seq<string>, n: string, n': string)
    requires FirstUnknown(names, known, n) && FirstUnknown(names, known, n')
    ensures n == n'
  {
  }

  lemma FirstTakenUnique(before: seq<string>, names: seq<string>, m: string, m': string)
    requires FirstTaken(before, names, m) && FirstTaken(before, names, m')
    ensures m == m'
  {
    var a :| 0 <= a < |names| && names[a] == m && Unique(before + names[..a]) && m in before + names[..a];
    var b :| 0 <= b < |names| && names[b] == m' && Unique(before + names[..b]) && m' in before + names[..b];
    if a < b {
      TakenBefore(before, names, m, a, b);
    } else if b < a {
      TakenBefore(before, names, m', b, a);
    }
  }

  lemma TakenBefore(before: seq<string>, names: seq<string>, m: string, a: nat, b: nat)
    requires a < b <= |names| && names[a] == m && m in before + names[..a]
    ensures !Unique(before + names[..b])
  {
    Repeats(before + names[..a], names[a + 1..b], m);
    assert before + names[..a] + [m] + names[a + 1..b] == before + names[..b];
  }

  // ---------------------------------------------------------------- token extraction

  /** What one provider reads from the request. */
  datatype Extracted = Token(text: string) | Unreadable

  datatype TokenError = EmptyToken | InvalidToken

  /** The first provider with something to say decides. */
  function FirstToken(providers: seq<TokenProvider>, read: TokenProvider -> Extracted): Result<string, TokenError> {
    if providers == [] then Err(EmptyToken)
    else match read(providers[0])
      case Unreadable => Err(InvalidToken)
      case Token(t) => if t != "" then Ok(t) else FirstToken(providers[1..], read)
  }

  method ExtractToken(providers: seq<TokenProvider>, read: TokenProvider -> Extracted)
    returns (r: Result<string, TokenError>)
    ensures r == FirstToken(providers, read)
  {
    for i := 0 to |providers|
      invariant FirstToken(providers, read) == FirstToken(providers[i..], read)
    {
      match read(providers[i]) {
        case Unreadable => return Err(InvalidToken);
        case Token(t) =>
          if t != "" {
            return Ok(t);
          }
      }
    }
    return Err(EmptyToken);
  }

  predicate SilentBefore(providers: seq<TokenProvider>, read: TokenProvider -> Extracted, k: nat)
    requires k <= |providers|
  {
    forall j | 0 <= j < k :: read(providers[j]) == Token("")
  }

  ghost predicate StopsWith(providers: seq<TokenProvider>, read: TokenProvider -> Extracted, e: Extracted) {
    exists k | 0 <= k < |providers| :: SilentBefore(providers, read, k) && read(providers[k]) == e
  }

  /** Extraction stops at the first non-empty token or error, in configured order. */
  lemma {:induction false} ExtractionStopsFirst(providers: seq<TokenProvider>, read: TokenProvider -> Extracted)
    ensures match FirstToken(providers, read)
            case Ok(t) => t != "" && StopsWith(providers, read, Token(t))
            case Err(InvalidToken) => StopsWith(providers, read, Unreadable)
            case Err(EmptyToken) => SilentBefore(providers, read, |providers|)
  {
    if providers != [] {
      var rest := providers[1..];
      if read(providers[0]) == Token("") {
        ExtractionStopsFirst(rest, read);
        forall k | 0 <= k <= |rest| && SilentBefore(rest, read, k) ensures SilentBefore(providers, read, k + 1) {
          assert forall j | 1 <= j < k + 1 :: providers[j] == rest[j - 1];
        }
        assert forall k | 0 <= k < |rest| :: rest[k] == providers[k + 1];
      } else {
        assert SilentBefore(providers, read, 0);
      }
    }
  }
}
