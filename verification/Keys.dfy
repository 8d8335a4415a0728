/** The composite keys the services build with fmt.Sprintf, and when they can be told apart. */
module Keys {
  function Digits(n: nat): (s: string)
    ensures |s| >= 1 && forall k | 0 <= k < |s| :: '0' <= s[k] <= '9'
  {
    if n < 10 then ['0' + n as char] else Digits(n / 10) + ['0' + (n % 10) as char]
  }

  /** `%d` */
  function Dec(n: int): string { if n < 0 then "-" + Digits(-n) else Digits(n) }

  function ReadDigits(s: string): nat
    requires forall k | 0 <= k < |s| :: '0' <= s[k] <= '9'
  {
    if s == [] then 0 else 10 * ReadDigits(s[..|s| - 1]) + (s[|s| - 1] - '0') as nat
  }

  lemma {:induction false} DigitsRead(n: nat)
    ensures ReadDigits(Digits(n)) == n
  {
    if n < 10 {
      assert Digits(n)[..0] == [];
    } else {
      DigitsRead(n / 10);
      var s := Digits(n);
      assert s[..|s| - 1] == Digits(n / 10);
    }
  }

  lemma DecInjective(m: int, n: int)
    requires Dec(m) == Dec(n)
    ensures m == n
  {
    DigitsRead(if m < 0 then -m else m);
    DigitsRead(if n < 0 then -n else n);
    assert Dec(m)[0] == '-' <==> m < 0;
    assert Dec(n)[0] == '-' <==> n < 0;
    if m < 0 {
      assert Dec(m)[1..] == Digits(-m) && Dec(n)[1..] == Digits(-n);
    }
  }

  lemma DecPlain(n: int, c: char)
    requires c < '-' || '9' < c
    ensures c !in Dec(n)
  {
  }

  /** Splitting at the first separator. */
  lemma SplitFirst(a: string, b: string, a': string, b': string, c: char)
    requires a + [c] + b == a' + [c] + b' && c !in a && c !in a'
    ensures a == a' && b == b'
  {
    var s := a + [c] + b;
    assert s[|a|] == c && s[|a'|] == c;
    assert forall k | 0 <= k < |a| :: s[k] == a[k];
    assert forall k | 0 <= k < |a'| :: s[k] == a'[k];
    assert |a| == |a'|;
    assert a == s[..|a|] && b == s[|a| + 1..];
    assert a' == s[..|a'|] && b' == s[|a'| + 1..];
  }

  /** Splitting at the last separator. */
  lemma SplitLast(a: string, b: string, a': string, b': string, c: char)
    requires a + [c] + b == a' + [c] + b' && c !in b && c !in b'
    ensures a == a' && b == b'
  {
    var s := a + [c] + b;
    assert s[|a|] == c && s[|a'|] == c;
    assert forall k | |a| < k < |s| :: s[k] == b[k - |a| - 1];
    assert forall k | |a'| < k < |s| :: s[k] == b'[k - |a'| - 1];
    assert |a| == |a'|;
    assert a == s[..|a|] && b == s[|a| + 1..];
    assert a' == s[..|a'|] && b' == s[|a'| + 1..];
  }

  // ---------------------------------------------------------------- authorization

  /** `"%d:%s"` around `"%s %s"`. */
  function AuthorizationKey(id: int, endpoint: string): string { Dec(id) + ":" + endpoint }

  function MethodAndPath(httpMethod: string, path: string): string { httpMethod + " " + path }

  lemma AuthorizationKeyInjective(id: int, endpoint: string, id': int, endpoint': string)
    requires AuthorizationKey(id, endpoint) == AuthorizationKey(id', endpoint')
    ensures id == id' && endpoint == endpoint'
  {
    DecPlain(id, ':');
    DecPlain(id', ':');
    SplitFirst(Dec(id), endpoint, Dec(id'), endpoint', ':');
    DecInjective(id, id');
  }

  /** An HTTP method is a token (section 9.1 of RFC 9110), so it has no space. */
  lemma RequestKeyInjective(id: int, m: string, path: string, id': int, m': string, path': string)
    requires ' ' !in m && ' ' !in m'
    requires AuthorizationKey(id, MethodAndPath(m, path)) == AuthorizationKey(id', MethodAndPath(m', path'))
    ensures id == id' && m == m' && path == path'
  {
    AuthorizationKeyInjective(id, MethodAndPath(m, path), id', MethodAndPath(m', path'));
    SplitFirst(m, path, m', path', ' ');
  }

  // ---------------------------------------------------------------- user authentication

  function UserKey(endpoint: string, token: string): string { endpoint + ":" + token }

  /** Neither endpoint continues the other at a colon. */
  predicate Separate(e: string, e': string) {
    e == e' || (!(e + ":" <= e') && !(e' + ":" <= e))
  }

  lemma LongerContinues(e: string, t: string, e': string, t': string)
    requires UserKey(e, t) == UserKey(e', t')
    ensures |e| < |e'| ==> e + ":" <= e'
    ensures |e| == |e'| ==> e == e' && t == t'
  {
    var s := UserKey(e, t);
    assert s[..|e|] == e && s[|e|] == ':' && s[|e| + 1..] == t;
    assert s[..|e'|] == e' && s[|e'|] == ':' && s[|e'| + 1..] == t';
    if |e| < |e'| {
      assert e + ":" == s[..|e| + 1] == e'[..|e| + 1];
    }
  }

  lemma UserKeyInjective(e: string, t: string, e': string, t': string)
    requires Separate(e, e') && UserKey(e, t) == UserKey(e', t')
    ensures e == e' && t == t'
  {
    LongerContinues(e, t, e', t');
    LongerContinues(e', t', e, t);
  }

  lemma UserKeyCollision(e: string, e': string) returns (t: string, t': string)
    requires e + ":" <= e'
    ensures UserKey(e, t) == UserKey(e', t')
  {
    t' := "";
    t := e'[|e| + 1..] + ":";
    assert e' == e + ":" + e'[|e| + 1..];
    assert UserKey(e, t) == (e + ":" + e'[|e| + 1..]) + ":";
    assert UserKey(e', t') == e' + ":";
  }

  /** Exactly when two configured endpoints can share the cache without mixing their tokens. */
  lemma UserKeysApart(e: string, e': string)
    ensures (forall t, t' :: UserKey(e, t) == UserKey(e', t') ==> e == e' && t == t') <==> Separate(e, e')
  {
    if Separate(e, e') {
      forall t, t' | UserKey(e, t) == UserKey(e', t') ensures e == e' && t == t' {
        UserKeyInjective(e, t, e', t');
      }
    } else if e + ":" <= e' {
      var t, t' := UserKeyCollision(e, e');
    } else {
      var t', t := UserKeyCollision(e', e);
    }
  }

  lemma ContinuationHasColon(e: string, e': string)
    ensures e + ":" <= e' ==> ':' in e'
  {
    if e + ":" <= e' {
      assert (e + ":")[|e|] == e'[|e|];
    }
  }

  /** Colon-free endpoints are always separate. */
  lemma ColonFreeSeparate(e: string, e': string)
    requires ':' !in e && ':' !in e'
    ensures Separate(e, e')
  {
    ContinuationHasColon(e, e');
    ContinuationHasColon(e', e);
  }

  // ---------------------------------------------------------------- daily limit

  datatype Date = Date(year: int, month: nat, day: nat)

  const DAILY_PREFIX := "isp-gate-service::daily-limit::"

  function DailyKey(applicationId: int, d: Date): string {
    DAILY_PREFIX + (Dec(applicationId) + ":" + (Dec(d.year) + "-" + Dec(d.month) + "-" + Dec(d.day)))
  }

  lemma DigitsHaveNoDash(n: nat)
    ensures '-' !in Dec(n)
  {
  }

  lemma DailyKeyInjective(app: int, d: Date, app': int, d': Date)
    requires DailyKey(app, d) == DailyKey(app', d')
    ensures app == app' && d == d'
  {
    var date := Dec(d.year) + "-" + Dec(d.month) + "-" + Dec(d.day);
    var date' := Dec(d'.year) + "-" + Dec(d'.month) + "-" + Dec(d'.day);
    assert DailyKey(app, d)[|DAILY_PREFIX|..] == Dec(app) + ":" + date;
    assert DailyKey(app', d')[|DAILY_PREFIX|..] == Dec(app') + ":" + date';
    DecPlain(app, ':');
    DecPlain(app', ':');
    SplitFirst(Dec(app), date, Dec(app'), date', ':');
    DigitsHaveNoDash(d.day);
    DigitsHaveNoDash(d'.day);
    SplitLast(Dec(d.year) + "-" + Dec(d.month), Dec(d.day), Dec(d'.year) + "-" + Dec(d'.month), Dec(d'.day), '-');
    DigitsHaveNoDash(d.month);
    DigitsHaveNoDash(d'.month);
    SplitLast(Dec(d.year), Dec(d.month), Dec(d'.year), Dec(d'.month), '-');
    DecInjective(app, app');
    DecInjective(d.year, d'.year);
    DecInjective(d.month, d'.month);
    DecInjective(d.day, d'.day);
  }

  /** Decimal notation: no leading zero, a sign only below zero. */
  lemma {:induction false} NoLeadingZero(n: nat)
    ensures n > 0 ==> Digits(n)[0] != '0'
  {
    if n >= 10 {
      NoLeadingZero(n / 10);
    }
  }

  lemma DecimalsSpelled()
    ensures Dec(7) == "7" && Dec(5) == "5" && Dec(11) == "11" && Dec(-12) == "-12" && Dec(2024) == "2024"
  {
    assert Digits(1) == "1" && Digits(2) == "2";
    assert Digits(12) == "12" && Digits(11) == "11" && Digits(20) == "20";
    assert Digits(202) == "202";
  }

  /** The keys as they are written. */
  lemma KeysSpelled()
    ensures AuthorizationKey(7, MethodAndPath("GET", "orders/list")) == "7:GET orders/list"
    ensures AuthorizationKey(-12, "read") == "-12:read"
    ensures UserKey("auth/user", "t") == "auth/user:t"
    ensures DailyKey(7, Date(2024, 11, 5)) == "isp-gate-service::daily-limit::7:2024-11-5"
  {
    hide Dec;
    DecimalsSpelled();
    assert "2024" + "-" + "11" + "-" + "5" == "2024-11-5";
    assert "7" + ":" + "2024-11-5" == "7:2024-11-5";
    assert "GET" + " " + "orders/list" == "GET orders/list";
  }
}
