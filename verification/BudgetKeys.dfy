/**
 The names of spend counters (internal/budget/keys.go, internal/governance/governance.go) and the
 money scopes of a request (internal/governance/local_money.go).
 */
module BudgetKeys {
  import opened Basics
  import opened Int64s
  import opened BudgetStore
  import opened LocalMoney

  const SCOPE_TEAM := "team"
  const SCOPE_KEY := "key"
  const SCOPE_USER := "user"

  /** A window's tag; show renders a rolling window's duration. */
  function Tag(w: Window, show: Time -> string): string {
    match w
    case CalDay(_) => "day"
    case CalMonth(_) => "month"
    case Rolling(dur) => "r" + show(dur)
  }

  function Key(scope: string, id: string, w: Window, show: Time -> string): string {
    "budget:" + (Tag(w, show) + ":" + (scope + ":" + id))
  }

  function UserBudgetId(team: string, user: string): string {
    team + "/" + user
  }

  /** A separator that the left parts do not contain splits a string in one way only. */
  lemma SplitsOnce(a: string, b: string, c: string, d: string, sep: string)
    requires |sep| == 1 && sep[0] !in a && sep[0] !in c && a + sep + b == c + sep + d
    ensures a == c && b == d
  {
    var s := a + sep + b;
    assert forall i | 0 <= i < |a| :: s[i] == a[i] != sep[0];
    assert forall i | 0 <= i < |c| :: s[i] == c[i] != sep[0];
    assert s[|a|] == sep[0] && s[|c|] == sep[0];
    assert a == s[..|a|] && c == s[..|c|];
    assert b == s[|a| + 1..] && d == s[|c| + 1..];
  }

  lemma PrefixCancels(p: string, a: string, b: string)
    requires p + a == p + b
    ensures a == b
  {
    assert a == (p + a)[|p|..] && b == (p + b)[|p|..];
  }

  /** No id, however chosen, makes two counters of different windows, scopes or ids share a name. */
  lemma KeysNeverCollide(scope: string, id: string, w: Window, scope': string, id': string, w': Window, show: Time -> string)
    requires ':' !in scope && ':' !in scope' && ':' !in Tag(w, show) && ':' !in Tag(w', show)
    requires Key(scope, id, w, show) == Key(scope', id', w', show)
    ensures Tag(w, show) == Tag(w', show) && scope == scope' && id == id'
  {
    var tail := scope + ":" + id;
    var tail' := scope' + ":" + id';
    PrefixCancels("budget:", Tag(w, show) + ":" + tail, Tag(w', show) + ":" + tail');
    hide Tag;
    SplitsOnce(Tag(w, show), tail, Tag(w', show), tail', ":");
    SplitsOnce(scope, id, scope', id', ":");
  }

  /** Users of different teams never share a counter, as team names contain no slash. */
  lemma UserIdsNeverCollide(team: string, user: string, team': string, user': string)
    requires '/' !in team && '/' !in team' && UserBudgetId(team, user) == UserBudgetId(team', user')
    ensures team == team' && user == user'
  {
    SplitsOnce(team, user, team', user', "/");
  }

  // ---- The scopes of a request ---------------------------------------------------

  datatype Subject = Subject(team: string, user: string, keyId: string)
  datatype TeamPolicy = TeamPolicy(
    month: int64, day: int64, monthMode: string, dayMode: string,
    rate: int64, tokenRate: int64, quota: int64, quotaMode: string)
  datatype KeyPolicy = KeyPolicy(month: int64, day: int64, rate: int64, tokenRate: int64)
  datatype UserPolicy = UserPolicy(month: int64, day: int64, mode: string)

  /** A fixed policy set: a user lookup that answers None also stands for a gateway without one. */
  datatype Policies = Policies(
    shared: bool,
    team: string -> Option<TeamPolicy>,
    user: (string, string) -> Option<UserPolicy>,
    loc: string,
    show: Time -> string
  ) {
    function Month(): Window {
      CalMonth(loc)
    }

    function Day(): Window {
      CalDay(loc)
    }

    /** The month and day scopes of one subject, for those limits that are set. */
    function ScopesIf(scope: string, id: string, month: int64, monthMode: string, day: int64, dayMode: string): seq<Scope> {
      (if month > 0 then [Scope(Key(scope, id, Month(), show), Month(), month, monthMode != "warn")] else [])
      + (if day > 0 then [Scope(Key(scope, id, Day(), show), Day(), day, dayMode != "warn")] else [])
    }

    function TeamScopes(s: Subject): seq<Scope> {
      match team(s.team)
      case None => []
      case Some(p) => ScopesIf(SCOPE_TEAM, s.team, p.month, p.monthMode, p.day, p.dayMode)
    }

    function KeyScopes(s: Subject, kp: KeyPolicy): seq<Scope> {
      ScopesIf(SCOPE_KEY, s.keyId, kp.month, "", kp.day, "")
    }

    function UserScopes(s: Subject): seq<Scope> {
      if s.user == "" then []
      else
        match user(s.team, s.user)
        case None => []
        case Some(p) => ScopesIf(SCOPE_USER, UserBudgetId(s.team, s.user), p.month, p.mode, p.day, p.mode)
    }

    /** Every money scope of a request, in the order they are claimed and debited. */
    function Scopes(s: Subject, kp: KeyPolicy): seq<Scope> {
      if shared then [] else TeamScopes(s) + KeyScopes(s, kp) + UserScopes(s)
    }
  }

  /** One of the six counters a request can touch. */
  datatype Counter = Counter(scope: string, id: string, monthly: bool)

  function WindowOf(g: Policies, c: Counter): Window {
    if c.monthly then g.Month() else g.Day()
  }

  function CounterKey(g: Policies, c: Counter): string {
    Key(c.scope, c.id, WindowOf(g, c), g.show)
  }

  /** Does a request of s count against c? In terms of teams, keys and users, not of key strings. */
  predicate Charged(g: Policies, s: Subject, kp: KeyPolicy, c: Counter) {
    && !g.shared
    && ((c.scope == SCOPE_TEAM && c.id == s.team && g.team(s.team).Some?
         && 0 < if c.monthly then g.team(s.team).value.month else g.team(s.team).value.day)
        || (c.scope == SCOPE_KEY && c.id == s.keyId && 0 < if c.monthly then kp.month else kp.day)
        || (c.scope == SCOPE_USER && s.user != "" && c.id == UserBudgetId(s.team, s.user) && g.user(s.team, s.user).Some?
            && 0 < if c.monthly then g.user(s.team, s.user).value.month else g.user(s.team, s.user).value.day))
  }

  function CountersIf(scope: string, id: string, month: int64, day: int64): seq<Counter> {
    (if month > 0 then [Counter(scope, id, true)] else []) + (if day > 0 then [Counter(scope, id, false)] else [])
  }

  function TeamCounters(g: Policies, s: Subject): seq<Counter> {
    match g.team(s.team)
    case None => []
    case Some(p) => CountersIf(SCOPE_TEAM, s.team, p.month, p.day)
  }

  function UserCounters(g: Policies, s: Subject): seq<Counter> {
    if s.user == "" then []
    else
      match g.user(s.team, s.user)
      case None => []
      case Some(p) => CountersIf(SCOPE_USER, UserBudgetId(s.team, s.user), p.month, p.day)
  }

  /** The counters behind a request's scopes, in the same order. */
  function Counters(g: Policies, s: Subject, kp: KeyPolicy): seq<Counter> {
    if g.shared then []
    else TeamCounters(g, s) + CountersIf(SCOPE_KEY, s.keyId, kp.month, kp.day) + UserCounters(g, s)
  }

  /** Scopes and counters correspond one to one. */
  ghost predicate Correspond(g: Policies, scopes: seq<Scope>, cs: seq<Counter>) {
    && |cs| == |scopes|
    && forall i | 0 <= i < |cs| :: scopes[i].key == CounterKey(g, cs[i]) && scopes[i].w == WindowOf(g, cs[i]) && scopes[i].limit > 0
  }

  lemma CorrespondIf(g: Policies, scope: string, id: string, month: int64, monthMode: string, day: int64, dayMode: string)
    ensures Correspond(g, g.ScopesIf(scope, id, month, monthMode, day, dayMode), CountersIf(scope, id, month, day))
  {
  }

  lemma CorrespondConcat(g: Policies, a: seq<Scope>, b: seq<Scope>, c: seq<Counter>, d: seq<Counter>)
    requires Correspond(g, a, c) && Correspond(g, b, d)
    ensures Correspond(g, a + b, c + d)
  {
  }

  lemma CountersOfScopes(g: Policies, s: Subject, kp: KeyPolicy)
    ensures Correspond(g, g.Scopes(s, kp), Counters(g, s, kp))
  {
    assert Correspond(g, g.TeamScopes(s), TeamCounters(g, s)) by {
      if g.team(s.team).Some? {
        var p := g.team(s.team).value;
        CorrespondIf(g, SCOPE_TEAM, s.team, p.month, p.monthMode, p.day, p.dayMode);
      }
    }
    assert Correspond(g, g.UserScopes(s), UserCounters(g, s)) by {
      if g.user(s.team, s.user).Some? {
        var p := g.user(s.team, s.user).value;
        CorrespondIf(g, SCOPE_USER, UserBudgetId(s.team, s.user), p.month, p.mode, p.day, p.mode);
      }
    }
    CorrespondIf(g, SCOPE_KEY, s.keyId, kp.month, "", kp.day, "");
    var keys := CountersIf(SCOPE_KEY, s.keyId, kp.month, kp.day);
    CorrespondConcat(g, g.TeamScopes(s), g.KeyScopes(s, kp), TeamCounters(g, s), keys);
    CorrespondConcat(g, g.TeamScopes(s) + g.KeyScopes(s, kp), g.UserScopes(s), TeamCounters(g, s) + keys, UserCounters(g, s));
  }

  lemma CountersIfMembers(scope: string, id: string, month: int64, day: int64, c: Counter)
    ensures c in CountersIf(scope, id, month, day) <==> c.scope == scope && c.id == id && 0 < if c.monthly then month else day
    ensures Distinct(CountersIf(scope, id, month, day))
  {
  }

  ghost predicate Distinct(cs: seq<Counter>) {
    forall i, j | 0 <= i < j < |cs| :: cs[i] != cs[j]
  }

  lemma CountersAreCharged(g: Policies, s: Subject, kp: KeyPolicy, c: Counter)
    ensures c in Counters(g, s, kp) <==> Charged(g, s, kp, c)
  {
    var t := g.team(s.team);
    var u := g.user(s.team, s.user);
    if t.Some? {
      CountersIfMembers(SCOPE_TEAM, s.team, t.value.month, t.value.day, c);
    }
    if u.Some? {
      CountersIfMembers(SCOPE_USER, UserBudgetId(s.team, s.user), u.value.month, u.value.day, c);
    }
    CountersIfMembers(SCOPE_KEY, s.keyId, kp.month, kp.day, c);
  }

  lemma DistinctConcat(a: seq<Counter>, b: seq<Counter>)
    requires Distinct(a) && Distinct(b) && forall c | c in a :: c !in b
    ensures Distinct(a + b)
  {
    forall i, j | 0 <= i < j < |a + b|
      ensures (a + b)[i] != (a + b)[j]
    {
      if i < |a| <= j {
        assert a[i] !in b && b[j - |a|] in b;
      }
    }
  }

  ghost predicate AllOf(cs: seq<Counter>, scope: string) {
    Distinct(cs) && forall c | c in cs :: c.scope == scope
  }

  lemma CountersIfOf(scope: string, id: string, month: int64, day: int64)
    ensures AllOf(CountersIf(scope, id, month, day), scope)
  {
  }

  lemma CountersAreDistinct(g: Policies, s: Subject, kp: KeyPolicy)
    ensures Distinct(Counters(g, s, kp))
  {
    var t := TeamCounters(g, s);
    var k := CountersIf(SCOPE_KEY, s.keyId, kp.month, kp.day);
    var u := UserCounters(g, s);
    assert SCOPE_TEAM[0] != SCOPE_KEY[0] && SCOPE_TEAM[0] != SCOPE_USER[0] && SCOPE_KEY[0] != SCOPE_USER[0];
    if g.team(s.team).Some? {
      CountersIfOf(SCOPE_TEAM, s.team, g.team(s.team).value.month, g.team(s.team).value.day);
    }
    if g.user(s.team, s.user).Some? {
      CountersIfOf(SCOPE_USER, UserBudgetId(s.team, s.user), g.user(s.team, s.user).value.month, g.user(s.team, s.user).value.day);
    }
    CountersIfOf(SCOPE_KEY, s.keyId, kp.month, kp.day);
    assert AllOf(t, SCOPE_TEAM) && AllOf(k, SCOPE_KEY) && AllOf(u, SCOPE_USER);
    hide CountersIf, TeamCounters, UserCounters, Distinct;
    DistinctConcat(t, k);
    DistinctConcat(t + k, u);
  }

  /** A counter of one of the three kinds of subject. */
  predicate Known(c: Counter) {
    c.scope == SCOPE_TEAM || c.scope == SCOPE_KEY || c.scope == SCOPE_USER
  }

  /** Counters have their own names. */
  lemma CounterKeysDiffer(g: Policies, c: Counter, d: Counter)
    requires Known(c) && Known(d) && CounterKey(g, c) == CounterKey(g, d)
    ensures c == d
  {
    assert "month"[0] != "day"[0];
    KeysNeverCollide(c.scope, c.id, WindowOf(g, c), d.scope, d.id, WindowOf(g, d), g.show);
  }

  /** The scopes of one request never name the same counter twice. */
  lemma ScopesAreDistinct(g: Policies, s: Subject, kp: KeyPolicy)
    ensures DistinctKeys(g.Scopes(s, kp))
  {
    var cs := Counters(g, s, kp);
    CountersOfScopes(g, s, kp);
    CountersAreDistinct(g, s, kp);
    hide Policies.Scopes, Counters, CounterKey;
    forall i, j | 0 <= i < j < |cs|
      ensures g.Scopes(s, kp)[i].key != g.Scopes(s, kp)[j].key
    {
      CountersAreCharged(g, s, kp, cs[i]);
      CountersAreCharged(g, s, kp, cs[j]);
      if CounterKey(g, cs[i]) == CounterKey(g, cs[j]) {
        CounterKeysDiffer(g, cs[i], cs[j]);
      }
    }
  }

  /** Some scope has this key. */
  ghost predicate Names(scopes: seq<Scope>, key: string) {
    exists i | 0 <= i < |scopes| :: scopes[i].key == key
  }

  /** A request names a counter's key exactly when it counts against that counter. */
  lemma ScopeKeysAreCharges(g: Policies, s: Subject, kp: KeyPolicy, c: Counter)
    requires Known(c)
    ensures Names(g.Scopes(s, kp), CounterKey(g, c)) <==> Charged(g, s, kp, c)
  {
    var cs := Counters(g, s, kp);
    CountersOfScopes(g, s, kp);
    CountersAreCharged(g, s, kp, c);
    hide Policies.Scopes, Counters, CounterKey;
    if i :| 0 <= i < |cs| && g.Scopes(s, kp)[i].key == CounterKey(g, c) {
      CountersAreCharged(g, s, kp, cs[i]);
      CounterKeysDiffer(g, cs[i], c);
    }
    if Charged(g, s, kp, c) {
      var i :| 0 <= i < |cs| && cs[i] == c;
      assert g.Scopes(s, kp)[i].key == CounterKey(g, c);
    }
  }
}
