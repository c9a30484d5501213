/**
 Where settled costs land (internal/governance/governance.go, internal/governance/local_money.go):
 for a fixed policy set each team, key and user counter holds, per day and per month, exactly the
 costs settled for that subject in that calendar window, whichever path settled them.
 */
module CounterConservation {
  import opened Basics
  import opened Int64s
  import opened BudgetStore
  import opened BudgetHistory
  import opened LocalMoney
  import opened BudgetKeys

  datatype Activity =
    | Settlement(at: Time, s: Subject, kp: KeyPolicy, cost: money)
    | Lookup(call: Call)

  /** The debits of the first n scopes of one settlement. */
  function Debits(at: Time, cost: money, scopes: seq<Scope>, n: nat): seq<Call>
    requires n <= |scopes|
  {
    if n == 0 then [] else Debits(at, cost, scopes, n - 1) + [Call(at, scopes[n - 1].key, scopes[n - 1].w, DebitOp(cost))]
  }

  function CallsOf(g: Policies, a: Activity): seq<Call> {
    match a
    case Settlement(at, s, kp, cost) => Debits(at, cost, g.Scopes(s, kp), |g.Scopes(s, kp)|)
    case Lookup(call) => [call]
  }

  function At(a: Activity): Time {
    match a
    case Settlement(at, _, _, _) => at
    case Lookup(call) => call.at
  }

  /** All store calls of a history. */
  function Flat(g: Policies, hist: seq<Activity>): seq<Call> {
    if hist == [] then [] else Flat(g, hist[..|hist| - 1]) + CallsOf(g, hist[|hist| - 1])
  }

  predicate Ordered(hist: seq<Activity>) {
    forall i, j | 0 <= i < j < |hist| :: At(hist[i]) <= At(hist[j])
  }

  predicate Before(hist: seq<Activity>, t: Time) {
    forall i | 0 <= i < |hist| :: At(hist[i]) <= t
  }

  /** Lookups debit nothing, and reach the counter under its own window. */
  predicate Benign(g: Policies, hist: seq<Activity>, c: Counter) {
    forall i | 0 <= i < |hist| && hist[i].Lookup? ::
      !hist[i].call.op.DebitOp? && (hist[i].call.key == CounterKey(g, c) ==> hist[i].call.w == WindowOf(g, c))
  }

  /** The exact cost settled for counter c in its window that ends at e. */
  function Costs(g: Policies, hist: seq<Activity>, c: Counter, e: Time, we: WindowEnd): nat {
    if hist == [] then 0
    else
      var a := hist[|hist| - 1];
      Costs(g, hist[..|hist| - 1], c, e, we)
      + if a.Settlement? && Charged(g, a.s, a.kp, c) && we(a.at, WindowOf(g, c)) == e then a.cost else 0
  }

  lemma {:induction false} DebitedConcat(a: seq<Call>, b: seq<Call>, key: string, e: Time, we: WindowEnd)
    ensures Debited(a + b, key, e, we) == Debited(a, key, e, we) + Debited(b, key, e, we)
    decreases |b|
  {
    if b == [] {
      assert a + b == a;
    } else {
      assert (a + b)[..|a + b| - 1] == a + b[..|b| - 1];
      DebitedConcat(a, b[..|b| - 1], key, e, we);
    }
  }

  /** One of the first n scopes has this key. */
  ghost predicate Mentions(scopes: seq<Scope>, n: nat, key: string)
    requires n <= |scopes|
  {
    exists i | 0 <= i < n :: scopes[i].key == key
  }

  /** A settlement debits a key once if it names it, and not at all otherwise. */
  lemma {:induction false} DebitedOnce(at: Time, cost: money, scopes: seq<Scope>, n: nat, key: string, w: Window, e: Time, we: WindowEnd)
    requires n <= |scopes| && DistinctKeys(scopes)
    requires forall i | 0 <= i < |scopes| && scopes[i].key == key :: scopes[i].w == w
    ensures Debited(Debits(at, cost, scopes, n), key, e, we) == if Mentions(scopes, n, key) && we(at, w) == e then cost else 0
  {
    if n > 0 {
      DebitedOnce(at, cost, scopes, n - 1, key, w, e, we);
      var calls := Debits(at, cost, scopes, n);
      assert calls[..|calls| - 1] == Debits(at, cost, scopes, n - 1);
      MentionsNext(scopes, n, key);
      hide Mentions, DistinctKeys;
    }
  }

  lemma MentionsNext(scopes: seq<Scope>, n: nat, key: string)
    requires 0 < n <= |scopes| && DistinctKeys(scopes)
    ensures Mentions(scopes, n, key) <==> Mentions(scopes, n - 1, key) || scopes[n - 1].key == key
    ensures scopes[n - 1].key == key ==> !Mentions(scopes, n - 1, key)
  {
    if Mentions(scopes, n - 1, key) {
      var i :| 0 <= i < n - 1 && scopes[i].key == key;
      assert scopes[i].key != scopes[n - 1].key;
    }
    if scopes[n - 1].key == key {
      assert Mentions(scopes, n, key);
    }
  }

  lemma {:induction false} DebitsShape(at: Time, cost: money, scopes: seq<Scope>, n: nat)
    requires n <= |scopes|
    ensures |Debits(at, cost, scopes, n)| == n
    ensures forall i | 0 <= i < n :: Debits(at, cost, scopes, n)[i] == Call(at, scopes[i].key, scopes[i].w, DebitOp(cost))
  {
    if n > 0 {
      DebitsShape(at, cost, scopes, n - 1);
    }
  }

  /** Within one request, a counter's key always comes with the counter's window. */
  lemma ScopeWindows(g: Policies, s: Subject, kp: KeyPolicy, c: Counter)
    requires Known(c)
    ensures forall i | 0 <= i < |g.Scopes(s, kp)| && g.Scopes(s, kp)[i].key == CounterKey(g, c) :: g.Scopes(s, kp)[i].w == WindowOf(g, c)
  {
    CountersOfScopes(g, s, kp);
    var cs := Counters(g, s, kp);
    hide Policies.Scopes, Counters, CounterKey, WindowOf;
    forall i | 0 <= i < |g.Scopes(s, kp)| && g.Scopes(s, kp)[i].key == CounterKey(g, c)
      ensures cs[i] == c
    {
      CountersAreCharged(g, s, kp, cs[i]);
      CounterKeysDiffer(g, cs[i], c);
    }
  }

  /** All calls are made at one instant, and those on key under window w. */
  ghost predicate Stamped(calls: seq<Call>, at: Time, key: string, w: Window) {
    forall i | 0 <= i < |calls| :: calls[i].at == at && (calls[i].key == key ==> calls[i].w == w)
  }

  lemma ActivityStamped(g: Policies, a: Activity, c: Counter)
    requires Known(c) && Benign(g, [a], c)
    ensures Stamped(CallsOf(g, a), At(a), CounterKey(g, c), WindowOf(g, c))
  {
    match a
    case Settlement(at, s, kp, cost) =>
      ScopeWindows(g, s, kp, c);
      DebitsShape(at, cost, g.Scopes(s, kp), |g.Scopes(s, kp)|);
    case Lookup(call) =>
      assert [a][0].Lookup?;
  }

  lemma ActivityDebits(g: Policies, a: Activity, c: Counter, e: Time, we: WindowEnd)
    requires Known(c) && Benign(g, [a], c)
    ensures Debited(CallsOf(g, a), CounterKey(g, c), e, we)
         == if a.Settlement? && Charged(g, a.s, a.kp, c) && we(a.at, WindowOf(g, c)) == e then a.cost else 0
  {
    match a
    case Settlement(at, s, kp, cost) =>
      var scopes := g.Scopes(s, kp);
      ScopesAreDistinct(g, s, kp);
      ScopeWindows(g, s, kp, c);
      ScopeKeysAreCharges(g, s, kp, c);
      hide Policies.Scopes, CounterKey, Charged, DistinctKeys;
      DebitedOnce(at, cost, scopes, |scopes|, CounterKey(g, c), WindowOf(g, c), e, we);
    case Lookup(call) =>
      assert [a][0].Lookup?;
      assert [call][..0] == [];
  }

  lemma AppendStamped(a: seq<Call>, b: seq<Call>, at: Time, key: string, w: Window)
    requires InOrder(a) && Until(a, at) && OneWindow(a, key, w) && Stamped(b, at, key, w)
    ensures InOrder(a + b) && Until(a + b, at) && OneWindow(a + b, key, w)
  {
  }

  lemma {:induction false} FlatInOrder(g: Policies, hist: seq<Activity>, c: Counter, t: Time)
    requires Known(c) && Benign(g, hist, c) && Ordered(hist) && Before(hist, t)
    ensures InOrder(Flat(g, hist)) && Until(Flat(g, hist), t) && OneWindow(Flat(g, hist), CounterKey(g, c), WindowOf(g, c))
    decreases |hist|
  {
    if hist != [] {
      var n := |hist| - 1;
      FlatInOrder(g, hist[..n], c, At(hist[n]));
      assert [hist[n]][0] == hist[n];
      ActivityStamped(g, hist[n], c);
      AppendStamped(Flat(g, hist[..n]), CallsOf(g, hist[n]), At(hist[n]), CounterKey(g, c), WindowOf(g, c));
    }
  }

  lemma {:induction false} FlatDebits(g: Policies, hist: seq<Activity>, c: Counter, e: Time, we: WindowEnd)
    requires Known(c) && Benign(g, hist, c)
    ensures Debited(Flat(g, hist), CounterKey(g, c), e, we) == Costs(g, hist, c, e, we)
    decreases |hist|
  {
    if hist != [] {
      var n := |hist| - 1;
      FlatDebits(g, hist[..n], c, e, we);
      assert [hist[n]][0] == hist[n];
      ActivityDebits(g, hist[n], c, e, we);
      DebitedConcat(Flat(g, hist[..n]), CallsOf(g, hist[n]), CounterKey(g, c), e, we);
    }
  }

  /**
   For every team, key or user, by day or by month: the counter reads the exact sum, saturated at the
   largest int64, of the costs settled for that subject since the window began, each counted once.
   */
  lemma CountersConserveCosts(g: Policies, hist: seq<Activity>, c: Counter, we: WindowEnd, t: Time)
    requires Known(c) && Benign(g, hist, c) && Ordered(hist) && Before(hist, t) && Calendar(we, WindowOf(g, c))
    ensures RefAnswer(Reference(Flat(g, hist), we), Call(t, CounterKey(g, c), WindowOf(g, c), SpentOp), we)
         == Amount(Min(MAX_INT64, Costs(g, hist, c, we(t, WindowOf(g, c)), we)))
  {
    FlatInOrder(g, hist, c, t);
    FlatDebits(g, hist, c, we(t, WindowOf(g, c)), we);
    SpentIsTheWindowsDebits(Flat(g, hist), CounterKey(g, c), WindowOf(g, c), we, t);
  }

  // ---- Users, by team and name -----------------------------------------------------------

  /** The team names that settlements are made for contain no slash. */
  predicate PlainTeams(hist: seq<Activity>) {
    forall i | 0 <= i < |hist| && hist[i].Settlement? :: '/' !in hist[i].s.team
  }

  function UserCounter(team: string, user: string, monthly: bool): Counter {
    Counter(SCOPE_USER, UserBudgetId(team, user), monthly)
  }

  /** The policies limit what this user spends in this team. */
  predicate Limited(g: Policies, team: string, user: string, monthly: bool) {
    !g.shared && user != "" && g.user(team, user).Some? && 0 < if monthly then g.user(team, user).value.month else g.user(team, user).value.day
  }

  /** The exact cost settled for this user in this team, in the window that ends at e. */
  function UserCosts(hist: seq<Activity>, team: string, user: string, w: Window, e: Time, we: WindowEnd): nat {
    if hist == [] then 0
    else
      var a := hist[|hist| - 1];
      UserCosts(hist[..|hist| - 1], team, user, w, e, we)
      + if a.Settlement? && a.s.team == team && a.s.user == user && we(a.at, w) == e then a.cost else 0
  }

  /** A request counts against a user's counter exactly if it is that user's, in that team, and limited. */
  lemma ChargedToUser(g: Policies, s: Subject, kp: KeyPolicy, team: string, user: string, monthly: bool)
    requires '/' !in team && '/' !in s.team
    ensures Charged(g, s, kp, UserCounter(team, user, monthly)) <==> s.team == team && s.user == user && Limited(g, team, user, monthly)
  {
    assert SCOPE_USER[0] != SCOPE_TEAM[0] && SCOPE_USER[0] != SCOPE_KEY[0];
    if UserBudgetId(team, user) == UserBudgetId(s.team, s.user) {
      UserIdsNeverCollide(team, user, s.team, s.user);
    }
    hide UserBudgetId;
  }

  lemma {:induction false} CostsOfUser(g: Policies, hist: seq<Activity>, team: string, user: string, monthly: bool, e: Time, we: WindowEnd)
    requires '/' !in team && PlainTeams(hist)
    ensures var c := UserCounter(team, user, monthly);
            Costs(g, hist, c, e, we) == if Limited(g, team, user, monthly) then UserCosts(hist, team, user, WindowOf(g, c), e, we) else 0
    decreases |hist|
  {
    if hist != [] {
      var a := hist[|hist| - 1];
      CostsOfUser(g, hist[..|hist| - 1], team, user, monthly, e, we);
      if a.Settlement? {
        ChargedToUser(g, a.s, a.kp, team, user, monthly);
      }
      hide Charged, Limited, WindowOf, UserCounter;
    }
  }

  /**
   For every user of every team, by day or by month: the counter reads the exact sum, saturated at the largest
   int64, of the costs settled for that user in that team since the window began, whoever else has an equal name
   elsewhere, as long as team names contain no slash.
   */
  lemma UsersConserveCosts(g: Policies, hist: seq<Activity>, team: string, user: string, monthly: bool, we: WindowEnd, t: Time)
    requires '/' !in team && PlainTeams(hist) && Limited(g, team, user, monthly)
    requires var c := UserCounter(team, user, monthly); Benign(g, hist, c) && Ordered(hist) && Before(hist, t) && Calendar(we, WindowOf(g, c))
    ensures var c := UserCounter(team, user, monthly);
            RefAnswer(Reference(Flat(g, hist), we), Call(t, CounterKey(g, c), WindowOf(g, c), SpentOp), we) ==
              Amount(Min(MAX_INT64, UserCosts(hist, team, user, WindowOf(g, c), we(t, WindowOf(g, c)), we)))
  {
    var c := UserCounter(team, user, monthly);
    CostsOfUser(g, hist, team, user, monthly, we(t, WindowOf(g, c)), we);
    CountersConserveCosts(g, hist, c, we, t);
  }

  /** With a slash in a team name, one user's spending counts against another's limit. */
  lemma SlashedTeamsCollide(g: Policies, kp: KeyPolicy)
    requires Limited(g, "a", "b/c", true) && Limited(g, "a/b", "c", true)
    ensures Charged(g, Subject("a/b", "c", ""), kp, UserCounter("a", "b/c", true))
  {
    assert UserBudgetId("a/b", "c") == UserBudgetId("a", "b/c");
  }
}
