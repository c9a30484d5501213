/**
 The check of a request before any provider is called (internal/governance/governance.go). The limiter's
 and the lease gate's answers are parameters; the spend counters are read from the store.
 */
module PreChecks {
  import opened Basics
  import opened Int64s
  import opened BudgetStore
  import opened LocalMoney
  import opened BudgetKeys
  import opened Admissions
  import opened CounterReadings

  datatype Denial =
    | InvalidEstimate | LeaseGate | TeamRate | TeamTokens | TeamQuota | KeyRate | KeyTokens
    | OverBudget(scope: string, monthly: bool)

  /** What the lease gate and the limiter would answer; true lets the request pass. */
  datatype Gates = Gates(lease: bool, teamRate: bool, teamTokens: bool, teamQuota: bool, keyRate: bool, keyTokens: bool)

  predicate MustDeny(d: Decision, mode: string) {
    d == BlockCapacity || (d == Block && mode != "warn")
  }

  // ---- What the counters say -------------------------------------------------------

  /** Spend beyond a limit that is enforced. Reaching the limit exactly is not a breach here. */
  predicate Breached(g: Policies, c: Counter, limit: int64, mode: string, m: Buckets, t: Time, we: WindowEnd) {
    0 < limit && mode != "warn" && limit < Reading(g, c, m, t, we).spent
  }

  /** Which of a subject's two windows denies: of two breached ones the month, unless the day resets sooner. */
  function PairDenial(g: Policies, scope: string, id: string, month: int64, monthMode: string, day: int64, dayMode: string,
                      m: Buckets, t: Time, we: WindowEnd): Option<Denial> {
    var mc, dc := Counter(scope, id, true), Counter(scope, id, false);
    var monthBreached, dayBreached := Breached(g, mc, month, monthMode, m, t, we), Breached(g, dc, day, dayMode, m, t, we);
    if dayBreached && (!monthBreached || Reading(g, dc, m, t, we).windowEnd < Reading(g, mc, m, t, we).windowEnd) then
      Some(OverBudget(scope, false))
    else if monthBreached then Some(OverBudget(scope, true))
    else None
  }

  function TeamDenial(g: Policies, s: Subject, gates: Gates, m: Buckets, t: Time, we: WindowEnd): Option<Denial> {
    match g.team(s.team)
    case None => None
    case Some(p) =>
      if p.rate > 0 && !gates.teamRate then Some(TeamRate)
      else if p.tokenRate > 0 && !gates.teamTokens then Some(TeamTokens)
      else if p.quota > 0 && !gates.teamQuota && p.quotaMode != "warn" then Some(TeamQuota)
      else PairDenial(g, SCOPE_TEAM, s.team, p.month, p.monthMode, p.day, p.dayMode, m, t, we)
  }

  function KeyDenial(g: Policies, s: Subject, kp: KeyPolicy, gates: Gates, m: Buckets, t: Time, we: WindowEnd): Option<Denial> {
    if kp.rate > 0 && !gates.keyRate then Some(KeyRate)
    else if kp.tokenRate > 0 && !gates.keyTokens then Some(KeyTokens)
    else PairDenial(g, SCOPE_KEY, s.keyId, kp.month, "", kp.day, "", m, t, we)
  }

  function UserDenial(g: Policies, s: Subject, m: Buckets, t: Time, we: WindowEnd): Option<Denial> {
    if s.user == "" then None
    else
      match g.user(s.team, s.user)
      case None => None
      case Some(p) => PairDenial(g, SCOPE_USER, UserBudgetId(s.team, s.user), p.month, p.mode, p.day, p.mode, m, t, we)
  }

  /** The verdict when the store is not full: team before key before user, the first denial wins. */
  function Verdict(g: Policies, s: Subject, kp: KeyPolicy, estimate: int64, gates: Gates, m: Buckets, t: Time, we: WindowEnd): Option<Denial> {
    if estimate < 0 then Some(InvalidEstimate)
    else if g.shared then None
    else if !gates.lease then Some(LeaseGate)
    else
      var team := TeamDenial(g, s, gates, m, t, we);
      if team.Some? then team
      else
        var key := KeyDenial(g, s, kp, gates, m, t, we);
        if key.Some? then key else UserDenial(g, s, m, t, we)
  }

  // ---- What the verdict means ---------------------------------------------------------

  /** Every gate the policies put before this request lets it pass. */
  predicate GatesPass(g: Policies, s: Subject, kp: KeyPolicy, gates: Gates) {
    && gates.lease
    && (g.team(s.team).Some? ==>
          var p := g.team(s.team).value;
          && (p.rate > 0 ==> gates.teamRate) && (p.tokenRate > 0 ==> gates.teamTokens)
          && (p.quota > 0 && p.quotaMode != "warn" ==> gates.teamQuota))
    && (kp.rate > 0 ==> gates.keyRate) && (kp.tokenRate > 0 ==> gates.keyTokens)
  }

  /** No enforced scope has spent more than its limit. */
  predicate WithinBudget(scopes: seq<Scope>, m: Buckets, t: Time, we: WindowEnd) {
    forall i | 0 <= i < |scopes| && scopes[i].hard :: Current(m, scopes[i].key, scopes[i].w, t, we).spent <= scopes[i].limit
  }

  lemma WithinConcat(a: seq<Scope>, b: seq<Scope>, m: Buckets, t: Time, we: WindowEnd)
    ensures WithinBudget(a + b, m, t, we) <==> WithinBudget(a, m, t, we) && WithinBudget(b, m, t, we)
  {
    if WithinBudget(a + b, m, t, we) {
      forall i | 0 <= i < |a| && a[i].hard
        ensures Current(m, a[i].key, a[i].w, t, we).spent <= a[i].limit
      {
        assert (a + b)[i] == a[i];
      }
      forall i | 0 <= i < |b| && b[i].hard
        ensures Current(m, b[i].key, b[i].w, t, we).spent <= b[i].limit
      {
        assert (a + b)[|a| + i] == b[i];
      }
    }
  }

  lemma PairMeans(g: Policies, scope: string, id: string, month: int64, monthMode: string, day: int64, dayMode: string,
                  m: Buckets, t: Time, we: WindowEnd)
    ensures PairDenial(g, scope, id, month, monthMode, day, dayMode, m, t, we).None?
       <==> WithinBudget(g.ScopesIf(scope, id, month, monthMode, day, dayMode), m, t, we)
  {
    hide Current;
    var scopes := g.ScopesIf(scope, id, month, monthMode, day, dayMode);
    var mc, dc := Counter(scope, id, true), Counter(scope, id, false);
    assert CounterKey(g, mc) == Key(scope, id, g.Month(), g.show) && CounterKey(g, dc) == Key(scope, id, g.Day(), g.show);
    if month > 0 {
      assert scopes[0] == Scope(CounterKey(g, mc), g.Month(), month, monthMode != "warn");
    }
    if day > 0 {
      assert scopes[|scopes| - 1] == Scope(CounterKey(g, dc), g.Day(), day, dayMode != "warn");
    }
  }

  /**
   A request is admitted exactly when its estimate is valid and, unless authority is shared, every gate passes
   and none of the scopes that a money reservation would claim has spent more than its limit.
   */
  lemma AdmittedIffWithinBudget(g: Policies, s: Subject, kp: KeyPolicy, estimate: int64, gates: Gates, m: Buckets, t: Time, we: WindowEnd)
    ensures Verdict(g, s, kp, estimate, gates, m, t, we).None?
       <==> 0 <= estimate && (g.shared || (GatesPass(g, s, kp, gates) && WithinBudget(g.Scopes(s, kp), m, t, we)))
  {
    WithinConcat(g.TeamScopes(s), g.KeyScopes(s, kp), m, t, we);
    WithinConcat(g.TeamScopes(s) + g.KeyScopes(s, kp), g.UserScopes(s), m, t, we);
    if g.team(s.team).Some? {
      var p := g.team(s.team).value;
      PairMeans(g, SCOPE_TEAM, s.team, p.month, p.monthMode, p.day, p.dayMode, m, t, we);
    }
    PairMeans(g, SCOPE_KEY, s.keyId, kp.month, "", kp.day, "", m, t, we);
    if g.user(s.team, s.user).Some? {
      var p := g.user(s.team, s.user).value;
      PairMeans(g, SCOPE_USER, UserBudgetId(s.team, s.user), p.month, p.mode, p.day, p.mode, m, t, we);
    }
    hide PairDenial, WithinBudget, Policies.ScopesIf;
  }

  /** How many token reservations were granted by the time the check ended as it did. */
  function Taken(g: Policies, s: Subject, kp: KeyPolicy, gates: Gates, denial: Option<Denial>): nat {
    (if TeamTaken(g, s, gates, denial) then 1 else 0) + (if KeyTaken(g, kp, gates, denial) then 1 else 0)
  }

  predicate TeamTaken(g: Policies, s: Subject, gates: Gates, denial: Option<Denial>) {
    && !g.shared && g.team(s.team).Some? && g.team(s.team).value.tokenRate > 0 && gates.teamTokens
    && denial !in {Some(InvalidEstimate), Some(LeaseGate), Some(TeamRate)}
  }

  predicate KeyTaken(g: Policies, kp: KeyPolicy, gates: Gates, denial: Option<Denial>) {
    && !g.shared && kp.tokenRate > 0 && gates.keyTokens
    && (denial.None? || (denial.value.OverBudget? && denial.value.scope != SCOPE_TEAM))
  }

  // ---- Which denial it is -------------------------------------------------------------------

  /** Of one subject's two counters the one that denies has spent too much; if both have, it resets first, the month on a tie. */
  lemma PairDenialIsSoonest(g: Policies, scope: string, id: string, month: int64, monthMode: string, day: int64, dayMode: string,
                            m: Buckets, t: Time, we: WindowEnd)
    ensures var d := PairDenial(g, scope, id, month, monthMode, day, dayMode, m, t, we);
            var mc, dc := Reading(g, Counter(scope, id, true), m, t, we), Reading(g, Counter(scope, id, false), m, t, we);
            var monthOver, dayOver := 0 < month < mc.spent && monthMode != "warn", 0 < day < dc.spent && dayMode != "warn";
            && (d.None? <==> !monthOver && !dayOver)
            && (d == Some(OverBudget(scope, true)) <==> monthOver && (!dayOver || mc.windowEnd <= dc.windowEnd))
            && (d == Some(OverBudget(scope, false)) <==> dayOver && (!monthOver || dc.windowEnd < mc.windowEnd))
  {
    hide Current;
  }

  /** The gates the team's policy puts up, in order: rate, tokens, quota. */
  predicate TeamGate(g: Policies, s: Subject, gates: Gates, n: nat) {
    g.team(s.team).Some? ==>
      var p := g.team(s.team).value;
      && (n > 0 && p.rate > 0 ==> gates.teamRate) && (n > 1 && p.tokenRate > 0 ==> gates.teamTokens)
      && (n > 2 && p.quota > 0 && p.quotaMode != "warn" ==> gates.teamQuota)
  }

  predicate KeyGate(kp: KeyPolicy, gates: Gates, n: nat) {
    (n > 0 && kp.rate > 0 ==> gates.keyRate) && (n > 1 && kp.tokenRate > 0 ==> gates.keyTokens)
  }

  /** Neither a gate nor a budget of the team refuses. */
  predicate TeamPasses(g: Policies, s: Subject, gates: Gates, m: Buckets, t: Time, we: WindowEnd) {
    TeamGate(g, s, gates, 3) && WithinBudget(g.TeamScopes(s), m, t, we)
  }

  lemma PairDenialIsOfScope(g: Policies, scope: string, id: string, month: int64, monthMode: string, day: int64, dayMode: string,
                            m: Buckets, t: Time, we: WindowEnd)
    ensures var d := PairDenial(g, scope, id, month, monthMode, day, dayMode, m, t, we);
            d.Some? ==> d.value.OverBudget? && d.value.scope == scope
  {
    hide Breached, Reading;
  }

  lemma TeamDenialMeans(g: Policies, s: Subject, gates: Gates, m: Buckets, t: Time, we: WindowEnd)
    ensures var d := TeamDenial(g, s, gates, m, t, we);
            && (d.None? <==> TeamPasses(g, s, gates, m, t, we))
            && (d.Some? ==>
                  && (d.value.TeamRate? || d.value.TeamTokens? || d.value.TeamQuota? || (d.value.OverBudget? && d.value.scope == SCOPE_TEAM))
                  && (d.value.TeamRate? ==> !TeamGate(g, s, gates, 1))
                  && (d.value.TeamTokens? ==> TeamGate(g, s, gates, 1) && !TeamGate(g, s, gates, 2))
                  && (d.value.TeamQuota? ==> TeamGate(g, s, gates, 2) && !TeamGate(g, s, gates, 3))
                  && (d.value.OverBudget? ==> TeamGate(g, s, gates, 3) && !WithinBudget(g.TeamScopes(s), m, t, we)))
  {
    if g.team(s.team).Some? {
      var p := g.team(s.team).value;
      PairMeans(g, SCOPE_TEAM, s.team, p.month, p.monthMode, p.day, p.dayMode, m, t, we);
      PairDenialIsOfScope(g, SCOPE_TEAM, s.team, p.month, p.monthMode, p.day, p.dayMode, m, t, we);
      hide PairDenial, WithinBudget, Policies.ScopesIf;
    }
  }

  lemma KeyDenialMeans(g: Policies, s: Subject, kp: KeyPolicy, gates: Gates, m: Buckets, t: Time, we: WindowEnd)
    ensures var d := KeyDenial(g, s, kp, gates, m, t, we);
            && (d.None? <==> KeyPasses(g, s, kp, gates, m, t, we))
            && (d.Some? ==>
                  && (d.value.KeyRate? || d.value.KeyTokens? || (d.value.OverBudget? && d.value.scope == SCOPE_KEY))
                  && (d.value.KeyRate? ==> !KeyGate(kp, gates, 1))
                  && (d.value.KeyTokens? ==> KeyGate(kp, gates, 1) && !KeyGate(kp, gates, 2))
                  && (d.value.OverBudget? ==> KeyGate(kp, gates, 2) && !WithinBudget(g.KeyScopes(s, kp), m, t, we)))
  {
    PairMeans(g, SCOPE_KEY, s.keyId, kp.month, "", kp.day, "", m, t, we);
    PairDenialIsOfScope(g, SCOPE_KEY, s.keyId, kp.month, "", kp.day, "", m, t, we);
    hide PairDenial, WithinBudget, Policies.ScopesIf;
  }

  lemma UserDenialMeans(g: Policies, s: Subject, m: Buckets, t: Time, we: WindowEnd)
    ensures var d := UserDenial(g, s, m, t, we);
            && (d.None? <==> WithinBudget(g.UserScopes(s), m, t, we))
            && (d.Some? ==> d.value.OverBudget? && d.value.scope == SCOPE_USER)
  {
    if s.user != "" && g.user(s.team, s.user).Some? {
      var p := g.user(s.team, s.user).value;
      PairMeans(g, SCOPE_USER, UserBudgetId(s.team, s.user), p.month, p.mode, p.day, p.mode, m, t, we);
      PairDenialIsOfScope(g, SCOPE_USER, UserBudgetId(s.team, s.user), p.month, p.mode, p.day, p.mode, m, t, we);
      hide PairDenial, WithinBudget, Policies.ScopesIf;
    }
  }

  /**
   The first refusal wins: estimate, lease, the team's rate, tokens, quota and budgets, the key's rate, tokens and
   budgets, the user's budgets. A denial names something that refuses, and everything before it lets pass.
   */
  lemma FirstRefusalWins(g: Policies, s: Subject, kp: KeyPolicy, estimate: int64, gates: Gates, m: Buckets, t: Time, we: WindowEnd)
    requires Verdict(g, s, kp, estimate, gates, m, t, we).Some?
    ensures var d := Verdict(g, s, kp, estimate, gates, m, t, we).value;
            && (d.InvalidEstimate? <==> estimate < 0)
            && (!d.InvalidEstimate? ==> !g.shared && (d.LeaseGate? <==> !gates.lease))
            && (d.TeamRate? ==> !TeamGate(g, s, gates, 1))
            && (d.TeamTokens? ==> TeamGate(g, s, gates, 1) && !TeamGate(g, s, gates, 2))
            && (d.TeamQuota? ==> TeamGate(g, s, gates, 2) && !TeamGate(g, s, gates, 3))
            && (d.KeyRate? ==> TeamPasses(g, s, gates, m, t, we) && !KeyGate(kp, gates, 1))
            && (d.KeyTokens? ==> TeamPasses(g, s, gates, m, t, we) && KeyGate(kp, gates, 1) && !KeyGate(kp, gates, 2))
            && (d.OverBudget? ==>
                  || (d.scope == SCOPE_TEAM && TeamGate(g, s, gates, 3) && !WithinBudget(g.TeamScopes(s), m, t, we))
                  || (d.scope == SCOPE_KEY && TeamPasses(g, s, gates, m, t, we) && KeyGate(kp, gates, 2)
                      && !WithinBudget(g.KeyScopes(s, kp), m, t, we))
                  || (d.scope == SCOPE_USER && TeamPasses(g, s, gates, m, t, we) && KeyPasses(g, s, kp, gates, m, t, we)
                      && !WithinBudget(g.UserScopes(s), m, t, we)))
  {
    TeamDenialMeans(g, s, gates, m, t, we);
    KeyDenialMeans(g, s, kp, gates, m, t, we);
    UserDenialMeans(g, s, m, t, we);
    hide TeamDenial, KeyDenial, UserDenial, TeamGate, KeyGate, TeamPasses, KeyPasses, WithinBudget;
  }

  /** Neither a gate nor a budget of the key refuses. */
  predicate KeyPasses(g: Policies, s: Subject, kp: KeyPolicy, gates: Gates, m: Buckets, t: Time, we: WindowEnd) {
    KeyGate(kp, gates, 2) && WithinBudget(g.KeyScopes(s, kp), m, t, we)
  }

  /** An admitted request holds one token reservation for each of team and key that limits tokens. */
  lemma AdmittedHoldsTokens(g: Policies, s: Subject, kp: KeyPolicy, estimate: int64, gates: Gates, m: Buckets, t: Time, we: WindowEnd)
    requires Verdict(g, s, kp, estimate, gates, m, t, we).None? && !g.shared
    ensures Taken(g, s, kp, gates, None)
         == (if g.team(s.team).Some? && g.team(s.team).value.tokenRate > 0 then 1 else 0) + (if kp.tokenRate > 0 then 1 else 0)
  {
    hide PairDenial;
  }

  // ---- The check itself -----------------------------------------------------------------

  method CheckCounter(bud: Memory, g: Policies, c: Counter, limit: int64, t: Time, ghost m: Buckets) returns (d: Decision)
    requires bud.Valid() && Known(c) && 0 < limit && SameCounters(g, m, bud.m, t, bud.windowEnd)
    modifies bud
    ensures bud.Valid() && SameCounters(g, m, bud.m, t, bud.windowEnd)
    ensures d == BlockCapacity || d == if limit < Reading(g, c, m, t, bud.windowEnd).spent then Block else Allow
    ensures bud.rejected == old(bud.rejected) + if d == BlockCapacity then 1 else 0
  {
    ghost var now := bud.m;
    d := bud.Check(CounterKey(g, c), 0, limit, WindowOf(g, c), t);
    SameAfterLookup(g, m, now, bud.m, c, t, bud.windowEnd);
  }

  method ResetsAt(bud: Memory, g: Policies, c: Counter, t: Time, ghost m: Buckets) returns (ends: Time)
    requires bud.Valid() && Known(c) && SameCounters(g, m, bud.m, t, bud.windowEnd)
    modifies bud
    ensures bud.Valid() && SameCounters(g, m, bud.m, t, bud.windowEnd) && old(bud.rejected) <= bud.rejected
    ensures ends == Reading(g, c, m, t, bud.windowEnd).windowEnd
  {
    ghost var now := bud.m;
    ends := bud.ResetsAt(CounterKey(g, c), WindowOf(g, c), t);
    SameAfterLookup(g, m, now, bud.m, c, t, bud.windowEnd);
  }

  /** The two windows of one subject; a store that is full denies whatever the policy's mode. */
  method CheckPair(bud: Memory, g: Policies, scope: string, id: string, month: int64, monthMode: string, day: int64, dayMode: string,
                   t: Time, ghost m: Buckets)
    returns (denial: Option<Denial>)
    requires bud.Valid() && Known(Counter(scope, id, true)) && SameCounters(g, m, bud.m, t, bud.windowEnd)
    modifies bud
    ensures bud.Valid() && SameCounters(g, m, bud.m, t, bud.windowEnd) && old(bud.rejected) <= bud.rejected
    ensures if bud.rejected == old(bud.rejected)
            then denial == PairDenial(g, scope, id, month, monthMode, day, dayMode, m, t, bud.windowEnd)
            else denial.Some?
    ensures denial.Some? ==> denial.value.OverBudget? && denial.value.scope == scope
  {
    hide SameCounters, Reading, CounterKey, WindowOf, Memory.Valid;
    denial := None;
    var resets := 0;
    if month > 0 {
      var c := Counter(scope, id, true);
      var d := CheckCounter(bud, g, c, month, t, m);
      if MustDeny(d, monthMode) {
        resets := ResetsAt(bud, g, c, t, m);
        denial := Some(OverBudget(scope, true));
      }
    }
    if day > 0 {
      var c := Counter(scope, id, false);
      var d := CheckCounter(bud, g, c, day, t, m);
      if MustDeny(d, dayMode) {
        var ends := ResetsAt(bud, g, c, t, m);
        if denial.None? || ends < resets {
          denial := Some(OverBudget(scope, false));
        }
      }
    }
  }

  /** A token-rate reservation, captured if the limiter granted it. */
  method ReserveTokens(a: Admission, granted: bool)
    requires a.Valid() && !a.once
    modifies a`rates
    ensures a.Valid() && (forall i | 0 <= i < |a.rates| :: a.rates[i] in old(a.rates) || fresh(a.rates[i]))
    ensures |a.rates| == old(|a.rates|) + if granted then 1 else 0
  {
    if granted {
      var r := new RateReservation();
      a.Capture(r);
    }
  }

  /** The team's part, in the source's order: rate, token rate, quota, budgets. */
  method CheckTeam(bud: Memory, g: Policies, s: Subject, gates: Gates, t: Time, a: Admission, ghost m: Buckets) returns (denial: Option<Denial>)
    requires bud.Valid() && SameCounters(g, m, bud.m, t, bud.windowEnd) && a.Valid() && !a.once
    modifies bud, a`rates
    ensures bud.Valid() && SameCounters(g, m, bud.m, t, bud.windowEnd) && old(bud.rejected) <= bud.rejected
    ensures if bud.rejected == old(bud.rejected) then denial == TeamDenial(g, s, gates, m, t, bud.windowEnd)
            else denial.Some? && denial.value.OverBudget?
    ensures denial.Some? && denial.value.OverBudget? ==> denial.value.scope == SCOPE_TEAM
    ensures a.Valid() && (forall i | 0 <= i < |a.rates| :: a.rates[i] in old(a.rates) || fresh(a.rates[i]))
    ensures !g.shared && denial !in {Some(InvalidEstimate), Some(LeaseGate)} ==> |a.rates| == old(|a.rates|) + if TeamTaken(g, s, gates, denial) then 1 else 0
  {
    hide SameCounters, PairDenial, Memory.Valid;
    match g.team(s.team)
    case None => denial := None;
    case Some(p) =>
      if p.rate > 0 && !gates.teamRate {
        return Some(TeamRate);
      }
      if p.tokenRate > 0 {
        ReserveTokens(a, gates.teamTokens);
        if !gates.teamTokens {
          return Some(TeamTokens);
        }
      }
      if p.quota > 0 && !gates.teamQuota && p.quotaMode != "warn" {
        return Some(TeamQuota);
      }
      denial := CheckPair(bud, g, SCOPE_TEAM, s.team, p.month, p.monthMode, p.day, p.dayMode, t, m);
  }

  method CheckKey(bud: Memory, g: Policies, s: Subject, kp: KeyPolicy, gates: Gates, t: Time, a: Admission, ghost m: Buckets) returns (denial: Option<Denial>)
    requires bud.Valid() && SameCounters(g, m, bud.m, t, bud.windowEnd) && a.Valid() && !a.once
    modifies bud, a`rates
    ensures bud.Valid() && SameCounters(g, m, bud.m, t, bud.windowEnd) && old(bud.rejected) <= bud.rejected
    ensures if bud.rejected == old(bud.rejected) then denial == KeyDenial(g, s, kp, gates, m, t, bud.windowEnd)
            else denial.Some? && denial.value.OverBudget?
    ensures denial.Some? && denial.value.OverBudget? ==> denial.value.scope == SCOPE_KEY
    ensures a.Valid() && (forall i | 0 <= i < |a.rates| :: a.rates[i] in old(a.rates) || fresh(a.rates[i]))
    ensures !g.shared ==> |a.rates| == old(|a.rates|) + if KeyTaken(g, kp, gates, denial) then 1 else 0
  {
    hide SameCounters, PairDenial, Memory.Valid;
    if kp.rate > 0 && !gates.keyRate {
      return Some(KeyRate);
    }
    if kp.tokenRate > 0 {
      ReserveTokens(a, gates.keyTokens);
      if !gates.keyTokens {
        return Some(KeyTokens);
      }
    }
    denial := CheckPair(bud, g, SCOPE_KEY, s.keyId, kp.month, "", kp.day, "", t, m);
  }

  method CheckUser(bud: Memory, g: Policies, s: Subject, t: Time, ghost m: Buckets) returns (denial: Option<Denial>)
    requires bud.Valid() && SameCounters(g, m, bud.m, t, bud.windowEnd)
    modifies bud
    ensures bud.Valid() && SameCounters(g, m, bud.m, t, bud.windowEnd) && old(bud.rejected) <= bud.rejected
    ensures if bud.rejected == old(bud.rejected) then denial == UserDenial(g, s, m, t, bud.windowEnd) else denial.Some?
    ensures denial.Some? ==> denial.value.OverBudget? && denial.value.scope == SCOPE_USER
  {
    hide SameCounters, PairDenial, Memory.Valid;
    denial := None;
    if s.user != "" && g.user(s.team, s.user).Some? {
      var p := g.user(s.team, s.user).value;
      denial := CheckPair(bud, g, SCOPE_USER, UserBudgetId(s.team, s.user), p.month, p.mode, p.day, p.mode, t, m);
    }
  }

  /** The checks in order, on an admission that captures what they reserve. */
  method CheckInOrder(bud: Memory, g: Policies, s: Subject, kp: KeyPolicy, estimate: int64, gates: Gates, t: Time, a: Admission) returns (denial: Option<Denial>)
    requires bud.Valid() && a.Valid() && !a.once
    modifies bud, a`rates
    ensures bud.Valid() && SameCounters(g, old(bud.m), bud.m, t, bud.windowEnd) && old(bud.rejected) <= bud.rejected
    ensures if bud.rejected == old(bud.rejected) then denial == Verdict(g, s, kp, estimate, gates, old(bud.m), t, bud.windowEnd)
            else denial.Some? && denial.value.OverBudget?
    ensures a.Valid() && (forall i | 0 <= i < |a.rates| :: a.rates[i] in old(a.rates) || fresh(a.rates[i]))
    ensures |a.rates| == old(|a.rates|) + Taken(g, s, kp, gates, denial)
  {
    ghost var m := bud.m;
    hide Reading, TeamDenial, KeyDenial, UserDenial, Memory.Valid;
    assert SameCounters(g, m, m, t, bud.windowEnd);
    hide SameCounters;
    if estimate < 0 {
      return Some(InvalidEstimate);
    }
    if g.shared {
      return None;
    }
    if !gates.lease {
      return Some(LeaseGate);
    }
    denial := CheckTeam(bud, g, s, gates, t, a, m);
    if denial.Some? {
      return;
    }
    denial := CheckKey(bud, g, s, kp, gates, t, a, m);
    if denial.Some? {
      return;
    }
    denial := CheckUser(bud, g, s, t, m);
  }

  /**
   The whole check. A denied request has had every reservation it took refunded exactly once; an admitted one
   holds them all, open. Nothing is spent.
   */
  method PreCheck(bud: Memory, g: Policies, s: Subject, kp: KeyPolicy, estimate: int64, gates: Gates, t: Time)
    returns (denial: Option<Denial>, a: Admission)
    requires bud.Valid()
    modifies bud
    ensures bud.Valid() && SameCounters(g, old(bud.m), bud.m, t, bud.windowEnd) && old(bud.rejected) <= bud.rejected
    ensures bud.rejected == old(bud.rejected) ==> denial == Verdict(g, s, kp, estimate, gates, old(bud.m), t, bud.windowEnd)
    ensures bud.rejected != old(bud.rejected) ==> denial.Some? && denial.value.OverBudget?
    ensures fresh(a) && fresh(a.rates) && a.Valid() && a.estimate == estimate && !a.moneyOwned && !a.dispatched
    ensures |a.rates| == Taken(g, s, kp, gates, denial) && a.once == denial.Some?
    ensures forall r | r in a.rates :: r.finishes == if denial.Some? then [Some(0)] else []
  {
    hide Memory.Valid, SameCounters, PairDenial;
    a := new Admission(estimate);
    assert a.rates == [];
    denial := CheckInOrder(bud, g, s, kp, estimate, gates, t, a);
    if denial.Some? {
      a.Cancel();
    }
  }
}
