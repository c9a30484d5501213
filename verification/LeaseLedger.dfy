/**
 The control plane's budget-lease ledger (internal/controlplane/controlplane.go).

 Each heartbeat reports a data plane's cumulative spend and returns a new
 cumulative allowance. The functions say what one heartbeat or one policy reload
 does to one ledger row; class Server performs them step by step.
 */
module LeaseLedger {
  import opened Basics
  import opened Int64s
  import opened MapSums

  /** Nanoseconds. */
  type Dataplane = string
  datatype RuleKey = RuleKey(policy: string, rule: string)

  const PERIOD_MONTH := "CalendarMonth"
  /** Silence after which a data plane's rows are dropped: 24 hours. */
  const PRUNE_AFTER: Time := 86_400_000_000_000

  datatype RuleLedger = RuleLedger(
    team: string,
    limitMicro: money,
    grantMicro: money,
    renew: Time,
    hard: bool,
    period: string,
    routingOnly: bool,
    spent: map<Dataplane, money>,
    allowance: map<Dataplane, money>
  ) {
    /** Go map reads: an absent entry is zero. */
    function SpentOf(d: Dataplane): money {
      if d in spent then spent[d] else 0
    }

    function AllowanceOf(d: Dataplane): money {
      if d in allowance then allowance[d] else 0
    }
  }

  datatype Report = Report(key: RuleKey, spentMicro: int64, period: string)
  datatype Lease = Lease(allowance: money, expires: Time)

  datatype SyncResult = Rejected | Granted(leases: map<RuleKey, Lease>)

  datatype Budget = Budget(unlimited: bool, limitMicro: money, grantMicro: money, renew: Time, hard: bool, period: string)
  datatype Rule = Rule(name: string, hasBudget: bool, budget: Budget, routingOnly: bool)
  datatype Policy = Policy(name: string, team: string, user: string, rules: seq<Rule>)

  // ---- Accounting -----------------------------------------------------------

  function AddAccounting(a: int64, b: int64): (r: int64)
    ensures 0 <= a && 0 <= b ==> r == Min(MAX_INT64, a + b)
    ensures a < 0 || b < 0 ==> r == MAX_INT64
  {
    if a < 0 || b < 0 || a > MAX_INT64 - b then MAX_INT64 else a + b
  }

  /** Can the lease that d was last granted still be valid at now? */
  predicate Live(l: RuleLedger, now: Time, seen: map<Dataplane, Time>, d: Dataplane) {
    d in seen && now - seen[d] <= 3 * l.renew
  }

  /** Granted-but-unreported money of every live data plane except exclude. */
  ghost function Outstanding(l: RuleLedger, now: Time, seen: map<Dataplane, Time>, exclude: Dataplane): map<Dataplane, money> {
    map d | d in l.allowance && d != exclude && Live(l, now, seen, d) && l.allowance[d] > l.SpentOf(d)
      :: l.allowance[d] - l.SpentOf(d)
  }

  /** What the rule still has to give, in exact arithmetic. */
  ghost function Remaining(l: RuleLedger, now: Time, seen: map<Dataplane, Time>, d: Dataplane): (r: money)
    ensures r <= l.limitMicro
  {
    SumNonNegative(l.spent);
    SumNonNegative(Outstanding(l, now, seen, d));
    Max(0, l.limitMicro - Sum(l.spent) - Sum(Outstanding(l, now, seen, d)))
  }

  lemma GrantFits(l: RuleLedger, now: Time, seen: map<Dataplane, Time>, d: Dataplane)
    ensures l.SpentOf(d) + Min(l.grantMicro, Remaining(l, now, seen, d)) <= MAX_INT64
  {
    SumNonNegative(Outstanding(l, now, seen, d));
    if d in l.spent {
      SumAtLeast(l.spent, d);
    }
  }

  // ---- One heartbeat on one row --------------------------------------------

  predicate Matches(l: RuleLedger, k: RuleKey, rep: Report) {
    rep.key == k && (if rep.period == "" then PERIOD_MONTH else rep.period) == l.period
  }

  predicate NonNegative(reports: seq<Report>) {
    forall i | 0 <= i < |reports| :: 0 <= reports[i].spentMicro
  }

  function AbsorbOne(l: RuleLedger, k: RuleKey, d: Dataplane, rep: Report): RuleLedger
    requires 0 <= rep.spentMicro
  {
    if Matches(l, k, rep) then
      l.(allowance := if rep.spentMicro < l.SpentOf(d) then l.allowance[d := 0] else l.allowance,
         spent := l.spent[d := rep.spentMicro])
    else l
  }

  function Absorb(l: RuleLedger, k: RuleKey, d: Dataplane, reports: seq<Report>): RuleLedger
    requires NonNegative(reports)
  {
    if reports == [] then l
    else
      var n := |reports| - 1;
      AbsorbOne(Absorb(l, k, d, reports[..n]), k, d, reports[n])
  }

  /** Data plane e has the same figures in both rows. */
  predicate SameFigures(l: RuleLedger, m: RuleLedger, e: Dataplane) {
    && m.SpentOf(e) == l.SpentOf(e) && m.AllowanceOf(e) == l.AllowanceOf(e)
    && (e in m.spent <==> e in l.spent) && (e in m.allowance <==> e in l.allowance)
  }

  /** Only the reporter's figures change. */
  ghost predicate OnlyReporter(l: RuleLedger, m: RuleLedger, d: Dataplane) {
    m == l.(spent := m.spent, allowance := m.allowance) && forall e | e != d :: SameFigures(l, m, e)
  }

  lemma OneKeepsOthers(l: RuleLedger, k: RuleKey, d: Dataplane, rep: Report)
    requires 0 <= rep.spentMicro
    ensures OnlyReporter(l, AbsorbOne(l, k, d, rep), d)
  {
  }

  lemma OnlyReporterTwice(l: RuleLedger, m: RuleLedger, r: RuleLedger, d: Dataplane)
    requires OnlyReporter(l, m, d) && OnlyReporter(m, r, d)
    ensures OnlyReporter(l, r, d)
  {
    forall e | e != d
      ensures SameFigures(l, r, e)
    {
      assert SameFigures(l, m, e) && SameFigures(m, r, e);
    }
  }

  /** Reports of d, a decrease included, leave the terms of the row and everybody else's figures alone. */
  lemma {:induction false} AbsorbKeepsOthers(l: RuleLedger, k: RuleKey, d: Dataplane, reports: seq<Report>)
    requires NonNegative(reports)
    ensures OnlyReporter(l, Absorb(l, k, d, reports), d)
    decreases |reports|
  {
    if reports != [] {
      var n := |reports| - 1;
      var m := Absorb(l, k, d, reports[..n]);
      AbsorbKeepsOthers(l, k, d, reports[..n]);
      OneKeepsOthers(m, k, d, reports[n]);
      hide AbsorbOne, OnlyReporter;
      OnlyReporterTwice(l, m, AbsorbOne(m, k, d, reports[n]), d);
    }
  }

  function Silent(seen: map<Dataplane, Time>, now: Time): set<Dataplane> {
    set d | d in seen && now - seen[d] > PRUNE_AFTER
  }

  function Drop(l: RuleLedger, gone: set<Dataplane>): RuleLedger {
    l.(spent := l.spent - gone, allowance := l.allowance - gone)
  }

  ghost function Grant(l: RuleLedger, now: Time, seen: map<Dataplane, Time>, d: Dataplane): RuleLedger {
    if l.routingOnly then l
    else
      GrantFits(l, now, seen, d);
      l.(allowance := l.allowance[d := l.SpentOf(d) + Min(l.grantMicro, Remaining(l, now, seen, d))])
  }

  ghost function SyncRow(l: RuleLedger, k: RuleKey, now: Time, seen: map<Dataplane, Time>, d: Dataplane, reports: seq<Report>): RuleLedger
    requires NonNegative(reports)
  {
    var gone := Silent(seen, now);
    Grant(Drop(Absorb(l, k, d, reports), gone), now, seen - gone, d)
  }

  // ---- The whole control plane ----------------------------------------------

  datatype State = State(ledger: map<RuleKey, RuleLedger>, seen: map<Dataplane, Time>)

  predicate Accepts(d: Dataplane, reports: seq<Report>) {
    d != "" && NonNegative(reports)
  }

  /** The state after one accepted heartbeat of d. */
  ghost function SyncState(s: State, now: Time, d: Dataplane, reports: seq<Report>): State
    requires Accepts(d, reports)
  {
    var seen := s.seen[d := now];
    State(map k | k in s.ledger :: SyncRow(s.ledger[k], k, now, seen, d, reports), seen - Silent(seen, now))
  }

  /**
   An accepted heartbeat of d changes nobody else's figures in any row, unless they were silent for more than 24
   hours; those are gone.
   */
  ghost predicate OthersUntouched(before: State, after: State, now: Time, d: Dataplane) {
    && after.ledger.Keys == before.ledger.Keys && d in after.seen && after.seen[d] == now
    && (forall e | e != d ::
          && (e in after.seen <==> e in before.seen && now - before.seen[e] <= 86_400_000_000_000)
          && (e in after.seen ==> after.seen[e] == before.seen[e]))
    && forall k, e | k in before.ledger && e != d ::
         if e in before.seen && now - before.seen[e] > 86_400_000_000_000
         then e !in after.ledger[k].spent && e !in after.ledger[k].allowance
         else SameFigures(before.ledger[k], after.ledger[k], e)
  }

  lemma SyncLeavesOthers(s: State, now: Time, d: Dataplane, reports: seq<Report>)
    requires Accepts(d, reports)
    ensures OthersUntouched(s, SyncState(s, now, d, reports), now, d)
  {
    var after := SyncState(s, now, d, reports);
    hide Remaining, Absorb;
    forall k, e | k in s.ledger && e != d
      ensures if e in s.seen && now - s.seen[e] > 86_400_000_000_000
              then e !in after.ledger[k].spent && e !in after.ledger[k].allowance
              else SameFigures(s.ledger[k], after.ledger[k], e)
    {
      AbsorbKeepsOthers(s.ledger[k], k, d, reports);
      assert SameFigures(s.ledger[k], Absorb(s.ledger[k], k, d, reports), e);
    }
  }

  function LeaseOf(l: RuleLedger, now: Time, d: Dataplane): Lease {
    Lease(l.AllowanceOf(d), now + 3 * l.renew)
  }

  ghost function LeasesOf(ledger: map<RuleKey, RuleLedger>, now: Time, d: Dataplane): map<RuleKey, Lease> {
    map k | k in ledger && !ledger[k].routingOnly :: LeaseOf(ledger[k], now, d)
  }

  // ---- Installing a policy set ----------------------------------------------

  predicate LeaseManaged(p: Policy, r: Rule) {
    r.hasBudget && p.team != "" && p.user == "" && !r.budget.unlimited
  }

  function NewRow(prev: map<RuleKey, RuleLedger>, k: RuleKey, p: Policy, r: Rule): RuleLedger {
    var row := RuleLedger(p.team, r.budget.limitMicro, r.budget.grantMicro, r.budget.renew, r.budget.hard, r.budget.period,
                            r.routingOnly, map[], map[]);
    if k in prev && prev[k].period == row.period then
      row.(spent := prev[k].spent, allowance := if row.routingOnly then map[] else prev[k].allowance)
    else row
  }

  /** The rows the first n rules of p add to acc; a later rule of the same name wins. */
  function WithRules(acc: map<RuleKey, RuleLedger>, prev: map<RuleKey, RuleLedger>, p: Policy, n: nat): map<RuleKey, RuleLedger>
    requires n <= |p.rules|
  {
    if n == 0 then acc
    else
      var r := p.rules[n - 1];
      var k := RuleKey(p.name, r.name);
      var before := WithRules(acc, prev, p, n - 1);
      if LeaseManaged(p, r) then before[k := NewRow(prev, k, p, r)] else before
  }

  function WithPolicies(prev: map<RuleKey, RuleLedger>, ps: seq<Policy>): map<RuleKey, RuleLedger> {
    if ps == [] then map[]
    else
      var n := |ps| - 1;
      WithRules(WithPolicies(prev, ps[..n]), prev, ps[n], |ps[n].rules|)
  }

  lemma {:induction false} RulesRow(acc: map<RuleKey, RuleLedger>, prev: map<RuleKey, RuleLedger>, p: Policy, n: nat, k: RuleKey)
    requires n <= |p.rules| && k in WithRules(acc, prev, p, n)
    ensures (k in acc && WithRules(acc, prev, p, n)[k] == acc[k]) || exists r :: WithRules(acc, prev, p, n)[k] == NewRow(prev, k, p, r)
  {
    if n > 0 {
      var r := p.rules[n - 1];
      if !LeaseManaged(p, r) || k != RuleKey(p.name, r.name) {
        RulesRow(acc, prev, p, n - 1, k);
      }
    }
  }

  /** Every row of a rebuilt ledger carries exactly what an unchanged period lets it carry. */
  lemma {:induction false} ReloadRow(prev: map<RuleKey, RuleLedger>, ps: seq<Policy>, k: RuleKey)
    requires k in WithPolicies(prev, ps)
    ensures var row := WithPolicies(prev, ps)[k];
            var carried := k in prev && prev[k].period == row.period;
            && row.spent == (if carried then prev[k].spent else map[])
            && row.allowance == (if carried && !row.routingOnly then prev[k].allowance else map[])
    decreases |ps|
  {
    if ps != [] {
      var n := |ps| - 1;
      var acc := WithPolicies(prev, ps[..n]);
      RulesRow(acc, prev, ps[n], |ps[n].rules|, k);
      if k in acc && WithPolicies(prev, ps)[k] == acc[k] {
        ReloadRow(prev, ps[..n], k);
      }
    }
  }

  /** Folds the values of m in any order with saturating addition. */
  method FoldAccounting(m: map<Dataplane, money>) returns (total: int64)
    ensures total == Min(MAX_INT64, Sum(m))
  {
    total := 0;
    var todo := m.Keys;
    assert m - todo == map[];
    while todo != {}
      invariant todo <= m.Keys
      invariant 0 <= total == Min(MAX_INT64, Sum(m - todo))
    {
      var d :| d in todo;
      SumSplit(m - (todo - {d}), d);
      assert m - (todo - {d}) - {d} == m - todo;
      SumNonNegative(m - todo);
      total := AddAccounting(total, m[d]);
      todo := todo - {d};
    }
    assert m - todo == m;
  }

  /** Walking on by one key adds its value, if it has one, to the sum of what was walked. */
  lemma WalkedOne(all: map<Dataplane, money>, todo: set<Dataplane>, d: Dataplane)
    requires d in todo
    ensures Sum(all - (todo - {d})) == Sum(all - todo) + if d in all then all[d] else 0
    ensures 0 <= Sum(all - todo)
  {
    SumNonNegative(all - todo);
    if d in all {
      SumSplit(all - (todo - {d}), d);
      assert all - (todo - {d}) - {d} == all - todo;
    } else {
      assert all - (todo - {d}) == all - todo;
    }
  }

  /** Reported spend and outstanding allowance, whatever order the maps are walked in. */
  method Totals(l: RuleLedger, now: Time, seen: map<Dataplane, Time>, exclude: Dataplane) returns (spent: int64, outstanding: int64)
    ensures spent == Min(MAX_INT64, Sum(l.spent))
    ensures outstanding == Min(MAX_INT64, Sum(Outstanding(l, now, seen, exclude)))
  {
    spent := FoldAccounting(l.spent);
    outstanding := 0;
    ghost var all := Outstanding(l, now, seen, exclude);
    var todo := l.allowance.Keys;
    assert all - todo == map[] && all - {} == all;
    assert Sum(all - todo) == 0;
    hide Sum;
    while todo != {}
      invariant todo <= l.allowance.Keys
      invariant 0 <= outstanding == Min(MAX_INT64, Sum(all - todo))
    {
      var d :| d in todo;
      WalkedOne(all, todo, d);
      if d != exclude && d in seen && !(now - seen[d] > 3 * l.renew) {
        var extra := l.allowance[d] - l.SpentOf(d);
        if extra > 0 {
          outstanding := AddAccounting(outstanding, extra);
        }
      }
      todo := todo - {d};
    }
  }

  /** The slice of a row that d may add to its reported spend: at most what exact arithmetic leaves. */
  method Slice(l: RuleLedger, now: Time, seen: map<Dataplane, Time>, d: Dataplane) returns (add: money)
    ensures add == Min(l.grantMicro, Remaining(l, now, seen, d))
  {
    var globalSpent, outstanding := Totals(l, now, seen, d);
    SumNonNegative(l.spent);
    SumNonNegative(Outstanding(l, now, seen, d));
    var remaining: int64 := 0;
    if globalSpent < l.limitMicro && outstanding < l.limitMicro - globalSpent {
      remaining := l.limitMicro - globalSpent - outstanding;
    }
    add := l.grantMicro;
    if add > remaining {
      add := remaining;
    }
  }

  method GrantTo(l: RuleLedger, now: Time, seen: map<Dataplane, Time>, d: Dataplane) returns (r: RuleLedger, lease: Lease)
    requires !l.routingOnly
    ensures r == Grant(l, now, seen, d)
    ensures lease == LeaseOf(r, now, d)
  {
    var add := Slice(l, now, seen, d);
    GrantFits(l, now, seen, d);
    var allowance: money := l.SpentOf(d) + add;
    r := l.(allowance := l.allowance[d := allowance]);
    lease := Lease(allowance, now + 3 * l.renew);
  }

  lemma OtherRowsIgnore(l: RuleLedger, k: RuleKey, d: Dataplane, rep: Report)
    requires rep.key != k && 0 <= rep.spentMicro
    ensures AbsorbOne(l, k, d, rep) == l
  {
  }

  /** One report on the row it names: a wrong period is ignored, and a report below the last one drops the lease. */
  method AbsorbInto(l: RuleLedger, d: Dataplane, rep: Report) returns (r: RuleLedger)
    requires 0 <= rep.spentMicro
    ensures r == AbsorbOne(l, rep.key, d, rep) && OnlyReporter(l, r, d)
  {
    r := l;
    var repPeriod := rep.period;
    if repPeriod == "" {
      repPeriod := PERIOD_MONTH;
    }
    if repPeriod == l.period {
      if rep.spentMicro < l.SpentOf(d) {
        r := r.(allowance := r.allowance[d := 0]);
      }
      r := r.(spent := r.spent[d := rep.spentMicro]);
    }
  }

  /** Every row but those in todo has been renewed, and has its lease if it gets one. */
  ghost predicate LeasedBut(before: map<RuleKey, RuleLedger>, after: map<RuleKey, RuleLedger>, leases: map<RuleKey, Lease>, todo: set<RuleKey>,
                            now: Time, seen: map<Dataplane, Time>, d: Dataplane) {
    && after.Keys == before.Keys
    && (forall k | k in before :: after[k] == if k in todo then before[k] else Grant(before[k], now, seen, d))
    && (forall k :: k in leases <==> k in before && k !in todo && !before[k].routingOnly)
    && forall k | k in leases :: leases[k] == LeaseOf(after[k], now, d)
  }

  /** A row without authority of its own is left as it is. */
  lemma LeasedSkip(before: map<RuleKey, RuleLedger>, after: map<RuleKey, RuleLedger>, leases: map<RuleKey, Lease>, todo: set<RuleKey>,
                   now: Time, seen: map<Dataplane, Time>, d: Dataplane, k: RuleKey)
    requires LeasedBut(before, after, leases, todo, now, seen, d) && k in todo && k in after && after[k].routingOnly
    ensures LeasedBut(before, after, leases, todo - {k}, now, seen, d)
  {
    assert Grant(after[k], now, seen, d) == after[k];
    hide Grant, LeaseOf;
  }

  lemma LeasedNext(before: map<RuleKey, RuleLedger>, after: map<RuleKey, RuleLedger>, leases: map<RuleKey, Lease>, todo: set<RuleKey>,
                   now: Time, seen: map<Dataplane, Time>, d: Dataplane, k: RuleKey)
    requires LeasedBut(before, after, leases, todo, now, seen, d) && k in todo && k in after && !after[k].routingOnly
    ensures var l := Grant(after[k], now, seen, d);
            LeasedBut(before, after[k := l], leases[k := LeaseOf(l, now, d)], todo - {k}, now, seen, d)
  {
    hide Grant, LeaseOf;
  }

  lemma LeasedAll(before: map<RuleKey, RuleLedger>, after: map<RuleKey, RuleLedger>, leases: map<RuleKey, Lease>,
                  now: Time, seen: map<Dataplane, Time>, d: Dataplane)
    requires LeasedBut(before, after, leases, {}, now, seen, d)
    ensures after == (map k | k in before :: Grant(before[k], now, seen, d)) && leases == LeasesOf(after, now, d)
  {
    hide Remaining, LeaseOf;
  }

  class Server {
    var ledger: map<RuleKey, RuleLedger>
    var seen: map<Dataplane, Time>

    ghost function Now(): State
      reads this
    {
      State(ledger, seen)
    }

    constructor ()
      ensures Now() == State(map[], map[])
    {
      ledger, seen := map[], map[];
    }

    method HandleSync(d: Dataplane, reports: seq<Report>, now: Time) returns (resp: SyncResult)
      modifies this
      ensures resp.Granted? <==> Accepts(d, reports)
      ensures resp.Rejected? ==> Now() == old(Now())
      ensures resp.Granted? ==> Now() == SyncState(old(Now()), now, d, reports)
      ensures resp.Granted? ==> OthersUntouched(old(Now()), Now(), now, d)
      ensures resp.Granted? ==> resp.leases == LeasesOf(ledger, now, d)
    {
      if d == "" {
        return Rejected;
      }
      var i := 0;
      while i < |reports|
        invariant 0 <= i <= |reports|
        invariant NonNegative(reports[..i])
      {
        if reports[i].spentMicro < 0 {
          return Rejected;
        }
        i := i + 1;
      }
      assert reports[..i] == reports;
      SyncLeavesOthers(Now(), now, d, reports);
      hide OthersUntouched, Absorb, Remaining;
      seen := seen[d := now];
      AbsorbReports(d, reports);
      Prune(now);
      var leases := GrantLeases(d, now);
      return Granted(leases);
    }

    method AbsorbReports(d: Dataplane, reports: seq<Report>)
      requires NonNegative(reports)
      modifies this`ledger
      ensures ledger == map k | k in old(ledger) :: Absorb(old(ledger)[k], k, d, reports)
      ensures forall k | k in ledger :: OnlyReporter(old(ledger)[k], ledger[k], d)
    {
      ghost var before := ledger;
      var i := 0;
      hide AbsorbOne;
      while i < |reports|
        invariant 0 <= i <= |reports|
        invariant ledger.Keys == before.Keys
        invariant forall k | k in before :: ledger[k] == Absorb(before[k], k, d, reports[..i])
      {
        var rep := reports[i];
        assert reports[..i + 1][..i] == reports[..i];
        forall k | k in before && k != rep.key
          ensures AbsorbOne(ledger[k], k, d, rep) == ledger[k]
        {
          OtherRowsIgnore(ledger[k], k, d, rep);
        }
        if rep.key in ledger {
          var l := AbsorbInto(ledger[rep.key], d, rep);
          ledger := ledger[rep.key := l];
        }
        i := i + 1;
      }
      assert reports[..i] == reports;
      forall k | k in before
        ensures OnlyReporter(before[k], ledger[k], d)
      {
        AbsorbKeepsOthers(before[k], k, d, reports);
      }
    }

    method Prune(now: Time)
      modifies this
      ensures seen == old(seen) - Silent(old(seen), now)
      ensures ledger == map k | k in old(ledger) :: Drop(old(ledger)[k], Silent(old(seen), now))
    {
      ghost var before := ledger;
      ghost var was := seen;
      ghost var gone: set<Dataplane> := {};
      var todo := seen.Keys;
      while todo != {}
        invariant todo <= was.Keys
        invariant gone == Silent(was, now) - todo
        invariant seen == was - gone
        invariant ledger.Keys == before.Keys
        invariant forall k | k in before :: ledger[k] == Drop(before[k], gone)
      {
        var id :| id in todo;
        if now - seen[id] > PRUNE_AFTER {
          seen := seen - {id};
          DropFromRows(id);
          forall k | k in before
            ensures ledger[k] == Drop(before[k], gone + {id})
          {
            assert before[k].spent - gone - {id} == before[k].spent - (gone + {id});
            assert before[k].allowance - gone - {id} == before[k].allowance - (gone + {id});
          }
          gone := gone + {id};
        }
        todo := todo - {id};
      }
      assert gone == Silent(was, now);
    }

    method DropFromRows(id: Dataplane)
      modifies this`ledger
      ensures ledger == map k | k in old(ledger) :: Drop(old(ledger)[k], {id})
    {
      ghost var before := ledger;
      var todo := ledger.Keys;
      while todo != {}
        invariant todo <= before.Keys == ledger.Keys
        invariant forall k | k in before :: ledger[k] == if k in todo then before[k] else Drop(before[k], {id})
      {
        var k :| k in todo;
        var l := ledger[k];
        ledger := ledger[k := l.(spent := l.spent - {id}, allowance := l.allowance - {id})];
        todo := todo - {k};
      }
    }

    method GrantLeases(d: Dataplane, now: Time) returns (leases: map<RuleKey, Lease>)
      modifies this`ledger
      ensures ledger == map k | k in old(ledger) :: Grant(old(ledger)[k], now, seen, d)
      ensures leases == LeasesOf(ledger, now, d)
    {
      ghost var before := ledger;
      leases := map[];
      var todo := ledger.Keys;
      assert LeasedBut(before, ledger, leases, todo, now, seen, d);
      hide LeasedBut, Grant, LeaseOf;
      while todo != {}
        invariant todo <= ledger.Keys && LeasedBut(before, ledger, leases, todo, now, seen, d)
      {
        var k :| k in todo;
        if ledger[k].routingOnly {
          LeasedSkip(before, ledger, leases, todo, now, seen, d, k);
        } else {
          LeasedNext(before, ledger, leases, todo, now, seen, d, k);
          var l, lease := GrantTo(ledger[k], now, seen, d);
          ledger := ledger[k := l];
          leases := leases[k := lease];
        }
        todo := todo - {k};
      }
      LeasedAll(before, ledger, leases, now, seen, d);
    }

    method ApplyWire(ps: seq<Policy>)
      modifies this`ledger
      ensures ledger == WithPolicies(old(ledger), ps)
    {
      var next: map<RuleKey, RuleLedger> := map[];
      var i := 0;
      while i < |ps|
        invariant 0 <= i <= |ps|
        invariant next == WithPolicies(ledger, ps[..i])
      {
        var p := ps[i];
        assert ps[..i + 1][..i] == ps[..i];
        ghost var acc := next;
        var j := 0;
        while j < |p.rules|
          invariant 0 <= j <= |p.rules|
          invariant next == WithRules(acc, ledger, p, j)
        {
          var r := p.rules[j];
          if r.hasBudget && p.team != "" && p.user == "" && !r.budget.unlimited {
            var k := RuleKey(p.name, r.name);
            var l := RuleLedger(p.team, r.budget.limitMicro, r.budget.grantMicro, r.budget.renew, r.budget.hard,
                                r.budget.period, r.routingOnly, map[], map[]);
            if k in ledger && ledger[k].period == l.period {
              l := l.(spent := ledger[k].spent);
              if !l.routingOnly {
                l := l.(allowance := ledger[k].allowance);
              }
            }
            next := next[k := l];
          }
          j := j + 1;
        }
        i := i + 1;
      }
      assert ps[..i] == ps;
      ledger := next;
    }
  }
}
