/**
 What one heartbeat and one policy reload come to (internal/controlplane/controlplane.go), in terms of the reports,
 the rules and the rows before, not of the steps in between: whose figures change, what is granted and until when,
 and which rule a row takes its terms from.
 */
module LeaseAnswers {
  import opened Basics
  import opened Int64s
  import opened MapSums
  import opened LeaseLedger
  import LeaseHistory

  // ---- Heartbeats ---------------------------------------------------------------

  /** The figure on record for d when report i is read: the rule's last one in the batch so far, or the row's. */
  function FigureBefore(l: RuleLedger, k: RuleKey, d: Dataplane, reports: seq<Report>, i: nat): int
    requires i <= |reports|
  {
    var last := LeaseHistory.LastReported(reports[..i], k, Some(l.period));
    if last.Some? then last.value else l.SpentOf(d)
  }

  /** Report i is about the rule, in its current period, and below the figure on record. */
  predicate Falls(l: RuleLedger, k: RuleKey, d: Dataplane, reports: seq<Report>, i: nat)
    requires i < |reports|
  {
    && reports[i].key == k && (if reports[i].period == "" then "CalendarMonth" else reports[i].period) == l.period
    && reports[i].spentMicro < FigureBefore(l, k, d, reports, i)
  }

  predicate SomeFalls(l: RuleLedger, k: RuleKey, d: Dataplane, reports: seq<Report>, n: nat)
    requires n <= |reports|
  {
    exists i | 0 <= i < n :: Falls(l, k, d, reports, i)
  }

  /** When the reporter's window rolled over its old allowance is gone; otherwise it is kept. */
  lemma {:induction false} AbsorbedAllowance(l: RuleLedger, k: RuleKey, d: Dataplane, reports: seq<Report>, n: nat)
    requires NonNegative(reports) && n <= |reports|
    ensures Absorb(l, k, d, reports[..n]).AllowanceOf(d) == if SomeFalls(l, k, d, reports, n) then 0 else l.AllowanceOf(d)
  {
    if n > 0 {
      assert reports[..n][..n - 1] == reports[..n - 1];
      AbsorbedAllowance(l, k, d, reports, n - 1);
      LeaseHistory.AbsorbedSpend(l, k, d, reports[..n - 1], d);
      assert SomeFalls(l, k, d, reports, n) <==> SomeFalls(l, k, d, reports, n - 1) || Falls(l, k, d, reports, n - 1);
    }
  }

  /** What the other data planes may still spend of their leases without having reported it, before the heartbeat. */
  ghost function HeldByOthers(l: RuleLedger, seen: map<Dataplane, Time>, now: Time, d: Dataplane): map<Dataplane, money> {
    map e | e in l.allowance && e != d && e in seen && now - seen[e] <= 3 * l.renew && now - seen[e] <= 86_400_000_000_000
            && l.allowance[e] > l.SpentOf(e)
      :: l.allowance[e] - l.SpentOf(e)
  }

  /** The heartbeat does not change what the others hold. */
  lemma OthersHoldTheSame(s: State, now: Time, d: Dataplane, reports: seq<Report>, k: RuleKey)
    requires Accepts(d, reports) && k in s.ledger
    ensures var seen := s.seen[d := now];
            var gone := Silent(seen, now);
            Outstanding(Drop(Absorb(s.ledger[k], k, d, reports), gone), now, seen - gone, d) == HeldByOthers(s.ledger[k], s.seen, now, d)
  {
    var l, seen := s.ledger[k], s.seen[d := now];
    var gone := Silent(seen, now);
    var m := Absorb(l, k, d, reports);
    AbsorbKeepsOthers(l, k, d, reports);
    hide Absorb;
    var o := Outstanding(Drop(m, gone), now, seen - gone, d);
    forall e | e != d
      ensures e in o <==> e in HeldByOthers(l, s.seen, now, d)
      ensures e in o ==> o[e] == HeldByOthers(l, s.seen, now, d)[e]
    {
      assert SameFigures(l, m, e);
    }
  }

  /**
   The answer to an accepted heartbeat, decreases of the reporter's figure included: a lease on what it has
   reported plus the smaller of the grant and what the limit leaves after everybody's reported spend and what the
   other data planes held before, for three renewal intervals.
   */
  lemma LeaseIsWhatIsLeft(s: State, now: Time, d: Dataplane, reports: seq<Report>, k: RuleKey)
    requires Accepts(d, reports) && k in s.ledger && !s.ledger[k].routingOnly
    ensures var l, after := s.ledger[k], SyncState(s, now, d, reports).ledger;
            var leases := LeasesOf(after, now, d);
            var left := l.limitMicro - Sum(after[k].spent) - Sum(HeldByOthers(l, s.seen, now, d));
            && k in leases && leases[k].expires == now + 3 * l.renew && leases[k].allowance == after[k].AllowanceOf(d)
            && leases[k].allowance == FigureBefore(l, k, d, reports, |reports|) + Min(l.grantMicro, Max(0, left))
  {
    var l := s.ledger[k];
    var seen := s.seen[d := now];
    var gone := Silent(seen, now);
    var m := Absorb(l, k, d, reports);
    var row := Drop(m, gone);
    assert reports[..|reports|] == reports;
    AbsorbKeepsOthers(l, k, d, reports);
    LeaseHistory.AbsorbedSpend(l, k, d, reports, d);
    OthersHoldTheSame(s, now, d, reports, k);
    hide Absorb, Outstanding, HeldByOthers, Sum;
    assert row.SpentOf(d) == m.SpentOf(d);
  }

  /** Rules without authority of their own never get a lease, and keep no allowance past a rollover. */
  lemma RoutingOnlyGetsNothing(s: State, now: Time, d: Dataplane, reports: seq<Report>, k: RuleKey)
    requires Accepts(d, reports) && k in s.ledger && s.ledger[k].routingOnly
    ensures var after := SyncState(s, now, d, reports).ledger;
            && k !in LeasesOf(after, now, d)
            && after[k].AllowanceOf(d) == if SomeFalls(s.ledger[k], k, d, reports, |reports|) then 0 else s.ledger[k].AllowanceOf(d)
  {
    assert reports[..|reports|] == reports;
    AbsorbedAllowance(s.ledger[k], k, d, reports, |reports|);
    AbsorbKeepsOthers(s.ledger[k], k, d, reports);
    hide Absorb, SomeFalls;
  }

  // ---- Reloads ------------------------------------------------------------------

  /** The rule has a budget to lease out, and is the one called k. */
  predicate Leases(p: Policy, r: Rule, k: RuleKey) {
    r.hasBudget && !r.budget.unlimited && p.team != "" && p.user == "" && p.name == k.policy && r.name == k.rule
  }

  /** Rule j of policy i comes after rule m of policy n. */
  predicate Later(i: nat, j: nat, n: nat, m: nat) {
    n < i || (n == i && m < j)
  }

  /** Rule j of policy i is the last one called k. */
  predicate Governs(ps: seq<Policy>, i: nat, j: nat, k: RuleKey) {
    && i < |ps| && j < |ps[i].rules| && Leases(ps[i], ps[i].rules[j], k)
    && forall n, m | 0 <= n < |ps| && 0 <= m < |ps[n].rules| && Later(n, m, i, j) :: !Leases(ps[n], ps[n].rules[m], k)
  }

  /** The row has the terms of this rule. */
  predicate HasTermsOf(row: RuleLedger, p: Policy, r: Rule) {
    && row.team == p.team && row.limitMicro == r.budget.limitMicro && row.grantMicro == r.budget.grantMicro
    && row.renew == r.budget.renew && row.hard == r.budget.hard && row.period == r.budget.period && row.routingOnly == r.routingOnly
  }

  lemma {:induction false} RulesTerms(acc: map<RuleKey, RuleLedger>, prev: map<RuleKey, RuleLedger>, p: Policy, n: nat, k: RuleKey)
    requires n <= |p.rules|
    ensures var next := WithRules(acc, prev, p, n);
            || (exists j | 0 <= j < n :: LastIn(p, n, j, k) && k in next && HasTermsOf(next[k], p, p.rules[j]))
            || ((forall j | 0 <= j < n :: !Leases(p, p.rules[j], k)) && (k in next <==> k in acc) && (k in acc ==> next[k] == acc[k]))
  {
    if n > 0 {
      RulesTerms(acc, prev, p, n - 1, k);
      if Leases(p, p.rules[n - 1], k) {
        assert LastIn(p, n, n - 1, k);
      } else if j :| 0 <= j < n - 1 && LastIn(p, n - 1, j, k) && k in WithRules(acc, prev, p, n - 1)
                     && HasTermsOf(WithRules(acc, prev, p, n - 1)[k], p, p.rules[j]) {
        assert LastIn(p, n, j, k);
      }
    }
  }

  /** Rule j is the last of the first n called k. */
  predicate LastIn(p: Policy, n: nat, j: nat, k: RuleKey)
    requires n <= |p.rules|
  {
    j < n && Leases(p, p.rules[j], k) && forall m | j < m < n :: !Leases(p, p.rules[m], k)
  }

  /** Every row of a rebuilt ledger has the terms of the last rule of its name that has a budget to lease out. */
  lemma {:induction false} RowHasTheRulesTerms(prev: map<RuleKey, RuleLedger>, ps: seq<Policy>, k: RuleKey) returns (i: nat, j: nat)
    requires k in WithPolicies(prev, ps)
    ensures Governs(ps, i, j, k) && HasTermsOf(WithPolicies(prev, ps)[k], ps[i], ps[i].rules[j])
    decreases |ps|
  {
    var n := |ps| - 1;
    RulesTerms(WithPolicies(prev, ps[..n]), prev, ps[n], |ps[n].rules|, k);
    if m :| 0 <= m < |ps[n].rules| && LastIn(ps[n], |ps[n].rules|, m, k) && HasTermsOf(WithPolicies(prev, ps)[k], ps[n], ps[n].rules[m]) {
      i, j := n, m;
    } else {
      i, j := RowHasTheRulesTerms(prev, ps[..n], k);
      assert forall m | 0 <= m < n :: ps[..n][m] == ps[m];
    }
  }

  /** And every such rule has a row. */
  lemma {:induction false} RuleHasARow(prev: map<RuleKey, RuleLedger>, ps: seq<Policy>, i: nat, j: nat, k: RuleKey)
    requires i < |ps| && j < |ps[i].rules| && Leases(ps[i], ps[i].rules[j], k)
    ensures k in WithPolicies(prev, ps)
    decreases |ps|
  {
    var n := |ps| - 1;
    RulesTerms(WithPolicies(prev, ps[..n]), prev, ps[n], |ps[n].rules|, k);
    if i < n {
      RuleHasARow(prev, ps[..n], i, j, k);
    }
  }
}
