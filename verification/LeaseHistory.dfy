/**
 What the ledger's spend entries mean over a whole run of heartbeats, reloads, period edits,
 rule removals and prunes. Booked reads the raw history of one (rule, data plane) pair without
 any ledger; the ledger agrees with it after every run.
 */
module LeaseHistory {
  import opened Basics
  import opened Int64s
  import opened LeaseLedger

  datatype Event =
    | Heartbeat(now: Time, d: Dataplane, reports: seq<Report>)
    | Reload(policies: seq<Policy>)

  ghost function StateAfter(trace: seq<Event>): State {
    if trace == [] then State(map[], map[])
    else
      var s := StateAfter(trace[..|trace| - 1]);
      match trace[|trace| - 1]
      case Heartbeat(now, d, reports) => if Accepts(d, reports) then SyncState(s, now, d, reports) else s
      case Reload(ps) => s.(ledger := WithPolicies(s.ledger, ps))
  }

  // ---- The history, read without a ledger -----------------------------------

  /** The period of the last lease-managed rule named k among the first n rules of p. */
  function PeriodInRules(p: Policy, n: nat, k: RuleKey): Option<string>
    requires n <= |p.rules|
  {
    if n == 0 then None
    else if LeaseManaged(p, p.rules[n - 1]) && k == RuleKey(p.name, p.rules[n - 1].name) then Some(p.rules[n - 1].budget.period)
    else PeriodInRules(p, n - 1, k)
  }

  function PeriodIn(ps: seq<Policy>, k: RuleKey): Option<string> {
    if ps == [] then None
    else
      var p := ps[|ps| - 1];
      var here := PeriodInRules(p, |p.rules|, k);
      if here.Some? then here else PeriodIn(ps[..|ps| - 1], k)
  }

  /** The window the rule is measured in: that of the latest reload. */
  function CurrentPeriod(trace: seq<Event>, k: RuleKey): Option<string> {
    if trace == [] then None
    else
      match trace[|trace| - 1]
      case Heartbeat(_, _, _) => CurrentPeriod(trace[..|trace| - 1], k)
      case Reload(ps) => PeriodIn(ps, k)
  }

  /** When d's latest accepted heartbeat was. */
  function LastSeen(trace: seq<Event>, d: Dataplane): Option<Time> {
    if trace == [] then None
    else
      match trace[|trace| - 1]
      case Heartbeat(now, e, reports) =>
        if Accepts(e, reports) && e == d then Some(now) else LastSeen(trace[..|trace| - 1], d)
      case Reload(_) => LastSeen(trace[..|trace| - 1], d)
  }

  /** The last value a batch carries for the rule in the given window. */
  function LastReported(reports: seq<Report>, k: RuleKey, period: Option<string>): Option<int64> {
    if reports == [] then None
    else
      var rep := reports[|reports| - 1];
      if rep.key == k && period == Some(if rep.period == "" then PERIOD_MONTH else rep.period) then Some(rep.spentMicro)
      else LastReported(reports[..|reports| - 1], k, period)
  }

  /** The spend of d that is on record for rule k: its last report in the current window, until something resets it. */
  function Booked(trace: seq<Event>, k: RuleKey, d: Dataplane): int {
    if trace == [] then 0
    else
      var before := trace[..|trace| - 1];
      match trace[|trace| - 1]
      case Reload(ps) =>
        if CurrentPeriod(before, k).Some? && PeriodIn(ps, k) == CurrentPeriod(before, k) then Booked(before, k, d) else 0
      case Heartbeat(now, e, reports) =>
        if !Accepts(e, reports) then Booked(before, k, d)
        else if e == d then
          var last := LastReported(reports, k, CurrentPeriod(before, k));
          if last.Some? then last.value else Booked(before, k, d)
        else if LastSeen(before, d).Some? && now - LastSeen(before, d).value > PRUNE_AFTER then 0
        else Booked(before, k, d)
  }

  // ---- Agreement --------------------------------------------------------------

  lemma {:induction false} AbsorbedSpend(l: RuleLedger, k: RuleKey, d: Dataplane, reports: seq<Report>, x: Dataplane)
    requires NonNegative(reports)
    ensures var m := Absorb(l, k, d, reports);
            var last := LastReported(reports, k, Some(l.period));
            && m.period == l.period && m.routingOnly == l.routingOnly
            && m.SpentOf(x) == if x == d && last.Some? then last.value else l.SpentOf(x)
    decreases |reports|
  {
    if reports != [] {
      AbsorbedSpend(l, k, d, reports[..|reports| - 1], x);
    }
  }

  lemma {:induction false} RulesAgree(acc: map<RuleKey, RuleLedger>, prev: map<RuleKey, RuleLedger>, p: Policy, n: nat, k: RuleKey)
    requires n <= |p.rules|
    ensures var next := WithRules(acc, prev, p, n);
            match PeriodInRules(p, n, k)
            case Some(period) => k in next && next[k].period == period
            case None => (k in next <==> k in acc) && (k in acc ==> next[k] == acc[k])
  {
    if n > 0 {
      RulesAgree(acc, prev, p, n - 1, k);
    }
  }

  lemma {:induction false} PoliciesAgree(prev: map<RuleKey, RuleLedger>, ps: seq<Policy>, k: RuleKey)
    ensures var next := WithPolicies(prev, ps);
            match PeriodIn(ps, k)
            case Some(period) => k in next && next[k].period == period
            case None => k !in next
    decreases |ps|
  {
    if ps != [] {
      var n := |ps| - 1;
      PoliciesAgree(prev, ps[..n], k);
      RulesAgree(WithPolicies(prev, ps[..n]), prev, ps[n], |ps[n].rules|, k);
    }
  }

  /** What the ledger state s knows about (k, d), against the history. */
  ghost predicate Agrees(s: State, trace: seq<Event>, k: RuleKey, d: Dataplane) {
    && (k in s.ledger <==> CurrentPeriod(trace, k).Some?)
    && (k in s.ledger ==> s.ledger[k].period == CurrentPeriod(trace, k).value && s.ledger[k].SpentOf(d) == Booked(trace, k, d))
    && (d in s.seen ==> LastSeen(trace, d) == Some(s.seen[d]))
    && (d !in s.seen && k in s.ledger ==> s.ledger[k].SpentOf(d) == 0)
  }

  lemma HeartbeatAgrees(s: State, before: seq<Event>, now: Time, e: Dataplane, reports: seq<Report>, k: RuleKey, d: Dataplane)
    requires Agrees(s, before, k, d) && Accepts(e, reports)
    ensures Agrees(SyncState(s, now, e, reports), before + [Heartbeat(now, e, reports)], k, d)
  {
    var trace := before + [Heartbeat(now, e, reports)];
    assert trace[..|trace| - 1] == before;
    if k in s.ledger {
      AbsorbedSpend(s.ledger[k], k, e, reports, d);
    }
  }

  lemma ReloadAgrees(s: State, before: seq<Event>, ps: seq<Policy>, k: RuleKey, d: Dataplane)
    requires Agrees(s, before, k, d)
    ensures Agrees(s.(ledger := WithPolicies(s.ledger, ps)), before + [Reload(ps)], k, d)
  {
    var trace := before + [Reload(ps)];
    assert trace[..|trace| - 1] == before;
    PoliciesAgree(s.ledger, ps, k);
    if k in WithPolicies(s.ledger, ps) {
      ReloadRow(s.ledger, ps, k);
    }
  }

  /**
   Through any mix of heartbeats, reloads, period edits, rule removals and prunes, the ledger has a
   row exactly for the rules of the latest policy set, and a row's spend for d is what the history says.
   */
  lemma {:induction false} LedgerMatchesHistory(trace: seq<Event>, k: RuleKey, d: Dataplane)
    ensures Agrees(StateAfter(trace), trace, k, d)
    decreases |trace|
  {
    if trace != [] {
      var before := trace[..|trace| - 1];
      assert trace == before + [trace[|trace| - 1]];
      LedgerMatchesHistory(before, k, d);
      match trace[|trace| - 1]
      case Heartbeat(now, e, reports) =>
        if Accepts(e, reports) {
          HeartbeatAgrees(StateAfter(before), before, now, e, reports, k, d);
        }
      case Reload(ps) =>
        ReloadAgrees(StateAfter(before), before, ps, k, d);
    }
  }

  /** Event i reports v for k in the given window. */
  ghost predicate Reports(trace: seq<Event>, i: nat, k: RuleKey, d: Dataplane, period: string, v: int)
    requires i < |trace|
  {
    match trace[i]
    case Heartbeat(_, e, reports) => Accepts(e, reports) && e == d && LastReported(reports, k, Some(period)) == Some(v)
    case Reload(_) => false
  }

  /** Event i neither replaces d's figure for k nor changes the rule's window. */
  ghost predicate LeavesAlone(trace: seq<Event>, i: nat, k: RuleKey, d: Dataplane, period: string)
    requires i < |trace|
  {
    match trace[i]
    case Heartbeat(_, e, reports) => !Accepts(e, reports) || e != d || LastReported(reports, k, Some(period)) == None
    case Reload(ps) => PeriodIn(ps, k) == Some(period)
  }

  /**
   Money on record is never in another window's currency: a non-zero spend is the last figure that d
   itself reported for this rule in the row's current period, and the rule has kept that period since.
   */
  lemma {:induction false} SpendIsTheLastReport(trace: seq<Event>, k: RuleKey, d: Dataplane) returns (i: nat)
    requires k in StateAfter(trace).ledger && StateAfter(trace).ledger[k].SpentOf(d) != 0
    ensures i < |trace|
    ensures Reports(trace, i, k, d, StateAfter(trace).ledger[k].period, StateAfter(trace).ledger[k].SpentOf(d))
    ensures forall j | i < j < |trace| :: LeavesAlone(trace, j, k, d, StateAfter(trace).ledger[k].period)
    decreases |trace|
  {
    LedgerMatchesHistory(trace, k, d);
    var n := |trace| - 1;
    var before := trace[..n];
    LedgerMatchesHistory(before, k, d);
    var period := StateAfter(trace).ledger[k].period;
    if Reports(trace, n, k, d, period, Booked(trace, k, d)) {
      i := n;
    } else {
      i := SpendIsTheLastReport(before, k, d);
      forall j | i < j < |trace|
        ensures LeavesAlone(trace, j, k, d, period)
      {
        if j < n {
          assert LeavesAlone(before, j, k, d, period);
        }
      }
    }
  }
}
