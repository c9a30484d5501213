/**
 The lease protocol between one control plane and a fleet of data planes.

 Any number of data planes spend, send heartbeats, and receive, lose or receive late the
 responses; the clock moves on and policies are reloaded, in any interleaving. The agent
 model of a data plane is an assumption: it spends only under an installed lease and never
 past that lease's allowance, and its heartbeats reach the control plane in the order sent
 (any of them may be lost). Responses may be lost, delayed, repeated or reordered.
 Everything here is about one hard or soft (not routing-only) rule within one budget window.
 */
module LeaseFleet {
  import opened Basics
  import opened Int64s
  import opened MapSums
  import opened LeaseLedger

  /** The fixed parameters of the rule under study. */
  datatype Terms = Terms(k: RuleKey, limit: money, grant: money, renew: Time, period: string)

  datatype Holding = NoLease | Holds(lease: Lease)

  /** A heartbeat in flight: the cumulative spend at sending time, and the reports that carry it. */
  datatype Request = Request(value: nat, reports: seq<Report>)

  datatype Agent = Agent(spent: nat, holding: Holding, requests: seq<Request>, responses: set<Lease>)

  datatype Fleet = Fleet(now: Time, cp: State, agents: map<Dataplane, Agent>)

  datatype Event =
    | Tick(to: Time)
    | Spend(d: Dataplane, amount: nat)
    | Send(d: Dataplane, reports: seq<Report>)
    | Deliver(d: Dataplane, index: nat)
    | Install(d: Dataplane, lease: Lease)
    | Reload(policies: seq<Policy>)

  ghost predicate Governs(t: Terms, cp: State) {
    && t.k in cp.ledger
    && var l := cp.ledger[t.k];
       l.limitMicro == t.limit && l.grantMicro == t.grant && l.renew == t.renew && l.period == t.period && !l.routingOnly
  }

  /** Reports that match the rule's current window carry exactly the value; others are unconstrained. */
  ghost predicate Truthful(t: Terms, r: Request) {
    && NonNegative(r.reports)
    && forall i | 0 <= i < |r.reports| && r.reports[i].key == t.k
                  && (if r.reports[i].period == "" then PERIOD_MONTH else r.reports[i].period) == t.period
         :: r.reports[i].spentMicro == r.value
  }

  ghost predicate Init(t: Terms, f: Fleet) {
    && Governs(t, f.cp)
    && f.cp.ledger[t.k].spent == map[] == f.cp.ledger[t.k].allowance
    && f.cp.seen == map[]
    && f.agents != map[] && "" !in f.agents
    && forall d | d in f.agents :: f.agents[d] == Agent(0, NoLease, [], {})
  }

  ghost predicate Step(t: Terms, f: Fleet, e: Event, g: Fleet)
    requires Governs(t, f.cp)
  {
    match e
    case Tick(to) =>
      f.now <= to && g == f.(now := to)
    case Spend(d, amount) =>
      && d in f.agents
      && var a := f.agents[d];
         && a.holding.Holds? && a.spent + amount <= a.holding.lease.allowance
         && g == f.(agents := f.agents[d := a.(spent := a.spent + amount)])
    case Send(d, reports) =>
      && d in f.agents
      && var a := f.agents[d];
         var r := Request(a.spent, reports);
         Truthful(t, r) && g == f.(agents := f.agents[d := a.(requests := a.requests + [r])])
    case Deliver(d, index) =>
      && d in f.agents && d != "" && index < |f.agents[d].requests|
      && var a := f.agents[d];
         && NonNegative(a.requests[index].reports)
         && var cp := SyncState(f.cp, f.now, d, a.requests[index].reports);
            var lease := LeaseOf(cp.ledger[t.k], f.now, d);
            g == f.(cp := cp, agents := f.agents[d := a.(requests := a.requests[index + 1..], responses := a.responses + {lease})])
    case Install(d, lease) =>
      && d in f.agents && lease in f.agents[d].responses
      && g == f.(agents := f.agents[d := f.agents[d].(holding := Holds(lease))])
    case Reload(ps) =>
      && g == f.(cp := f.cp.(ledger := WithPolicies(f.cp.ledger, ps)))
      && Governs(t, g.cp)
  }

  datatype Run = Run(states: seq<Fleet>, events: seq<Event>) {
    ghost predicate Valid(t: Terms) {
      && |states| == |events| + 1
      && Init(t, states[0])
      && (forall i | 0 <= i < |states| :: Governs(t, states[i].cp))
      && forall i | 0 <= i < |events| :: Step(t, states[i], events[i], states[i + 1])
    }
  }

  /** No ledger row is dropped by the heartbeat that d is about to have processed. */
  ghost predicate NonePruned(f: Fleet, d: Dataplane) {
    forall e | e in f.cp.seen && e != d :: f.now - f.cp.seen[e] <= PRUNE_AFTER
  }

  /** Every other data plane was heard from within the expiry horizon. */
  ghost predicate OthersLive(t: Terms, f: Fleet, d: Dataplane) {
    forall e | e in f.cp.seen && e != d :: f.now - f.cp.seen[e] <= 3 * t.renew
  }

  ghost predicate NoPruning(r: Run) {
    |r.states| == |r.events| + 1 &&
    forall i | 0 <= i < |r.events| && r.events[i].Deliver? :: NonePruned(r.states[i], r.events[i].d)
  }

  ghost predicate NoLapse(t: Terms, r: Run) {
    |r.states| == |r.events| + 1 &&
    forall i | 0 <= i < |r.events| && r.events[i].Deliver? :: OthersLive(t, r.states[i], r.events[i].d)
  }

  ghost function Spends(f: Fleet): map<Dataplane, int> {
    map d | d in f.agents :: f.agents[d].spent
  }

  /** What the whole fleet has truly spent. */
  ghost function TotalSpend(f: Fleet): int {
    Sum(Spends(f))
  }

  // ---- What every step keeps ------------------------------------------------

  ghost predicate HoldsOrMayHold(a: Agent, lease: Lease) {
    lease in a.responses || a.holding == Holds(lease)
  }

  /** What ties data plane d's own state a to the ledger row l. */
  ghost predicate Tied(t: Terms, l: RuleLedger, seen: map<Dataplane, Time>, d: Dataplane, a: Agent) {
    && l.AllowanceOf(d) <= l.SpentOf(d) + t.grant
    && l.SpentOf(d) <= a.spent
    && (forall i | 0 <= i < |a.requests| :: Truthful(t, a.requests[i]) && l.SpentOf(d) <= a.requests[i].value <= a.spent)
    && (forall i, j | 0 <= i < j < |a.requests| :: a.requests[i].value <= a.requests[j].value)
    && forall lease | HoldsOrMayHold(a, lease) :: d in seen && lease.expires <= seen[d] + 3 * t.renew
  }

  ghost predicate Base(t: Terms, f: Fleet) {
    && Governs(t, f.cp)
    && f.agents != map[] && "" !in f.agents
    && f.cp.ledger[t.k].spent.Keys <= f.agents.Keys
    && f.cp.ledger[t.k].allowance.Keys <= f.cp.seen.Keys <= f.agents.Keys
    && (forall d | d in f.cp.seen :: f.cp.seen[d] <= f.now)
    && forall d | d in f.agents :: Tied(t, f.cp.ledger[t.k], f.cp.seen, d, f.agents[d])
  }

  lemma {:induction false} AbsorbTruthful(t: Terms, l: RuleLedger, d: Dataplane, r: Request)
    requires Truthful(t, r) && l.period == t.period && l.SpentOf(d) <= r.value
    ensures var m := Absorb(l, t.k, d, r.reports);
            && m == l.(spent := m.spent)
            && (m.spent == l.spent || (r.value <= MAX_INT64 && m.spent == l.spent[d := r.value]))
    decreases |r.reports|
  {
    if r.reports != [] {
      var n := |r.reports| - 1;
      AbsorbTruthful(t, l, d, r.(reports := r.reports[..n]));
    }
  }

  /** m is l with d's report booked: unchanged, or overwritten with the value r carries. */
  ghost predicate Booked(l: RuleLedger, m: RuleLedger, d: Dataplane, r: Request) {
    && m == l.(spent := m.spent)
    && (m.spent == l.spent || (r.value <= MAX_INT64 && m.spent == l.spent[d := r.value]))
  }

  /** With nothing to prune, a heartbeat books the report and grants; the rest of the row stays. */
  lemma DeliverRow(t: Terms, cp: State, now: Time, d: Dataplane, r: Request) returns (m: RuleLedger, add: money)
    requires Governs(t, cp) && d != "" && Truthful(t, r)
    requires forall e | e in cp.seen && e != d :: now - cp.seen[e] <= PRUNE_AFTER
    requires cp.ledger[t.k].SpentOf(d) <= r.value
    ensures Booked(cp.ledger[t.k], m, d, r)
    ensures add == Min(t.grant, Remaining(m, now, cp.seen[d := now], d))
    ensures m.SpentOf(d) + add <= MAX_INT64
    ensures SyncState(cp, now, d, r.reports).seen == cp.seen[d := now]
    ensures SyncState(cp, now, d, r.reports).ledger[t.k] == m.(allowance := m.allowance[d := m.SpentOf(d) + add])
  {
    var seen := cp.seen[d := now];
    AbsorbTruthful(t, cp.ledger[t.k], d, r);
    m := Absorb(cp.ledger[t.k], t.k, d, r.reports);
    assert Silent(seen, now) == {};
    assert Drop(m, {}) == m by {
      assert m.spent - {} == m.spent && m.allowance - {} == m.allowance;
    }
    assert seen - {} == seen;
    GrantFits(m, now, seen, d);
    add := Min(t.grant, Remaining(m, now, seen, d));
  }

  /** A delivered heartbeat, in terms of the one row it is about. */
  lemma DeliverStep(t: Terms, f: Fleet, d: Dataplane, index: nat, g: Fleet) returns (m: RuleLedger, add: money)
    requires Base(t, f) && Step(t, f, Deliver(d, index), g) && NonePruned(f, d)
    ensures d in f.agents && index < |f.agents[d].requests|
    ensures Booked(f.cp.ledger[t.k], m, d, f.agents[d].requests[index])
    ensures add == Min(t.grant, Remaining(m, f.now, f.cp.seen[d := f.now], d)) && m.SpentOf(d) + add <= MAX_INT64
    ensures g.now == f.now && g.cp.seen == f.cp.seen[d := f.now]
    ensures Governs(t, g.cp) && g.cp.ledger[t.k] == m.(allowance := m.allowance[d := m.SpentOf(d) + add])
    ensures g.agents == f.agents[d := f.agents[d].(requests := f.agents[d].requests[index + 1..],
                                                   responses := f.agents[d].responses + {LeaseOf(g.cp.ledger[t.k], f.now, d)})]
  {
    hide Sum, Remaining;
    var a := f.agents[d];
    assert Tied(t, f.cp.ledger[t.k], f.cp.seen, d, a);
    m, add := DeliverRow(t, f.cp, f.now, d, a.requests[index]);
  }

  lemma ReloadKeepsAccounts(t: Terms, cp: State, ps: seq<Policy>)
    requires Governs(t, cp) && Governs(t, cp.(ledger := WithPolicies(cp.ledger, ps)))
    ensures WithPolicies(cp.ledger, ps)[t.k].spent == cp.ledger[t.k].spent
    ensures WithPolicies(cp.ledger, ps)[t.k].allowance == cp.ledger[t.k].allowance
  {
    ReloadRow(cp.ledger, ps, t.k);
  }

  /** The data plane whose heartbeat was processed stays tied to its row. */
  lemma TiedAfterDeliver(t: Terms, l: RuleLedger, m: RuleLedger, seen: map<Dataplane, Time>, now: Time, d: Dataplane, a: Agent, index: nat, add: money)
    requires Tied(t, l, seen, d, a) && index < |a.requests| && (d in seen ==> seen[d] <= now)
    requires Booked(l, m, d, a.requests[index]) && l.renew == t.renew
    requires add <= t.grant && m.SpentOf(d) + add <= MAX_INT64
    ensures var row := m.(allowance := m.allowance[d := m.SpentOf(d) + add]);
            Tied(t, row, seen[d := now], d,
                 a.(requests := a.requests[index + 1..], responses := a.responses + {LeaseOf(row, now, d)}))
  {
    var row := m.(allowance := m.allowance[d := m.SpentOf(d) + add]);
    var b := a.(requests := a.requests[index + 1..], responses := a.responses + {LeaseOf(row, now, d)});
    assert forall lease | HoldsOrMayHold(b, lease) :: HoldsOrMayHold(a, lease) || lease == LeaseOf(row, now, d);
    assert forall i | 0 <= i < |b.requests| :: b.requests[i] == a.requests[i + index + 1];
  }

  /** A data plane whose row entries, registration and own commitments are untouched stays tied. */
  lemma TiedBystander(t: Terms, l: RuleLedger, l': RuleLedger, seen: map<Dataplane, Time>, seen': map<Dataplane, Time>, d: Dataplane, a: Agent)
    requires Tied(t, l, seen, d, a)
    requires l'.SpentOf(d) == l.SpentOf(d) && l'.AllowanceOf(d) == l.AllowanceOf(d)
    requires d in seen ==> d in seen' && seen'[d] == seen[d]
    ensures Tied(t, l', seen', d, a)
  {
  }

  lemma TiedLocal(t: Terms, l: RuleLedger, seen: map<Dataplane, Time>, d: Dataplane, f: Fleet, e: Event, g: Fleet)
    requires Governs(t, f.cp) && Step(t, f, e, g) && (e.Spend? || e.Send? || e.Install?)
    requires d in f.agents && Tied(t, l, seen, d, f.agents[d])
    ensures d in g.agents && Tied(t, l, seen, d, g.agents[d])
  {
    assert forall lease | HoldsOrMayHold(g.agents[d], lease) :: HoldsOrMayHold(f.agents[d], lease);
  }

  lemma BaseDeliver(t: Terms, f: Fleet, d: Dataplane, index: nat, g: Fleet)
    requires Base(t, f) && Step(t, f, Deliver(d, index), g) && NonePruned(f, d)
    ensures Base(t, g)
  {
    hide Sum, SyncState, Step, NonePruned, Tied, LeaseOf;
    var l := f.cp.ledger[t.k];
    var m, add := DeliverStep(t, f, d, index, g);
    TiedAfterDeliver(t, l, m, f.cp.seen, f.now, d, f.agents[d], index, add);
    var row := g.cp.ledger[t.k];
    forall x | x in g.agents && x != d
      ensures Tied(t, row, g.cp.seen, x, g.agents[x])
    {
      TiedBystander(t, l, row, f.cp.seen, g.cp.seen, x, f.agents[x]);
    }
  }

  lemma BaseStep(t: Terms, f: Fleet, e: Event, g: Fleet)
    requires Base(t, f) && Step(t, f, e, g)
    requires e.Deliver? ==> NonePruned(f, e.d)
    ensures Base(t, g)
  {
    match e
    case Tick(_) =>
    case Deliver(d, index) =>
      BaseDeliver(t, f, d, index, g);
    case Reload(ps) =>
      ReloadKeepsAccounts(t, f.cp, ps);
      forall x | x in g.agents
        ensures Tied(t, g.cp.ledger[t.k], g.cp.seen, x, g.agents[x])
      {
        TiedBystander(t, f.cp.ledger[t.k], g.cp.ledger[t.k], f.cp.seen, g.cp.seen, x, f.agents[x]);
      }
    case _ =>
      forall x | x in f.agents
        ensures x in g.agents && Tied(t, g.cp.ledger[t.k], g.cp.seen, x, g.agents[x])
      {
        TiedLocal(t, f.cp.ledger[t.k], f.cp.seen, x, f, e, g);
      }
  }

  lemma {:induction false} BaseRun(t: Terms, r: Run, n: nat)
    requires r.Valid(t) && NoPruning(r) && n < |r.states|
    ensures Base(t, r.states[n])
  {
    if n > 0 {
      BaseRun(t, r, n - 1);
      BaseStep(t, r.states[n - 1], r.events[n - 1], r.states[n]);
    }
  }

  /**
   No authority is released while it can still be used: as long as a lease that a data plane
   holds, or may still receive, is unexpired, the ledger counts that data plane as live.
   */
  lemma UnexpiredLeasesStayCounted(t: Terms, r: Run, n: nat, d: Dataplane, lease: Lease)
    requires r.Valid(t) && NoPruning(r) && n < |r.states|
    requires d in r.states[n].agents && HoldsOrMayHold(r.states[n].agents[d], lease)
    requires r.states[n].now <= lease.expires
    ensures Live(r.states[n].cp.ledger[t.k], r.states[n].now, r.states[n].cp.seen, d)
  {
    BaseRun(t, r, n);
    assert Tied(t, r.states[n].cp.ledger[t.k], r.states[n].cp.seen, d, r.states[n].agents[d]);
  }

  // ---- Without lapses the limit is exact ------------------------------------

  ghost function Allowances(l: RuleLedger, ds: set<Dataplane>): map<Dataplane, int> {
    map d | d in ds :: l.AllowanceOf(d)
  }

  /** Everything d has spent or may be told it can spend stays within cap. */
  ghost predicate Within(a: Agent, cap: int) {
    && a.spent <= cap
    && forall lease | HoldsOrMayHold(a, lease) :: lease.allowance <= cap
  }

  /** Current allowances cover all authority ever handed out, and together fit the limit. */
  ghost predicate Covered(t: Terms, f: Fleet)
    requires Governs(t, f.cp)
  {
    && Sum(Allowances(f.cp.ledger[t.k], f.agents.Keys)) <= t.limit
    && forall d | d in f.agents :: Within(f.agents[d], f.cp.ledger[t.k].AllowanceOf(d))
  }

  /** Reported spend plus outstanding leases, where allowances cover the spend and every other holder is live. */
  lemma CommittedSum(m: RuleLedger, now: Time, seen: map<Dataplane, Time>, d: Dataplane, all: map<Dataplane, int>)
    requires d in all && m.spent.Keys <= all.Keys && m.allowance.Keys <= all.Keys
    requires forall e | e in all && e != d :: m.SpentOf(e) <= m.AllowanceOf(e) == all[e]
    requires forall e | e in m.allowance && e != d :: Live(m, now, seen, e)
    ensures Sum(m.spent) + Sum(Outstanding(m, now, seen, d)) == Sum(all) - all[d] + m.SpentOf(d)
  {
    hide Sum;
    var out := Outstanding(m, now, seen, d);
    var total := all[d := m.SpentOf(d)];
    forall e | e in total
      ensures total[e] == At(m.spent, e) + At(out, e)
    {
    }
    hide Outstanding, Live, At;
    SumAdd(m.spent, out, total);
    SumUpdate(all, d, m.SpentOf(d));
  }

  /** The key step: with every other holder live, a renewal never lowers an allowance and never overcommits. */
  lemma RenewalNeverLowers(t: Terms, m: RuleLedger, now: Time, seen: map<Dataplane, Time>, d: Dataplane, ds: set<Dataplane>, add: money)
    requires m.limitMicro == t.limit && m.grantMicro == t.grant
    requires d in ds && m.spent.Keys <= ds && m.allowance.Keys <= ds
    requires forall e | e in ds && e != d :: m.SpentOf(e) <= m.AllowanceOf(e)
    requires forall e | e in m.allowance && e != d :: Live(m, now, seen, e)
    requires m.SpentOf(d) <= m.AllowanceOf(d) <= m.SpentOf(d) + t.grant
    requires Sum(Allowances(m, ds)) <= t.limit
    requires add == Min(t.grant, Remaining(m, now, seen, d)) && m.SpentOf(d) + add <= MAX_INT64
    ensures m.AllowanceOf(d) <= m.SpentOf(d) + add
    ensures Sum(Allowances(m.(allowance := m.allowance[d := m.SpentOf(d) + add]), ds)) <= t.limit
  {
    hide Sum;
    var all := Allowances(m, ds);
    CommittedSum(m, now, seen, d, all);
    SumUpdate(all, d, m.SpentOf(d) + add);
    assert Allowances(m.(allowance := m.allowance[d := m.SpentOf(d) + add]), ds) == all[d := m.SpentOf(d) + add];
  }

  lemma WithinAfterDeliver(a: Agent, cap: int, cap': int, requests: seq<Request>, lease: Lease)
    requires Within(a, cap) && cap <= cap' && lease.allowance <= cap'
    ensures Within(a.(requests := requests, responses := a.responses + {lease}), cap')
  {
    var b := a.(requests := requests, responses := a.responses + {lease});
    assert forall x | HoldsOrMayHold(b, x) :: HoldsOrMayHold(a, x) || x == lease;
  }

  lemma WithinLocal(t: Terms, f: Fleet, e: Event, g: Fleet, d: Dataplane, cap: int)
    requires Governs(t, f.cp) && Step(t, f, e, g) && !e.Deliver?
    requires d in f.agents && Within(f.agents[d], cap)
    ensures d in g.agents && Within(g.agents[d], cap)
  {
    assert forall lease | HoldsOrMayHold(g.agents[d], lease) :: HoldsOrMayHold(f.agents[d], lease);
    assert f.agents[d].holding.Holds? ==> HoldsOrMayHold(f.agents[d], f.agents[d].holding.lease);
  }

  /** The books of the other data planes say they spent no more than they were allowed. */
  lemma OthersSpendWithinAllowance(t: Terms, f: Fleet, d: Dataplane, index: nat, m: RuleLedger)
    requires Base(t, f) && Covered(t, f) && d in f.agents && index < |f.agents[d].requests|
    requires Booked(f.cp.ledger[t.k], m, d, f.agents[d].requests[index])
    ensures forall e | e in f.agents.Keys && e != d :: m.SpentOf(e) <= m.AllowanceOf(e)
  {
    hide Sum;
    forall e | e in f.agents.Keys && e != d
      ensures m.SpentOf(e) <= m.AllowanceOf(e)
    {
      assert Tied(t, f.cp.ledger[t.k], f.cp.seen, e, f.agents[e]);
    }
  }

  /** The renewal of one row, in the fleet's terms. */
  lemma RenewedRow(t: Terms, f: Fleet, d: Dataplane, index: nat, m: RuleLedger, add: money)
    requires Base(t, f) && Covered(t, f) && d in f.agents && index < |f.agents[d].requests|
    requires Booked(f.cp.ledger[t.k], m, d, f.agents[d].requests[index]) && NonePruned(f, d) && OthersLive(t, f, d)
    requires add == Min(t.grant, Remaining(m, f.now, f.cp.seen[d := f.now], d)) && m.SpentOf(d) + add <= MAX_INT64
    ensures m.AllowanceOf(d) <= m.SpentOf(d) + add
    ensures Sum(Allowances(m.(allowance := m.allowance[d := m.SpentOf(d) + add]), f.agents.Keys)) <= t.limit
  {
    hide Sum, Remaining;
    var l := f.cp.ledger[t.k];
    assert Tied(t, l, f.cp.seen, d, f.agents[d]);
    OthersSpendWithinAllowance(t, f, d, index, m);
    assert Allowances(m, f.agents.Keys) == Allowances(l, f.agents.Keys);
    RenewalNeverLowers(t, m, f.now, f.cp.seen[d := f.now], d, f.agents.Keys, add);
  }

  lemma CoveredDeliver(t: Terms, f: Fleet, d: Dataplane, index: nat, g: Fleet)
    requires Base(t, f) && Covered(t, f) && Step(t, f, Deliver(d, index), g)
    requires NonePruned(f, d) && OthersLive(t, f, d)
    ensures Governs(t, g.cp) && Covered(t, g)
  {
    hide Sum, Step, Remaining, Tied, OthersLive, NonePruned;
    var m, add := DeliverStep(t, f, d, index, g);
    RenewedRow(t, f, d, index, m, add);
    assert g.agents.Keys == f.agents.Keys;
    var row := g.cp.ledger[t.k];
    WithinAfterDeliver(f.agents[d], f.cp.ledger[t.k].AllowanceOf(d), row.AllowanceOf(d), f.agents[d].requests[index + 1..], LeaseOf(row, f.now, d));
  }

  lemma CoveredStep(t: Terms, f: Fleet, e: Event, g: Fleet)
    requires Base(t, f) && Covered(t, f) && Step(t, f, e, g)
    requires e.Deliver? ==> NonePruned(f, e.d) && OthersLive(t, f, e.d)
    ensures Governs(t, g.cp) && Covered(t, g)
  {
    hide Sum;
    if e.Deliver? {
      CoveredDeliver(t, f, e.d, e.index, g);
    } else {
      if e.Reload? {
        ReloadKeepsAccounts(t, f.cp, e.policies);
      }
      assert g.agents.Keys == f.agents.Keys;
      assert Allowances(g.cp.ledger[t.k], g.agents.Keys) == Allowances(f.cp.ledger[t.k], f.agents.Keys);
      forall x | x in f.agents
        ensures Within(g.agents[x], g.cp.ledger[t.k].AllowanceOf(x))
      {
        WithinLocal(t, f, e, g, x, f.cp.ledger[t.k].AllowanceOf(x));
      }
    }
  }

  lemma {:induction false} CoveredRun(t: Terms, r: Run, n: nat)
    requires r.Valid(t) && NoPruning(r) && NoLapse(t, r) && n < |r.states|
    ensures Covered(t, r.states[n])
  {
    hide Sum;
    if n == 0 {
      SumConstant(Allowances(r.states[0].cp.ledger[t.k], r.states[0].agents.Keys), 0);
    } else {
      CoveredRun(t, r, n - 1);
      BaseRun(t, r, n - 1);
      CoveredStep(t, r.states[n - 1], r.events[n - 1], r.states[n]);
    }
  }

  /** While no lease lapses, the fleet never spends more than the limit, at any point of any run. */
  lemma FleetCapIsExact(t: Terms, r: Run, n: nat)
    requires r.Valid(t) && NoPruning(r) && NoLapse(t, r) && n < |r.states|
    ensures TotalSpend(r.states[n]) <= t.limit
  {
    hide Sum;
    CoveredRun(t, r, n);
    var f := r.states[n];
    SumMonotone(Spends(f), Allowances(f.cp.ledger[t.k], f.agents.Keys));
  }

  // ---- With lapses, one grant per further data plane ------------------------

  /** The most that one renewal can add. */
  function MaxSlice(t: Terms): money {
    Min(t.grant, t.limit)
  }

  /** The limit, and one slice for every data plane but one. */
  function LapseCap(t: Terms, dataplanes: int): int {
    t.limit + MaxSlice(t) * (dataplanes - 1)
  }

  /** peak bounds all authority each data plane was ever handed. */
  ghost predicate Bounded(t: Terms, f: Fleet, peak: map<Dataplane, int>)
    requires Governs(t, f.cp)
  {
    && peak.Keys == f.agents.Keys
    && Sum(peak) <= LapseCap(t, |f.agents.Keys|)
    && forall d | d in f.agents :: Within(f.agents[d], peak[d]) && peak[d] <= f.cp.ledger[t.k].SpentOf(d) + MaxSlice(t)
  }

  /** A lease that hands out anything new leaves every other data plane at most one grant above its reports. */
  lemma PeakAfterGrant(t: Terms, spent: map<Dataplane, money>, d: Dataplane, peak: map<Dataplane, int>, top: int)
    requires d in peak && spent.Keys <= peak.Keys
    requires forall e | e in peak && e != d :: peak[e] <= (if e in spent then spent[e] else 0) + MaxSlice(t)
    requires top - (if d in spent then spent[d] else 0) <= t.limit - Sum(spent)
    ensures Sum(peak[d := top]) <= LapseCap(t, |peak.Keys|)
  {
    hide Sum;
    var sp := map e | e in peak :: (if e in spent then spent[e] else 0) as int;
    SumExtend(spent, sp);
    SumSplit(sp, d);
    SumSplit(peak[d := top], d);
    SumShift(sp - {d}, peak[d := top] - {d}, MaxSlice(t));
    assert (sp - {d}).Keys == peak.Keys - {d};
  }

  /** The new peaks after d's allowance was set to its reported spend plus add. */
  lemma PeakAfterDeliver(t: Terms, m: RuleLedger, now: Time, seen: map<Dataplane, Time>, d: Dataplane, peak: map<Dataplane, int>, add: money)
    returns (peak': map<Dataplane, int>)
    requires d in peak && m.spent.Keys <= peak.Keys && m.limitMicro == t.limit
    requires forall e | e in peak :: m.SpentOf(e) <= peak[e] <= m.SpentOf(e) + MaxSlice(t)
    requires add <= Remaining(m, now, seen, d) && add <= t.grant
    requires Sum(peak) <= LapseCap(t, |peak.Keys|)
    ensures peak'.Keys == peak.Keys && Sum(peak') <= LapseCap(t, |peak.Keys|)
    ensures forall e | e in peak :: peak[e] <= peak'[e] <= m.SpentOf(e) + MaxSlice(t)
    ensures m.SpentOf(d) + add <= peak'[d]
  {
    hide Sum, LapseCap;
    var top := m.SpentOf(d) + add;
    if top <= peak[d] {
      peak' := peak;
    } else {
      peak' := peak[d := top];
      SumNonNegative(Outstanding(m, now, seen, d));
      PeakAfterGrant(t, m.spent, d, peak, top);
    }
  }

  lemma BoundedDeliver(t: Terms, f: Fleet, d: Dataplane, index: nat, g: Fleet, peak: map<Dataplane, int>) returns (peak': map<Dataplane, int>)
    requires Base(t, f) && Bounded(t, f, peak) && Step(t, f, Deliver(d, index), g) && NonePruned(f, d)
    ensures Governs(t, g.cp) && Bounded(t, g, peak')
  {
    hide Sum, Step, Remaining, LapseCap;
    var m, add := DeliverStep(t, f, d, index, g);
    forall e | e in peak
      ensures m.SpentOf(e) <= peak[e] <= m.SpentOf(e) + MaxSlice(t)
    {
      assert Tied(t, f.cp.ledger[t.k], f.cp.seen, e, f.agents[e]);
    }
    peak' := PeakAfterDeliver(t, m, f.now, f.cp.seen[d := f.now], d, peak, add);
    assert g.agents.Keys == f.agents.Keys;
    hide Base, Tied, Booked, NonePruned;
    forall x | x in g.agents
      ensures Within(g.agents[x], peak'[x]) && peak'[x] <= g.cp.ledger[t.k].SpentOf(x) + MaxSlice(t)
    {
      if x == d {
        WithinAfterDeliver(f.agents[d], peak[d], peak'[d], f.agents[d].requests[index + 1..], LeaseOf(g.cp.ledger[t.k], f.now, d));
      }
    }
  }

  lemma BoundedStep(t: Terms, f: Fleet, e: Event, g: Fleet, peak: map<Dataplane, int>) returns (peak': map<Dataplane, int>)
    requires Base(t, f) && Bounded(t, f, peak) && Step(t, f, e, g)
    requires e.Deliver? ==> NonePruned(f, e.d)
    ensures Governs(t, g.cp) && Bounded(t, g, peak')
  {
    hide Sum, LapseCap;
    if e.Deliver? {
      peak' := BoundedDeliver(t, f, e.d, e.index, g, peak);
    } else {
      peak' := peak;
      if e.Reload? {
        ReloadKeepsAccounts(t, f.cp, e.policies);
      }
      assert g.agents.Keys == f.agents.Keys;
      forall x | x in f.agents
        ensures Within(g.agents[x], peak[x])
      {
        WithinLocal(t, f, e, g, x, peak[x]);
      }
    }
  }

  lemma BoundedInit(t: Terms, f: Fleet) returns (peak: map<Dataplane, int>)
    requires Init(t, f)
    ensures Bounded(t, f, peak)
  {
    hide Sum;
    var ds := f.agents.Keys;
    peak := map d | d in ds :: 0;
    SumConstant(peak, 0);
    assert |ds| >= 1 by {
      var d :| d in ds;
    }
  }

  lemma {:induction false} BoundedRun(t: Terms, r: Run, n: nat) returns (peak: map<Dataplane, int>)
    requires r.Valid(t) && NoPruning(r) && n < |r.states|
    ensures Bounded(t, r.states[n], peak)
  {
    hide Sum, LapseCap, Base, Bounded, Step, Init, Governs;
    if n == 0 {
      peak := BoundedInit(t, r.states[0]);
    } else {
      peak := BoundedRun(t, r, n - 1);
      BaseRun(t, r, n - 1);
      peak := BoundedStep(t, r.states[n - 1], r.events[n - 1], r.states[n], peak);
    }
  }

  /**
   Leases may lapse and their holders return late, in any interleaving: the fleet still spends at most
   limit + min(grant, limit) * (data planes - 1), at least one grant less than the documented bound.
   */
  lemma FleetCapWithLapses(t: Terms, r: Run, n: nat)
    requires r.Valid(t) && NoPruning(r) && n < |r.states|
    ensures TotalSpend(r.states[n]) <= t.limit + Min(t.grant, t.limit) * (|r.states[n].agents.Keys| - 1)
  {
    hide Sum;
    var peak := BoundedRun(t, r, n);
    SumMonotone(Spends(r.states[n]), peak);
  }
}
