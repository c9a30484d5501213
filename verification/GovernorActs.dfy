/**
 What one governor is asked to do (internal/governance/governance.go, internal/governance/local_money.go), and
 what each act does to its store (internal/budget/budget.go) and to its permits, next to books whose store is
 never swept and never full.
 */
module GovernorActs {
  import opened Basics
  import opened Int64s
  import opened BudgetStore
  import opened BudgetHistory
  import opened LocalMoney
  import opened LocalMoneyRuns
  import opened LocalMoneyContract
  import opened BudgetKeys
  import opened CounterReadings
  import opened CounterConservation
  import opened Governors
  import opened PreChecks

  datatype Act =
    | Reserving(at: Time, s: Subject, kp: KeyPolicy, bound: int64, bounded: bool)
    | Finishing(at: Time, permit: nat, actual: Option<int64>, complete: bool, invalid: bool)
    | Settling(at: Time, s: Subject, kp: KeyPolicy, u: Usage)
    | Checking(at: Time, s: Subject, kp: KeyPolicy, estimate: int64, gates: Gates)

  /** The acts happen at non-decreasing times, from t on. */
  predicate Chronological(acts: seq<Act>, t: Time) {
    forall i | 0 <= i < |acts| :: Latest(acts, i, t) <= acts[i].at
  }

  /** When the last of the first n acts happened. */
  function Latest(acts: seq<Act>, n: nat, t: Time): Time
    requires n <= |acts|
  {
    if n == 0 then t else acts[n - 1].at
  }

  // ---- What the acts cost ---------------------------------------------------------------

  /** grants[k] is the act that was granted permit k. Has that permit been finished by the acts before n? */
  predicate FinishedBefore(acts: seq<Act>, grants: seq<nat>, k: nat, n: nat)
    requires n <= |acts| && k < |grants|
  {
    exists j | 0 <= j < n :: grants[k] < j && acts[j].Finishing? && acts[j].permit == k
  }

  /** The permits were granted to reservations. */
  predicate Reservations(acts: seq<Act>, grants: seq<nat>) {
    forall k | 0 <= k < |grants| :: grants[k] < |acts| && acts[grants[k]].Reserving?
  }

  /** The cost that act i settles: a priced settlement, or the first finish of a granted permit with a figure. */
  function Entry(acts: seq<Act>, grants: seq<nat>, i: nat): seq<Activity>
    requires i < |acts| && Reservations(acts, grants)
  {
    match acts[i]
    case Settling(_, _, _, _) => Billed(acts[i])
    case Finishing(at, k, actual, _, _) =>
      if k < |grants| && grants[k] < i && !FinishedBefore(acts, grants, k, i) && actual.Some? && 0 <= actual.value then
        [Settlement(at, acts[grants[k]].s, acts[grants[k]].kp, actual.value)]
      else []
    case _ => []
  }

  /** Every cost that the first n acts settle, in order. */
  function SettledBy(acts: seq<Act>, grants: seq<nat>, n: nat): seq<Activity>
    requires n <= |acts| && Reservations(acts, grants)
  {
    if n == 0 then [] else SettledBy(acts, grants, n - 1) + Entry(acts, grants, n - 1)
  }

  // ---- In step with the books -------------------------------------------------------------

  lemma {:induction false} DebitAllIsReference(calls: seq<Call>, scopes: seq<Scope>, cost: money, n: nat, t: Time, we: WindowEnd)
    requires n <= |scopes|
    ensures DebitAll(Reference(calls, we), scopes, cost, n, t, we) == Reference(calls + Debits(t, cost, scopes, n), we)
  {
    if n == 0 {
      assert calls + [] == calls;
    } else {
      var c := Call(t, scopes[n - 1].key, scopes[n - 1].w, DebitOp(cost));
      var before := Debits(t, cost, scopes, n - 1);
      DebitAllIsReference(calls, scopes, cost, n - 1, t, we);
      Regroup(calls, before, [c]);
      ReferenceNext(calls + before, c, we);
      hide RefNext, Reference;
    }
  }

  lemma ReferenceNext(calls: seq<Call>, c: Call, we: WindowEnd)
    ensures Reference(calls + [c], we) == RefNext(Reference(calls, we), c, we)
  {
    assert (calls + [c])[..|calls|] == calls;
    hide RefNext;
  }

  /** A settlement in the books is one more entry in the history. */
  lemma SettledIsHistory(g: Policies, hist: seq<Activity>, s: Subject, kp: KeyPolicy, cost: money, t: Time, we: WindowEnd)
    ensures DebitAll(Reference(Flat(g, hist), we), g.Scopes(s, kp), cost, |g.Scopes(s, kp)|, t, we)
         == Reference(Flat(g, hist + [Settlement(t, s, kp, cost)]), we)
  {
    assert (hist + [Settlement(t, s, kp, cost)])[..|hist|] == hist;
    hide Policies.Scopes;
    DebitAllIsReference(Flat(g, hist), g.Scopes(s, kp), cost, |g.Scopes(s, kp)|, t, we);
  }

  /** Whose permits these are. */
  type Owners = seq<(Subject, KeyPolicy)>

  /** The history holds settlements only, in order, up to now. */
  ghost predicate Chronicle(hist: seq<Activity>, now: Time) {
    Ordered(hist) && Before(hist, now) && forall i | 0 <= i < |hist| :: hist[i].Settlement?
  }

  /** The store reads like the never-swept one of the books, which holds exactly the history. */
  ghost predicate StoreInStep(g: Policies, m: Buckets, b: Books, hist: seq<Activity>, now: Time, we: WindowEnd) {
    && b.now <= now && SameCounters(g, b.m, m, now, we) && b.m == Reference(Flat(g, hist), we) && Chronicle(hist, now)
  }

  /** p is the governor's permit i, granted to owner. */
  ghost predicate IsPermit(g: Governor, p: LocalBudgetPermit, i: nat, owner: (Subject, KeyPolicy))
    reads g, p
  {
    p.id == i && g.Owns(p) && p.scopes == g.policies.Scopes(owner.0, owner.1)
  }

  /** The governor's permits are those of the books, each held by its owner. */
  ghost predicate PermitsInStep(g: Governor, held: seq<LocalBudgetPermit>, owners: Owners, b: Books)
    reads g, held
  {
    && g.money == b.ledger && g.permits == b.permits && |held| == |owners| == |g.permits|
    && forall i | 0 <= i < |held| :: IsPermit(g, held[i], i, owners[i])
  }

  ghost predicate Months(g: Policies, we: WindowEnd) {
    Calendar(we, g.Month()) && Calendar(we, g.Day())
  }

  lemma HeardSame(g: Policies, m: Buckets, now: Buckets, s: Subject, kp: KeyPolicy, answers: seq<StoreAnswer>, t: Time, we: WindowEnd)
    requires SameCounters(g, m, now, t, we) && HeardAll(now, g.Scopes(s, kp), answers, t, we)
    ensures HeardAll(m, g.Scopes(s, kp), answers, t, we)
  {
    ScopesAreCounters(g, s, kp);
    var scopes, cs := g.Scopes(s, kp), Counters(g, s, kp);
    hide Policies.Scopes, Counters, Current, CounterKey, WindowOf;
    forall i | 0 <= i < |scopes|
      ensures Heard(m, scopes[i], answers[i], t, we)
    {
      assert Heard(now, scopes[i], answers[i], t, we) && Known(cs[i]);
      assert Reading(g, cs[i], now, t, we) == Reading(g, cs[i], m, t, we);
    }
  }

  /** A landed debit keeps the store in step with the books, and is the history's next entry. */
  lemma DebitInStep(g: Policies, before: Buckets, after: Buckets, b: Books, hist: seq<Activity>, now: Time, s: Subject, kp: KeyPolicy,
                    cost: money, t: Time, we: WindowEnd, b': Books)
    requires Months(g, we) && StoreInStep(g, before, b, hist, now, we) && now <= t && b'.now == t
    requires Landed(before, after, g.Scopes(s, kp), cost, 0, t, we)
    requires b'.m == DebitAll(b.m, g.Scopes(s, kp), cost, |g.Scopes(s, kp)|, t, we)
    ensures StoreInStep(g, after, b', hist + [Settlement(t, s, kp, cost)], t, we)
  {
    var scopes, cs := g.Scopes(s, kp), Counters(g, s, kp);
    ScopesAreCounters(g, s, kp);
    SettledIsHistory(g, hist, s, kp, cost, t, we);
    hide SameCounters, Policies.Scopes, Counters, View, DebitAll, Flat, Reference;
    SameLater(g, b.m, before, now, t, we);
    SameAfterDebits(g, b.m, before, scopes, cs, cost, |scopes|, t, we);
    SameFromView(g, DebitAll(before, scopes, cost, |scopes|, t, we), after, t, we);
    SameTwice(g, b'.m, DebitAll(before, scopes, cost, |scopes|, t, we), after, t, we);
  }

  /** A step without a debit keeps the store in step. */
  lemma LookupInStep(g: Policies, before: Buckets, after: Buckets, b: Books, hist: seq<Activity>, now: Time, t: Time, we: WindowEnd, b': Books)
    requires Months(g, we) && StoreInStep(g, before, b, hist, now, we) && now <= t && b'.now <= t && b'.m == b.m
    requires SameCounters(g, before, after, t, we)
    ensures StoreInStep(g, after, b', hist, t, we)
  {
    hide SameCounters;
    SameLater(g, b.m, before, now, t, we);
    SameTwice(g, b.m, before, after, t, we);
  }

  // ---- One act ---------------------------------------------------------------------------------

  /** The history after a permit of owner's is finished as e says: a first finish with a figure settles it. */
  function Recorded(hist: seq<Activity>, p: Permit, owner: (Subject, KeyPolicy), e: Event): seq<Activity>
    requires e.Finish?
  {
    if IsDebited(p, e.actual) then hist + [Settlement(e.at, owner.0, owner.1, e.actual.value)] else hist
  }

  /** What a reservation hears and leaves in the store. */
  lemma AttemptInStep(g: Policies, before: Buckets, after: Buckets, b: Books, hist: seq<Activity>, now: Time, s: Subject, kp: KeyPolicy, e: Event, we: WindowEnd)
    requires Months(g, we) && StoreInStep(g, before, b, hist, now, we) && now <= e.at && SameCounters(g, before, after, e.at, we)
    requires e.Attempt? && e.scopes == g.Scopes(s, kp) && HeardAll(before, e.scopes, e.answers, e.at, we)
    ensures Lawful(b, e, we) && StoreInStep(g, after, Next(b, e, we), hist, e.at, we)
  {
    ScopesAreDistinct(g, s, kp);
    SameLater(g, b.m, before, now, e.at, we);
    hide SameCounters, HeardAll, Policies.Scopes, DistinctKeys, Flat, Reference, Chronicle, Reserve;
    HeardSame(g, b.m, before, s, kp, e.answers, e.at, we);
    LookupInStep(g, before, after, b, hist, now, e.at, we, Next(b, e, we));
  }

  /** What the first or a repeated finish of a permit leaves in the store that refused nothing. */
  lemma FinishInStep(g: Policies, before: Buckets, after: Buckets, b: Books, hist: seq<Activity>, now: Time, owner: (Subject, KeyPolicy), e: Event, we: WindowEnd)
    requires Months(g, we) && StoreInStep(g, before, b, hist, now, we) && now <= e.at
    requires e.Finish? && e.permit < |b.permits| && b.permits[e.permit].scopes == g.Scopes(owner.0, owner.1)
    requires if IsDebited(b.permits[e.permit], e.actual)
             then Landed(before, after, g.Scopes(owner.0, owner.1), e.actual.value, 0, e.at, we) else after == before
    ensures StoreInStep(g, after, Next(b, e, we), Recorded(hist, b.permits[e.permit], owner, e), e.at, we)
  {
    hide SameCounters, Policies.Scopes, Flat, Reference, Chronicle, FinishedLedger, DebitAll, Landed;
    if IsDebited(b.permits[e.permit], e.actual) {
      DebitInStep(g, before, after, b, hist, now, owner.0, owner.1, e.actual.value, e.at, we, Next(b, e, we));
    } else {
      SameFromView(g, before, before, e.at, we);
      LookupInStep(g, before, after, b, hist, now, e.at, we, Next(b, e, we));
    }
  }

  /** The reservation itself, in the terms of the books. */
  method ReserveFor(g: Governor, a: Act, ghost ok: bool, ghost b: Books, ghost hist: seq<Activity>, ghost now: Time) returns (out: Outcome, ghost e: Event)
    requires a.Reserving? && g.Valid() && Months(g.policies, g.bud.windowEnd) && now <= a.at
    requires (ok ==> StoreInStep(g.policies, g.bud.m, b, hist, now, g.bud.windowEnd)) && g.money == b.ledger && g.permits == b.permits
    modifies g, g.bud
    ensures g.Valid() && old(g.bud.rejected) <= g.bud.rejected
    ensures e.Attempt? && e.at == a.at && (e.scopes, e.bound, e.bounded) == (g.policies.Scopes(a.s, a.kp), a.bound, a.bounded)
    ensures ok ==> Lawful(b, e, g.bud.windowEnd) && StoreInStep(g.policies, g.bud.m, Next(b, e, g.bud.windowEnd), hist, a.at, g.bud.windowEnd)
    ensures g.money == Next(b, e, g.bud.windowEnd).ledger && g.permits == Next(b, e, g.bud.windowEnd).permits
    ensures if out.Held? then fresh(out.permit) && IsPermit(g, out.permit, |b.permits|, (a.s, a.kp)) && |g.permits| == |b.permits| + 1
                              && g.permits[..|b.permits|] == b.permits && !g.permits[|b.permits|].finished
            else g.permits == b.permits
  {
    ghost var we, before := g.bud.windowEnd, g.bud.m;
    ghost var answers;
    out, answers := g.ReserveLocalBudget(a.s, a.kp, a.bound, a.bounded, a.at);
    e := Attempt(a.at, g.policies.Scopes(a.s, a.kp), a.bound, a.bounded, answers);
    hide StoreInStep, Months, Lawful, Governor.Valid, HeardAll, SameCounters, Policies.Scopes, ProbeScopes, AddHolds, Cleaned;
    if ok {
      AttemptInStep(g.policies, before, g.bud.m, b, hist, now, a.s, a.kp, e, we);
    }
  }

  method StepReserve(g: Governor, held: seq<LocalBudgetPermit>, a: Act, ghost ok: bool, ghost owners: Owners, ghost b: Books, ghost hist: seq<Activity>, ghost now: Time)
    returns (held': seq<LocalBudgetPermit>, ghost owners': Owners, ghost e: Event, ghost granted: Option<Permit>)
    requires a.Reserving? && g.Valid() && Months(g.policies, g.bud.windowEnd) && now <= a.at
    requires (ok ==> StoreInStep(g.policies, g.bud.m, b, hist, now, g.bud.windowEnd)) && PermitsInStep(g, held, owners, b)
    modifies g, g.bud
    ensures g.Valid() && old(g.bud.rejected) <= g.bud.rejected
    ensures e.Attempt? && e.at == a.at && (e.scopes, e.bound, e.bounded) == (g.policies.Scopes(a.s, a.kp), a.bound, a.bounded)
    ensures ok ==> Lawful(b, e, g.bud.windowEnd) && StoreInStep(g.policies, g.bud.m, Next(b, e, g.bud.windowEnd), hist, a.at, g.bud.windowEnd)
    ensures PermitsInStep(g, held', owners', Next(b, e, g.bud.windowEnd))
    ensures forall i | 0 <= i < |held'| :: held'[i] in held || fresh(held'[i])
    ensures owners' == owners + if granted.Some? then [(a.s, a.kp)] else []
    ensures g.permits == old(g.permits) + (if granted.Some? then [granted.value] else []) && (granted.Some? ==> !granted.value.finished)
  {
    hide StoreInStep, Months, Lawful, Governor.Valid, Policies.Scopes, Next;
    var out;
    out, e := ReserveFor(g, a, ok, b, hist, now);
    held', owners', granted := held, owners, None;
    assert forall i | 0 <= i < |held| :: IsPermit(g, held[i], i, owners[i]);
    hide IsPermit;
    if out.Held? {
      held', owners', granted := held + [out.permit], owners + [(a.s, a.kp)], Some(g.permits[|held|]);
    }
  }

  method StepFinish(g: Governor, held: seq<LocalBudgetPermit>, a: Act, ghost ok: bool, ghost owners: Owners, ghost b: Books, ghost hist: seq<Activity>, ghost now: Time)
    returns (ghost e: Event, ghost hist': seq<Activity>)
    requires a.Finishing? && a.permit < |held| && g.Valid() && Months(g.policies, g.bud.windowEnd) && now <= a.at
    requires (ok ==> StoreInStep(g.policies, g.bud.m, b, hist, now, g.bud.windowEnd)) && PermitsInStep(g, held, owners, b)
    modifies g, g.bud, held[a.permit]
    ensures g.Valid() && old(g.bud.rejected) <= g.bud.rejected
    ensures e == Finish(a.at, a.permit, a.actual, a.complete, a.invalid)
    ensures hist' == Recorded(hist, old(g.permits[a.permit]), owners[a.permit], e)
    ensures ok && g.bud.rejected == old(g.bud.rejected) ==>
              Lawful(b, e, g.bud.windowEnd) && StoreInStep(g.policies, g.bud.m, Next(b, e, g.bud.windowEnd), hist', a.at, g.bud.windowEnd)
    ensures PermitsInStep(g, held, owners, Next(b, e, g.bud.windowEnd))
    ensures |g.permits| == |old(g.permits)| && forall i | 0 <= i < |g.permits| :: g.permits[i].finished == (old(g.permits[i].finished) || i == a.permit)
  {
    ghost var we, before := g.bud.windowEnd, g.bud.m;
    e := Finish(a.at, a.permit, a.actual, a.complete, a.invalid);
    hist' := Recorded(hist, b.permits[e.permit], owners[a.permit], e);
    assert ok ==> Lawful(b, e, we);
    hide StoreInStep, Months, Policies.Scopes, Governor.Valid, FinishedLedger, Landed, DebitAll;
    g.FinishLocalBudget(held[a.permit], a.actual, a.complete, a.invalid, a.at);
    if ok && g.bud.rejected == old(g.bud.rejected) {
      FinishInStep(g.policies, before, g.bud.m, b, hist, now, owners[a.permit], e, we);
    }
  }

  /** Finishing without a permit does nothing. */
  method StepNothing(g: Governor, a: Act, ghost ok: bool, ghost b: Books, ghost hist: seq<Activity>, ghost now: Time)
    requires a.Finishing? && g.Valid() && Months(g.policies, g.bud.windowEnd) && now <= a.at
    requires ok ==> StoreInStep(g.policies, g.bud.m, b, hist, now, g.bud.windowEnd)
    modifies g, g.bud
    ensures g.Valid() && g.bud.rejected == old(g.bud.rejected) && g.money == old(g.money) && g.permits == old(g.permits)
    ensures ok ==> StoreInStep(g.policies, g.bud.m, b, hist, a.at, g.bud.windowEnd)
  {
    ghost var we, before := g.bud.windowEnd, g.bud.m;
    hide SameCounters, Conserved, Memory.Valid, Chronicle, Months;
    g.FinishLocalBudget(null, a.actual, a.complete, a.invalid, a.at);
    if ok {
      SameFromView(g.policies, before, before, a.at, we);
      LookupInStep(g.policies, before, g.bud.m, b, hist, now, a.at, we, b);
    }
  }

  /** What a settlement outside any admission costs, and where. */
  function Bill(g: Policies, a: Act): Event
    requires a.Settling?
  {
    LocalMoneyRuns.Settle(a.at, if a.u.tokens.Some? then g.Scopes(a.s, a.kp) else [], PriceOf(a.u))
  }

  function Billed(a: Act): seq<Activity>
    requires a.Settling?
  {
    if a.u.tokens.Some? then [Settlement(a.at, a.s, a.kp, PriceOf(a.u))] else []
  }

  /** What a settlement leaves in the store that refused nothing. */
  lemma SettleInStep(g: Policies, before: Buckets, after: Buckets, b: Books, hist: seq<Activity>, now: Time, a: Act, we: WindowEnd)
    requires Months(g, we) && StoreInStep(g, before, b, hist, now, we) && now <= a.at && a.Settling?
    requires if a.u.tokens.Some? then Landed(before, after, g.Scopes(a.s, a.kp), PriceOf(a.u), 0, a.at, we) else after == before
    ensures Lawful(b, Bill(g, a), we) && StoreInStep(g, after, Next(b, Bill(g, a), we), hist + Billed(a), a.at, we)
  {
    ScopesAreDistinct(g, a.s, a.kp);
    hide SameCounters, Policies.Scopes, Flat, Reference, Chronicle, Landed, DistinctKeys, PriceOf;
    if a.u.tokens.Some? {
      hide DebitAll;
      DebitInStep(g, before, after, b, hist, now, a.s, a.kp, PriceOf(a.u), a.at, we, Next(b, Bill(g, a), we));
    } else {
      SameFromView(g, before, before, a.at, we);
      assert hist + Billed(a) == hist;
      LookupInStep(g, before, after, b, hist, now, a.at, we, Next(b, Bill(g, a), we));
    }
  }

  method StepSettle(g: Governor, a: Act, ghost ok: bool, ghost b: Books, ghost hist: seq<Activity>, ghost now: Time)
    requires a.Settling? && g.Valid() && Months(g.policies, g.bud.windowEnd) && now <= a.at
    requires ok ==> StoreInStep(g.policies, g.bud.m, b, hist, now, g.bud.windowEnd)
    modifies g.bud
    ensures g.Valid() && old(g.bud.rejected) <= g.bud.rejected
    ensures ok && g.bud.rejected == old(g.bud.rejected) ==>
              Lawful(b, Bill(g.policies, a), g.bud.windowEnd)
              && StoreInStep(g.policies, g.bud.m, Next(b, Bill(g.policies, a), g.bud.windowEnd), hist + Billed(a), a.at, g.bud.windowEnd)
  {
    ghost var we, before := g.bud.windowEnd, g.bud.m;
    hide StoreInStep, Months, Policies.Scopes, Conserved, Memory.Valid, Landed, Next, Lawful;
    var cost, _ := g.Settle(a.s, a.kp, a.u, null, a.at);
    if ok && g.bud.rejected == old(g.bud.rejected) {
      SettleInStep(g.policies, before, g.bud.m, b, hist, now, a, we);
    }
  }

  method StepCheck(g: Governor, a: Act, ghost ok: bool, ghost b: Books, ghost hist: seq<Activity>, ghost now: Time)
    requires a.Checking? && g.Valid() && Months(g.policies, g.bud.windowEnd) && now <= a.at
    requires ok ==> StoreInStep(g.policies, g.bud.m, b, hist, now, g.bud.windowEnd)
    modifies g.bud
    ensures g.Valid() && old(g.bud.rejected) <= g.bud.rejected
    ensures ok ==> StoreInStep(g.policies, g.bud.m, b, hist, a.at, g.bud.windowEnd)
  {
    ghost var we, before := g.bud.windowEnd, g.bud.m;
    hide SameCounters, Conserved, Memory.Valid, Chronicle, Verdict, Months, Taken;
    var _, _ := PreCheck(g.bud, g.policies, a.s, a.kp, a.estimate, a.gates, a.at);
    if ok {
      LookupInStep(g.policies, before, g.bud.m, b, hist, now, a.at, we, b);
    }
  }
}
