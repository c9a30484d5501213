/**
 One governor through any sequence of reservations, finishes, settlements and pre-checks, on the store that
 sweeps and fills: as long as that store refuses nothing, its counters hold the exact costs, and the overshoot
 bound holds for what it reports.
 */
module GovernorRuns {
  import opened Basics
  import opened Int64s
  import opened BudgetStore
  import opened BudgetHistory
  import opened LocalMoney
  import opened LocalMoneyRuns
  import opened LocalMoneyContract
  import opened BudgetKeys
  import opened CounterReadings
  import opened CounterConservation
  import opened Governors
  import opened PreChecks
  import opened GovernorActs
  import opened GovernorTerms

  /** The governor's permits are those the log tells of. */
  ghost predicate Kept(g: Governor, held: seq<LocalBudgetPermit>, acts: seq<Act>, n: nat, log: Log)
    requires n <= |acts|
    reads g, g.bud, held
  {
    && g.Valid() && PermitsInStep(g, held, log.owners, After(log.start, log.events, g.bud.windowEnd))
    && GrantsInStep(acts, log, g.permits, n)
  }

  /** The run is one the books allow, the store is in step with them, and the terms that the acts keep to hold. */
  ghost predicate InTune(g: Governor, acts: seq<Act>, n: nat, log: Log)
    requires n <= |acts|
    reads g, g.bud
  {
    && LocalMoneyRuns.Run(log.start, log.events, g.bud.windowEnd)
    && StoreInStep(g.policies, g.bud.m, After(log.start, log.events, g.bud.windowEnd), log.hist, log.now, g.bud.windowEnd)
    && TermsHold(g.policies, acts, n, log, g.bud.windowEnd)
  }

  lemma BillKeepsPermits(b: Books, g: Policies, a: Act, we: WindowEnd)
    requires a.Settling?
    ensures Next(b, Bill(g, a), we).ledger == b.ledger && Next(b, Bill(g, a), we).permits == b.permits
  {
    hide DebitAll, Policies.Scopes;
  }

  /** Act n may happen; ok says that the store refused nothing so far. */
  ghost predicate Ready(g: Governor, held: seq<LocalBudgetPermit>, acts: seq<Act>, n: nat, ok: bool, log: Log)
    reads g, g.bud, held
  {
    && n < |acts| && Kept(g, held, acts, n, log) && (ok ==> InTune(g, acts, n, log))
    && Months(g.policies, g.bud.windowEnd) && log.now <= acts[n].at
  }

  /** Act n happened. */
  ghost predicate Acted(g: Governor, held: seq<LocalBudgetPermit>, acts: seq<Act>, n: nat, ok: bool, log: Log, log': Log)
    reads g, g.bud, held
  {
    && n < |acts| && Kept(g, held, acts, n + 1, log') && (ok ==> InTune(g, acts, n + 1, log'))
    && log'.now == acts[n].at && log'.start == log.start
  }

  method OnReserve(g: Governor, held: seq<LocalBudgetPermit>, acts: seq<Act>, n: nat, ghost ok: bool, ghost log: Log)
    returns (held': seq<LocalBudgetPermit>, ghost log': Log)
    requires Ready(g, held, acts, n, ok, log) && acts[n].Reserving?
    modifies g, g.bud
    ensures Acted(g, held', acts, n, ok, log, log') && old(g.bud.rejected) <= g.bud.rejected
    ensures forall i | 0 <= i < |held'| :: held'[i] in held || fresh(held'[i])
  {
    ghost var we, b, permits := g.bud.windowEnd, After(log.start, log.events, g.bud.windowEnd), g.permits;
    assert |held| == |permits|;
    hide StoreInStep, GrantsInStep, TermsHold, PermitsInStep, Months, Lawful, Next, LocalMoneyRuns.Run, After, Governor.Valid, Policies.Scopes;
    ghost var owners, e, granted;
    held', owners, e, granted := StepReserve(g, held, acts[n], ok, log.owners, b, log.hist, log.now);
    RunNext(log.start, log.events, e, we);
    log' := log.(now := acts[n].at, events := log.events + [e], owners := owners, grants := log.grants + if granted.Some? then [n] else []);
    if granted.Some? {
      GrantAdded(acts, log, permits, granted.value, n, log');
      if ok {
        TermsAfterGrant(g.policies, acts, n, log, log', b, e, we);
      }
    } else {
      GrantsKept(acts, log, permits, n, log');
      if ok {
        TermsAfterEvent(g.policies, acts, n, log, log', b, e, we);
      }
    }
    assert ok ==> InTune(g, acts, n + 1, log');
    assert Kept(g, held', acts, n + 1, log');
    hide Kept, InTune;
  }

  method OnFinish(g: Governor, held: seq<LocalBudgetPermit>, acts: seq<Act>, n: nat, ghost ok: bool, ghost log: Log) returns (ghost log': Log)
    requires Ready(g, held, acts, n, ok, log) && acts[n].Finishing?
    modifies g, g.bud, held
    ensures Acted(g, held, acts, n, ok && g.bud.rejected == old(g.bud.rejected), log, log') && old(g.bud.rejected) <= g.bud.rejected
  {
    ghost var we, b, permits := g.bud.windowEnd, After(log.start, log.events, g.bud.windowEnd), g.permits;
    hide StoreInStep, GrantsInStep, TermsHold, Months, Lawful, Next, LocalMoneyRuns.Run, After, Conserved, Memory.Valid, IsPermit, Recorded;
    log' := log.(now := acts[n].at);
    if acts[n].permit < |held| {
      ghost var e, hist := StepFinish(g, held, acts[n], ok, log.owners, b, log.hist, log.now);
      RunNext(log.start, log.events, e, we);
      log' := log'.(events := log.events + [e], hist := hist);
      GrantFinished(acts, log, permits, g.permits, e, n, log');
      if ok && g.bud.rejected == old(g.bud.rejected) {
        TermsAfterEvent(g.policies, acts, n, log, log', b, e, we);
      }
    } else {
      StepNothing(g, acts[n], ok, b, log.hist, log.now);
      GrantsKept(acts, log, permits, n, log');
      if ok {
        TermsIdle(g.policies, acts, n, log, log', we);
      }
    }
    assert ok && g.bud.rejected == old(g.bud.rejected) ==> InTune(g, acts, n + 1, log');
    assert Kept(g, held, acts, n + 1, log');
    hide Kept, InTune;
  }

  method OnSettle(g: Governor, held: seq<LocalBudgetPermit>, acts: seq<Act>, n: nat, ghost ok: bool, ghost log: Log) returns (ghost log': Log)
    requires Ready(g, held, acts, n, ok, log) && acts[n].Settling?
    modifies g.bud
    ensures Acted(g, held, acts, n, ok && g.bud.rejected == old(g.bud.rejected), log, log') && old(g.bud.rejected) <= g.bud.rejected
  {
    ghost var we, b, bill := g.bud.windowEnd, After(log.start, log.events, g.bud.windowEnd), Bill(g.policies, acts[n]);
    BillKeepsPermits(b, g.policies, acts[n], we);
    hide StoreInStep, GrantsInStep, TermsHold, Months, Lawful, Next, LocalMoneyRuns.Run, After, Conserved, Memory.Valid, Bill, Billed, IsPermit;
    StepSettle(g, acts[n], ok, b, log.hist, log.now);
    RunNext(log.start, log.events, bill, we);
    log' := log.(now := acts[n].at, events := log.events + [bill], hist := log.hist + Billed(acts[n]));
    assert PermitsInStep(g, held, log'.owners, After(log'.start, log'.events, we));
    GrantsKept(acts, log, g.permits, n, log');
    if ok && g.bud.rejected == old(g.bud.rejected) {
      TermsAfterEvent(g.policies, acts, n, log, log', b, bill, we);
    }
    assert ok && g.bud.rejected == old(g.bud.rejected) ==> InTune(g, acts, n + 1, log');
    assert Kept(g, held, acts, n + 1, log');
    hide Kept, InTune;
  }

  method OnCheck(g: Governor, held: seq<LocalBudgetPermit>, acts: seq<Act>, n: nat, ghost ok: bool, ghost log: Log) returns (ghost log': Log)
    requires Ready(g, held, acts, n, ok, log) && acts[n].Checking?
    modifies g.bud
    ensures Acted(g, held, acts, n, ok, log, log') && old(g.bud.rejected) <= g.bud.rejected
  {
    hide StoreInStep, GrantsInStep, TermsHold, Months, LocalMoneyRuns.Run, After, Conserved, Memory.Valid;
    log' := log.(now := acts[n].at);
    StepCheck(g, acts[n], ok, After(log.start, log.events, g.bud.windowEnd), log.hist, log.now);
    GrantsKept(acts, log, g.permits, n, log');
    if ok {
      TermsIdle(g.policies, acts, n, log, log', g.bud.windowEnd);
    }
  }

  /** The first n acts have happened. */
  ghost predicate Reached(g: Governor, held: seq<LocalBudgetPermit>, acts: seq<Act>, n: nat, t: Time, ok: bool, log: Log)
    reads g, g.bud, held
  {
    && n <= |acts| && Kept(g, held, acts, n, log) && (ok ==> InTune(g, acts, n, log))
    && Months(g.policies, g.bud.windowEnd) && log.now == Latest(acts, n, t)
  }

  method Step(g: Governor, held: seq<LocalBudgetPermit>, acts: seq<Act>, n: nat, ghost t: Time, ghost ok: bool, ghost log: Log)
    returns (held': seq<LocalBudgetPermit>, ghost log': Log)
    requires n < |acts| && Reached(g, held, acts, n, t, ok, log) && Chronological(acts, t)
    modifies g, g.bud, held
    ensures Reached(g, held', acts, n + 1, t, ok && g.bud.rejected == old(g.bud.rejected), log') && old(g.bud.rejected) <= g.bud.rejected
    ensures forall i | 0 <= i < |held'| :: held'[i] in held || fresh(held'[i])
  {
    hide Kept, InTune, Months;
    held' := held;
    match acts[n] {
      case Reserving(_, _, _, _, _) => held', log' := OnReserve(g, held, acts, n, ok, log);
      case Finishing(_, _, _, _, _) => log' := OnFinish(g, held, acts, n, ok, log);
      case Settling(_, _, _, _) => log' := OnSettle(g, held, acts, n, ok, log);
      case Checking(_, _, _, _, _) => log' := OnCheck(g, held, acts, n, ok, log);
    }
  }

  /** A governor that has done nothing yet, with an empty store. */
  ghost predicate New(g: Governor)
    reads g, g.bud
  {
    g.Valid() && g.permits == [] && g.money == Ledger(map[], map[], 0) && g.bud.m == map[]
  }

  lemma NewIsInTune(g: Governor, acts: seq<Act>, t: Time)
    requires New(g)
    ensures Kept(g, [], acts, 0, Log(t, t, [], [], [], [])) && InTune(g, acts, 0, Log(t, t, [], [], [], []))
  {
  }

  /** The acts from n on. */
  method DriveFrom(g: Governor, held: seq<LocalBudgetPermit>, acts: seq<Act>, n: nat, ghost t: Time, ghost ok: bool, ghost log: Log)
    returns (held': seq<LocalBudgetPermit>, ghost log': Log)
    requires Reached(g, held, acts, n, t, ok, log) && Chronological(acts, t) && n <= |acts|
    modifies g, g.bud, held
    ensures Reached(g, held', acts, |acts|, t, ok && g.bud.rejected == old(g.bud.rejected), log') && old(g.bud.rejected) <= g.bud.rejected
    decreases |acts| - n
  {
    held', log' := held, log;
    hide Reached, Chronological;
    if n < |acts| {
      held', log' := Step(g, held, acts, n, t, ok, log);
      held', log' := DriveFrom(g, held', acts, n + 1, t, ok && g.bud.rejected == old(g.bud.rejected), log');
    }
  }

  /**
   A new governor through any acts at non-decreasing times. Unless its store refused something, what happened to
   its books is a lawful run, and its store reads as if it held exactly the costs that the acts settle.
   */
  method Drive(g: Governor, acts: seq<Act>, ghost t: Time) returns (held: seq<LocalBudgetPermit>, ghost log: Log)
    requires New(g) && Months(g.policies, g.bud.windowEnd) && Chronological(acts, t)
    modifies g, g.bud
    ensures Kept(g, held, acts, |acts|, log) && log.now == Latest(acts, |acts|, t) && old(g.bud.rejected) <= g.bud.rejected
    ensures g.bud.rejected == old(g.bud.rejected) ==> InTune(g, acts, |acts|, log)
  {
    log := Log(t, t, [], [], [], []);
    NewIsInTune(g, acts, t);
    hide New, Kept, InTune, Chronological;
    held, log := DriveFrom(g, [], acts, 0, t, true, log);
  }

  // ---- What the run leaves -----------------------------------------------------------------------

  /** The store in step with the books reads, for every counter, the exact costs of its current window. */
  lemma ReadsTheCosts(g: Policies, m: Buckets, b: Books, hist: seq<Activity>, now: Time, t: Time, c: Counter, we: WindowEnd)
    requires Months(g, we) && StoreInStep(g, m, b, hist, now, we) && now <= t && Known(c)
    ensures Reading(g, c, m, t, we).spent == Min(MAX_INT64, Costs(g, hist, c, we(t, WindowOf(g, c)), we))
  {
    SameLater(g, b.m, m, now, t, we);
    assert Reading(g, c, m, t, we) == Reading(g, c, b.m, t, we);
    assert Before(hist, t) && Benign(g, hist, c);
    hide SameCounters, Reference, Flat, Costs, CounterKey;
    CountersConserveCosts(g, hist, c, we, t);
  }

  /** What the store reports as spent, plus what unfinished attempts hold, overshoots by less than one attempt. */
  lemma ReadingsStayBelow(g: Policies, m: Buckets, acts: seq<Act>, log: Log, t: Time, terms: Terms, we: WindowEnd)
    requires Months(g, we) && Known(terms.c) && log.now <= t && 0 < terms.limit && we(t, WindowOf(g, terms.c)) == terms.end
    requires LocalMoneyRuns.Run(log.start, log.events, we) && StoreInStep(g, m, After(log.start, log.events, we), log.hist, log.now, we)
    requires TermsHold(g, acts, |acts|, log, we) && AllPrudent(g, acts, log.grants, |acts|, terms, we)
    ensures Reading(g, terms.c, m, t, we).spent + TotalPending(FrameOf(g, terms, we), After(log.start, log.events, we).permits) < terms.limit + terms.bound
  {
    var f, b := FrameOf(g, terms, we), After(log.start, log.events, we);
    assert TheseHold(g, acts, log, terms, we);
    OneAttemptOvershoot(f, log.start, log.events, terms.bound);
    InvAfter(f, log.start, log.events);
    SameLater(g, b.m, m, log.now, t, we);
    assert Reading(g, terms.c, m, t, we) == Reading(g, terms.c, b.m, t, we);
    hide After, AllFixed, AllDisciplined, LocalMoneyRuns.Run, Current, TotalPending, Conserved, CounterKey, SameCounters, TermsHold, TheseHold;
    CurrentIn(f, b.m, b.now, t);
  }

  /** The calendar month or day of the gateway's time zone. */
  function CalendarOf(g: Policies, c: Counter): Window {
    if c.monthly then CalMonth(g.loc) else CalDay(g.loc)
  }

  /**
   What act i costs counter c in its window that ends at e: the known price of usable usage, or the figure that a
   granted permit is first finished with, if the request counts against c.
   */
  function ActCost(g: Policies, acts: seq<Act>, grants: seq<nat>, i: nat, c: Counter, e: Time, we: WindowEnd): nat
    requires i < |acts| && Reservations(acts, grants)
  {
    if we(acts[i].at, CalendarOf(g, c)) != e then 0
    else
      match acts[i]
      case Settling(_, s, kp, u) => if u.tokens.Some? && u.price.Some? && Charged(g, s, kp, c) then u.price.value else 0
      case Finishing(_, k, actual, _, _) =>
        if k < |grants| && grants[k] < i && !FinishedBefore(acts, grants, k, i) && actual.Some? && 0 <= actual.value
           && Charged(g, acts[grants[k]].s, acts[grants[k]].kp, c) then actual.value
        else 0
      case Reserving(_, _, _, _, _) => 0
      case Checking(_, _, _, _, _) => 0
  }

  function ActCosts(g: Policies, acts: seq<Act>, grants: seq<nat>, n: nat, c: Counter, e: Time, we: WindowEnd): nat
    requires n <= |acts| && Reservations(acts, grants)
  {
    if n == 0 then 0 else ActCosts(g, acts, grants, n - 1, c, e, we) + ActCost(g, acts, grants, n - 1, c, e, we)
  }

  /** What one entry of the history, if it is there, costs c. */
  function EntryCosts(g: Policies, entry: seq<Activity>, c: Counter, e: Time, we: WindowEnd): nat {
    if entry != [] && entry[0].Settlement? && Charged(g, entry[0].s, entry[0].kp, c) && we(entry[0].at, WindowOf(g, c)) == e then entry[0].cost else 0
  }

  lemma CostsNext(g: Policies, hist: seq<Activity>, entry: seq<Activity>, c: Counter, e: Time, we: WindowEnd)
    requires |entry| <= 1
    ensures Costs(g, hist + entry, c, e, we) == Costs(g, hist, c, e, we) + EntryCosts(g, entry, c, e, we)
  {
    if entry != [] {
      assert (hist + entry)[..|hist|] == hist;
    } else {
      assert hist + entry == hist;
    }
  }

  lemma EntryCost(g: Policies, acts: seq<Act>, grants: seq<nat>, i: nat, c: Counter, e: Time, we: WindowEnd)
    requires i < |acts| && Reservations(acts, grants)
    ensures |Entry(acts, grants, i)| <= 1 && ActCost(g, acts, grants, i, c, e, we) == EntryCosts(g, Entry(acts, grants, i), c, e, we)
  {
    hide Charged, FinishedBefore;
  }

  /** One act more, on both sides. */
  lemma OneActMore(g: Policies, acts: seq<Act>, grants: seq<nat>, n: nat, c: Counter, e: Time, we: WindowEnd)
    requires 0 < n <= |acts| && Reservations(acts, grants)
    ensures Costs(g, SettledBy(acts, grants, n), c, e, we)
         == Costs(g, SettledBy(acts, grants, n - 1), c, e, we) + ActCost(g, acts, grants, n - 1, c, e, we)
  {
    EntryCost(g, acts, grants, n - 1, c, e, we);
    hide Costs, EntryCosts, Entry, ActCost;
    CostsNext(g, SettledBy(acts, grants, n - 1), Entry(acts, grants, n - 1), c, e, we);
  }

  lemma {:induction false} CostsOfActs(g: Policies, acts: seq<Act>, grants: seq<nat>, n: nat, c: Counter, e: Time, we: WindowEnd)
    requires n <= |acts| && Reservations(acts, grants)
    ensures Costs(g, SettledBy(acts, grants, n), c, e, we) == ActCosts(g, acts, grants, n, c, e, we)
  {
    if n > 0 {
      CostsOfActs(g, acts, grants, n - 1, c, e, we);
      OneActMore(g, acts, grants, n, c, e, we);
      hide Costs, ActCost, SettledBy;
    }
  }

  /** spent is the exact cost that the acts settled for c in the window of t. */
  ghost predicate IsTheCost(g: Policies, acts: seq<Act>, grants: seq<nat>, c: Counter, t: Time, spent: money, we: WindowEnd) {
    Reservations(acts, grants) && spent == Min(MAX_INT64, ActCosts(g, acts, grants, |acts|, c, we(t, CalendarOf(g, c)), we))
  }

  /**
   For every limit and bound whose terms the acts keep to in the window of t: spent and what unfinished attempts
   still hold stay below the limit plus the bound.
   */
  ghost predicate StaysBelow(g: Policies, acts: seq<Act>, grants: seq<nat>, permits: seq<Permit>, c: Counter, t: Time, spent: money, we: WindowEnd) {
    Reservations(acts, grants)
    && forall terms: Terms | terms.c == c && terms.end == we(t, WindowOf(g, c)) && 0 < terms.limit && AllPrudent(g, acts, grants, |acts|, terms, we) ::
         spent + TotalPending(FrameOf(g, terms, we), permits) < terms.limit + terms.bound
  }

  lemma Reads(g: Policies, m: Buckets, acts: seq<Act>, log: Log, permits: seq<Permit>, t: Time, c: Counter, we: WindowEnd)
    requires Months(g, we) && Known(c) && log.now <= t && GrantsInStep(acts, log, permits, |acts|)
    requires LocalMoneyRuns.Run(log.start, log.events, we) && StoreInStep(g, m, After(log.start, log.events, we), log.hist, log.now, we)
    requires permits == After(log.start, log.events, we).permits && TermsHold(g, acts, |acts|, log, we)
    ensures IsTheCost(g, acts, log.grants, c, t, Reading(g, c, m, t, we).spent, we)
    ensures StaysBelow(g, acts, log.grants, permits, c, t, Reading(g, c, m, t, we).spent, we)
  {
    hide After, LocalMoneyRuns.Run, StoreInStep, Months, TermsHold, AllPrudent, FrameOf, TotalPending, Reading, SettledBy, Costs;
    ReadsTheCosts(g, m, After(log.start, log.events, we), log.hist, log.now, t, c, we);
    CostsOfActs(g, acts, log.grants, |acts|, c, we(t, WindowOf(g, c)), we);
    forall terms: Terms | terms.c == c && terms.end == we(t, WindowOf(g, c)) && 0 < terms.limit && AllPrudent(g, acts, log.grants, |acts|, terms, we)
      ensures Reading(g, c, m, t, we).spent + TotalPending(FrameOf(g, terms, we), permits) < terms.limit + terms.bound
    {
      ReadingsStayBelow(g, m, acts, log, t, terms, we);
    }
  }

  /**
   The same governor asked about any team, key or user counter at any later time. Unless the store refused
   something, the answer is the exact cost that the acts settled for that subject in the window of that time, and
   together with what unfinished attempts still hold it overshoots the limit by less than one attempt.
   */
  method DriveThenRead(g: Governor, acts: seq<Act>, ghost from: Time, c: Counter, t: Time) returns (spent: money, ghost log: Log)
    requires New(g) && Months(g.policies, g.bud.windowEnd) && Chronological(acts, from) && Latest(acts, |acts|, from) <= t && Known(c)
    modifies g, g.bud
    ensures GrantsInStep(acts, log, g.permits, |acts|)
    ensures g.bud.rejected == old(g.bud.rejected) ==> IsTheCost(g.policies, acts, log.grants, c, t, spent, g.bud.windowEnd)
    ensures g.bud.rejected == old(g.bud.rejected) ==> StaysBelow(g.policies, acts, log.grants, g.permits, c, t, spent, g.bud.windowEnd)
  {
    ghost var we, n0 := g.bud.windowEnd, g.bud.rejected;
    var held;
    held, log := Drive(g, acts, from);
    ghost var m, ok := g.bud.m, g.bud.rejected == n0;
    hide GrantsInStep, Months, StoreInStep, TermsHold, IsTheCost, StaysBelow, IsPermit, LocalMoneyRuns.Run, After, Conserved, Memory.Valid;
    if ok {
      Reads(g.policies, m, acts, log, g.permits, t, c, we);
    }
    spent := g.bud.Spent(CounterKey(g.policies, c), WindowOf(g.policies, c), t);
  }
}
