/**
 The two promises of local money reservations, for every counter in every one of its windows, over every run
 of the gateway: overlapping attempts overshoot the limit by less than one attempt, and an attempt without a
 finite bound keeps every other attempt out until it is released.
 */
module LocalMoneyContract {
  import opened Basics
  import opened Int64s
  import opened BudgetStore
  import opened BudgetHistory
  import opened LocalMoney
  import opened LocalMoneyRuns

  // ---- Money at risk on one counter in one window -------------------------------------

  function FrameAmount(f: Frame, holds: seq<Hold>): nat {
    if holds == [] then 0
    else FrameAmount(f, holds[..|holds| - 1]) + if On(f, holds[|holds| - 1]) then holds[|holds| - 1].amount else 0
  }

  /** What an unfinished attempt may still cost on the counter in the window. */
  function Pending(f: Frame, p: Permit): nat {
    if p.finished then 0 else FrameAmount(f, p.holds)
  }

  function TotalPending(f: Frame, permits: seq<Permit>): nat {
    if permits == [] then 0 else TotalPending(f, permits[..|permits| - 1]) + Pending(f, permits[|permits| - 1])
  }

  /** Spend plus the holds of unfinished attempts. */
  function Exposure(f: Frame, b: Books): nat {
    SpentIn(f, b.m) + TotalPending(f, b.permits)
  }

  lemma {:induction false} TotalPendingUpdate(f: Frame, permits: seq<Permit>, i: nat, p: Permit)
    requires i < |permits|
    ensures TotalPending(f, permits[i := p]) == TotalPending(f, permits) - Pending(f, permits[i]) + Pending(f, p)
    decreases |permits|
  {
    var n := |permits| - 1;
    if i == n {
      assert permits[i := p][..n] == permits[..n];
    } else {
      assert permits[i := p][..n] == permits[..n][i := p];
      TotalPendingUpdate(f, permits[..n], i, p);
    }
  }

  lemma {:induction false} FrameAmountOnRef(f: Frame, holds: seq<Hold>, r: Ref)
    requires forall h | h in holds && On(f, h) :: h.ref == r
    ensures FrameAmount(f, holds) <= AmountOn(holds, r)
    decreases |holds|
  {
    if holds != [] {
      FrameAmountOnRef(f, holds[..|holds| - 1], r);
    }
  }

  /** Pending money is owed on the one object that anchored permits can have holds on. */
  lemma {:induction false} PendingIsOwed(f: Frame, l: Ledger, permits: seq<Permit>, now: Time, r: Ref)
    requires forall i | 0 <= i < |permits| :: (permits[i].released ==> permits[i].finished) && Anchored(f, l, permits[i], now)
    requires now < f.end && (f.key in l.cur && l.cur[f.key].ends == f.end ==> l.cur[f.key] == r)
    ensures TotalPending(f, permits) <= TotalOwed(permits, r)
    decreases |permits|
  {
    if permits != [] {
      var n := |permits| - 1;
      PendingIsOwed(f, l, permits[..n], now, r);
      var p := permits[n];
      assert Anchored(f, l, p, now);
      if !p.finished {
        FrameAmountOnRef(f, p.holds, r);
      }
    }
  }

  /** An admitting check leaves spend plus pending holds below the limit. */
  lemma AdmissionMeansRoom(f: Frame, b: Books, a: StoreAnswer)
    requires Inv(f, b) && b.now < f.end && a.spent == SpentIn(f, b.m)
    requires Admits(StateFor(b.ledger, f.key, f.end), f.limit, a)
    ensures Exposure(f, b) < f.limit
  {
    forall i | 0 <= i < |b.permits|
      ensures (b.permits[i].released ==> b.permits[i].finished) && Anchored(f, b.ledger, b.permits[i], b.now)
    {
      assert SoundPermit(f, b.permits[i]);
    }
    hide Anchored, SoundPermit, TotalPending;
    if f.key in b.ledger.cur && b.ledger.cur[f.key].ends == f.end {
      var r := b.ledger.cur[f.key];
      PendingIsOwed(f, b.ledger, b.permits, b.now, r);
      assert Balanced(b.ledger.heap[r], TotalOwed(b.permits, r));
    } else {
      var r := Ref(f.key, f.end, b.ledger.next);
      PendingIsOwed(f, b.ledger, b.permits, b.now, r);
      TotalOwedAbsent(b.permits, r);
    }
  }

  // ---- One-attempt overshoot ------------------------------------------------------------

  /** The event is an attempt with a scope on the counter in the window. */
  ghost predicate AttemptIn(f: Frame, e: Event, i: nat) {
    e.Attempt? && i < |e.scopes| && i < |e.answers| && OnKey(f, e.scopes[i]) && e.answers[i].ends == f.end
  }

  /**
   Attempts on the counter in the window are enforced, and bounded by bound; and no cost lands in it beyond the
   hold that its own attempt has there.
   */
  ghost predicate Disciplined(f: Frame, b: Books, e: Event, bound: money) {
    match e
    case Attempt(_, scopes, amount, bounded, _) =>
      forall i | 0 <= i < |scopes| && AttemptIn(f, e, i) :: scopes[i].hard && bounded && amount <= bound
    case Finish(t, i, actual, _, _) =>
      (i < |b.permits| && IsDebited(b.permits[i], actual) && f.we(t, f.w) == f.end && NamedIn(f, b.permits[i].scopes, |b.permits[i].scopes|)) ==>
        actual.value <= FrameAmount(f, b.permits[i].holds)
    case Settle(t, scopes, cost) =>
      f.we(t, f.w) == f.end && NamedIn(f, scopes, |scopes|) ==> cost <= 0
  }

  ghost predicate AllDisciplined(f: Frame, start: Time, events: seq<Event>, bound: money) {
    forall i | 0 <= i < |events| :: Disciplined(f, After(start, events[..i], f.we), events[i], bound)
  }

  /** A passed check holds at most the bound on the counter in the window, and nothing unless it was told that window. */
  lemma GrantedAmount(f: Frame, b: Books, scopes: seq<Scope>, bound: money, answers: seq<StoreAnswer>)
    requires Conserved(b.ledger, b.permits) && |answers| == |scopes| && DistinctKeys(scopes)
    ensures var p := ProbeScopes(b.ledger, scopes, bound, true, answers, |scopes|);
            && FrameAmount(f, p.holds) <= bound
            && ((forall i | 0 <= i < |scopes| && OnKey(f, scopes[i]) :: answers[i].ends != f.end) ==> FrameAmount(f, p.holds) == 0)
  {
    ProbeTally(b.ledger, scopes, bound, true, answers, |scopes|);
    ProbeFresh(b.ledger, b.permits, scopes, bound, true, answers, |scopes|);
    var p := ProbeScopes(b.ledger, scopes, bound, true, answers, |scopes|);
    hide ProbeScopes, Conserved;
    var r := if f.key in p.ledger.cur then p.ledger.cur[f.key] else Ref(f.key, f.end, 0);
    forall h | h in p.holds && On(f, h)
      ensures h.ref == r && h.amount == bound && exists i | 0 <= i < |scopes| :: OnKey(f, scopes[i]) && answers[i].ends == f.end
    {
      assert FromScope(p, scopes, bound, true, answers, |scopes|, h);
      var i :| 0 <= i < |scopes| && HoldFor(p, scopes, bound, true, answers, i, h);
      assert OnKey(f, scopes[i]);
    }
    FrameAmountOnRef(f, p.holds, r);
    if j :| 0 <= j < |p.holds| && p.holds[j].ref == r && On(f, p.holds[j]) {
      AmountOnPresent(p.holds, j);
      assert p.holds[j] in p.holds;
    } else {
      NothingOn(f, p.holds);
    }
  }

  lemma {:induction false} NothingOn(f: Frame, holds: seq<Hold>)
    requires forall j | 0 <= j < |holds| :: !On(f, holds[j])
    ensures FrameAmount(f, holds) == 0
    decreases |holds|
  {
    if holds != [] {
      NothingOn(f, holds[..|holds| - 1]);
    }
  }

  /** What a granted attempt adds to the books. */
  lemma GrantedPermit(b: Books, e: Event, we: WindowEnd)
    requires e.Attempt? && |e.answers| == |e.scopes| && Reserve(b.ledger, e.scopes, e.bound, e.bounded, e.answers, e.at).Granted?
    ensures 0 <= e.bound
    ensures var p := ProbeScopes(StartOf(b.ledger, e.scopes, e.at), e.scopes, e.bound, e.bounded, e.answers, |e.scopes|);
            && p.ok && Next(b, e, we).m == b.m && Next(b, e, we).permits == b.permits + [Permit(p.holds, e.scopes, false, false)]
  {
    hide ProbeScopes, AddHolds, Cleaned;
  }

  lemma RefusedPermits(b: Books, e: Event, we: WindowEnd)
    requires e.Attempt? && |e.answers| == |e.scopes| && !Reserve(b.ledger, e.scopes, e.bound, e.bounded, e.answers, e.at).Granted?
    ensures Next(b, e, we).m == b.m && Next(b, e, we).permits == b.permits
  {
    hide Reserve;
  }

  /** An admitted hard scope on the counter in the window found room there. */
  lemma AdmittedInWindow(f: Frame, b: Books, e: Event, i: nat)
    requires Calendar(f.we, f.w) && Inv(f, b) && Lawful(b, e, f.we) && Fixed(f, e) && b.now == e.at
    requires AttemptIn(f, e, i) && e.scopes[i].hard && Reserve(b.ledger, e.scopes, e.bound, e.bounded, e.answers, e.at).Granted?
    ensures var start := StartOf(b.ledger, e.scopes, e.at);
            && Inv(f, b.(ledger := start)) && e.at < f.end && e.answers[i].spent == SpentIn(f, b.m)
            && Admits(StateFor(start, f.key, f.end), f.limit, e.answers[i])
  {
    ToldTheWindow(f, b, e.scopes, e.answers, i);
    var start := StartOf(b.ledger, e.scopes, e.at);
    StartInv(f, b, e.scopes);
    GrantedPermit(b, e, f.we);
    assert WellFormed(start);
    hide Inv, Calendar, Heard, HeardAll, ProbeScopes, StartOf, StateFor, Reserve, Next, DistinctKeys, WellFormed;
    ProbeDecision(start, e.scopes, e.bound, e.bounded, e.answers, |e.scopes|);
  }

  lemma AttemptExposure(f: Frame, b: Books, e: Event, bound: money)
    requires Calendar(f.we, f.w) && Inv(f, b) && Lawful(b, e, f.we) && Fixed(f, e) && b.now == e.at && e.Attempt?
    requires Disciplined(f, b, e, bound) && Exposure(f, b) < f.limit + bound
    ensures Exposure(f, Next(b, e, f.we)) < f.limit + bound
  {
    if Reserve(b.ledger, e.scopes, e.bound, e.bounded, e.answers, e.at).Granted? {
      var start := StartOf(b.ledger, e.scopes, e.at);
      var b1 := b.(ledger := start);
      GrantedPermit(b, e, f.we);
      StartInv(f, b, e.scopes);
      var p := ProbeScopes(start, e.scopes, e.bound, e.bounded, e.answers, |e.scopes|);
      assert Conserved(b1.ledger, b1.permits);
      hide Inv, Calendar, HeardAll, ProbeScopes, StartOf, Reserve, Next, Conserved, DistinctKeys, Fixed;
      TotalPendingAppend(f, b.permits, Permit(p.holds, e.scopes, false, false));
      if i: nat :| AttemptIn(f, e, i) {
        AdmittedInWindow(f, b, e, i);
        AdmissionMeansRoom(f, b1, e.answers[i]);
        GrantedAmount(f, b1, e.scopes, e.bound, e.answers);
      } else {
        NoneTold(f, e);
        GrantedNothing(f, b1, e.scopes, e.bound, e.bounded, e.answers);
      }
    } else {
      RefusedPermits(b, e, f.we);
    }
  }

  lemma NoneTold(f: Frame, e: Event)
    requires e.Attempt? && |e.answers| == |e.scopes| && forall i: nat :: !AttemptIn(f, e, i)
    ensures forall i | 0 <= i < |e.scopes| && OnKey(f, e.scopes[i]) :: e.answers[i].ends != f.end
  {
    forall i | 0 <= i < |e.scopes| && OnKey(f, e.scopes[i])
      ensures e.answers[i].ends != f.end
    {
      assert !AttemptIn(f, e, i);
    }
  }

  /** A check that is not told the window holds nothing in it. */
  lemma GrantedNothing(f: Frame, b: Books, scopes: seq<Scope>, bound: money, bounded: bool, answers: seq<StoreAnswer>)
    requires Conserved(b.ledger, b.permits) && |answers| == |scopes| && DistinctKeys(scopes)
    requires forall i | 0 <= i < |scopes| && OnKey(f, scopes[i]) :: answers[i].ends != f.end
    ensures FrameAmount(f, ProbeScopes(b.ledger, scopes, bound, bounded, answers, |scopes|).holds) == 0
  {
    ProbeTally(b.ledger, scopes, bound, bounded, answers, |scopes|);
    var p := ProbeScopes(b.ledger, scopes, bound, bounded, answers, |scopes|);
    hide ProbeScopes, Conserved;
    forall j | 0 <= j < |p.holds|
      ensures !On(f, p.holds[j])
    {
      assert FromScope(p, scopes, bound, bounded, answers, |scopes|, p.holds[j]);
      var i :| 0 <= i < |scopes| && HoldFor(p, scopes, bound, bounded, answers, i, p.holds[j]);
      assert p.holds[j].ref.key == f.key ==> OnKey(f, scopes[i]);
    }
    NothingOn(f, p.holds);
  }

  lemma TotalPendingAppend(f: Frame, permits: seq<Permit>, p: Permit)
    ensures TotalPending(f, permits + [p]) == TotalPending(f, permits) + Pending(f, p)
  {
    assert (permits + [p])[..|permits|] == permits;
  }

  lemma FinishExposure(f: Frame, b: Books, e: Event, bound: money)
    requires Calendar(f.we, f.w) && Inv(f, b) && Lawful(b, e, f.we) && b.now == e.at && e.Finish? && Disciplined(f, b, e, bound)
    ensures Exposure(f, Next(b, e, f.we)) <= Exposure(f, b)
  {
    var p := b.permits[e.permit];
    TotalPendingUpdate(f, b.permits, e.permit, FinishedPermit(p, e.complete, e.invalid));
    assert SoundPermit(f, p);
    if IsDebited(p, e.actual) {
      DebitIn(f, b.m, b.now, p.scopes, e.actual.value, |p.scopes|, e.at);
    }
    hide Conserved, Stamped, Calendar, DebitAll, FrameAmount, TotalPending;
  }

  lemma SettleExposure(f: Frame, b: Books, e: Event, bound: money)
    requires Calendar(f.we, f.w) && Inv(f, b) && Lawful(b, e, f.we) && Fixed(f, e) && b.now == e.at && e.Settle? && Disciplined(f, b, e, bound)
    ensures Exposure(f, Next(b, e, f.we)) <= Exposure(f, b)
  {
    DebitIn(f, b.m, b.now, e.scopes, e.cost, |e.scopes|, e.at);
    hide Conserved, Stamped, Calendar, DebitAll, TotalPending;
  }

  lemma ExposureNext(f: Frame, b: Books, e: Event, bound: money)
    requires Calendar(f.we, f.w) && Inv(f, b) && Lawful(b, e, f.we) && Fixed(f, e)
    requires Disciplined(f, b, e, bound) && Exposure(f, b) < f.limit + bound
    ensures Exposure(f, Next(b, e, f.we)) < f.limit + bound
  {
    Later(f, b, e.at);
    var c := b.(now := e.at);
    assert Next(b, e, f.we) == Next(c, e, f.we) && Lawful(c, e, f.we) && Disciplined(f, c, e, bound);
    hide Inv, Next, Calendar, Lawful, Fixed, Disciplined;
    match e
    case Attempt(_, _, _, _, _) => AttemptExposure(f, c, e, bound);
    case Finish(_, _, _, _, _) => FinishExposure(f, c, e, bound);
    case Settle(_, _, _) => SettleExposure(f, c, e, bound);
  }

  /**
   For every counter in every one of its windows: spend plus the holds of unfinished attempts stays below the
   limit plus the largest attempt bound, for any number of overlapping attempts that cost no more than their
   hold, whatever happens on other counters and in other windows.
   */
  lemma {:induction false} OneAttemptOvershoot(f: Frame, start: Time, events: seq<Event>, bound: money)
    requires Calendar(f.we, f.w) && Run(start, events, f.we) && AllFixed(f, events) && 0 < f.limit
    requires AllDisciplined(f, start, events, bound)
    ensures Exposure(f, After(start, events, f.we)) < f.limit + bound
    decreases |events|
  {
    if events != [] {
      var n := |events| - 1;
      var before := events[..n];
      RunPrefix(start, events, f.we, n);
      DisciplinedPrefix(f, start, events, bound, n);
      LastEvent(f, start, events, bound);
      hide AllDisciplined, Run, AllFixed, Inv, Next, Calendar, Lawful, Disciplined, Fixed, Exposure;
      FixedPrefix(f, events, n);
      OneAttemptOvershoot(f, start, before, bound);
      InvAfter(f, start, before);
      ExposureNext(f, After(start, before, f.we), events[n], bound);
    }
  }

  lemma FixedPrefix(f: Frame, events: seq<Event>, n: nat)
    requires AllFixed(f, events) && n <= |events|
    ensures AllFixed(f, events[..n])
  {
  }

  lemma DisciplinedPrefix(f: Frame, start: Time, events: seq<Event>, bound: money, n: nat)
    requires AllDisciplined(f, start, events, bound) && n <= |events|
    ensures AllDisciplined(f, start, events[..n], bound)
  {
    hide Disciplined, After;
    assert forall i | 0 <= i < n :: events[..n][..i] == events[..i] && events[..n][i] == events[i];
  }

  lemma LastEvent(f: Frame, start: Time, events: seq<Event>, bound: money)
    requires Run(start, events, f.we) && AllFixed(f, events) && AllDisciplined(f, start, events, bound) && events != []
    ensures var n := |events| - 1;
            Lawful(After(start, events[..n], f.we), events[n], f.we) && Fixed(f, events[n])
            && Disciplined(f, After(start, events[..n], f.we), events[n], bound)
  {
    hide Lawful, Fixed, Disciplined, After;
  }

  lemma {:induction false} FrameAmountAtLeast(f: Frame, holds: seq<Hold>, i: nat)
    requires i < |holds| && On(f, holds[i])
    ensures holds[i].amount <= FrameAmount(f, holds)
    decreases |holds|
  {
    if i < |holds| - 1 {
      FrameAmountAtLeast(f, holds[..|holds| - 1], i);
    }
  }

  /** A passed bounded check holds the bound on a hard scope that is on the counter in the window. */
  lemma HoldsTheBound(f: Frame, b: Books, scopes: seq<Scope>, bound: money, answers: seq<StoreAnswer>, i: nat)
    requires WellFormed(b.ledger) && i < |scopes| == |answers| && DistinctKeys(scopes)
    requires ProbeScopes(b.ledger, scopes, bound, true, answers, |scopes|).ok && scopes[i].hard && OnKey(f, scopes[i]) && answers[i].ends == f.end
    ensures bound <= FrameAmount(f, ProbeScopes(b.ledger, scopes, bound, true, answers, |scopes|).holds)
  {
    var p := ProbeScopes(b.ledger, scopes, bound, true, answers, |scopes|);
    ProbeTally(b.ledger, scopes, bound, true, answers, |scopes|);
    hide ProbeScopes, WellFormed, DistinctKeys, FromScope;
    assert HasHold(p, scopes, bound, true, answers, i);
    var h :| h in p.holds && HoldFor(p, scopes, bound, true, answers, i, h);
    var j :| 0 <= j < |p.holds| && p.holds[j] == h;
    if On(f, h) {
      FrameAmountAtLeast(f, p.holds, j);
    }
  }

  // ---- Unbounded attempts exclude others ---------------------------------------------------

  /** Permit i is unreleased and holds everything the counter had left in the window when it was reserved. */
  ghost predicate HoldsTheRest(f: Frame, b: Books, i: nat) {
    && i < |b.permits| && !b.permits[i].released
    && exists h | h in b.permits[i].holds :: On(f, h) && f.limit - SpentIn(f, b.m) <= h.amount
  }

  /** The object that such a permit holds on refuses: it owes at least all that is left, or is frozen. */
  lemma RestRefuses(f: Frame, b: Books, i: nat, a: StoreAnswer)
    requires Inv(f, b) && b.now < f.end && HoldsTheRest(f, b, i) && (a.decision == Allow ==> a.spent == SpentIn(f, b.m))
    ensures !Admits(StateFor(b.ledger, f.key, f.end), f.limit, a)
  {
    var p := b.permits[i];
    var h :| h in p.holds && On(f, h) && f.limit - SpentIn(f, b.m) <= h.amount;
    assert Anchored(f, b.ledger, p, b.now);
    var k :| 0 <= k < |p.holds| && p.holds[k] == h;
    AmountOnPresent(p.holds, k);
    TotalOwedAtLeast(b.permits, i, h.ref);
    assert Balanced(b.ledger.heap[h.ref], TotalOwed(b.permits, h.ref));
    hide TotalOwed, AmountOn;
  }

  /** While such a permit is unreleased, no attempt with a hard scope on the counter in the window is admitted. */
  lemma RestExcludes(f: Frame, b: Books, i: nat, e: Event, j: nat)
    requires Calendar(f.we, f.w) && Inv(f, b) && Lawful(b, e, f.we) && Fixed(f, e) && b.now == e.at
    requires HoldsTheRest(f, b, i) && AttemptIn(f, e, j) && e.scopes[j].hard
    ensures !Reserve(b.ledger, e.scopes, e.bound, e.bounded, e.answers, e.at).Granted?
  {
    InWindow(f, b, e, j);
    hide Inv, Calendar, Lawful, Fixed, Reserve, StateFor, StartOf;
    if Reserve(b.ledger, e.scopes, e.bound, e.bounded, e.answers, e.at).Granted? {
      AdmittedInWindow(f, b, e, j);
      RestRefuses(f, b.(ledger := StartOf(b.ledger, e.scopes, e.at)), i, e.answers[j]);
    }
  }

  /** The counter's spend only grows inside the window. */
  lemma SpentGrows(f: Frame, b: Books, e: Event)
    requires Calendar(f.we, f.w) && Inv(f, b) && Lawful(b, e, f.we) && Fixed(f, e) && e.at < f.end
    ensures SpentIn(f, b.m) <= SpentIn(f, Next(b, e, f.we).m)
  {
    hide Conserved, Calendar, DebitAll, SpentIn;
    match e
    case Attempt(_, _, _, _, _) =>
    case Finish(t, i, actual, _, _) =>
      var p := b.permits[i];
      assert SoundPermit(f, p);
      if IsDebited(p, actual) {
        DebitIn(f, b.m, b.now, p.scopes, actual.value, |p.scopes|, t);
      }
    case Settle(t, scopes, cost) => DebitIn(f, b.m, b.now, scopes, cost, |scopes|, t);
  }

  lemma PermitKept(b: Books, e: Event, we: WindowEnd, i: nat)
    requires i < |b.permits|
    ensures i < |Next(b, e, we).permits| && Next(b, e, we).permits[i].holds == b.permits[i].holds
    ensures b.permits[i].released && b.permits[i].finished ==> Next(b, e, we).permits[i].released
  {
    hide Reserve, DebitAll, FinishedLedger;
  }

  lemma RestIsKept(f: Frame, b: Books, i: nat, e: Event)
    requires Calendar(f.we, f.w) && Inv(f, b) && Lawful(b, e, f.we) && Fixed(f, e) && e.at < f.end && HoldsTheRest(f, b, i)
    requires !Next(b, e, f.we).permits[i].released
    ensures HoldsTheRest(f, Next(b, e, f.we), i)
  {
    SpentGrows(f, b, e);
    PermitKept(b, e, f.we, i);
    hide Inv, Calendar, Lawful, Fixed, Next, SpentIn;
    var h :| h in b.permits[i].holds && On(f, h) && f.limit - SpentIn(f, b.m) <= h.amount;
    assert h in Next(b, e, f.we).permits[i].holds;
  }

  /** A passed unbounded check holds, for each hard scope, all that the scope has left. */
  lemma ProbeTakesTheRest(l: Ledger, scopes: seq<Scope>, bound: money, answers: seq<StoreAnswer>, j: nat)
    requires j < |scopes| == |answers| && WellFormed(l) && DistinctKeys(scopes) && scopes[j].hard
    requires ProbeScopes(l, scopes, bound, false, answers, |scopes|).ok
    ensures exists h | h in ProbeScopes(l, scopes, bound, false, answers, |scopes|).holds ::
              h.ref.key == scopes[j].key && h.ref.ends == answers[j].ends && h.amount == scopes[j].limit - answers[j].spent && 0 < h.amount
  {
    var p := ProbeScopes(l, scopes, bound, false, answers, |scopes|);
    ProbeDecision(l, scopes, bound, false, answers, |scopes|);
    ProbeTally(l, scopes, bound, false, answers, |scopes|);
    hide ProbeScopes, StateFor, FromScope, WellFormed, DistinctKeys;
    assert HasHold(p, scopes, bound, false, answers, j);
    assert Admits(StateFor(l, scopes[j].key, answers[j].ends), scopes[j].limit, answers[j]);
    var h :| h in p.holds && HoldFor(p, scopes, bound, false, answers, j, h);
  }

  /** An unbounded admission takes all that is left on each of its hard scopes. */
  lemma UnboundedTakesTheRest(f: Frame, b: Books, e: Event, j: nat)
    requires Calendar(f.we, f.w) && Inv(f, b) && Lawful(b, e, f.we) && Fixed(f, e) && b.now == e.at
    requires AttemptIn(f, e, j) && e.scopes[j].hard && !e.bounded
    requires Reserve(b.ledger, e.scopes, e.bound, e.bounded, e.answers, e.at).Granted?
    ensures HoldsTheRest(f, Next(b, e, f.we), |b.permits|)
  {
    AdmittedInWindow(f, b, e, j);
    GrantedPermit(b, e, f.we);
    StartInv(f, b, e.scopes);
    var start := StartOf(b.ledger, e.scopes, e.at);
    assert WellFormed(start);
    hide Inv, Calendar, HeardAll, WellFormed, DistinctKeys, Reserve, Next, StartOf, Admits, StateFor, SpentIn, ProbeScopes;
    ProbeTakesTheRest(start, e.scopes, e.bound, e.answers, j);
    var p := ProbeScopes(start, e.scopes, e.bound, e.bounded, e.answers, |e.scopes|);
    var h :| h in p.holds && h.ref.key == e.scopes[j].key && h.ref.ends == e.answers[j].ends
             && h.amount == e.scopes[j].limit - e.answers[j].spent && 0 < h.amount;
    assert h in Next(b, e, f.we).permits[|b.permits|].holds;
  }

  /** Event at is an admitted attempt without a finite bound, whose j-th scope is hard and on the counter in the window. */
  ghost predicate AdmittedUnbounded(f: Frame, start: Time, events: seq<Event>, at: nat, j: nat)
    requires at < |events|
  {
    var e := events[at];
    && AttemptIn(f, e, j) && !e.bounded && e.scopes[j].hard && |e.answers| == |e.scopes|
    && Reserve(After(start, events[..at], f.we).ledger, e.scopes, e.bound, e.bounded, e.answers, e.at).Granted?
  }

  /** The permit that the attempt at event at was given. */
  function PermitOf(f: Frame, start: Time, events: seq<Event>, at: nat): nat
    requires at < |events|
  {
    |After(start, events[..at], f.we).permits|
  }

  ghost predicate Unreleased(b: Books, i: nat) {
    i < |b.permits| && !b.permits[i].released
  }

  lemma RunStep(f: Frame, start: Time, events: seq<Event>, n: nat)
    requires Calendar(f.we, f.w) && Run(start, events, f.we) && AllFixed(f, events) && n < |events|
    ensures var b := After(start, events[..n], f.we);
            && Inv(f, b.(now := events[n].at)) && Lawful(b.(now := events[n].at), events[n], f.we) && Fixed(f, events[n])
            && After(start, events[..n + 1], f.we) == Next(b.(now := events[n].at), events[n], f.we)
            && b.now <= events[n].at && After(start, events[..n + 1], f.we).now == events[n].at
  {
    assert events[..n + 1][..n] == events[..n];
    RunPrefix(start, events, f.we, n);
    FixedPrefix(f, events, n);
    InvAfter(f, start, events[..n]);
    assert Lawful(After(start, events[..n], f.we), events[n], f.we);
    hide Inv, Calendar, Run;
    Later(f, After(start, events[..n], f.we), events[n].at);
  }

  lemma {:induction false} PermitsGrow(f: Frame, start: Time, events: seq<Event>, m: nat, n: nat)
    requires m <= n <= |events|
    ensures |After(start, events[..m], f.we).permits| <= |After(start, events[..n], f.we).permits|
    decreases n
  {
    if m < n {
      assert events[..n][..n - 1] == events[..n - 1];
      PermitsGrow(f, start, events, m, n - 1);
      hide Reserve, DebitAll, FinishedLedger;
    }
  }

  /** A released permit stays released, so an unreleased one was unreleased all along. */
  lemma {:induction false} RestFrom(f: Frame, start: Time, events: seq<Event>, at: nat, j: nat, n: nat)
    requires Calendar(f.we, f.w) && Run(start, events, f.we) && AllFixed(f, events)
    requires at < n <= |events| && AdmittedUnbounded(f, start, events, at, j)
    requires After(start, events[..n], f.we).now < f.end && Unreleased(After(start, events[..n], f.we), PermitOf(f, start, events, at))
    ensures HoldsTheRest(f, After(start, events[..n], f.we), PermitOf(f, start, events, at))
    decreases n
  {
    hide Calendar, Run, AllFixed, Inv, Lawful, Fixed, HoldsTheRest, Next, After;
    RunStep(f, start, events, n - 1);
    var b := After(start, events[..n - 1], f.we).(now := events[n - 1].at);
    if n == at + 1 {
      UnboundedTakesTheRest(f, b, events[at], j);
    } else {
      var i := PermitOf(f, start, events, at);
      RunStep(f, start, events, at);
      PermitsGrow(f, start, events, at + 1, n - 1);
      AttemptGrows(f, start, events, at, j);
      PermitKept(b, events[n - 1], f.we, i);
      ReleasedStays(f, b, i);
      RestFrom(f, start, events, at, j, n - 1);
      RestNow(f, After(start, events[..n - 1], f.we), events[n - 1].at, i);
      RestIsKept(f, b, i, events[n - 1]);
    }
  }

  lemma AttemptGrows(f: Frame, start: Time, events: seq<Event>, at: nat, j: nat)
    requires at < |events| && AdmittedUnbounded(f, start, events, at, j)
    ensures |After(start, events[..at + 1], f.we).permits| == PermitOf(f, start, events, at) + 1
  {
    assert events[..at + 1][..at] == events[..at];
    GrantedPermit(After(start, events[..at], f.we), events[at], f.we);
    hide Next, Reserve;
  }

  lemma ReleasedStays(f: Frame, b: Books, i: nat)
    requires Inv(f, b) && i < |b.permits|
    ensures b.permits[i].released ==> b.permits[i].finished
  {
    assert SoundPermit(f, b.permits[i]);
  }

  lemma RestNow(f: Frame, b: Books, t: Time, i: nat)
    requires HoldsTheRest(f, b, i)
    ensures HoldsTheRest(f, b.(now := t), i)
  {
  }

  /**
   After an attempt without a finite bound was admitted, no later attempt on any of its hard scopes is admitted
   in that window until its permit is released, whatever other attempts, counters and windows do meanwhile.
   */
  lemma UnboundedExcludesOthers(f: Frame, start: Time, events: seq<Event>, at: nat, j: nat, later: nat, k: nat)
    requires Calendar(f.we, f.w) && Run(start, events, f.we) && AllFixed(f, events)
    requires at < later < |events| && AdmittedUnbounded(f, start, events, at, j)
    requires Unreleased(After(start, events[..later], f.we), PermitOf(f, start, events, at))
    requires AttemptIn(f, events[later], k) && events[later].scopes[k].hard
    ensures After(start, events[..later + 1], f.we).permits == After(start, events[..later], f.we).permits
  {
    RunStep(f, start, events, later);
    var b := After(start, events[..later], f.we).(now := events[later].at);
    InWindow(f, b, events[later], k);
    hide Calendar, Run, AllFixed, Inv, Lawful, Fixed, HoldsTheRest, Next, After;
    RestFrom(f, start, events, at, j, later);
    RestNow(f, After(start, events[..later], f.we), events[later].at, PermitOf(f, start, events, at));
    RestExcludes(f, b, PermitOf(f, start, events, at), events[later], k);
    RefusedPermits(b, events[later], f.we);
  }

  lemma InWindow(f: Frame, b: Books, e: Event, k: nat)
    requires Calendar(f.we, f.w) && Inv(f, b) && Lawful(b, e, f.we) && Fixed(f, e) && b.now == e.at && AttemptIn(f, e, k)
    ensures e.at < f.end && |e.answers| == |e.scopes|
  {
    ToldTheWindow(f, b, e.scopes, e.answers, k);
    hide Heard, Conserved;
  }
}
