/**
 Malformed usage (internal/governance/local_money.go): once a permit is finished with usage that cannot be
 trusted, every counter it holds on is closed until its window ends, whatever happens meanwhile.
 */
module LocalMoneyFreeze {
  import opened Basics
  import opened Int64s
  import opened BudgetStore
  import opened BudgetHistory
  import opened LocalMoney
  import opened LocalMoneyRuns
  import opened LocalMoneyContract

  /** The object that the counter uses in the window is frozen. */
  ghost predicate Frozen(f: Frame, l: Ledger) {
    f.key in l.cur && l.cur[f.key] in l.heap && l.cur[f.key].ends == f.end && l.heap[l.cur[f.key]].frozen
  }

  /** It is, and the window has begun. */
  ghost predicate Closed(f: Frame, b: Books) {
    Frozen(f, b.ledger) && f.we(b.now, f.w) == f.end
  }

  // ---- Closing ------------------------------------------------------------------------

  /** Permit i holds on the counter in the window: a positive amount, or none but on the object in use. */
  ghost predicate HoldsHere(f: Frame, b: Books, i: nat, t: Time)
    requires i < |b.permits|
  {
    exists h | h in b.permits[i].holds ::
      && h.ref.key == f.key && h.ref.ends == f.end
      && (0 < h.amount || (f.key in b.ledger.cur && b.ledger.cur[f.key] == h.ref && f.we(t, f.w) == f.end))
  }

  /** The hold is on the object in use, and the window has begun. */
  lemma HeldInUse(f: Frame, b: Books, i: nat, t: Time) returns (j: nat)
    requires Inv(f, b) && b.now == t < f.end && i < |b.permits| && !b.permits[i].finished && HoldsHere(f, b, i, t)
    ensures j < |b.permits[i].holds| && HoldsIn(b.permits[i].holds, b.ledger.heap)
    ensures f.key in b.ledger.cur && b.ledger.cur[f.key] == b.permits[i].holds[j].ref && b.ledger.cur[f.key].ends == f.end
    ensures f.we(t, f.w) == f.end
  {
    var p := b.permits[i];
    assert SoundPermit(f, p) && Anchored(f, b.ledger, p, b.now);
    var h :| h in p.holds && h.ref.key == f.key && h.ref.ends == f.end
             && (0 < h.amount || (f.key in b.ledger.cur && b.ledger.cur[f.key] == h.ref && f.we(t, f.w) == f.end));
    j :| 0 <= j < |p.holds| && p.holds[j] == h;
    assert 0 < h.amount ==> On(f, h);
  }

  lemma MalformedFreezes(f: Frame, b: Books, e: Event)
    requires Calendar(f.we, f.w) && Inv(f, b) && b.now == e.at < f.end && e.Finish? && e.invalid && e.permit < |b.permits|
    requires !b.permits[e.permit].finished && HoldsHere(f, b, e.permit, e.at)
    ensures Closed(f, Next(b, e, f.we))
  {
    var j := HeldInUse(f, b, e.permit, e.at);
    hide Inv, HoldsIn, HoldsHere, FinishedLedger, DebitAll;
    FinishMeans(b.ledger, b.permits[e.permit], e.complete, e.invalid);
  }

  // ---- Staying closed -----------------------------------------------------------------

  lemma CleanedStaysFrozen(f: Frame, l: Ledger, scopes: seq<Scope>, t: Time)
    requires WellFormed(l) && Frozen(f, l) && t < f.end
    ensures Frozen(f, StartOf(l, scopes, t))
  {
  }

  /** A check, and what it is granted, leave the object frozen and in use. */
  lemma ReserveStaysFrozen(f: Frame, b: Books, e: Event)
    requires Calendar(f.we, f.w) && Inv(f, b) && Lawful(b, e, f.we) && Fixed(f, e) && b.now == e.at < f.end && e.Attempt?
    requires Closed(f, b)
    ensures Frozen(f, Next(b, e, f.we).ledger)
  {
    forall i | 0 <= i < |e.scopes| && OnKey(f, e.scopes[i])
      ensures e.answers[i].ends == f.end
    {
      ToldTheWindow(f, b, e.scopes, e.answers, i);
    }
    StartInv(f, b, e.scopes);
    CleanedStaysFrozen(f, b.ledger, e.scopes, e.at);
    var start := StartOf(b.ledger, e.scopes, e.at);
    assert Conserved(start, b.permits);
    hide Inv, Calendar, HeardAll, Conserved, DistinctKeys, ProbeScopes, AddHolds, Cleaned, Stamped;
    if e.scopes != [] && 0 <= e.bound {
      ProbeConserved(start, b.permits, e.scopes, e.bound, e.bounded, e.answers, |e.scopes|);
      ProbeKeepsObject(f, start, e.scopes, e.bound, e.bounded, e.answers, |e.scopes|);
      ProbeFresh(start, b.permits, e.scopes, e.bound, e.bounded, e.answers, |e.scopes|);
      var p := ProbeScopes(start, e.scopes, e.bound, e.bounded, e.answers, |e.scopes|);
      assert Frozen(f, p.ledger);
      AddHoldsStayFrozen(p.ledger.heap, p.holds, p.ledger.cur[f.key]);
    }
  }

  lemma AddHoldsStayFrozen(heap: map<Ref, MoneyState>, holds: seq<Hold>, r: Ref)
    requires r in heap && heap[r].frozen && DistinctRefs(holds)
    ensures r in AddHolds(heap, holds, |holds|) && AddHolds(heap, holds, |holds|)[r].frozen
  {
    AddHoldsAt(heap, holds, |holds|, r);
    hide AddHolds;
    if i :| 0 <= i < |holds| && holds[i].ref == r {
      assert AddHolds(heap, holds, |holds|)[r] == AddHold(heap[r], holds[i].amount);
    }
  }

  lemma FinishStaysFrozen(f: Frame, b: Books, e: Event)
    requires Inv(f, b) && e.Finish? && e.permit < |b.permits| && Frozen(f, b.ledger)
    ensures Frozen(f, Next(b, e, f.we).ledger)
  {
    var p := b.permits[e.permit];
    if !p.finished {
      assert HoldsIn(p.holds, b.ledger.heap);
      FinishMeans(b.ledger, p, e.complete, e.invalid);
      hide SettleHolds, DebitAll, Inv;
    }
  }

  lemma StaysClosed(f: Frame, b: Books, e: Event)
    requires Calendar(f.we, f.w) && Inv(f, b) && Lawful(b, e, f.we) && Fixed(f, e) && b.now == e.at < f.end && Closed(f, b)
    ensures Closed(f, Next(b, e, f.we))
  {
    match e
    case Attempt(_, _, _, _, _) => ReserveStaysFrozen(f, b, e);
    case Finish(_, _, _, _, _) => FinishStaysFrozen(f, b, e);
    case Settle(_, _, _) =>
  }

  lemma ClosedLater(f: Frame, b: Books, t: Time)
    requires Calendar(f.we, f.w) && Closed(f, b) && b.now <= t < f.end
    ensures Closed(f, b.(now := t))
  {
  }

  /** No attempt with a hard scope on a closed counter is granted. */
  lemma ClosedRefuses(f: Frame, b: Books, e: Event, k: nat)
    requires Calendar(f.we, f.w) && Inv(f, b) && Lawful(b, e, f.we) && Fixed(f, e) && b.now == e.at < f.end && Closed(f, b)
    requires e.Attempt? && k < |e.scopes| && e.scopes[k].hard && OnKey(f, e.scopes[k])
    ensures Next(b, e, f.we).permits == b.permits
  {
    ToldTheWindow(f, b, e.scopes, e.answers, k);
    CleanedStaysFrozen(f, b.ledger, e.scopes, e.at);
    hide Inv, Calendar, Lawful, Fixed, Reserve, StartOf, Next;
    if Reserve(b.ledger, e.scopes, e.bound, e.bounded, e.answers, e.at).Granted? {
      AdmittedInWindow(f, b, e, k);
    }
    RefusedPermits(b, e, f.we);
  }

  // ---- The promise ------------------------------------------------------------------------

  /** Event at is the first finish of a permit on the counter in the window, with usage that cannot be trusted. */
  ghost predicate MalformedAt(f: Frame, start: Time, events: seq<Event>, at: nat)
    requires at < |events|
  {
    var b, e := After(start, events[..at], f.we), events[at];
    && e.Finish? && e.invalid && e.at < f.end && e.permit < |b.permits| && !b.permits[e.permit].finished
    && HoldsHere(f, b.(now := e.at), e.permit, e.at)
  }

  lemma ClosedByThen(f: Frame, start: Time, events: seq<Event>, at: nat)
    requires Calendar(f.we, f.w) && Run(start, events, f.we) && AllFixed(f, events) && at < |events| && MalformedAt(f, start, events, at)
    ensures Closed(f, After(start, events[..at + 1], f.we))
  {
    RunStep(f, start, events, at);
    hide Calendar, Run, AllFixed, Inv, Lawful, Fixed, Next, After, Closed, HoldsHere;
    MalformedFreezes(f, After(start, events[..at], f.we).(now := events[at].at), events[at]);
  }

  lemma {:induction false} ClosedFrom(f: Frame, start: Time, events: seq<Event>, at: nat, n: nat)
    requires Calendar(f.we, f.w) && Run(start, events, f.we) && AllFixed(f, events)
    requires at < n <= |events| && MalformedAt(f, start, events, at) && After(start, events[..n], f.we).now < f.end
    ensures Closed(f, After(start, events[..n], f.we))
    decreases n
  {
    hide Calendar, Run, AllFixed, Inv, Lawful, Fixed, Next, After, Closed, MalformedAt;
    if n == at + 1 {
      ClosedByThen(f, start, events, at);
    } else {
      RunStep(f, start, events, n - 1);
      ClosedFrom(f, start, events, at, n - 1);
      ClosedLater(f, After(start, events[..n - 1], f.we), events[n - 1].at);
      StaysClosed(f, After(start, events[..n - 1], f.we).(now := events[n - 1].at), events[n - 1]);
    }
  }

  /**
   After malformed usage on a permit that holds on a counter, no later attempt with a hard scope on that counter
   is granted before the window ends, whatever finishes, attempts and cleanups happen meanwhile.
   */
  lemma MalformedUsageCloses(f: Frame, start: Time, events: seq<Event>, at: nat, later: nat, k: nat)
    requires Calendar(f.we, f.w) && Run(start, events, f.we) && AllFixed(f, events)
    requires at < later < |events| && MalformedAt(f, start, events, at)
    requires var e := events[later]; e.Attempt? && e.at < f.end && k < |e.scopes| && e.scopes[k].hard && OnKey(f, e.scopes[k])
    ensures After(start, events[..later + 1], f.we).permits == After(start, events[..later], f.we).permits
  {
    RunStep(f, start, events, later);
    hide Calendar, Run, AllFixed, Inv, Lawful, Fixed, Next, After, Closed, MalformedAt;
    ClosedFrom(f, start, events, at, later);
    ClosedLater(f, After(start, events[..later], f.we), events[later].at);
    ClosedRefuses(f, After(start, events[..later], f.we).(now := events[later].at), events[later], k);
  }
}
