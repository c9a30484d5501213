/** The handle of one admitted request and its rate reservations (internal/governance/admission.go). */
module Admissions {
  import opened Basics
  import opened Int64s
  import opened BudgetKeys

  /** A pinned token-rate reservation; finishes records every finalising call made on it. */
  class RateReservation {
    var finishes: seq<Option<int64>>

    constructor ()
      ensures finishes == []
    {
      finishes := [];
    }

    method Finish(actual: Option<int64>)
      modifies this
      ensures finishes == old(finishes) + [actual]
    {
      finishes := finishes + [actual];
    }
  }

  class Admission {
    const estimate: int64
    var once: bool
    var rates: seq<RateReservation>
    var cost: int64
    var missing: bool
    var moneyOwned: bool
    var dispatched: bool
    /** What the reservations were finished with, once they were. */
    ghost var outcome: Option<int64>

    /** Until the once fires no reservation is finished; afterwards each was finished exactly once. */
    ghost predicate Valid()
      reads this, rates
    {
      && (forall i, j | 0 <= i < j < |rates| :: rates[i] != rates[j])
      && forall i | 0 <= i < |rates| :: rates[i].finishes == if once then [outcome] else []
    }

    constructor (estimate: int64)
      ensures Valid() && !once && rates == [] && !moneyOwned && !dispatched && this.estimate == estimate
    {
      this.estimate := estimate;
      once, rates, cost, missing, moneyOwned, dispatched := false, [], 0, true, false, false;
      outcome := None;
    }

    /** Captures a reservation that PreCheck was granted. */
    method Capture(r: RateReservation)
      requires Valid() && !once && r !in rates && r.finishes == []
      modifies this`rates
      ensures Valid() && rates == old(rates) + [r]
    {
      rates := rates + [r];
    }

    method FinishRates(actual: Option<int64>)
      requires Valid() && !once
      modifies rates
      ensures forall i | 0 <= i < |rates| :: rates[i].finishes == [actual]
    {
      var i := 0;
      while i < |rates|
        invariant 0 <= i <= |rates|
        invariant forall j | 0 <= j < |rates| :: rates[j].finishes == if j < i then [actual] else []
      {
        rates[i].Finish(actual);
        i := i + 1;
      }
    }

    /** Runs the finishers unless they already ran. */
    method FinishOnce(actual: Option<int64>)
      requires Valid()
      modifies this`once, this`outcome, rates
      ensures Valid() && once
      ensures outcome == if old(once) then old(outcome) else actual
      ensures old(once) ==> forall r | r in rates :: r.finishes == old(r.finishes)
    {
      if !once {
        FinishRates(actual);
        once, outcome := true, actual;
      }
    }

    method Close()
      requires Valid()
      modifies this`once, this`outcome, rates
      ensures Valid() && once && outcome == if old(once) then old(outcome) else None
    {
      FinishOnce(None);
    }

    method Cancel()
      requires Valid()
      modifies this`once, this`outcome, rates
      ensures Valid() && once && outcome == if old(once) then old(outcome) else Some(0)
    {
      FinishOnce(Some(0));
    }

    method OwnLocalMoney()
      modifies this`moneyOwned
      ensures moneyOwned
    {
      moneyOwned := true;
    }

    method MarkDispatched()
      modifies this`dispatched
      ensures dispatched
    {
      dispatched := true;
    }

    /** After dispatch it changes nothing. */
    method CancelUndispatched()
      requires Valid()
      modifies this`once, this`outcome, rates
      ensures Valid()
      ensures once == (old(once) || !dispatched)
      ensures outcome == if old(once) || dispatched then old(outcome) else Some(0)
      ensures dispatched ==> forall r | r in rates :: r.finishes == old(r.finishes)
    {
      if !dispatched {
        Cancel();
      }
    }
  }
}
